# Accumulator registry and AccumulationStatement

A Dafny model of the accumulator registry and the `AccumulationStatement` record of
MongoDB's aggregation pipeline (`src/mongo/db/pipeline/accumulation_statement.h`).
In a `$group` stage every output field is computed by an accumulator such as `$sum` or `$avg`.
Each accumulator implementation registers a factory under its operator name at process
startup. It does so through the `REGISTER_ACCUMULATOR(key, factory)` macro, which registers
under `"$"` followed by `key`. The parser looks a name up with `getFactory` and builds an
`AccumulationStatement`: output field name, input expression and factory. At execution time,
`makeAccumulator(expCtx)` builds an accumulator from the stored factory.

The file is a header only. The model follows what the header declares and documents.

Modules:

- `Results` (`results.dfy`): the `Result` type that replaces the C++ exception, the
  `UnknownOperator(name)` error, and the initializer `Status`.
- `AccumulatorRegistry` (`registry.dfy`): the registry is an immutable value
  `FactoryMap(factories: map<string, C -> A>)`, not a global. `RegisterAccumulator` returns
  the extended registry and `GetFactory` returns `Ok(factory)` or `Err(UnknownOperator(name))`.
  Factories are opaque total functions from an expression context `C` to an accumulator `A`.
- `RegistrationMacro` (`registration_macro.dfy`): the macro's name rule and the initializer
  it defines. `RegisterAll` is the startup sequence made of many macro uses, run one after
  another. The model proves that the resulting registry does not depend on their order.
- `Statements` (`accumulation_statement.dfy`): the statement value, its constructor and
  `makeAccumulator`.

The macro's `key` argument is stringized (`#key`) and also pasted into the initializer name
`addToAccumulatorFactoryMap_##key`. The model therefore requires keys to be made of identifier
characters (`IsMacroKey`). The argument may be empty, and then the macro registers `"$"`.

## Model

| member | source | states |
|---|---|---|
| AccumulatorRegistry.RegisterAccumulator | src/mongo/db/pipeline/accumulation_statement.h:80-88 | registering a fresh name adds exactly that name, bound to the given factory, and keeps every existing binding |
| AccumulatorRegistry.GetFactory | src/mongo/db/pipeline/accumulation_statement.h:90-94 | the lookup succeeds if and only if the name is registered, returns the registered factory, and otherwise fails with an error naming the operator |
| AccumulatorRegistry.GetAfterRegister | src/mongo/db/pipeline/accumulation_statement.h:80-94 | after `n` is registered with `f`, looking up `n` yields `f` |
| AccumulatorRegistry.RegisterLeavesOthersUnchanged | src/mongo/db/pipeline/accumulation_statement.h:80-94 | registering `n` leaves the lookup result of every other name unchanged, errors included |
| AccumulatorRegistry.GetUnregisteredFails | src/mongo/db/pipeline/accumulation_statement.h:90-94 | a name that was never registered yields the unknown-operator error, never a factory |
| AccumulatorRegistry.GetFromEmptyFails | src/mongo/db/pipeline/accumulation_statement.h:90-94 | before any registration, every lookup fails |
| AccumulatorRegistry.LookupDeterminesRegistry | src/mongo/db/pipeline/accumulation_statement.h:90-94 | two registries that answer every getFactory call alike are equal, so lookup is the whole observable state |
| RegistrationMacro.OperatorName | src/mongo/db/pipeline/accumulation_statement.h:47-49 | the name the macro registers is one character longer than the key, begins with `$`, and gives the key back when the `$` is removed |
| RegistrationMacro.InitializerName | src/mongo/db/pipeline/accumulation_statement.h:48 | the initializer name is the fixed prefix `addToAccumulatorFactoryMap_` followed by the key, and the key can be recovered from it |
| RegistrationMacro.SameOperatorNameIffSameInitializer | src/mongo/db/pipeline/accumulation_statement.h:47-49 | two macro uses give the same operator name if and only if they have the same key, which happens if and only if they define the same initializer |
| RegistrationMacro.RunInitializer | src/mongo/db/pipeline/accumulation_statement.h:47-51 | the generated initializer registers the factory under `$` followed by the key, leaves every other name's lookup unchanged, and always reports `Status::OK()` |
| RegistrationMacro.RegisterAll | src/mongo/db/pipeline/accumulation_statement.h:39-51 | after a startup sequence of macro uses, the registry holds exactly the earlier names plus `$key` for each use, each use's name maps to its own factory, and earlier bindings are kept |
| RegistrationMacro.StartupOrderIrrelevant | src/mongo/db/pipeline/accumulation_statement.h:39-51 | two startup sequences made of the same macro uses, in any order, build the same registry |
| RegistrationMacro.LookupAfterStartup | src/mongo/db/pipeline/accumulation_statement.h:39-46 | after startup, a lookup succeeds if and only if some macro use derived that name; every other name yields the unknown-operator error |
| RegistrationMacro.StartupNamesCarrySigil | src/mongo/db/pipeline/accumulation_statement.h:47-49 | every name that startup puts in the registry is `$` followed by a valid macro key, possibly the empty one |
| RegistrationMacro.BareKeyIsUnknown | src/mongo/db/pipeline/accumulation_statement.h:39-46 | looking up a registered key without its `$` fails: only `$key` is found during parsing |
| Statements.NewStatement | src/mongo/db/pipeline/accumulation_statement.h:62-67 | the constructor stores field name, expression and factory exactly as given, and the built statement's makeAccumulator agrees with the given factory on every context |
| Statements.MakeAccumulatorAppliesStoredFactory | src/mongo/db/pipeline/accumulation_statement.h:103-105 | makeAccumulator(ctx) on a constructed statement is the stored factory applied to ctx, and field name and expression stay as constructed |
| Statements.MakeAccumulatorUsesRegisteredFactory | src/mongo/db/pipeline/accumulation_statement.h:53-58 | a statement bound to the factory getFactory returned for a name builds, for every context, what the registered factory builds |

## Left out

- AccumulatorRegistry.RegisterAccumulator: requires the name to be fresh. The header does not say whether a second registration of a name overwrites the first or aborts, so the model asserts neither outcome.
- RegistrationMacro.RunInitializer: requires the derived `$key` to be fresh, for the same reason.
- RegistrationMacro.RegisterAll: requires distinct keys and fresh names, which is the duplicate case above. Assuming `MONGO_INITIALIZER` rejects two initializers with one name, a repeated key could not get this far anyway. That macro is not part of this model.
- `parseAccumulationStatement` (lines 69-78): only its declaration is visible. The document-shape checks, the operator lookup order and the choice of field name live in the implementation file, which is not part of this model. The same holds for BSON element parsing and the expression parser.
- The error code and message text `getFactory` raises are in the implementation file. The model keeps only the fact that it fails and the offending name.
- The `MONGO_INITIALIZER` dependency graph and static-initialization order are process bootstrap machinery. `RegisterAll` runs the initializers in list order instead, and `StartupOrderIrrelevant` shows that the choice of order does not matter.
- `boost::intrusive_ptr` reference counting and ownership: expressions, contexts and accumulators are plain values of opaque type parameters.
- Statements.MakeAccumulatorAppliesStoredFactory: does not state the freshness of each accumulator built by `makeAccumulator`, that is, distinct instances with independent state: object identity is outside a value model. Accumulator behaviour (process, merge, finalize) and the contents of `ExpressionContext` are left out too.
- Statements.NewStatement: the record exposes `factory` as a field, while the C++ class keeps `_factory` private (lines 107-109). Callers in the model reach it only through `MakeAccumulator` or the constructor's contract.
- In the C++ class, `fieldName` and `expression` are public non-const data members, so a holder can reassign them after construction. The model treats the statement as an immutable value and does not model such assignments.
- Thread-safety of the global map is a concurrency concern. The model is sequential.
- The convention that `registerAccumulator` is only called through the macro is not enforced. `RegisterAccumulator` accepts any fresh name. Only names that come through the macro are shown to start with `$`.
- RegistrationMacro.BareKeyIsUnknown: assumes keys use only the basic identifier characters (letters, digits, `_`). Some compilers also accept `$` in identifiers, and then the keys `foo` and `$foo` would make the bare key `$foo` a registered name.
