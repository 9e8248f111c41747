/** The process-wide map from accumulator operator name to factory, modelled as
    an immutable value: registering returns the new registry instead of mutating
    a global. A factory is an opaque total function from an expression context
    `C` to an accumulator `A`. */
module AccumulatorRegistry {
  import opened Results

  /** The registry state: operator name (such as "$sum") to factory. */
  datatype FactoryMap<!C, A> = FactoryMap(factories: map<string, C -> A>)

  /** The registry before any accumulator has registered itself. */
  function EmptyRegistry<C, A>(): (reg: FactoryMap<C, A>)
    ensures |reg.factories| == 0
  {
    FactoryMap(map[])
  }

  predicate IsRegistered<C, A>(reg: FactoryMap<C, A>, name: string) {
    name in reg.factories
  }

  /** registerAccumulator: adds `name` with `factory`. What happens when `name` is
      already present is not stated by the header, so the name must be fresh. */
  function RegisterAccumulator<C, A>(reg: FactoryMap<C, A>, name: string, factory: C -> A): (r: FactoryMap<C, A>)
    requires !IsRegistered(reg, name)
    ensures r.factories.Keys == reg.factories.Keys + {name}
    ensures r.factories[name] == factory
    ensures forall other :: other in reg.factories ==> r.factories[other] == reg.factories[other]
  {
    FactoryMap(reg.factories[name := factory])
  }

  /** getFactory: the factory registered under exactly `name`, or an error naming
      the operator when there is none. */
  function GetFactory<C, A>(reg: FactoryMap<C, A>, name: string): (r: Result<C -> A>)
    ensures r.Ok? <==> IsRegistered(reg, name)
    ensures r.Ok? ==> r.value == reg.factories[name]
    ensures r.Err? ==> r.error == UnknownOperator(name)
  {
    if name in reg.factories then Ok(reg.factories[name]) else Err(UnknownOperator(name))
  }

  /** After registering `name` with `factory`, looking `name` up yields `factory`. */
  lemma GetAfterRegister<C, A>(reg: FactoryMap<C, A>, name: string, factory: C -> A)
    requires !IsRegistered(reg, name)
    ensures GetFactory(RegisterAccumulator(reg, name, factory), name) == Ok(factory)
  {
  }

  /** Registering one name leaves the lookup of every other name as it was,
      including the error for names that are still unknown. */
  lemma RegisterLeavesOthersUnchanged<C, A>(reg: FactoryMap<C, A>, name: string, factory: C -> A, other: string)
    requires !IsRegistered(reg, name)
    requires other != name
    ensures GetFactory(RegisterAccumulator(reg, name, factory), other) == GetFactory(reg, other)
  {
  }

  /** A name that was never registered is reported as an unknown operator. */
  lemma GetUnregisteredFails<C, A>(reg: FactoryMap<C, A>, name: string)
    requires !IsRegistered(reg, name)
    ensures GetFactory(reg, name) == Err(UnknownOperator(name))
  {
  }

  /** Looking anything up in the empty registry fails. */
  lemma GetFromEmptyFails<C, A>(name: string)
    ensures GetFactory(EmptyRegistry<C, A>(), name) == Err(UnknownOperator(name))
  {
  }

  /** Two registries that answer every lookup alike are the same registry. */
  lemma LookupDeterminesRegistry<C, A>(x: FactoryMap<C, A>, y: FactoryMap<C, A>)
    requires forall name :: GetFactory(x, name) == GetFactory(y, name)
    ensures x == y
  {
    forall name | name in x.factories
      ensures name in y.factories && x.factories[name] == y.factories[name]
    {
      assert GetFactory(x, name) == GetFactory(y, name);
    }
    forall name | name in y.factories
      ensures name in x.factories
    {
      assert GetFactory(x, name) == GetFactory(y, name);
    }
  }
}
