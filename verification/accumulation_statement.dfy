/** AccumulationStatement: one user-specified accumulation in a grouping stage,
    binding the output field name, the input expression `E` and the factory of
    the chosen accumulator. The statement is an immutable value; the factory it
    holds is resolved once, when the statement is built. */
module Statements {
  import opened Results
  import opened AccumulatorRegistry

  datatype AccumulationStatement<E, !C, A> = AccumulationStatement(fieldName: string, expression: E, factory: C -> A) {

    /** makeAccumulator: the accumulator the stored factory builds for `ctx`. */
    function MakeAccumulator(ctx: C): A {
      factory(ctx)
    }
  }

  /** The constructor: keeps its three arguments as they are. The factory is
      observed through makeAccumulator, which agrees with it on every context. */
  function NewStatement<E, C(!new), A>(fieldName: string, expression: E, factory: C -> A): (s: AccumulationStatement<E, C, A>)
    ensures s.fieldName == fieldName
    ensures s.expression == expression
    ensures s.factory == factory
    ensures forall ctx :: s.MakeAccumulator(ctx) == factory(ctx)
  {
    AccumulationStatement(fieldName, expression, factory)
  }

  /** A statement built from the factory that getFactory returned for `name`
      makes, for every context, the accumulator that the registered factory makes. */
  lemma MakeAccumulatorUsesRegisteredFactory<E, C(!new), A>(reg: FactoryMap<C, A>, name: string, fieldName: string, expression: E, ctx: C)
    requires GetFactory(reg, name).Ok?
    ensures NewStatement(fieldName, expression, GetFactory(reg, name).value).MakeAccumulator(ctx) == reg.factories[name](ctx)
  {
  }

  /** makeAccumulator applies the factory given at construction, and the field
      name and expression stay as constructed. */
  lemma MakeAccumulatorAppliesStoredFactory<E, C(!new), A>(fieldName: string, expression: E, factory: C -> A, ctx: C)
    ensures var s := NewStatement(fieldName, expression, factory);
            && s.MakeAccumulator(ctx) == factory(ctx)
            && s.fieldName == fieldName
            && s.expression == expression
  {
  }
}
