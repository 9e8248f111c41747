/** The REGISTER_ACCUMULATOR(key, factory) macro and the startup sequence its
    uses add up to. Each use defines an initializer named
    "addToAccumulatorFactoryMap_" followed by `key`, which registers `factory`
    under "$" followed by `key` and reports success. */
module RegistrationMacro {
  import opened Results
  import opened AccumulatorRegistry

  /** The operator sigil every macro-registered name begins with. */
  const Sigil: char := '$'

  /** The fixed part of the name of the initializer the macro defines. */
  const InitializerPrefix: string := "addToAccumulatorFactoryMap_"

  predicate IsIdentifierChar(c: char) {
    || 'a' <= c <= 'z'
    || 'A' <= c <= 'Z'
    || '0' <= c <= '9'
    || c == '_'
  }

  /** What the preprocessor accepts as `key`: an argument that is both stringized
      and pasted onto the initializer prefix, so identifier characters only. The
      argument may be empty, which registers the one-character name "$". */
  predicate IsMacroKey(key: string) {
    forall i :: 0 <= i < |key| ==> IsIdentifierChar(key[i])
  }

  /** The registry name the macro derives from `key`: the stringized key after "$". */
  function OperatorName(key: string): (name: string)
    ensures |name| == |key| + 1
    ensures name[0] == Sigil
    ensures name[1..] == key
  {
    [Sigil] + key
  }

  /** The name of the initializer function the macro defines for `key`. */
  function InitializerName(key: string): (name: string)
    ensures |name| == |InitializerPrefix| + |key|
    ensures name[..|InitializerPrefix|] == InitializerPrefix
    ensures name[|InitializerPrefix|..] == key
  {
    InitializerPrefix + key
  }

  /** Two macro uses produce the same operator name exactly when they define the
      same initializer. */
  lemma SameOperatorNameIffSameInitializer(key1: string, key2: string)
    ensures OperatorName(key1) == OperatorName(key2) <==> key1 == key2
    ensures InitializerName(key1) == InitializerName(key2) <==> key1 == key2
  {
  }

  /** The registry and status left by one macro-generated initializer. */
  datatype InitOutcome<!C, A> = InitOutcome(registry: FactoryMap<C, A>, status: Status)

  /** The body of the initializer REGISTER_ACCUMULATOR(key, factory) defines:
      register under "$" + key, then report success. */
  function RunInitializer<C, A>(reg: FactoryMap<C, A>, key: string, factory: C -> A): (out: InitOutcome<C, A>)
    requires IsMacroKey(key)
    requires !IsRegistered(reg, OperatorName(key))
    ensures out.status == StatusOK
    ensures out.registry.factories.Keys == reg.factories.Keys + {OperatorName(key)}
    ensures GetFactory(out.registry, OperatorName(key)) == Ok(factory)
    ensures forall other :: other != OperatorName(key) ==> GetFactory(out.registry, other) == GetFactory(reg, other)
  {
    InitOutcome(RegisterAccumulator(reg, OperatorName(key), factory), StatusOK)
  }

  /** One use of the macro in some accumulator's source file. */
  datatype Registration<!C, A> = Registration(key: string, factory: C -> A)

  /** The operator names a list of macro uses registers. */
  function OperatorNames<C, A>(entries: seq<Registration<C, A>>): set<string> {
    set i | 0 <= i < |entries| :: OperatorName(entries[i].key)
  }

  /** Macro uses that can all run against `reg`: valid keys, no key used twice,
      no derived name already present. */
  predicate ValidStartup<C, A>(reg: FactoryMap<C, A>, entries: seq<Registration<C, A>>) {
    && (forall i :: 0 <= i < |entries| ==> IsMacroKey(entries[i].key))
    && (forall i, j :: 0 <= i < j < |entries| ==> entries[i].key != entries[j].key)
    && (forall i :: 0 <= i < |entries| ==> !IsRegistered(reg, OperatorName(entries[i].key)))
  }

  /** Splitting off the first macro use splits off its operator name. */
  lemma OperatorNamesCons<C, A>(entries: seq<Registration<C, A>>)
    requires |entries| > 0
    ensures OperatorNames(entries) == {OperatorName(entries[0].key)} + OperatorNames(entries[1..])
  {
  }

  /** After the first initializer has run, the remaining macro uses can still run. */
  lemma ValidStartupTail<C, A>(reg: FactoryMap<C, A>, entries: seq<Registration<C, A>>)
    requires |entries| > 0
    requires ValidStartup(reg, entries)
    ensures ValidStartup(RunInitializer(reg, entries[0].key, entries[0].factory).registry, entries[1..])
  {
  }

  /** Runs the initializers of `entries` one after another, in list order. */
  function RegisterAll<C, A>(reg: FactoryMap<C, A>, entries: seq<Registration<C, A>>): (r: FactoryMap<C, A>)
    requires ValidStartup(reg, entries)
    ensures r.factories.Keys == reg.factories.Keys + OperatorNames(entries)
    ensures forall i :: 0 <= i < |entries| ==> GetFactory(r, OperatorName(entries[i].key)) == Ok(entries[i].factory)
    ensures forall name :: IsRegistered(reg, name) ==> GetFactory(r, name) == GetFactory(reg, name)
    decreases |entries|
  {
    if |entries| == 0 then
      reg
    else
      var out := RunInitializer(reg, entries[0].key, entries[0].factory);
      ValidStartupTail(reg, entries);
      OperatorNamesCons(entries);
      var r := RegisterAll(out.registry, entries[1..]);
      assert forall i :: 0 < i < |entries| ==> entries[i] == entries[1..][i - 1];
      r
  }

  /** When every macro use of `a` also occurs in `b`, every name `a` derives
      is derived by `b` as well. */
  lemma OperatorNamesCovered<C, A>(a: seq<Registration<C, A>>, b: seq<Registration<C, A>>)
    requires forall entry :: entry in a ==> entry in b
    ensures OperatorNames(a) <= OperatorNames(b)
  {
    forall name | name in OperatorNames(a)
      ensures name in OperatorNames(b)
    {
      var i :| 0 <= i < |a| && name == OperatorName(a[i].key);
      assert a[i] in b;
      var j :| 0 <= j < |b| && b[j] == a[i];
    }
  }

  /** A name the startup sequence `a` registers gets the same factory from any
      startup sequence `b` that contains every macro use of `a`. */
  lemma SameFactoryWhenCovered<C, A>(reg: FactoryMap<C, A>, a: seq<Registration<C, A>>, b: seq<Registration<C, A>>, name: string)
    requires ValidStartup(reg, a) && ValidStartup(reg, b)
    requires forall entry :: entry in a ==> entry in b
    requires IsRegistered(RegisterAll(reg, a), name)
    ensures GetFactory(RegisterAll(reg, b), name) == GetFactory(RegisterAll(reg, a), name)
  {
    if !IsRegistered(reg, name) {
      var i :| 0 <= i < |a| && name == OperatorName(a[i].key);
      assert a[i] in b;
      var j :| 0 <= j < |b| && b[j] == a[i];
      assert GetFactory(RegisterAll(reg, b), OperatorName(b[j].key)) == Ok(b[j].factory);
    }
  }

  /** Two startup sequences made of the same macro uses register the same names. */
  lemma SameUsesSameNames<C, A>(reg: FactoryMap<C, A>, a: seq<Registration<C, A>>, b: seq<Registration<C, A>>)
    requires ValidStartup(reg, a) && ValidStartup(reg, b)
    requires forall entry :: entry in a <==> entry in b
    ensures RegisterAll(reg, a).factories.Keys == RegisterAll(reg, b).factories.Keys
  {
    OperatorNamesCovered(a, b);
    OperatorNamesCovered(b, a);
  }

  /** The registry the startup sequence builds does not depend on the order in
      which the initializers run: any two orderings of the same macro uses give
      the same registry. */
  lemma StartupOrderIrrelevant<C, A>(reg: FactoryMap<C, A>, a: seq<Registration<C, A>>, b: seq<Registration<C, A>>)
    requires ValidStartup(reg, a) && ValidStartup(reg, b)
    requires forall entry :: entry in a <==> entry in b
    ensures RegisterAll(reg, a) == RegisterAll(reg, b)
  {
    var ra := RegisterAll(reg, a);
    var rb := RegisterAll(reg, b);
    SameUsesSameNames(reg, a, b);
    forall name
      ensures GetFactory(ra, name) == GetFactory(rb, name)
    {
      if IsRegistered(ra, name) {
        SameFactoryWhenCovered(reg, a, b, name);
      }
    }
    LookupDeterminesRegistry(ra, rb);
  }

  /** After startup from the empty registry, a lookup succeeds exactly for the
      names some macro use derived, and yields that use's factory. */
  lemma LookupAfterStartup<C, A>(entries: seq<Registration<C, A>>, name: string)
    requires ValidStartup(EmptyRegistry(), entries)
    ensures GetFactory(RegisterAll(EmptyRegistry(), entries), name).Ok? <==> name in OperatorNames(entries)
    ensures GetFactory(RegisterAll(EmptyRegistry(), entries), name).Err? ==>
              GetFactory(RegisterAll(EmptyRegistry(), entries), name) == Err(UnknownOperator(name))
  {
  }

  /** Every name the macro puts in the registry is "$" followed by a macro key. */
  lemma StartupNamesCarrySigil<C, A>(entries: seq<Registration<C, A>>)
    requires ValidStartup(EmptyRegistry(), entries)
    ensures forall name :: name in RegisterAll(EmptyRegistry(), entries).factories ==>
              |name| >= 1 && name[0] == Sigil && IsMacroKey(name[1..])
  {
  }

  /** The bare key, without the sigil, is not an operator name: looking it up
      after startup fails even though the key itself was registered. */
  lemma BareKeyIsUnknown<C, A>(entries: seq<Registration<C, A>>, i: int)
    requires ValidStartup(EmptyRegistry(), entries)
    requires 0 <= i < |entries|
    ensures GetFactory(RegisterAll(EmptyRegistry(), entries), entries[i].key) == Err(UnknownOperator(entries[i].key))
  {
  }
}
