/** Propositional functions used as features, and the FeatureMapping value that
    carries a non-empty list of them (src/FeatureMapping.java). */
module Features {
  import opened Wrappers

  /** A propositional function of the domain: its name and its truth test on states.
      The grounding parameters the domain passes are always empty here, so they are dropped. */
  datatype PropFn<!S> = PropFn(name: string, holds: S -> bool)

  /** The 0/1 feature-indicator vector of a state. */
  function Indicator<S>(fs: seq<PropFn<S>>, s: S): (r: seq<real>)
    ensures |r| == |fs|
    ensures forall j :: 0 <= j < |fs| ==> r[j] == (if fs[j].holds(s) then 1.0 else 0.0)
  {
    seq(|fs|, j requires 0 <= j < |fs| => if fs[j].holds(s) then 1.0 else 0.0)
  }

  /** A feature mapping: the functions it was created from, in order. */
  datatype FeatureMapping<!S> = FeatureMapping(functions: seq<PropFn<S>>)

  /** The factory: null (None) for a null or empty array, otherwise a mapping
      holding exactly the given functions. */
  function CreateFeatureMapping<S>(fs: Option<seq<PropFn<S>>>): (r: Option<FeatureMapping<S>>)
    ensures r.Some? <==> fs.Some? && |fs.value| > 0
    ensures r.Some? ==> r.value.functions == fs.value && FeatureSize(r.value) == |fs.value|
  {
    if fs.None? || |fs.value| == 0 then None else Some(FeatureMapping(fs.value))
  }

  /** getFeatureSize: the number of functions in the mapping. */
  function FeatureSize<S>(m: FeatureMapping<S>): nat {
    |m.functions|
  }

  /** getPropositionalFunctions: a copy holding the same functions in the same
      order, one per feature. */
  function GetPropositionalFunctions<S>(m: FeatureMapping<S>): (r: seq<PropFn<S>>)
    ensures |r| == FeatureSize(m)
    ensures forall i :: 0 <= i < |r| ==> r[i] == m.functions[i]
  {
    m.functions
  }

  /** The copy constructor: a mapping over a copy of the other's functions, of
      the same size. */
  function CopyFeatureMapping<S>(m: FeatureMapping<S>): (r: FeatureMapping<S>)
    ensures r.functions == m.functions && FeatureSize(r) == FeatureSize(m)
  {
    FeatureMapping(GetPropositionalFunctions(m))
  }
}
