/** The mutable material class of the root package, with its preferred-source bookkeeping (Material.py). */
module RootMaterial {
  import opened Outcomes
  import opened MindustryObjects

  /** Python `s in sources`: some entry of the list is `==` to `s`, that is, has its id. */
  predicate Contains(sources: seq<MindustryObject>, s: MindustryObject) {
    exists i :: 0 <= i < |sources| && sources[i].id == s.id
  }

  /** No two entries of the list are `==` to each other. */
  predicate DuplicateFree(sources: seq<MindustryObject>) {
    forall i, j :: 0 <= i < j < |sources| ==> sources[i].id != sources[j].id
  }

  /** The source list after `set_source(s)`: `s` is appended unless an equal entry is present. */
  function WithSource(sources: seq<MindustryObject>, s: MindustryObject): seq<MindustryObject> {
    if Contains(sources, s) then sources else sources + [s]
  }

  class Material {
    const id: int
    const name: string
    const hardness: Option<int>
    const isLiquid: bool
    const isNatural: bool
    /** The buildings known to produce this material, in the order they were recorded. */
    var sources: seq<MindustryObject>
    /** The preferred producer, if one was chosen. */
    var source: Option<MindustryObject>

    /** A new material has the given attributes, no recorded sources and no preferred source. */
    constructor (id: int, name: string, hardness: Option<int>, isLiquid: bool := false, isNatural: bool := false)
      ensures this.id == id && this.name == name && this.hardness == hardness
      ensures this.isLiquid == isLiquid && this.isNatural == isNatural
      ensures sources == [] && source == None
    {
      this.id := id;
      this.name := name;
      this.hardness := hardness;
      this.isLiquid := isLiquid;
      this.isNatural := isNatural;
      sources := [];
      source := None;
    }

    /** Records `s` as a producer (once) and makes it the preferred source. */
    method SetSource(s: MindustryObject)
      modifies this
      ensures sources == WithSource(old(sources), s)
      ensures source == Some(s)
    {
      if !Contains(sources, s) {
        sources := sources + [s];
      }
      source := Some(s);
    }
  }

  /** After set_source(s) some recorded source is `==` to `s`. */
  lemma WithSourceContains(sources: seq<MindustryObject>, s: MindustryObject)
    ensures Contains(WithSource(sources, s), s)
  {
    if !Contains(sources, s) {
      var r := sources + [s];
      assert r[|sources|] == s;
    }
  }

  /** The old entries keep their order at the front; at most one entry, `s`, is added at the end. */
  lemma WithSourceExtends(sources: seq<MindustryObject>, s: MindustryObject)
    ensures WithSource(sources, s) == sources || WithSource(sources, s) == sources + [s]
    ensures WithSource(sources, s)[..|sources|] == sources
    ensures Contains(sources, s) <==> WithSource(sources, s) == sources
  {
  }

  /** A duplicate-free source list stays duplicate-free. */
  lemma WithSourceKeepsDuplicateFree(sources: seq<MindustryObject>, s: MindustryObject)
    requires DuplicateFree(sources)
    ensures DuplicateFree(WithSource(sources, s))
  {
    if !Contains(sources, s) {
      var r := sources + [s];
      forall i, j | 0 <= i < j < |r|
        ensures r[i].id != r[j].id
      {
        if j == |sources| {
          assert r[i] == sources[i];
        }
      }
    }
  }

  /** Setting the same source twice leaves the list as setting it once. */
  lemma WithSourceIdempotent(sources: seq<MindustryObject>, s: MindustryObject)
    ensures WithSource(WithSource(sources, s), s) == WithSource(sources, s)
  {
    WithSourceContains(sources, s);
  }

  /** Two calls of set_source(s) leave the same state as one call. */
  method SetSourceTwice(m: Material, s: MindustryObject)
    modifies m
    ensures m.sources == WithSource(old(m.sources), s) && m.source == Some(s)
  {
    m.SetSource(s);
    m.SetSource(s);
    WithSourceIdempotent(old(m.sources), s);
  }
}
