/**
 * Production buildings with fixed input and output rates, the dictionary literals they are
 * declared with, and the index from each material to the buildings that produce it (Factories.py).
 */
module Factories {
  import opened Outcomes
  import Materials
  import Sets

  /** A rate map: material id to a rate in items (or liquid units) per second. */
  type Rates = map<int, real>

  /** The id under which power appears in rate maps. */
  const POWER: int := Materials.POWER.id

  /**
   * A production building. `power` is signed: negative is consumption, positive generation.
   * Materials are keyed by id, so id-equal materials share one entry.
   */
  datatype Factory = Factory(
    id: int,
    name: string,
    size: int,
    power: int,
    inputs: Rates,
    outputs: Rates,
    efficiency: real,
    modalEfficiency: bool)

  /**
   * A Python dict literal keyed by materials: a later pair whose material is `==` to an
   * earlier one overwrites the earlier value under the same key.
   */
  function RateMap(pairs: seq<(Materials.Material, real)>): Rates
    decreases |pairs|
  {
    if pairs == [] then map[] else
      var last := pairs[|pairs| - 1];
      RateMap(pairs[..|pairs| - 1])[last.0.id := last.1]
  }

  /**
   * The keys of a dict literal are the ids of its materials, and each key holds the rate of
   * the last pair with that id.
   */
  lemma {:induction false} RateMapLastWins(pairs: seq<(Materials.Material, real)>, k: int)
    ensures k in RateMap(pairs) <==> exists i :: 0 <= i < |pairs| && pairs[i].0.id == k
    ensures forall i :: 0 <= i < |pairs| && pairs[i].0.id == k
                        && (forall j :: i < j < |pairs| ==> pairs[j].0.id != k)
                        ==> RateMap(pairs)[k] == pairs[i].1
    decreases |pairs|
  {
    if pairs != [] {
      var n := |pairs| - 1;
      var pre := pairs[..n];
      RateMapLastWins(pre, k);
      if exists i :: 0 <= i < |pairs| && pairs[i].0.id == k {
        var i :| 0 <= i < |pairs| && pairs[i].0.id == k;
        if i < n {
          assert pre[i] == pairs[i];
        }
      }
      forall i | 0 <= i < |pairs| && pairs[i].0.id == k && (forall j :: i < j < |pairs| ==> pairs[j].0.id != k)
        ensures RateMap(pairs)[k] == pairs[i].1
      {
        if i < n {
          assert pre[i] == pairs[i];
          assert forall j :: i < j < |pre| ==> pre[j] == pairs[j];
        }
      }
    }
  }

  /** Every rate multiplied by `k`, over the same materials. */
  function ScaleRates(rates: Rates, k: real): Rates {
    map m | m in rates :: k * rates[m]
  }

  /**
   * The dataclass constructor and its post-initialisation: an efficiency other than 1.0 is an
   * error unless the building has efficiency options; otherwise both rate maps are scaled by it.
   */
  function NewFactory(id: int, name: string, size: int, power: int, inputs: Rates, outputs: Rates,
                      efficiency: real := 1.0, modalEfficiency: bool := false): (r: Result<Factory>)
    ensures r.Err? <==> !modalEfficiency && efficiency != 1.0
    ensures r.Err? ==> r.error == ValueError
    ensures r.Ok? ==> r.value.id == id && r.value.name == name && r.value.size == size && r.value.power == power
    ensures r.Ok? ==> r.value.efficiency == efficiency && r.value.modalEfficiency == modalEfficiency
    ensures r.Ok? ==> r.value.inputs.Keys == inputs.Keys && r.value.outputs.Keys == outputs.Keys
    ensures r.Ok? ==> forall m :: m in inputs ==> r.value.inputs[m] == efficiency * inputs[m]
    ensures r.Ok? ==> forall m :: m in outputs ==> r.value.outputs[m] == efficiency * outputs[m]
  {
    if !modalEfficiency && efficiency != 1.0 then Err(ValueError)
    else Ok(Factory(id, name, size, power, ScaleRates(inputs, efficiency), ScaleRates(outputs, efficiency),
                    efficiency, modalEfficiency))
  }

  /** At the default efficiency construction keeps the declared rates unchanged. */
  lemma DefaultEfficiencyKeepsRates(id: int, name: string, size: int, power: int, inputs: Rates, outputs: Rates,
                                    modalEfficiency: bool)
    ensures NewFactory(id, name, size, power, inputs, outputs, 1.0, modalEfficiency)
            == Ok(Factory(id, name, size, power, inputs, outputs, 1.0, modalEfficiency))
  {
    var r := NewFactory(id, name, size, power, inputs, outputs, 1.0, modalEfficiency);
    assert r.value.inputs == inputs;
    assert r.value.outputs == outputs;
  }

  /** A value a factory is compared with: another factory, or a value of any other type. */
  datatype Value = FactoryValue(factory: Factory) | NotAFactory

  /** Python `==` (the second definition, the one in effect): a factory with the same id. */
  predicate Equals(a: Factory, other: Value) {
    other.FactoryValue? && a.id == other.factory.id
  }

  function Hash(a: Factory): int {
    a.id
  }

  /** Factory `==` looks at the id alone, is an equivalence, and equal factories hash equally. */
  lemma EqualsIsIdEquivalence(a: Factory, b: Factory, c: Factory)
    ensures Equals(a, FactoryValue(b)) <==> a.id == b.id
    ensures Equals(a, FactoryValue(a))
    ensures Equals(a, FactoryValue(b)) ==> Equals(b, FactoryValue(a)) && Hash(a) == Hash(b)
    ensures Equals(a, FactoryValue(b)) && Equals(b, FactoryValue(c)) ==> Equals(a, FactoryValue(c))
    ensures !Equals(a, NotAFactory)
  {
  }

  // A few catalog buildings, as their classes declare them.

  const GraphitePress := Factory(701, "Graphite Press", 2, 0,
    RateMap([(Materials.COAL, 1.33)]), RateMap([(Materials.GRAPHITE, 0.66)]), 1.0, false)

  const SurgeSmelter := Factory(708, "Surge Smelter", 3, -240,
    RateMap([(Materials.COPPER, 2.4), (Materials.LEAD, 3.2), (Materials.SILICON, 2.4), (Materials.TITANIUM, 1.6)]),
    RateMap([(Materials.SURGE_ALLOY, 0.8)]), 1.0, false)

  const WaterExtractor := Factory(205, "Water Extractor", 2, -90,
    map[], RateMap([(Materials.WATER, 6.6)]), 1.0, true)

  const CombustionGenerator := Factory(507, "Combustion Generator", 1, 60,
    RateMap([(Materials.COAL, 0.5)]), map[], 1.0, false)

  /**
   * The surge smelter declares copper 2.4 and lead 3.2, but both are id 1: its input map has
   * three entries, and the one for id 1 holds the later value, 3.2.
   */
  lemma SurgeSmelterInputsCollapse()
    ensures SurgeSmelter.inputs == map[1 := 3.2, 3 := 2.4, 7 := 1.6]
  {
    var ps: seq<(Materials.Material, real)> := [(Materials.COPPER, 2.4), (Materials.LEAD, 3.2), (Materials.SILICON, 2.4), (Materials.TITANIUM, 1.6)];
    assert |ps[..1][..0]| == 0 && ps[..2][..1] == ps[..1] && ps[..3][..2] == ps[..2] && ps[..3] == ps[..|ps| - 1];
    assert RateMap(ps[..1]) == map[1 := 2.4];
    assert RateMap(ps[..2]) == map[1 := 3.2];
    assert RateMap(ps[..3]) == map[1 := 3.2, 3 := 2.4];
    assert RateMap(ps) == map[1 := 3.2, 3 := 2.4, 7 := 1.6];
  }

  /** Efficiency options: a water extractor may run at half efficiency, a graphite press may not. */
  lemma EfficiencyOptions()
    ensures NewFactory(205, "Water Extractor", 2, -90, map[], map[16 := 6.6], 0.5, true).Ok?
    ensures NewFactory(205, "Water Extractor", 2, -90, map[], map[16 := 6.6], 0.5, true).value.outputs == map[16 := 3.3]
    ensures NewFactory(701, "Graphite Press", 2, 0, map[4 := 1.33], map[2 := 0.66], 0.5) == Err(ValueError)
  {
    var r := NewFactory(205, "Water Extractor", 2, -90, map[], map[16 := 6.6], 0.5, true);
    assert r.value.outputs.Keys == {16};
  }

  // The source index.

  /** The factories of `fs` that output `m`, in their order in `fs`. */
  function ProducersOf(fs: seq<Factory>, m: int): seq<Factory>
    decreases |fs|
  {
    if fs == [] then []
    else ProducersOf(fs[..|fs| - 1], m) + (if m in fs[|fs| - 1].outputs then [fs[|fs| - 1]] else [])
  }

  /** The materials some factory of `fs` outputs. */
  function OutputMaterials(fs: seq<Factory>): set<int>
    decreases |fs|
  {
    if fs == [] then {} else OutputMaterials(fs[..|fs| - 1]) + fs[|fs| - 1].outputs.Keys
  }

  /**
   * `sources` is the index built from the catalog `fs` and the generator list `gens`: power maps
   * to the generators followed by any factory that outputs power, and every other output
   * material to its producers in catalog order.
   */
  ghost predicate IsSourceIndex(sources: map<int, seq<Factory>>, fs: seq<Factory>, gens: seq<Factory>) {
    && sources.Keys == {POWER} + OutputMaterials(fs)
    && forall m :: m in sources ==> sources[m] == (if m == POWER then gens else []) + ProducersOf(fs, m)
  }

  /** The producers recorded for `m`, or none. */
  function ProducersIn(sources: map<int, seq<Factory>>, m: int): seq<Factory> {
    if m in sources then sources[m] else []
  }

  /** The index after appending `f` to the list of each material in `done`. */
  function AppendFor(sources: map<int, seq<Factory>>, f: Factory, done: set<int>): map<int, seq<Factory>> {
    map m | m in sources.Keys + done :: ProducersIn(sources, m) + (if m in done then [f] else [])
  }

  /** The index built from the catalog prefix `fs`: power seeded with the generators, then `f` appended per output. */
  function SourcesFrom(fs: seq<Factory>, gens: seq<Factory>): map<int, seq<Factory>>
    decreases |fs|
  {
    if fs == [] then map[POWER := gens]
    else AppendFor(SourcesFrom(fs[..|fs| - 1], gens), fs[|fs| - 1], fs[|fs| - 1].outputs.Keys)
  }

  /** `SOURCES[material] = SOURCES.get(material, []) + [factory]` for every output of one factory. */
  method AppendProducer(sources: map<int, seq<Factory>>, f: Factory) returns (r: map<int, seq<Factory>>)
    ensures r == AppendFor(sources, f, f.outputs.Keys)
  {
    r := sources;
    var todo := f.outputs.Keys;
    ghost var done: set<int> := {};
    while todo != {}
      invariant todo + done == f.outputs.Keys && todo !! done
      invariant r.Keys == sources.Keys + done
      invariant forall m :: m in r ==> r[m] == ProducersIn(sources, m) + (if m in done then [f] else [])
      decreases todo
    {
      Sets.HasElement(todo);
      var m :| m in todo;
      r := r[m := ProducersIn(r, m) + [f]];
      todo := todo - {m};
      done := done + {m};
    }
  }

  /** Builds SOURCES: seeded with the generators for power, then one append per factory output. */
  method BuildSources(fs: seq<Factory>, gens: seq<Factory>) returns (sources: map<int, seq<Factory>>)
    ensures sources == SourcesFrom(fs, gens)
    ensures IsSourceIndex(sources, fs, gens)
  {
    sources := map[POWER := gens];
    var i := 0;
    while i < |fs|
      invariant 0 <= i <= |fs|
      invariant sources == SourcesFrom(fs[..i], gens)
    {
      sources := AppendProducer(sources, fs[i]);
      assert fs[..i + 1][..i] == fs[..i];
      i := i + 1;
    }
    assert fs[..i] == fs;
    SourcesFromIsIndex(fs, gens);
  }

  /** The index built by the loop lists, for each material, exactly its producers in catalog order. */
  lemma SourcesFromIsIndex(fs: seq<Factory>, gens: seq<Factory>)
    ensures IsSourceIndex(SourcesFrom(fs, gens), fs, gens)
  {
    SourcesFromKeys(fs, gens);
    forall m | m in SourcesFrom(fs, gens)
      ensures SourcesFrom(fs, gens)[m] == (if m == POWER then gens else []) + ProducersOf(fs, m)
    {
      SourcesFromAt(fs, gens, m);
    }
  }

  /** The index has an entry for power and for every material some factory of the prefix outputs. */
  lemma {:induction false} SourcesFromKeys(fs: seq<Factory>, gens: seq<Factory>)
    ensures SourcesFrom(fs, gens).Keys == {POWER} + OutputMaterials(fs)
    decreases |fs|
  {
    if fs != [] {
      SourcesFromKeys(fs[..|fs| - 1], gens);
    }
  }

  /** The entry of one material: the generators for power, then its producers in catalog order. */
  lemma {:induction false} SourcesFromAt(fs: seq<Factory>, gens: seq<Factory>, m: int)
    requires m in SourcesFrom(fs, gens)
    ensures SourcesFrom(fs, gens)[m] == (if m == POWER then gens else []) + ProducersOf(fs, m)
    decreases |fs|
  {
    if fs != [] {
      var pre, f := fs[..|fs| - 1], fs[|fs| - 1];
      var s := SourcesFrom(pre, gens);
      assert SourcesFrom(fs, gens)[m] == ProducersIn(s, m) + (if m in f.outputs.Keys then [f] else []);
      if m in s {
        SourcesFromAt(pre, gens, m);
      } else {
        SourcesFromKeys(pre, gens);
        ProducersOfOutside(pre, m);
      }
    }
  }

  /** A material no catalog factory outputs has no producers. */
  lemma {:induction false} ProducersOfOutside(fs: seq<Factory>, m: int)
    requires m !in OutputMaterials(fs)
    ensures ProducersOf(fs, m) == []
    decreases |fs|
  {
    if fs != [] {
      ProducersOfOutside(fs[..|fs| - 1], m);
    }
  }

  /** A factory is listed for `m` exactly when it is in the catalog and outputs `m`. */
  lemma {:induction false} ProducersOfExact(fs: seq<Factory>, m: int, f: Factory)
    ensures f in ProducersOf(fs, m) <==> f in fs && m in f.outputs
    decreases |fs|
  {
    if fs != [] {
      var pre := fs[..|fs| - 1];
      ProducersOfExact(pre, m, f);
      assert fs == pre + [fs[|fs| - 1]];
    }
  }

  /** Producers are listed in catalog order: the list for a concatenation is the concatenation of the lists. */
  lemma {:induction false} ProducersOfAppend(fs1: seq<Factory>, fs2: seq<Factory>, m: int)
    ensures ProducersOf(fs1 + fs2, m) == ProducersOf(fs1, m) + ProducersOf(fs2, m)
    decreases |fs2|
  {
    if fs2 != [] {
      var pre := fs2[..|fs2| - 1];
      ProducersOfAppend(fs1, pre, m);
      assert (fs1 + fs2)[..|fs1 + fs2| - 1] == fs1 + pre;
      assert (fs1 + fs2)[|fs1 + fs2| - 1] == fs2[|fs2| - 1];
    } else {
      assert fs1 + fs2 == fs1;
    }
  }

  /** A material is a key of the index exactly when some factory outputs it, or it is power. */
  lemma {:induction false} OutputMaterialsExact(fs: seq<Factory>, m: int)
    ensures m in OutputMaterials(fs) <==> exists i :: 0 <= i < |fs| && m in fs[i].outputs
    decreases |fs|
  {
    if fs != [] {
      var pre := fs[..|fs| - 1];
      OutputMaterialsExact(pre, m);
      if m in OutputMaterials(pre) {
        var i :| 0 <= i < |pre| && m in pre[i].outputs;
        assert fs[i] == pre[i];
      }
      if exists i :: 0 <= i < |fs| && m in fs[i].outputs {
        var i :| 0 <= i < |fs| && m in fs[i].outputs;
        if i < |pre| {
          assert pre[i] == fs[i];
        }
      }
    }
  }

  /** When no catalog factory outputs power, SOURCES[POWER] is exactly the generator list. */
  lemma PowerSourcesAreGenerators(sources: map<int, seq<Factory>>, fs: seq<Factory>, gens: seq<Factory>)
    requires IsSourceIndex(sources, fs, gens)
    requires forall i :: 0 <= i < |fs| ==> POWER !in fs[i].outputs
    ensures sources[POWER] == gens
  {
    assert POWER in sources;
    if ProducersOf(fs, POWER) != [] {
      var f := ProducersOf(fs, POWER)[0];
      ProducersOfExact(fs, POWER, f);
      assert false;
    }
  }
}
