/**
 * A weighted collection of factories and the net material flow it implies, with the operators
 * that add, subtract, scale, divide and chain such collections (the FactoryGroup class of Factories.py).
 *
 * A group is a value: every operator builds a new group and never changes its operands, so the
 * accumulation the source does on the freshly copied dictionaries is modelled by methods with
 * loops that return the new group, each proved equal to a specification function.
 */
module FactoryGroups {
  import opened Outcomes
  import opened Factories
  import Materials
  import Sets

  /** Rates strictly between -Epsilon and Epsilon are deleted by group addition. */
  const Epsilon: real := 0.0001

  predicate NearZero(x: real) {
    x < Epsilon && x > -Epsilon
  }

  /** `d.get(k, 0)`. */
  function Get(d: map<int, real>, k: int): real {
    if k in d then d[k] else 0.0
  }

  /**
   * `factories` maps a factory id to its (possibly fractional) count; `ioMap` maps a material id
   * to its net rate: positive is output, negative is input.
   */
  datatype FactoryGroup = FactoryGroup(factories: map<int, real>, ioMap: Rates)

  /**
   * The `factories` argument of the constructor: absent, a list, or a dict of counts (as its
   * items). A Python dict cannot hold two `==` factories as keys; items naming one id twice
   * would have their counts accumulated under that id.
   */
  datatype FactoriesArg = NoFactories | FactoryList(list: seq<Factory>) | FactoryCounts(items: seq<(Factory, real)>)

  /** The `materials` argument of the constructor: absent, a list, or a dict of rates. */
  datatype MaterialsArg = NoMaterials | MaterialList(list: seq<Materials.Material>) | MaterialRates(rates: Rates)

  /** The right operand of `+`, `-`, `@` and `/`: a factory, a material or a group. */
  datatype Operand = FactoryOperand(factory: Factory) | MaterialOperand(material: Materials.Material) | GroupOperand(group: FactoryGroup)

  /** The right operand of `/`: a number or an entity. */
  datatype Divisor = Number(k: real) | Entity(operand: Operand)

  /** What `/` returns: a scaled group (for a number) or a count of the divisor (for an entity). */
  datatype Quotient = Scaled(group: FactoryGroup) | Count(ratio: real)

  const Empty := FactoryGroup(map[], map[])

  // ---------------------------------------------------------------------------------------------
  // Construction

  /** Every key of either map; `k` times the second map's entry added to the first's, absent as zero. */
  function AddScaled(d: map<int, real>, rates: map<int, real>, k: real): map<int, real> {
    map m | m in d.Keys + rates.Keys :: Get(d, m) + k * Get(rates, m)
  }

  /** One pass of the constructor loop: `count` more of `f`, its outputs, inputs and power. */
  function AddFactory(g: FactoryGroup, f: Factory, count: real): (r: FactoryGroup)
    ensures r.factories.Keys == g.factories.Keys + {f.id}
    ensures g.ioMap.Keys <= r.ioMap.Keys
  {
    FactoryGroup(g.factories[f.id := Get(g.factories, f.id) + count], FactoryRates(g.ioMap, f, count))
  }

  /** The net-rate map with `count` more of `f`: its outputs added, its inputs and power drawn. */
  function FactoryRates(io: Rates, f: Factory, count: real): Rates {
    AddPower(AddScaled(AddScaled(io, f.outputs, count), f.inputs, -count), PowerDraw(f, count))
  }

  /** The power that `count` of `f` add to the POWER rate (negative for a consumer). */
  function PowerDraw(f: Factory, count: real): real {
    count * (f.power as real)
  }

  /** The net-rate map with `p` more power. */
  function AddPower(io: Rates, p: real): Rates {
    io[POWER := Get(io, POWER) + p]
  }

  /** The constructor loop over the items of the `factories` dict, in order. */
  function AddFactories(g: FactoryGroup, items: seq<(Factory, real)>): (r: FactoryGroup)
    ensures g.factories.Keys <= r.factories.Keys && g.ioMap.Keys <= r.ioMap.Keys
    ensures forall i :: 0 <= i < |items| ==> items[i].0.id in r.factories
    decreases |items|
  {
    if items == [] then g
    else
      var pre, last := items[..|items| - 1], items[|items| - 1];
      var r0 := AddFactories(g, pre);
      assert forall i :: 0 <= i < |pre| ==> items[i].0.id in r0.factories by {
        forall i | 0 <= i < |pre| ensures items[i].0.id in r0.factories {
          assert items[i] == pre[i];
        }
      }
      AddFactory(r0, last.0, last.1)
  }

  /** The factories, then the raw material rates, accumulated onto a copy of the seed group. */
  function Construct(seed: FactoryGroup, items: seq<(Factory, real)>, materials: Rates): FactoryGroup {
    var g := AddFactories(seed, items);
    FactoryGroup(g.factories, AddScaled(g.ioMap, materials, 1.0))
  }

  /** True when some item of `items` is a factory `==` to `f`. */
  predicate HasFactory(items: seq<(Factory, real)>, f: Factory) {
    exists i :: 0 <= i < |items| && items[i].0.id == f.id
  }

  /** `{factory: 1 for factory in fs}`: one item per id, the first such factory as the key, count 1. */
  function ListCounts(fs: seq<Factory>): seq<(Factory, real)>
    decreases |fs|
  {
    if fs == [] then []
    else
      var pre := ListCounts(fs[..|fs| - 1]);
      if HasFactory(pre, fs[|fs| - 1]) then pre else pre + [(fs[|fs| - 1], 1.0)]
  }

  function CountsOf(a: FactoriesArg): seq<(Factory, real)> {
    match a
    case NoFactories => []
    case FactoryList(fs) => ListCounts(fs)
    case FactoryCounts(items) => items
  }

  /** `{material: 1 for material in ms}`, keyed by material id. */
  function MaterialListRates(ms: seq<Materials.Material>): Rates {
    map m | m in ms :: m.id := 1.0
  }

  function RatesOf(a: MaterialsArg): Rates {
    match a
    case NoMaterials => map[]
    case MaterialList(ms) => MaterialListRates(ms)
    case MaterialRates(rates) => rates
  }

  /** `FactoryGroup(factories, materials=..., factory_group=...)`. */
  function Init(factories: FactoriesArg, materials: MaterialsArg, seed: Option<FactoryGroup>): (r: FactoryGroup)
    ensures seed.Some? ==> seed.value.factories.Keys <= r.factories.Keys && seed.value.ioMap.Keys <= r.ioMap.Keys
    ensures forall i :: 0 <= i < |CountsOf(factories)| ==> CountsOf(factories)[i].0.id in r.factories
    ensures RatesOf(materials).Keys <= r.ioMap.Keys
  {
    Construct(if seed.Some? then seed.value else Empty, CountsOf(factories), RatesOf(materials))
  }

  /** `FactoryGroup([f])`: one factory at count 1. */
  function Singleton(f: Factory): (r: FactoryGroup)
    ensures r.factories == map[f.id := 1.0]
  {
    OneFactoryCounts(f, Empty);
    Init(FactoryList([f]), NoMaterials, None)
  }

  /** A one-factory list is one item at count 1, accumulated by one pass of the constructor loop. */
  lemma OneFactoryCounts(f: Factory, g: FactoryGroup)
    ensures ListCounts([f]) == [(f, 1.0)]
    ensures AddFactories(g, [(f, 1.0)]) == AddFactory(g, f, 1.0)
  {
    assert [f][..0] == [];
    assert [(f, 1.0)][..0] == [];
  }

  /** The group an operand stands for: a factory at count 1, a material at rate 1, or the group. */
  function AsGroup(o: Operand): FactoryGroup {
    match o
    case FactoryOperand(f) => Singleton(f)
    case MaterialOperand(m) => Init(NoFactories, MaterialList([m]), None)
    case GroupOperand(h) => h
  }

  /** Adds `k` times each rate of `rates` into `d`, one key at a time. */
  method AccumulateRates(d: map<int, real>, rates: map<int, real>, k: real) returns (r: map<int, real>)
    ensures r == AddScaled(d, rates, k)
  {
    r := d;
    var todo := rates.Keys;
    ghost var done: set<int> := {};
    while todo != {}
      invariant todo + done == rates.Keys && todo !! done
      invariant r.Keys == d.Keys + done
      invariant forall m :: m in r ==> r[m] == Get(d, m) + (if m in done then k * rates[m] else 0.0)
      decreases todo
    {
      Sets.HasElement(todo);
      var m :| m in todo;
      r := r[m := Get(r, m) + k * rates[m]];
      todo := todo - {m};
      done := done + {m};
    }
    forall m | m in r
      ensures r[m] == Get(d, m) + k * Get(rates, m)
    {
    }
    assert r.Keys == d.Keys + rates.Keys;
  }

  /** One pass of the constructor loop, computed the way the source does. */
  method AccumulateFactory(g: FactoryGroup, f: Factory, count: real) returns (r: FactoryGroup)
    ensures r == AddFactory(g, f, count)
  {
    var io := AccumulateRates(g.ioMap, f.outputs, count);
    io := AccumulateRates(io, f.inputs, -count);
    io := io[POWER := Get(io, POWER) + PowerDraw(f, count)];
    r := FactoryGroup(g.factories[f.id := Get(g.factories, f.id) + count], io);
  }

  /** The constructor: copy the seed group, then accumulate the factories and the raw materials. */
  method NewGroup(factories: FactoriesArg, materials: MaterialsArg, seed: Option<FactoryGroup>) returns (g: FactoryGroup)
    ensures g == Init(factories, materials, seed)
  {
    var start := if seed.Some? then seed.value else Empty;
    g := start;
    var items := CountsOf(factories);
    var i := 0;
    while i < |items|
      invariant 0 <= i <= |items|
      invariant g == AddFactories(start, items[..i])
    {
      g := AccumulateFactory(g, items[i].0, items[i].1);
      assert items[..i + 1][..i] == items[..i];
      i := i + 1;
    }
    assert items[..i] == items;
    var io := AccumulateRates(g.ioMap, RatesOf(materials), 1.0);
    g := FactoryGroup(g.factories, io);
  }

  // ---------------------------------------------------------------------------------------------
  // Addition, subtraction, scaling

  /**
   * Group `+` group: counts summed over both key sets; rates summed over both key sets, except
   * that a key of the right operand whose sum is near zero is deleted.
   */
  function Sum(a: FactoryGroup, b: FactoryGroup): (r: FactoryGroup)
    ensures r.factories.Keys == a.factories.Keys + b.factories.Keys
    ensures forall m :: m in r.ioMap ==> m in a.ioMap || m in b.ioMap
    ensures forall m :: m in a.ioMap && m !in b.ioMap ==> m in r.ioMap && r.ioMap[m] == a.ioMap[m]
  {
    FactoryGroup(
      map f | f in a.factories.Keys + b.factories.Keys :: Get(a.factories, f) + Get(b.factories, f),
      map m | m in a.ioMap.Keys + b.ioMap.Keys && (m in b.ioMap ==> !NearZero(Get(a.ioMap, m) + b.ioMap[m]))
            :: Get(a.ioMap, m) + Get(b.ioMap, m))
  }

  /** `g + o`: a factory or material is added through the constructor, a group through `Sum`. */
  function Plus(g: FactoryGroup, o: Operand): (r: FactoryGroup)
    ensures r.factories.Keys == g.factories.Keys + AsGroup(o).factories.Keys
  {
    match o
    case FactoryOperand(f) =>
      OneFactoryCounts(f, g);
      OneFactoryCounts(f, Empty);
      Init(FactoryList([f]), NoMaterials, Some(g))
    case MaterialOperand(m) => Init(NoFactories, MaterialList([m]), Some(g))
    case GroupOperand(h) => Sum(g, h)
  }

  /** `g * k`: every count and every rate multiplied by `k`, over the same keys. */
  function Scale(g: FactoryGroup, k: real): (r: FactoryGroup)
    ensures r.factories.Keys == g.factories.Keys && r.ioMap.Keys == g.ioMap.Keys
  {
    FactoryGroup(map f | f in g.factories :: g.factories[f] * k, map m | m in g.ioMap :: g.ioMap[m] * k)
  }

  /** `g - o` as written: `(-1 * g) + o`. */
  function Minus(g: FactoryGroup, o: Operand): (r: FactoryGroup)
    ensures r.factories.Keys == g.factories.Keys + AsGroup(o).factories.Keys
  {
    Plus(Scale(g, -1.0), o)
  }

  /** `g - h` as the documentation describes it: `g + (-1 * h)`. */
  function Difference(g: FactoryGroup, h: FactoryGroup): (r: FactoryGroup)
    ensures r.factories.Keys == g.factories.Keys + h.factories.Keys
    ensures forall m :: m in r.ioMap ==> m in g.ioMap || m in h.ioMap
    ensures forall m :: m in g.ioMap && m !in h.ioMap ==> m in r.ioMap && r.ioMap[m] == g.ioMap[m]
  {
    Sum(g, Scale(h, -1.0))
  }

  /** Adds the rates of `rates` into `d`, deleting each updated entry that ends near zero. */
  method AccumulatePruned(d: map<int, real>, rates: map<int, real>) returns (r: map<int, real>)
    ensures r == (map m | m in d.Keys + rates.Keys && (m in rates ==> !NearZero(Get(d, m) + rates[m]))
                        :: Get(d, m) + Get(rates, m))
  {
    r := d;
    var todo := rates.Keys;
    ghost var done: set<int> := {};
    while todo != {}
      invariant todo + done == rates.Keys && todo !! done
      invariant forall m :: m in r <==> (m in d && m !in done) || (m in done && !NearZero(Get(d, m) + rates[m]))
      invariant forall m :: m in r ==> r[m] == Get(d, m) + (if m in done then rates[m] else 0.0)
      decreases todo
    {
      Sets.HasElement(todo);
      var m :| m in todo;
      r := r[m := Get(r, m) + rates[m]];
      if r[m] < Epsilon && r[m] > -Epsilon {
        r := r - {m};
      }
      todo := todo - {m};
      done := done + {m};
    }
    ghost var spec := map m | m in d.Keys + rates.Keys && (m in rates ==> !NearZero(Get(d, m) + rates[m]))
                            :: Get(d, m) + Get(rates, m);
    forall m
      ensures m in r <==> m in spec
    {
      if m in rates {
        assert m in done;
      }
    }
    assert r.Keys == spec.Keys;
    forall m | m in r
      ensures r[m] == spec[m]
    {
    }
  }

  /** `g + o`, computed the way the source does. */
  method Add(g: FactoryGroup, o: Operand) returns (r: FactoryGroup)
    ensures r == Plus(g, o)
  {
    match o
    case FactoryOperand(f) =>
      r := NewGroup(FactoryList([f]), NoMaterials, Some(g));
    case MaterialOperand(m) =>
      r := NewGroup(NoFactories, MaterialList([m]), Some(g));
    case GroupOperand(h) =>
      var counts := AccumulateRates(g.factories, h.factories, 1.0);
      var io := AccumulatePruned(g.ioMap, h.ioMap);
      r := FactoryGroup(counts, io);
  }

  // ---------------------------------------------------------------------------------------------
  // Division and chaining

  /** `get_inputs`: the strictly negative entries of the net-rate map. */
  function Inputs(g: FactoryGroup): (r: Rates)
    ensures forall m :: m in r <==> m in g.ioMap && g.ioMap[m] < 0.0
    ensures forall m :: m in r ==> r[m] == g.ioMap[m]
  {
    map m | m in g.ioMap && g.ioMap[m] < 0.0 :: g.ioMap[m]
  }

  /** `get_outputs`: the strictly positive entries of the net-rate map. */
  function Outputs(g: FactoryGroup): (r: Rates)
    ensures forall m :: m in r <==> m in g.ioMap && g.ioMap[m] > 0.0
    ensures forall m :: m in r ==> r[m] == g.ioMap[m]
  {
    map m | m in g.ioMap && g.ioMap[m] > 0.0 :: g.ioMap[m]
  }

  /** The materials `a` consumes and `b` produces. */
  function Shared(a: FactoryGroup, b: FactoryGroup): set<int> {
    Inputs(a).Keys * Outputs(b).Keys
  }

  /** How many `b` cover `a`'s deficit of the shared material `m`. */
  function Candidate(a: FactoryGroup, b: FactoryGroup, m: int): real
    requires m in Shared(a, b)
  {
    -a.ioMap[m] / b.ioMap[m]
  }

  /** `r` is the largest candidate ratio over the shared materials. */
  ghost predicate IsMaxRatio(a: FactoryGroup, b: FactoryGroup, r: real) {
    && (exists m :: m in Shared(a, b) && r == Candidate(a, b, m))
    && (forall m :: m in Shared(a, b) ==> Candidate(a, b, m) <= r)
  }

  /** Among finitely many shared materials one has the largest candidate ratio. */
  lemma {:induction false} MaxCandidateExists(a: FactoryGroup, b: FactoryGroup, s: set<int>)
    requires s != {} && s <= Shared(a, b)
    ensures exists m :: m in s && forall m' :: m' in s ==> Candidate(a, b, m') <= Candidate(a, b, m)
    decreases s
  {
    Sets.HasElement(s);
    var x :| x in s;
    if s != {x} {
      MaxCandidateExists(a, b, s - {x});
      var y :| y in s - {x} && forall m' :: m' in s - {x} ==> Candidate(a, b, m') <= Candidate(a, b, y);
      if Candidate(a, b, x) <= Candidate(a, b, y) {
        assert forall m' :: m' in s ==> Candidate(a, b, m') <= Candidate(a, b, y);
      } else {
        assert forall m' :: m' in s ==> Candidate(a, b, m') <= Candidate(a, b, x);
      }
    } else {
      assert forall m' :: m' in s ==> m' == x;
    }
  }

  /**
   * Group `/` group: an error when no material is consumed by `a` and produced by `b`, else the
   * largest ratio, which is positive.
   */
  ghost function Ratio(a: FactoryGroup, b: FactoryGroup): (r: Result<real>)
    ensures r.Err? <==> Shared(a, b) == {}
    ensures r.Err? ==> r.error == NoSharedMaterial
    ensures r.Ok? ==> IsMaxRatio(a, b, r.value) && r.value > 0.0
  {
    var s := Shared(a, b);
    if s == {} then Err(NoSharedMaterial)
    else
      MaxCandidateExists(a, b, s);
      var m :| m in s && forall m' :: m' in s ==> Candidate(a, b, m') <= Candidate(a, b, m);
      assert a.ioMap[m] < 0.0 && b.ioMap[m] > 0.0;
      Ok(Candidate(a, b, m))
  }

  /** `g / d`: scalar division for a number (zero is a division error), the covering ratio for an entity. */
  ghost function Divide(g: FactoryGroup, d: Divisor): (r: Result<Quotient>)
    ensures d.Number? ==> (r.Err? <==> d.k == 0.0)
    ensures d.Entity? ==> (r.Err? <==> Shared(g, AsGroup(d.operand)) == {})
    ensures r.Err? ==> r.error == if d.Number? then ZeroDivisionError else NoSharedMaterial
    ensures r.Ok? ==> (r.value.Scaled? <==> d.Number?)
    ensures r.Ok? && r.value.Count? ==> r.value.ratio > 0.0
  {
    match d
    case Number(k) => if k == 0.0 then Err(ZeroDivisionError) else Ok(Scaled(Scale(g, 1.0 / k)))
    case Entity(o) =>
      match Ratio(g, AsGroup(o))
      case Ok(r) => Ok(Count(r))
      case Err(e) => Err(e)
  }

  /**
   * `g @ o`: for a factory, `g + (g / f) * f`, or `g + f` unscaled when the division fails;
   * any other operand is a type error.
   */
  ghost function Chain(g: FactoryGroup, o: Operand): (r: Result<FactoryGroup>)
    ensures r.Err? <==> !o.FactoryOperand?
    ensures r.Err? ==> r.error == TypeError
    ensures r.Ok? ==> r.value.factories.Keys == g.factories.Keys + {o.factory.id}
  {
    match o
    case FactoryOperand(f) =>
      assert Singleton(f).factories.Keys == {f.id};
      (match Ratio(g, Singleton(f))
       case Ok(k) => Ok(Plus(g, GroupOperand(Scale(Singleton(f), k))))
       case Err(_) => Ok(Plus(g, FactoryOperand(f))))
    case _ => Err(TypeError)
  }
}
