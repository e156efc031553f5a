/**
 * Laws of the FactoryGroup operators: what the constructor accumulates, how `+` prunes, what `-`
 * really computes, how scaling and division undo each other, and why the ratio of `/` and the
 * chaining of `@` cover a group's deficits.
 */
module FactoryGroupLaws {
  import opened Outcomes
  import opened Factories
  import opened FactoryGroups
  import Materials

  // ---------------------------------------------------------------------------------------------
  // The constructor as a linear combination

  /** The net rate of material `m` that `count` of `f` contribute: outputs minus inputs, plus power. */
  function ItemRate(f: Factory, count: real, m: int): real {
    count * Get(f.outputs, m) - count * Get(f.inputs, m) + (if m == POWER then PowerDraw(f, count) else 0.0)
  }

  /** The sum of the item rates of `m` over `items`. */
  function NetRate(items: seq<(Factory, real)>, m: int): real
    decreases |items|
  {
    if items == [] then 0.0
    else NetRate(items[..|items| - 1], m) + ItemRate(items[|items| - 1].0, items[|items| - 1].1, m)
  }

  /** The sum of the counts that `items` give the factory id `id`. */
  function CountOf(items: seq<(Factory, real)>, id: int): real
    decreases |items|
  {
    if items == [] then 0.0
    else CountOf(items[..|items| - 1], id) + (if items[|items| - 1].0.id == id then items[|items| - 1].1 else 0.0)
  }

  /** Material `m` is named by some item: an output, an input, or POWER (every factory has a power entry). */
  predicate Mentions(items: seq<(Factory, real)>, m: int) {
    exists i :: 0 <= i < |items| && (m in items[i].0.outputs || m in items[i].0.inputs || m == POWER)
  }

  /** Some item is a factory with id `id`. */
  predicate Lists(items: seq<(Factory, real)>, id: int) {
    exists i :: 0 <= i < |items| && items[i].0.id == id
  }

  lemma AddScaledGet(d: map<int, real>, rates: map<int, real>, k: real, m: int)
    ensures Get(AddScaled(d, rates, k), m) == Get(d, m) + k * Get(rates, m)
    ensures m in AddScaled(d, rates, k) <==> m in d || m in rates
  {
  }

  lemma AddPowerGet(io: Rates, p: real, m: int)
    ensures Get(AddPower(io, p), m) == Get(io, m) + (if m == POWER then p else 0.0)
    ensures m in AddPower(io, p) <==> m in io || m == POWER
  {
  }

  lemma AddFactoryUnfold(g: FactoryGroup, f: Factory, count: real)
    ensures AddFactory(g, f, count).ioMap
            == AddPower(AddScaled(AddScaled(g.ioMap, f.outputs, count), f.inputs, -count), PowerDraw(f, count))
  {
  }

  lemma ItemRateUnfold(f: Factory, count: real, m: int)
    ensures ItemRate(f, count, m)
            == count * Get(f.outputs, m) - count * Get(f.inputs, m) + (if m == POWER then PowerDraw(f, count) else 0.0)
  {
  }

  lemma NegatedProduct(k: real, x: real)
    ensures (-k) * x == -(k * x)
  {
  }

  /** The outputs, then the inputs, of one constructor pass. */
  lemma AddFactoryFlows(g: FactoryGroup, f: Factory, count: real, m: int)
    ensures var io := AddScaled(AddScaled(g.ioMap, f.outputs, count), f.inputs, -count);
            && Get(io, m) == Get(g.ioMap, m) + count * Get(f.outputs, m) - count * Get(f.inputs, m)
            && (m in io <==> m in g.ioMap || m in f.outputs || m in f.inputs)
  {
    AddScaledGet(g.ioMap, f.outputs, count, m);
    AddScaledGet(AddScaled(g.ioMap, f.outputs, count), f.inputs, -count, m);
    NegatedProduct(count, Get(f.inputs, m));
  }

  /** The power of one constructor pass. */
  lemma AddFactoryPower(g: FactoryGroup, f: Factory, count: real, m: int)
    ensures var io := AddScaled(AddScaled(g.ioMap, f.outputs, count), f.inputs, -count);
            && Get(AddFactory(g, f, count).ioMap, m) == Get(io, m) + (if m == POWER then PowerDraw(f, count) else 0.0)
            && (m in AddFactory(g, f, count).ioMap <==> m in io || m == POWER)
  {
    var io := AddScaled(AddScaled(g.ioMap, f.outputs, count), f.inputs, -count);
    AddPowerGet(io, PowerDraw(f, count), m);
    AddFactoryUnfold(g, f, count);
  }

  /** One pass of the constructor loop adds exactly the item's rates. */
  lemma AddFactoryRate(g: FactoryGroup, f: Factory, count: real, m: int)
    ensures Get(AddFactory(g, f, count).ioMap, m) == Get(g.ioMap, m) + ItemRate(f, count, m)
    ensures m in AddFactory(g, f, count).ioMap <==> m in g.ioMap || m in f.outputs || m in f.inputs || m == POWER
  {
    AddFactoryFlows(g, f, count, m);
    AddFactoryPower(g, f, count, m);
    ItemRateUnfold(f, count, m);
  }

  /** One pass of the constructor loop adds the item's count under its id. */
  lemma AddFactoryCount(g: FactoryGroup, f: Factory, count: real, id: int)
    ensures Get(AddFactory(g, f, count).factories, id) == Get(g.factories, id) + (if id == f.id then count else 0.0)
    ensures id in AddFactory(g, f, count).factories <==> id in g.factories || id == f.id
  {
  }

  lemma MentionsSplit(items: seq<(Factory, real)>, m: int)
    requires items != []
    ensures Mentions(items, m) <==>
              Mentions(items[..|items| - 1], m) || m in items[|items| - 1].0.outputs || m in items[|items| - 1].0.inputs || m == POWER
  {
    var pre := items[..|items| - 1];
    if Mentions(pre, m) {
      var i :| 0 <= i < |pre| && (m in pre[i].0.outputs || m in pre[i].0.inputs || m == POWER);
      assert items[i] == pre[i];
    }
    var last := |items| - 1;
    if m in items[last].0.outputs || m in items[last].0.inputs || m == POWER {
      assert 0 <= last < |items| && (m in items[last].0.outputs || m in items[last].0.inputs || m == POWER);
    }
  }

  lemma ListsSplit(items: seq<(Factory, real)>, id: int)
    requires items != []
    ensures Lists(items, id) <==> Lists(items[..|items| - 1], id) || items[|items| - 1].0.id == id
  {
    var pre := items[..|items| - 1];
    if Lists(pre, id) {
      var i :| 0 <= i < |pre| && pre[i].0.id == id;
      assert items[i] == pre[i];
    }
  }

  /**
   * The constructor loop: every rate is the seed's plus the net rate of the items, and every
   * count the seed's plus the items' counts under that id; a key is present iff the seed has it
   * or an item names it.
   */
  lemma {:induction false} AddFactoriesGet(g: FactoryGroup, items: seq<(Factory, real)>, m: int, id: int)
    ensures Get(AddFactories(g, items).ioMap, m) == Get(g.ioMap, m) + NetRate(items, m)
    ensures m in AddFactories(g, items).ioMap <==> m in g.ioMap || Mentions(items, m)
    ensures Get(AddFactories(g, items).factories, id) == Get(g.factories, id) + CountOf(items, id)
    ensures id in AddFactories(g, items).factories <==> id in g.factories || Lists(items, id)
    decreases |items|
  {
    if items != [] {
      var pre := items[..|items| - 1];
      var last := items[|items| - 1];
      AddFactoriesGet(g, pre, m, id);
      AddFactoryRate(AddFactories(g, pre), last.0, last.1, m);
      AddFactoryCount(AddFactories(g, pre), last.0, last.1, id);
      MentionsSplit(items, m);
      ListsSplit(items, id);
    }
  }

  /**
   * `FactoryGroup(items, materials=rates, factory_group=seed)`: each rate is the seed's rate, plus
   * Σ count·outputs − Σ count·inputs (+ Σ count·power on POWER), plus the raw material rate; each
   * count is the seed's plus the counts of the id-equal items.
   */
  lemma ConstructGet(seed: FactoryGroup, items: seq<(Factory, real)>, materials: Rates, m: int, id: int)
    ensures Get(Construct(seed, items, materials).ioMap, m) == Get(seed.ioMap, m) + NetRate(items, m) + Get(materials, m)
    ensures m in Construct(seed, items, materials).ioMap <==> m in seed.ioMap || Mentions(items, m) || m in materials
    ensures Get(Construct(seed, items, materials).factories, id) == Get(seed.factories, id) + CountOf(items, id)
    ensures id in Construct(seed, items, materials).factories <==> id in seed.factories || Lists(items, id)
  {
    AddFactoriesGet(seed, items, m, id);
    var g := AddFactories(seed, items);
    AddScaledGet(g.ioMap, materials, 1.0, m);
  }

  /** The constructor given any factory at all has a POWER entry. */
  lemma ConstructHasPower(seed: FactoryGroup, items: seq<(Factory, real)>, materials: Rates)
    requires items != []
    ensures POWER in Construct(seed, items, materials).ioMap
  {
    assert Mentions(items, POWER) by {
      assert 0 <= 0 < |items| && (POWER in items[0].0.outputs || POWER in items[0].0.inputs || POWER == POWER);
    }
    ConstructGet(seed, items, materials, POWER, 0);
  }

  /**
   * A list of factories means count 1 for each: id-equal entries collapse into one entry, the
   * first, and every listed id gets exactly count 1.
   */
  lemma {:induction false} ListCountsOnce(fs: seq<Factory>, id: int)
    ensures CountOf(ListCounts(fs), id) == if exists f :: f in fs && f.id == id then 1.0 else 0.0
    ensures Lists(ListCounts(fs), id) <==> exists f :: f in fs && f.id == id
    decreases |fs|
  {
    if fs != [] {
      var pre := fs[..|fs| - 1];
      var last := fs[|fs| - 1];
      ListCountsOnce(pre, id);
      ListCountsOnce(pre, last.id);
      var items := ListCounts(pre);
      assert HasFactory(items, last) <==> Lists(items, last.id);
      assert fs == pre + [last];
      if !HasFactory(items, last) {
        var items' := items + [(last, 1.0)];
        assert items'[..|items'| - 1] == items;
        ListsSplit(items', id);
        assert items'[|items'| - 1] == (last, 1.0);
      }
    }
  }

  /** `FactoryGroup([f])`: count 1 of `f`, and exactly `f`'s outputs minus inputs, plus its power. */
  lemma SingletonGet(f: Factory, m: int)
    ensures Singleton(f).factories == map[f.id := 1.0]
    ensures Get(Singleton(f).ioMap, m) == Get(f.outputs, m) - Get(f.inputs, m) + (if m == POWER then f.power as real else 0.0)
    ensures m in Singleton(f).ioMap <==> m in f.outputs || m in f.inputs || m == POWER
  {
    var items := ListCounts([f]);
    assert [f][..0] == [];
    assert ListCounts([f][..0]) == [];
    assert !HasFactory([], f);
    assert items == [] + [(f, 1.0)];
    assert items[..0] == [];
    ConstructGet(Empty, items, map[], m, f.id);
    assert Mentions(items, m) <==> m in f.outputs || m in f.inputs || m == POWER by {
      if Mentions(items, m) {
        var i :| 0 <= i < |items| && (m in items[i].0.outputs || m in items[i].0.inputs || m == POWER);
        assert i == 0;
      }
    }
    forall id
      ensures id in Singleton(f).factories <==> id == f.id
      ensures id in Singleton(f).factories ==> Singleton(f).factories[id] == 1.0
    {
      ConstructGet(Empty, items, map[], m, id);
      assert Lists(items, id) <==> id == f.id by {
        if Lists(items, id) {
          var i :| 0 <= i < |items| && items[i].0.id == id;
          assert i == 0;
        }
      }
    }
    assert Singleton(f).factories.Keys == {f.id};
  }

  // ---------------------------------------------------------------------------------------------
  // Addition, scaling and subtraction

  /**
   * Group `+` group: counts add over both key sets and are never pruned; a rate key only the left
   * operand has is never pruned; a key of the right operand is kept iff its sum is not near zero;
   * so every rate is within Epsilon of the exact sum.
   */
  lemma SumGet(a: FactoryGroup, b: FactoryGroup, m: int, id: int)
    ensures Get(Sum(a, b).factories, id) == Get(a.factories, id) + Get(b.factories, id)
    ensures id in Sum(a, b).factories <==> id in a.factories || id in b.factories
    ensures m in Sum(a, b).ioMap ==> Sum(a, b).ioMap[m] == Get(a.ioMap, m) + Get(b.ioMap, m)
    ensures m in a.ioMap && m !in b.ioMap ==> m in Sum(a, b).ioMap
    ensures m in b.ioMap ==> (m in Sum(a, b).ioMap <==> !NearZero(Get(a.ioMap, m) + b.ioMap[m]))
    ensures m !in a.ioMap && m !in b.ioMap ==> m !in Sum(a, b).ioMap
    ensures NearZero(Get(Sum(a, b).ioMap, m) - (Get(a.ioMap, m) + Get(b.ioMap, m)))
  {
  }

  /** Adding the empty group changes nothing, near-zero rates of the left operand included. */
  lemma SumRightIdentity(a: FactoryGroup)
    ensures Sum(a, Empty) == a
  {
    forall id
      ensures id in Sum(a, Empty).factories <==> id in a.factories
      ensures id in a.factories ==> Sum(a, Empty).factories[id] == a.factories[id]
    {
      SumGet(a, Empty, 0, id);
    }
    forall m
      ensures m in Sum(a, Empty).ioMap <==> m in a.ioMap
      ensures m in a.ioMap ==> Sum(a, Empty).ioMap[m] == a.ioMap[m]
    {
      SumGet(a, Empty, m, 0);
    }
    assert Sum(a, Empty).factories == a.factories;
    assert Sum(a, Empty).ioMap == a.ioMap;
  }

  /** Group `+` commutes exactly on counts and up to Epsilon on every rate (pruning is one-sided). */
  lemma SumCommutes(a: FactoryGroup, b: FactoryGroup, m: int)
    ensures Sum(a, b).factories == Sum(b, a).factories
    ensures NearZero(Get(Sum(a, b).ioMap, m) - Get(Sum(b, a).ioMap, m))
  {
    SumGet(a, b, m, 0);
    SumGet(b, a, m, 0);
    forall id
      ensures id in Sum(a, b).factories <==> id in Sum(b, a).factories
      ensures id in Sum(a, b).factories ==> Sum(a, b).factories[id] == Sum(b, a).factories[id]
    {
      SumGet(a, b, m, id);
      SumGet(b, a, m, id);
    }
  }

  /** The pruning is one-sided: a near-zero rate only the left operand has survives `+`. */
  lemma SumKeepsLeftNearZero()
    ensures var a := FactoryGroup(map[], map[1 := 0.00005]);
            var b := FactoryGroup(map[], map[2 := 1.0]);
            && Sum(a, b).ioMap == map[1 := 0.00005, 2 := 1.0]
            && Sum(b, a).ioMap == map[2 := 1.0]
  {
    var a := FactoryGroup(map[], map[1 := 0.00005]);
    var b := FactoryGroup(map[], map[2 := 1.0]);
    SumGet(a, b, 1, 0);
    SumGet(a, b, 2, 0);
    SumGet(b, a, 1, 0);
    SumGet(b, a, 2, 0);
    assert Sum(a, b).ioMap.Keys == {1, 2};
    assert Sum(b, a).ioMap.Keys == {2};
  }

  /** `g * k`: the same keys, every count and every rate multiplied by `k`. */
  lemma ScaleGet(g: FactoryGroup, k: real, m: int, id: int)
    ensures Get(Scale(g, k).factories, id) == Get(g.factories, id) * k
    ensures id in Scale(g, k).factories <==> id in g.factories
    ensures Get(Scale(g, k).ioMap, m) == Get(g.ioMap, m) * k
    ensures m in Scale(g, k).ioMap <==> m in g.ioMap
  {
  }

  /** Scaling by 1 is the identity. */
  lemma ScaleByOne(g: FactoryGroup)
    ensures Scale(g, 1.0) == g
  {
    assert Scale(g, 1.0).factories == g.factories;
    assert Scale(g, 1.0).ioMap == g.ioMap;
  }

  lemma ScaleTwiceRateGet(g: FactoryGroup, j: real, k: real, m: int)
    ensures Get(Scale(Scale(g, j), k).ioMap, m) == Get(g.ioMap, m) * j * k
    ensures m in Scale(Scale(g, j), k).ioMap <==> m in g.ioMap
  {
    var h := Scale(g, j);
    ScaleGet(g, j, m, 0);
    ScaleGet(h, k, m, 0);
    ProductChain(Get(g.ioMap, m), j, k, Get(h.ioMap, m), Get(Scale(h, k).ioMap, m));
  }

  lemma ScaleTwiceCountGet(g: FactoryGroup, j: real, k: real, id: int)
    ensures Get(Scale(Scale(g, j), k).factories, id) == Get(g.factories, id) * j * k
    ensures id in Scale(Scale(g, j), k).factories <==> id in g.factories
  {
    var h := Scale(g, j);
    ScaleGet(g, j, 0, id);
    ScaleGet(h, k, 0, id);
    ProductChain(Get(g.factories, id), j, k, Get(h.factories, id), Get(Scale(h, k).factories, id));
  }

  lemma ProductChain(x: real, j: real, k: real, a: real, b: real)
    requires a == x * j && b == a * k
    ensures b == x * j * k
  {
  }

  lemma SameProduct(a: real, b: real, x: real, j: real, k: real)
    requires a == x * j * k && b == x * (j * k)
    ensures a == b
  {
  }

  lemma ScaleTwiceRate(g: FactoryGroup, j: real, k: real, m: int)
    ensures Get(Scale(Scale(g, j), k).ioMap, m) == Get(Scale(g, j * k).ioMap, m)
    ensures m in Scale(Scale(g, j), k).ioMap <==> m in Scale(g, j * k).ioMap
  {
    ScaleTwiceRateGet(g, j, k, m);
    ScaleGet(g, j * k, m, 0);
    SameProduct(Get(Scale(Scale(g, j), k).ioMap, m), Get(Scale(g, j * k).ioMap, m), Get(g.ioMap, m), j, k);
  }

  lemma ScaleTwiceCount(g: FactoryGroup, j: real, k: real, id: int)
    ensures Get(Scale(Scale(g, j), k).factories, id) == Get(Scale(g, j * k).factories, id)
    ensures id in Scale(Scale(g, j), k).factories <==> id in Scale(g, j * k).factories
  {
    ScaleTwiceCountGet(g, j, k, id);
    ScaleGet(g, j * k, 0, id);
    SameProduct(Get(Scale(Scale(g, j), k).factories, id), Get(Scale(g, j * k).factories, id), Get(g.factories, id), j, k);
  }

  /** Scaling twice is scaling once by the product. */
  lemma ScaleTwice(g: FactoryGroup, j: real, k: real)
    ensures Scale(Scale(g, j), k) == Scale(g, j * k)
  {
    var twice, once := Scale(Scale(g, j), k), Scale(g, j * k);
    forall id
      ensures id in twice.factories <==> id in once.factories
      ensures id in twice.factories ==> twice.factories[id] == once.factories[id]
    {
      ScaleTwiceCount(g, j, k, id);
    }
    forall m
      ensures m in twice.ioMap <==> m in once.ioMap
      ensures m in twice.ioMap ==> twice.ioMap[m] == once.ioMap[m]
    {
      ScaleTwiceRate(g, j, k, m);
    }
    assert twice.factories == once.factories;
    assert twice.ioMap == once.ioMap;
  }

  lemma ReciprocalProduct(x: real, k: real, a: real)
    requires k != 0.0 && a == x * (1.0 / k)
    ensures a == x / k
  {
  }

  lemma ScaleByReciprocalRate(g: FactoryGroup, k: real, m: int)
    requires k != 0.0
    ensures Get(Scale(g, 1.0 / k).ioMap, m) == Get(g.ioMap, m) / k
    ensures m in Scale(g, 1.0 / k).ioMap <==> m in g.ioMap
  {
    ScaleGet(g, 1.0 / k, m, 0);
    ReciprocalProduct(Get(g.ioMap, m), k, Get(Scale(g, 1.0 / k).ioMap, m));
  }

  lemma ScaleByReciprocalCount(g: FactoryGroup, k: real, id: int)
    requires k != 0.0
    ensures Get(Scale(g, 1.0 / k).factories, id) == Get(g.factories, id) / k
    ensures id in Scale(g, 1.0 / k).factories <==> id in g.factories
  {
    ScaleGet(g, 1.0 / k, 0, id);
    ReciprocalProduct(Get(g.factories, id), k, Get(Scale(g, 1.0 / k).factories, id));
  }

  lemma Reciprocal(k: real)
    requires k != 0.0
    ensures k * (1.0 / k) == 1.0
  {
  }

  /** `g / k` for a number undoes `g * k`. */
  lemma DivideUndoesScale(g: FactoryGroup, k: real)
    requires k != 0.0
    ensures Divide(Scale(g, k), Number(k)) == Ok(Scaled(g))
  {
    DivideByNumberUnfold(Scale(g, k), k);
    Reciprocal(k);
    ScaleInverse(g, k, 1.0 / k);
  }

  /** Scaling by `k`, then by its inverse, gives the group back. */
  lemma ScaleInverse(g: FactoryGroup, k: real, r: real)
    requires k * r == 1.0
    ensures Scale(Scale(g, k), r) == g
  {
    ScaleTwice(g, k, r);
    ScaleSame(g, k * r, 1.0);
    ScaleByOne(g);
  }

  lemma ScaleSame(g: FactoryGroup, j: real, k: real)
    requires j == k
    ensures Scale(g, j) == Scale(g, k)
  {
  }

  lemma DivideByNumberUnfold(g: FactoryGroup, k: real)
    requires k != 0.0
    ensures Divide(g, Number(k)) == Ok(Scaled(Scale(g, 1.0 / k)))
  {
  }

  /**
   * `g / k` for a number is `g * (1/k)`: every count and rate divided by `k`, over the same keys;
   * dividing by zero is a division error.
   */
  lemma DivideByNumber(g: FactoryGroup, k: real, m: int, id: int)
    ensures k == 0.0 <==> Divide(g, Number(k)) == Err(ZeroDivisionError)
    ensures k != 0.0 ==> Divide(g, Number(k)).Ok? && Divide(g, Number(k)).value.Scaled?
    ensures k != 0.0 ==>
              var h := Divide(g, Number(k)).value.group;
              && Get(h.ioMap, m) == Get(g.ioMap, m) / k && (m in h.ioMap <==> m in g.ioMap)
              && Get(h.factories, id) == Get(g.factories, id) / k && (id in h.factories <==> id in g.factories)
  {
    if k != 0.0 {
      DivideByNumberUnfold(g, k);
      ScaleByReciprocalRate(g, k, m);
      ScaleByReciprocalCount(g, k, id);
    }
  }

  /**
   * `a - b` as written computes b − a: every count is b's minus a's, and every rate is within
   * Epsilon of b's minus a's.
   */
  lemma MinusIsReversed(a: FactoryGroup, b: FactoryGroup, m: int, id: int)
    ensures Get(Minus(a, GroupOperand(b)).factories, id) == Get(b.factories, id) - Get(a.factories, id)
    ensures NearZero(Get(Minus(a, GroupOperand(b)).ioMap, m) - (Get(b.ioMap, m) - Get(a.ioMap, m)))
  {
    SumGet(Scale(a, -1.0), b, m, id);
    ScaleGet(a, -1.0, m, id);
  }

  /** A witness: the group with rate 1 of material 1, minus the empty group, has rate -1 as written. */
  lemma MinusEmptyNegates()
    ensures var a := FactoryGroup(map[], map[1 := 1.0]);
            && Minus(a, GroupOperand(Empty)) == FactoryGroup(map[], map[1 := -1.0])
            && Difference(a, Empty) == a
  {
    var a := FactoryGroup(map[], map[1 := 1.0]);
    SumRightIdentity(Scale(a, -1.0));
    assert Scale(a, -1.0) == FactoryGroup(map[], map[1 := -1.0]);
    assert Scale(Empty, -1.0) == Empty;
    SumRightIdentity(a);
  }

  /** The corrected `a - b`: every count is a's minus b's, every rate within Epsilon of a's minus b's. */
  lemma DifferenceGet(a: FactoryGroup, b: FactoryGroup, m: int, id: int)
    ensures Get(Difference(a, b).factories, id) == Get(a.factories, id) - Get(b.factories, id)
    ensures NearZero(Get(Difference(a, b).ioMap, m) - (Get(a.ioMap, m) - Get(b.ioMap, m)))
  {
    SumGet(a, Scale(b, -1.0), m, id);
    ScaleGet(b, -1.0, m, id);
  }

  /**
   * The corrected subtraction undoes addition: the counts come back exactly, and every rate comes
   * back to within twice Epsilon (each of the two operations may prune a near-zero rate).
   */
  lemma DifferenceUndoesSum(a: FactoryGroup, b: FactoryGroup, m: int, id: int)
    ensures Get(Difference(Sum(a, b), b).factories, id) == Get(a.factories, id)
    ensures -2.0 * Epsilon < Get(Difference(Sum(a, b), b).ioMap, m) - Get(a.ioMap, m) < 2.0 * Epsilon
  {
    SumGet(a, b, m, id);
    DifferenceGet(Sum(a, b), b, m, id);
  }

  /** The corrected `a - a` cancels every rate (all are pruned) and leaves every count at zero. */
  lemma DifferenceSelf(a: FactoryGroup, id: int)
    ensures Difference(a, a).ioMap == map[]
    ensures Get(Difference(a, a).factories, id) == 0.0
  {
    DifferenceGet(a, a, 0, id);
    forall m
      ensures m !in Difference(a, a).ioMap
    {
      SumGet(a, Scale(a, -1.0), m, id);
      ScaleGet(a, -1.0, m, id);
    }
  }

  lemma MaterialListRatesGet(ms: seq<Materials.Material>, x: int)
    ensures x in MaterialListRates(ms) <==> exists mt :: mt in ms && mt.id == x
    ensures Get(MaterialListRates(ms), x) == if x in MaterialListRates(ms) then 1.0 else 0.0
  {
    if exists mt :: mt in ms && mt.id == x {
      var mt :| mt in ms && mt.id == x;
      assert mt.id in MaterialListRates(ms);
    }
  }

  /**
   * The reflected `material - g` evaluates `g - material`, which is `(-1 * g) + material`: the
   * material's rate 1 minus g, so the reflected form computes what its documentation says.
   */
  lemma ReflectedMinusMaterial(g: FactoryGroup, mat: Materials.Material, m: int, id: int)
    ensures Get(Minus(g, MaterialOperand(mat)).ioMap, m) == (if m == mat.id then 1.0 else 0.0) - Get(g.ioMap, m)
    ensures Get(Minus(g, MaterialOperand(mat)).factories, id) == -Get(g.factories, id)
  {
    ConstructGet(Scale(g, -1.0), [], MaterialListRates([mat]), m, id);
    MaterialListRatesGet([mat], m);
    ScaleGet(g, -1.0, m, id);
    if m == mat.id {
      assert mat in [mat];
    }
  }

  // ---------------------------------------------------------------------------------------------
  // Sign filters, division and chaining

  /**
   * `get_inputs` and `get_outputs` split the net-rate map by strict sign: they are disjoint, and
   * every other entry is exactly zero.
   */
  lemma SignFiltersPartition(g: FactoryGroup, m: int)
    ensures Inputs(g).Keys !! Outputs(g).Keys
    ensures Inputs(g).Keys + Outputs(g).Keys <= g.ioMap.Keys
    ensures m in g.ioMap ==> m in Inputs(g) || m in Outputs(g) || g.ioMap[m] == 0.0
  {
  }

  /** A group with scale `r` of `b` added has no deficit left in any material `a` needs and `b` makes. */
  ghost predicate Covers(a: FactoryGroup, b: FactoryGroup, r: real) {
    forall m :: m in Shared(a, b) ==> Get(a.ioMap, m) + r * Get(b.ioMap, m) >= 0.0
  }

  lemma CoverStep(x: real, y: real, r: real)
    requires y > 0.0
    ensures -x / y <= r <==> x + r * y >= 0.0
  {
    if -x / y <= r {
      assert -x == (-x / y) * y;
    } else {
      assert -x == (-x / y) * y;
    }
  }

  lemma SharedSigns(a: FactoryGroup, b: FactoryGroup, m: int)
    requires m in Shared(a, b)
    ensures m in a.ioMap && a.ioMap[m] < 0.0 && m in b.ioMap && b.ioMap[m] > 0.0
  {
  }

  /** For one shared material: a scale covers its deficit iff it is at least its candidate ratio. */
  lemma CandidateCovers(a: FactoryGroup, b: FactoryGroup, m: int, r: real)
    requires m in Shared(a, b)
    ensures Candidate(a, b, m) <= r <==> Get(a.ioMap, m) + r * Get(b.ioMap, m) >= 0.0
  {
    SharedSigns(a, b, m);
    CoverStep(a.ioMap[m], b.ioMap[m], r);
  }

  /** The largest candidate ratio is the least scale that covers every shared deficit. */
  lemma MaxRatioIsLeastCover(a: FactoryGroup, b: FactoryGroup, q: real, r: real)
    requires IsMaxRatio(a, b, q)
    ensures Covers(a, b, r) <==> q <= r
  {
    var m0 :| m0 in Shared(a, b) && q == Candidate(a, b, m0);
    if Covers(a, b, r) {
      CandidateCovers(a, b, m0, r);
    }
    if q <= r {
      forall m | m in Shared(a, b)
        ensures Get(a.ioMap, m) + r * Get(b.ioMap, m) >= 0.0
      {
        CandidateCovers(a, b, m, r);
      }
    }
  }

  /**
   * The ratio of `a / b` is the least scale of `b` that covers all of `a`'s deficits in the
   * materials they share: a scale covers them iff it is at least the ratio.
   */
  lemma RatioIsLeastCover(a: FactoryGroup, b: FactoryGroup, r: real)
    requires Ratio(a, b).Ok?
    ensures Covers(a, b, r) <==> Ratio(a, b).value <= r
  {
    MaxRatioIsLeastCover(a, b, Ratio(a, b).value, r);
  }

  /** In particular the ratio itself covers every shared deficit. */
  lemma RatioCovers(a: FactoryGroup, b: FactoryGroup)
    requires Ratio(a, b).Ok?
    ensures Covers(a, b, Ratio(a, b).value)
  {
    RatioIsLeastCover(a, b, Ratio(a, b).value);
  }

  /** The group of one unit of a raw material: rate 1 of that material and nothing else. */
  lemma MaterialGroup(mat: Materials.Material)
    ensures AsGroup(MaterialOperand(mat)) == FactoryGroup(map[], map[mat.id := 1.0])
  {
    var h := AsGroup(MaterialOperand(mat));
    forall x
      ensures x in h.ioMap <==> x == mat.id
      ensures x in h.ioMap ==> h.ioMap[x] == 1.0
    {
      ConstructGet(Empty, [], MaterialListRates([mat]), x, 0);
      MaterialListRatesGet([mat], x);
      assert x == mat.id ==> mat in [mat];
      assert !Mentions([], x);
    }
    forall id
      ensures id !in h.factories
    {
      ConstructGet(Empty, [], MaterialListRates([mat]), 0, id);
      assert !Lists([], id);
    }
    assert h.ioMap == map[mat.id := 1.0];
    assert h.factories == map[];
  }

  /** `g / material`: how much of the material `g` lacks, or an error when `g` does not consume it. */
  lemma DivideByMaterial(g: FactoryGroup, mat: Materials.Material)
    ensures Get(g.ioMap, mat.id) < 0.0 ==> Divide(g, Entity(MaterialOperand(mat))) == Ok(Count(-g.ioMap[mat.id]))
    ensures Get(g.ioMap, mat.id) >= 0.0 ==> Divide(g, Entity(MaterialOperand(mat))) == Err(NoSharedMaterial)
  {
    var b := AsGroup(MaterialOperand(mat));
    MaterialGroup(mat);
    if Get(g.ioMap, mat.id) < 0.0 {
      assert mat.id in Shared(g, b);
      assert Shared(g, b) == {mat.id};
      var q := Ratio(g, b).value;
      assert q == Candidate(g, b, mat.id);
    } else {
      assert Shared(g, b) == {};
    }
  }

  /** `g @ o` is defined for a factory `o` only; every other operand is a type error. */
  lemma ChainOnlyFactories(g: FactoryGroup, o: Operand)
    ensures Chain(g, o).Err? <==> !o.FactoryOperand?
    ensures Chain(g, o).Err? ==> Chain(g, o).error == TypeError
  {
  }

  lemma ChainUnfold(g: FactoryGroup, f: Factory)
    requires Shared(g, Singleton(f)) != {}
    ensures Chain(g, FactoryOperand(f)) == Ok(Sum(g, Scale(Singleton(f), Ratio(g, Singleton(f)).value)))
  {
  }

  /** Adding `b` at the ratio of `a / b` leaves no deficit in a shared material. */
  lemma CoveredSum(a: FactoryGroup, b: FactoryGroup, k: real, m: int)
    requires Ratio(a, b) == Ok(k)
    requires m in Shared(a, b)
    ensures Get(Sum(a, Scale(b, k)).ioMap, m) >= 0.0
  {
    var x, y := Get(a.ioMap, m), Get(b.ioMap, m);
    assert x + k * y >= 0.0 by {
      RatioCovers(a, b);
    }
    assert Get(Scale(b, k).ioMap, m) == y * k by {
      ScaleGet(b, k, m, 0);
    }
    CommutedProduct(x, y, k);
    SumGet(a, Scale(b, k), m, 0);
  }

  lemma CommutedProduct(x: real, y: real, k: real)
    ensures x + k * y == x + y * k
  {
  }

  lemma ChainCount(g: FactoryGroup, f: Factory, k: real, id: int)
    ensures Get(Sum(g, Scale(Singleton(f), k)).factories, id) == Get(g.factories, id) + (if id == f.id then k else 0.0)
  {
    var s := Singleton(f);
    SumGet(g, Scale(s, k), 0, id);
    ScaleGet(s, k, 0, id);
    SingletonGet(f, 0);
    assert Get(s.factories, id) == if id == f.id then 1.0 else 0.0;
  }

  /**
   * `g @ f` when `g` needs something `f` makes: `f` is added at the covering ratio, so no
   * material the two share is left in deficit, and the count of `f` grows by exactly that ratio.
   */
  lemma ChainCovers(g: FactoryGroup, f: Factory, m: int, id: int)
    requires Shared(g, Singleton(f)) != {}
    ensures Chain(g, FactoryOperand(f)).Ok?
    ensures m in Shared(g, Singleton(f)) ==> Get(Chain(g, FactoryOperand(f)).value.ioMap, m) >= 0.0
    ensures Get(Chain(g, FactoryOperand(f)).value.factories, id)
            == Get(g.factories, id) + (if id == f.id then Ratio(g, Singleton(f)).value else 0.0)
  {
    var k := Ratio(g, Singleton(f)).value;
    ChainUnfold(g, f);
    if m in Shared(g, Singleton(f)) {
      CoveredSum(g, Singleton(f), k, m);
    }
    ChainCount(g, f, k, id);
  }

  /** `g @ f` when `g` needs nothing `f` makes: `f` is simply added once, rates and all. */
  lemma ChainFallsBack(g: FactoryGroup, f: Factory, m: int, id: int)
    requires Shared(g, Singleton(f)) == {}
    ensures Chain(g, FactoryOperand(f)).Ok?
    ensures Get(Chain(g, FactoryOperand(f)).value.ioMap, m) == Get(g.ioMap, m) + ItemRate(f, 1.0, m)
    ensures Get(Chain(g, FactoryOperand(f)).value.factories, id) == Get(g.factories, id) + (if id == f.id then 1.0 else 0.0)
  {
    assert [f][..0] == [];
    assert ListCounts([f][..0]) == [];
    assert !HasFactory([], f);
    assert ListCounts([f]) == [(f, 1.0)];
    ConstructGet(g, [(f, 1.0)], map[], m, id);
    assert [(f, 1.0)][..0] == [];
  }

  lemma FactoryPlusFactoryCount(f: Factory, f2: Factory, id: int)
    ensures Get(Plus(Singleton(f), FactoryOperand(f2)).factories, id)
            == (if id == f.id then 1.0 else 0.0) + (if id == f2.id then 1.0 else 0.0)
    ensures id in Plus(Singleton(f), FactoryOperand(f2)).factories <==> id == f.id || id == f2.id
  {
    ConstructGet(Singleton(f), ListCounts([f2]), map[], 0, id);
    ListCountsOnce([f2], id);
    SingletonGet(f, 0);
    assert (exists x :: x in [f2] && x.id == id) <==> id == f2.id by {
      assert f2 in [f2];
    }
  }

  /**
   * Two factories added together: id-equal factories accumulate into one count, distinct ones
   * get one count each.
   */
  lemma FactoryPlusFactory(f: Factory, f2: Factory)
    ensures Plus(Singleton(f), FactoryOperand(f2)).factories
            == if f.id == f2.id then map[f.id := 2.0] else map[f.id := 1.0, f2.id := 1.0]
  {
    PlusFactoryCounts(Singleton(f), f2);
    CountOneMore(f.id, f2.id);
  }

  lemma CountOneMore(i: int, j: int)
    ensures map[i := 1.0][j := Get(map[i := 1.0], j) + 1.0]
            == if i == j then map[i := 2.0] else map[i := 1.0, j := 1.0]
  {
  }

  /** `g + f` raises the count of `f`'s id by one and leaves every other count as it was. */
  lemma PlusFactoryCounts(g: FactoryGroup, f: Factory)
    ensures Plus(g, FactoryOperand(f)).factories == g.factories[f.id := Get(g.factories, f.id) + 1.0]
  {
    OneFactoryCounts(f, g);
    assert Plus(g, FactoryOperand(f)).factories == Construct(g, [(f, 1.0)], map[]).factories;
  }

  // ---------------------------------------------------------------------------------------------
  // A worked example

  /** A stand-in coal producer, not a building of the catalogue (id 900 is unused there): 2 coal per second, no power. */
  const CoalSource := Factory(900, "Coal Source", 1, 0, map[], map[Materials.COAL.id := 2.0], 1.0, false)

  lemma GraphitePressRates()
    ensures GraphitePress.inputs == map[4 := 1.33] && GraphitePress.outputs == map[2 := 0.66]
    ensures POWER == 0
  {
    var ins: seq<(Materials.Material, real)> := [(Materials.COAL, 1.33)];
    var outs: seq<(Materials.Material, real)> := [(Materials.GRAPHITE, 0.66)];
    assert |ins[..0]| == 0 && |outs[..0]| == 0;
    assert RateMap(ins) == map[4 := 1.33];
    assert RateMap(outs) == map[2 := 0.66];
  }

  /** One graphite press: 1.33 coal in, 0.66 graphite out, and a zero power entry. */
  lemma GraphitePressGroup()
    ensures Singleton(GraphitePress) == FactoryGroup(map[701 := 1.0], map[4 := -1.33, 2 := 0.66, 0 := 0.0])
  {
    GraphitePressRates();
    PressGroup(GraphitePress);
  }

  lemma PressGroup(f: Factory)
    requires f.id == 701 && f.power == 0
    requires f.inputs == map[4 := 1.33] && f.outputs == map[2 := 0.66]
    ensures Singleton(f) == FactoryGroup(map[701 := 1.0], map[4 := -1.33, 2 := 0.66, 0 := 0.0])
  {
    var io := Singleton(f).ioMap;
    var expected := map[4 := -1.33, 2 := 0.66, 0 := 0.0];
    forall m
      ensures m in io <==> m in expected
      ensures m in io ==> io[m] == expected[m]
    {
      SingletonGet(f, m);
    }
    assert io == expected;
    SingletonGet(f, 0);
  }

  /** One coal source: 2 coal out and a zero power entry. */
  lemma CoalSourceGroup()
    ensures Singleton(CoalSource) == FactoryGroup(map[900 := 1.0], map[4 := 2.0, 0 := 0.0])
  {
    SourceGroup(CoalSource);
  }

  lemma SourceGroup(f: Factory)
    requires f.id == 900 && f.power == 0
    requires f.inputs == map[] && f.outputs == map[4 := 2.0]
    ensures Singleton(f) == FactoryGroup(map[900 := 1.0], map[4 := 2.0, 0 := 0.0])
  {
    var io := Singleton(f).ioMap;
    var expected := map[4 := 2.0, 0 := 0.0];
    forall m
      ensures m in io <==> m in expected
      ensures m in io ==> io[m] == expected[m]
    {
      SingletonGet(f, m);
    }
    assert io == expected;
    SingletonGet(f, 0);
  }

  lemma ExampleRatio(a: FactoryGroup, b: FactoryGroup)
    requires a == FactoryGroup(map[701 := 1.0], map[4 := -1.33, 2 := 0.66, 0 := 0.0])
    requires b == FactoryGroup(map[900 := 1.0], map[4 := 2.0, 0 := 0.0])
    ensures Ratio(a, b) == Ok(0.665)
  {
    assert Inputs(a).Keys == {4};
    assert Outputs(b).Keys == {4};
    assert Shared(a, b) == {4};
    assert Candidate(a, b, 4) == 0.665;
  }

  lemma ExampleScale(b: FactoryGroup)
    requires b == FactoryGroup(map[900 := 1.0], map[4 := 2.0, 0 := 0.0])
    ensures Scale(b, 0.665) == FactoryGroup(map[900 := 0.665], map[4 := 1.33, 0 := 0.0])
  {
    assert Scale(b, 0.665).factories == map[900 := 0.665];
    assert Scale(b, 0.665).ioMap == map[4 := 1.33, 0 := 0.0];
  }

  lemma ExampleSum(a: FactoryGroup, c: FactoryGroup)
    requires a == FactoryGroup(map[701 := 1.0], map[4 := -1.33, 2 := 0.66, 0 := 0.0])
    requires c == FactoryGroup(map[900 := 0.665], map[4 := 1.33, 0 := 0.0])
    ensures Sum(a, c) == FactoryGroup(map[701 := 1.0, 900 := 0.665], map[2 := 0.66])
  {
    ExampleSumCounts(a, c);
    ExampleSumRates(a, c);
  }

  lemma ExampleSumCounts(a: FactoryGroup, c: FactoryGroup)
    requires a.factories == map[701 := 1.0] && c.factories == map[900 := 0.665]
    ensures Sum(a, c).factories == map[701 := 1.0, 900 := 0.665]
  {
    var h := Sum(a, c).factories;
    forall id
      ensures id in h <==> id == 701 || id == 900
    {
      SumGet(a, c, 0, id);
    }
  }

  lemma ExampleSumRates(a: FactoryGroup, c: FactoryGroup)
    requires a.ioMap == map[4 := -1.33, 2 := 0.66, 0 := 0.0] && c.ioMap == map[4 := 1.33, 0 := 0.0]
    ensures Sum(a, c).ioMap == map[2 := 0.66]
  {
    var h := Sum(a, c).ioMap;
    forall m
      ensures m in h <==> m == 2
    {
      SumGet(a, c, m, 0);
    }
  }

  /**
   * A graphite press chained with the coal source: the ratio is 1.33 / 2 = 0.665 sources, the
   * coal rates cancel and are pruned, the zero power entry is pruned, and only graphite is left.
   */
  lemma ChainGraphitePress()
    ensures Chain(Singleton(GraphitePress), FactoryOperand(CoalSource))
            == Ok(FactoryGroup(map[701 := 1.0, 900 := 0.665], map[2 := 0.66]))
  {
    var a, b := Singleton(GraphitePress), Singleton(CoalSource);
    GraphitePressGroup();
    CoalSourceGroup();
    ExampleRatio(a, b);
    ChainUnfold(a, CoalSource);
    ExampleScale(b);
    ExampleSum(a, Scale(b, 0.665));
  }
}
