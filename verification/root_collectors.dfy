/**
 * The collectors of the root package (Collectors.py). They apply the same speed rules as the
 * MindustryTools package to the mutable root materials, with two differences: `get_speed` takes
 * keyword-only arguments, and a pump's material defaults to water. Creating a drill also
 * records it as a source of every material it can mine.
 */
module RootCollectors {
  import opened Outcomes
  import MindustryObjects
  import Materials
  import RootMaterial
  import Collectors

  /** The attributes the speed rules read from a root material, as a frozen material record. */
  function Attributes(m: RootMaterial.Material): (a: Materials.Material)
    ensures a.id == m.id && a.name == m.name && a.hardness == m.hardness
    ensures a.isLiquid == m.isLiquid && a.isNatural == m.isNatural
  {
    Materials.NewMaterial(m.id, m.name, m.hardness, m.isLiquid, m.isNatural)
  }

  /** The speed of `c` on `m` once the arguments are bound; the rules of the package collectors. */
  function Speed(c: Collectors.Collector, m: RootMaterial.Material, tiles: Option<int>): Result<real> {
    Collectors.GetSpeed(c, Attributes(m), tiles)
  }

  /** The arguments of a call of `get_speed`: the positional values and the keyword arguments given. */
  datatype Call = Call(positional: seq<RootMaterial.Material>, material: Option<RootMaterial.Material>, tiles: Option<int>)

  /**
   * A call of `get_speed(self, *, material, tiles=None)`. Both parameters are keyword-only, so
   * any positional argument is a type error. `material` is required, except on a pump, where it
   * defaults to `water`.
   */
  function GetSpeed(c: Collectors.Collector, call: Call, water: RootMaterial.Material): (r: Result<real>)
    ensures |call.positional| > 0 ==> r == Err(TypeError)
    ensures call.positional == [] && call.material.Some? ==> r == Speed(c, call.material.value, call.tiles)
    ensures call.positional == [] && call.material.None? ==>
              r == if c.kind.Pump? then Speed(c, water, call.tiles) else Err(TypeError)
  {
    if |call.positional| > 0 then Err(TypeError)
    else if call.material.Some? then Speed(c, call.material.value, call.tiles)
    else if c.kind.Pump? then Speed(c, water, call.tiles)
    else Err(TypeError)
  }

  /**
   * `required_tiles` as written: it passes the material to `get_speed` positionally, and would
   * then divide the speed by the target rate. The positional call fails on every collector.
   */
  function RequiredTilesAsWritten(c: Collectors.Collector, m: RootMaterial.Material, targetRate: real,
                                  water: RootMaterial.Material): (r: Result<real>)
    ensures r == Err(TypeError)
  {
    match GetSpeed(c, Call([m], None, None), water)
    case Err(e) => Err(e)
    case Ok(speed) => Quotient(speed, targetRate)
  }

  /** Python's `x / y` on floats: division by zero raises. */
  function Quotient(x: real, y: real): (r: Result<real>)
    ensures r.Err? <==> y == 0.0
    ensures r.Err? ==> r.error == ZeroDivisionError
    ensures r.Ok? ==> r.value * y == x
  {
    if y == 0.0 then Err(ZeroDivisionError) else Ok(x / y)
  }

  /**
   * `required_tiles` corrected: the target rate over the speed of one tile, with the material
   * passed by keyword.
   */
  function RequiredTiles(c: Collectors.Collector, m: RootMaterial.Material, targetRate: real): (r: Result<real>)
    ensures Speed(c, m, Some(1)).Err? ==> r == Err(Speed(c, m, Some(1)).error)
    ensures Speed(c, m, Some(1)) == Ok(0.0) ==> r == Err(ZeroDivisionError)
    ensures Speed(c, m, Some(1)).Ok? && Speed(c, m, Some(1)).value != 0.0 ==>
              r == Ok(targetRate / Speed(c, m, Some(1)).value)
    ensures r.Ok? ==> r.value * Speed(c, m, Some(1)).value == targetRate
  {
    match GetSpeed(c, Call([], Some(m), Some(1)), m)
    case Err(e) => Err(e)
    case Ok(perTile) => Quotient(targetRate, perTile)
  }

  /** Keyword calls of the root collectors compute what the package collectors compute. */
  lemma KeywordCallMatchesPackage(c: Collectors.Collector, m: RootMaterial.Material, tiles: Option<int>,
                                  water: RootMaterial.Material)
    ensures GetSpeed(c, Call([], Some(m), tiles), water) == Collectors.GetSpeed(c, Attributes(m), tiles)
  {
  }

  /** A pump called without a material pumps water; any other collector rejects the call. */
  lemma PumpDefaultsToWater(c: Collectors.Collector, tiles: Option<int>, water: RootMaterial.Material)
    ensures c.kind.Pump? ==> GetSpeed(c, Call([], None, tiles), water) == GetSpeed(c, Call([], Some(water), tiles), water)
    ensures !c.kind.Pump? ==> GetSpeed(c, Call([], None, tiles), water) == Err(TypeError)
  {
  }

  /**
   * With a default material that is a natural liquid, as the water of the material catalogue is,
   * a pump called without a material succeeds, at its base speed per tile.
   */
  lemma PumpDefaultSucceeds(c: Collectors.Collector, tiles: Option<int>, water: RootMaterial.Material)
    requires c.kind.Pump? && water.isLiquid && water.isNatural
    ensures GetSpeed(c, Call([], None, tiles), water).Ok?
    ensures GetSpeed(c, Call([], None, tiles), water).value == c.baseSpeed * Collectors.Tiles(c, tiles)
  {
    PumpDefaultsToWater(c, tiles, water);
  }

  /** The corrected `required_tiles` is the package's `required_tiles`. */
  lemma RequiredTilesMatchesPackage(c: Collectors.Collector, m: RootMaterial.Material, targetRate: real)
    ensures RequiredTiles(c, m, targetRate) == Collectors.RequiredTiles(c, Attributes(m), targetRate)
  {
  }

  // ---------------------------------------------------------------------------------------------
  // Registration of drills as sources

  /** A material a drill with limit `maxHardness` can mine: it has a hardness within the limit. */
  predicate Mineable(m: RootMaterial.Material, maxHardness: int) {
    m.hardness.Some? && m.hardness.value <= maxHardness
  }

  /** The drill as the building recorded in a material's source list. */
  function AsSource(d: Collectors.Collector): (b: MindustryObjects.MindustryObject)
    ensures b.Building? && b.id == d.id && b.name == d.name
  {
    MindustryObjects.NewBuilding(d.id, d.name, d.power, d.size)
  }

  /**
   * `Drill.__post_init__`: every material of the list that the drill can mine records the drill
   * as a source and makes it the preferred one; the others are left as they were. A material
   * listed twice ends in the same state as one listed once.
   */
  method RegisterDrill(d: Collectors.Collector, materials: seq<RootMaterial.Material>)
    requires d.kind.Drill?
    modifies set m | m in materials
    ensures forall m :: m in materials && Mineable(m, d.kind.maxHardness) ==>
              m.sources == RootMaterial.WithSource(old(m.sources), AsSource(d)) && m.source == Some(AsSource(d))
    ensures forall m :: m in materials && !Mineable(m, d.kind.maxHardness) ==>
              m.sources == old(m.sources) && m.source == old(m.source)
  {
    var s := AsSource(d);
    var i := 0;
    while i < |materials|
      invariant 0 <= i <= |materials|
      invariant forall m :: m in materials[..i] && Mineable(m, d.kind.maxHardness) ==>
                  m.sources == RootMaterial.WithSource(old(m.sources), s) && m.source == Some(s)
      invariant forall m :: m in materials && (m !in materials[..i] || !Mineable(m, d.kind.maxHardness)) ==>
                  m.sources == old(m.sources) && m.source == old(m.source)
    {
      var m := materials[i];
      if Mineable(m, d.kind.maxHardness) {
        RootMaterial.WithSourceIdempotent(old(m.sources), s);
        m.SetSource(s);
      }
      assert materials[..i + 1] == materials[..i] + [m];
      i := i + 1;
    }
    assert materials[..i] == materials;
  }
}
