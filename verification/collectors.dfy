/**
 * Collectors of the MindustryTools package (MindustryTools/Collectors.py): buildings that gather
 * a material from the map at a speed that depends on the material and the tiles covered. The
 * records are frozen, so a collector is a value and its speed rules are functions.
 */
module Collectors {
  import opened Outcomes
  import Materials

  /** The subclass of a collector, with the fields only that subclass has. */
  datatype Kind =
    | Plain
      /**
       * `waterBoost` is the `water_boost` attribute, which only the airblast drill declares;
       * `boostMultiplier` is declared (default 2.56) but never read.
       */
    | Drill(maxHardness: int, waterIntake: real, boostMultiplier: real, boosted: bool, waterBoost: Option<real>)
    | Pump

  datatype Collector = Collector(id: int, name: string, power: int, size: int, baseSpeed: real, kind: Kind)

  /** A drill record with the dataclass defaults: boost multiplier 2.56, not boosted. */
  function NewDrill(id: int, name: string, power: int, size: int, baseSpeed: real, maxHardness: int,
                    waterIntake: real, boostMultiplier: real := 2.56, boosted: bool := false,
                    waterBoost: Option<real> := None): (c: Collector)
    ensures c.kind.Drill? && c.kind.maxHardness == maxHardness && c.kind.boosted == boosted
    ensures c.kind.boostMultiplier == boostMultiplier && c.kind.waterBoost == waterBoost
    ensures c.kind.waterIntake == waterIntake
    ensures c.id == id && c.name == name && c.power == power && c.size == size && c.baseSpeed == baseSpeed
  {
    Collector(id, name, power, size, baseSpeed, Drill(maxHardness, waterIntake, boostMultiplier, boosted, waterBoost))
  }

  function AsReal(n: int): real
  {
    n as real
  }

  /** The tile count: the one given, or full coverage, `size * size`. */
  function Tiles(c: Collector, tiles: Option<int>): (t: real)
    ensures tiles.Some? ==> t == tiles.value as real
    ensures tiles.None? ==> t == (c.size * c.size) as real
  {
    AsReal(if tiles.Some? then tiles.value else c.size * c.size)
  }

  /** `Collector.get_speed`: only natural materials can be collected, at `base_speed` per tile. */
  function BaseSpeed(c: Collector, m: Materials.Material, tiles: Option<int>): (r: Result<real>)
    ensures r.Err? <==> !m.isNatural
    ensures r.Err? ==> r.error == NotNatural
    ensures r.Ok? ==> r.value == c.baseSpeed * Tiles(c, tiles)
  {
    if !m.isNatural then Err(NotNatural) else Ok(c.baseSpeed * Tiles(c, tiles))
  }

  /** The denominator `base_speed + 50 * hardness` of a drill's speed. */
  function Denominator(baseSpeed: real, hardness: int): real
  {
    baseSpeed + 50.0 * (hardness as real)
  }

  /** The drill's time factor `60 / (base_speed + 50 * hardness)`. */
  function DrillRate(baseSpeed: real, hardness: int): real
    requires Denominator(baseSpeed, hardness) != 0.0
  {
    60.0 / Denominator(baseSpeed, hardness)
  }

  /**
   * The checks `Drill.get_speed` makes, in order: a material without hardness cannot be compared
   * with the drill's limit (a type error), one harder than the limit is rejected, a zero
   * denominator is a division error, and a boosted drill without a `water_boost` attribute fails
   * on the missing attribute. Naturalness is not checked.
   */
  function DrillError(c: Collector, m: Materials.Material): (e: Option<Error>)
    requires c.kind.Drill?
    ensures m.hardness.None? ==> e == Some(TypeError)
    ensures m.hardness.Some? && m.hardness.value > c.kind.maxHardness ==> e == Some(TooHard)
    ensures (m.hardness.Some? && m.hardness.value <= c.kind.maxHardness
             && Denominator(c.baseSpeed, m.hardness.value) == 0.0) ==> e == Some(ZeroDivisionError)
    ensures (m.hardness.Some? && m.hardness.value <= c.kind.maxHardness
             && Denominator(c.baseSpeed, m.hardness.value) != 0.0
             && c.kind.boosted && c.kind.waterBoost.None?) ==> e == Some(AttributeError)
    ensures e.None? <==> (m.hardness.Some? && m.hardness.value <= c.kind.maxHardness
                          && Denominator(c.baseSpeed, m.hardness.value) != 0.0
                          && (c.kind.boosted ==> c.kind.waterBoost.Some?))
  {
    if m.hardness.None? then Some(TypeError)
    else if m.hardness.value > c.kind.maxHardness then Some(TooHard)
    else if Denominator(c.baseSpeed, m.hardness.value) == 0.0 then Some(ZeroDivisionError)
    else if c.kind.boosted && c.kind.waterBoost.None? then Some(AttributeError)
    else None
  }

  /** The boost factor: the water boost when boosted, else 1. */
  function Boost(c: Collector): real
    requires c.kind.Drill? && (c.kind.boosted ==> c.kind.waterBoost.Some?)
  {
    if c.kind.boosted then c.kind.waterBoost.value else 1.0
  }

  /** `Drill.get_speed`: `60 / (base + 50 * hardness) * tiles * boost` once the checks pass. */
  function DrillSpeed(c: Collector, m: Materials.Material, tiles: Option<int>): (r: Result<real>)
    requires c.kind.Drill?
    ensures r.Err? <==> DrillError(c, m).Some?
    ensures r.Err? ==> r.error == DrillError(c, m).value
    ensures r.Ok? ==> r.value == DrillRate(c.baseSpeed, m.hardness.value) * Tiles(c, tiles) * Boost(c)
  {
    match DrillError(c, m)
    case Some(e) => Err(e)
    case None => Ok(DrillRate(c.baseSpeed, m.hardness.value) * Tiles(c, tiles) * Boost(c))
  }

  /** `get_speed`, dispatched on the collector's class. */
  function GetSpeed(c: Collector, m: Materials.Material, tiles: Option<int>): (r: Result<real>)
    ensures c.kind.Pump? && !m.isLiquid ==> r == Err(NotLiquid)
    ensures c.kind.Pump? && m.isLiquid ==> r == BaseSpeed(c, m, tiles)
    ensures c.kind.Plain? ==> r == BaseSpeed(c, m, tiles)
    ensures c.kind.Drill? ==> r == DrillSpeed(c, m, tiles)
  {
    match c.kind
    case Plain => BaseSpeed(c, m, tiles)
    case Drill(_, _, _, _, _) => DrillSpeed(c, m, tiles)
    case Pump => if !m.isLiquid then Err(NotLiquid) else BaseSpeed(c, m, tiles)
  }

  /**
   * `required_tiles`: the target rate over the speed of one tile. The errors of `get_speed`
   * propagate, and a zero per-tile speed is a division error.
   */
  function RequiredTiles(c: Collector, m: Materials.Material, targetRate: real): (r: Result<real>)
    ensures GetSpeed(c, m, Some(1)).Err? ==> r == Err(GetSpeed(c, m, Some(1)).error)
    ensures GetSpeed(c, m, Some(1)) == Ok(0.0) ==> r == Err(ZeroDivisionError)
    ensures GetSpeed(c, m, Some(1)).Ok? && GetSpeed(c, m, Some(1)).value != 0.0 ==>
              r == Ok(targetRate / GetSpeed(c, m, Some(1)).value)
    ensures r.Ok? ==> r.value * GetSpeed(c, m, Some(1)).value == targetRate
  {
    match GetSpeed(c, m, Some(1))
    case Err(e) => Err(e)
    case Ok(perTile) => if perTile == 0.0 then Err(ZeroDivisionError) else Ok(targetRate / perTile)
  }

  // ---------------------------------------------------------------------------------------------
  // Laws

  /** Leaving out `tiles` is asking for full coverage, `size * size` tiles. */
  lemma DefaultTilesIsFullCoverage(c: Collector, m: Materials.Material)
    ensures GetSpeed(c, m, None) == GetSpeed(c, m, Some(c.size * c.size))
  {
    assert Tiles(c, None) == Tiles(c, Some(c.size * c.size));
    if c.kind.Drill? {
      SameResult(DrillSpeed(c, m, None), DrillSpeed(c, m, Some(c.size * c.size)));
    } else {
      SameResult(BaseSpeed(c, m, None), BaseSpeed(c, m, Some(c.size * c.size)));
    }
  }

  /** Every speed is linear in the tile count: `tiles` tiles give `tiles` times the per-tile speed. */
  lemma SpeedLinearInTiles(c: Collector, m: Materials.Material, tiles: int)
    ensures GetSpeed(c, m, Some(tiles)).Ok? <==> GetSpeed(c, m, Some(1)).Ok?
    ensures GetSpeed(c, m, Some(tiles)).Ok? ==>
              GetSpeed(c, m, Some(tiles)).value == (tiles as real) * GetSpeed(c, m, Some(1)).value
  {
    var t := tiles as real;
    if c.kind.Drill? {
      if DrillError(c, m).None? {
        var d := DrillRate(c.baseSpeed, m.hardness.value);
        assert GetSpeed(c, m, Some(tiles)).value == d * t * Boost(c);
        assert GetSpeed(c, m, Some(1)).value == d * 1.0 * Boost(c);
        assert d * t * Boost(c) == t * (d * 1.0 * Boost(c));
      }
    } else if GetSpeed(c, m, Some(1)).Ok? {
      assert GetSpeed(c, m, Some(tiles)).value == c.baseSpeed * t;
      assert GetSpeed(c, m, Some(1)).value == c.baseSpeed * 1.0;
    }
  }

  /**
   * Whenever one tile collects at a non-zero speed, `required_tiles` succeeds, and that many
   * tiles collect exactly the target rate; when the tile count is a whole number, asking
   * `get_speed` for that many tiles gives the target rate back.
   */
  lemma RequiredTilesMeetTarget(c: Collector, m: Materials.Material, targetRate: real, n: int)
    requires GetSpeed(c, m, Some(1)).Ok? && GetSpeed(c, m, Some(1)).value != 0.0
    ensures RequiredTiles(c, m, targetRate).Ok?
    ensures RequiredTiles(c, m, targetRate).value * GetSpeed(c, m, Some(1)).value == targetRate
    ensures RequiredTiles(c, m, targetRate).value == n as real ==> GetSpeed(c, m, Some(n)) == Ok(targetRate)
  {
    var perTile := GetSpeed(c, m, Some(1)).value;
    if RequiredTiles(c, m, targetRate).value == n as real {
      SpeedLinearInTiles(c, m, n);
      assert GetSpeed(c, m, Some(n)).value == (n as real) * perTile == targetRate;
      SameResult(GetSpeed(c, m, Some(n)), Ok(targetRate));
    }
  }

  lemma ReciprocalOrder(x: real, y: real)
    requires 0.0 < x < y
    ensures 60.0 / x > 60.0 / y
  {
    var a, b := 60.0 / x, 60.0 / y;
    assert a * x == 60.0;
    assert b * y == 60.0;
    assert b * x < b * y;
    assert (a - b) * x > 0.0;
  }

  /**
   * A drill is strictly slower on a harder material: with a positive base speed, positive tiles
   * and a positive boost, hardness `h1 < h2` within the drill's limit gives a higher speed.
   */
  lemma DrillSlowerOnHarder(c: Collector, m1: Materials.Material, m2: Materials.Material, tiles: int)
    requires c.kind.Drill? && c.baseSpeed > 0.0 && tiles > 0
    requires c.kind.boosted ==> c.kind.waterBoost.Some? && c.kind.waterBoost.value > 0.0
    requires m1.hardness.Some? && m2.hardness.Some?
    requires 0 <= m1.hardness.value < m2.hardness.value <= c.kind.maxHardness
    ensures GetSpeed(c, m1, Some(tiles)).Ok? && GetSpeed(c, m2, Some(tiles)).Ok?
    ensures GetSpeed(c, m1, Some(tiles)).value > GetSpeed(c, m2, Some(tiles)).value
  {
    var h1, h2 := m1.hardness.value as real, m2.hardness.value as real;
    var d1, d2 := c.baseSpeed + 50.0 * h1, c.baseSpeed + 50.0 * h2;
    ReciprocalOrder(d1, d2);
    var k := (tiles as real) * (if c.kind.boosted then c.kind.waterBoost.value else 1.0);
    assert k > 0.0;
    ScaleOrder(DrillRate(c.baseSpeed, m1.hardness.value), DrillRate(c.baseSpeed, m2.hardness.value), tiles as real,
               if c.kind.boosted then c.kind.waterBoost.value else 1.0);
  }

  lemma ScaleOrder(a: real, b: real, t: real, boost: real)
    requires a > b && t > 0.0 && boost > 0.0
    ensures a * t * boost > b * t * boost
  {
    assert a * t > b * t;
  }

  /** A drill does not look at naturalness: two materials that differ only there get the same speed. */
  lemma DrillIgnoresNaturalness(c: Collector, m: Materials.Material, tiles: Option<int>)
    requires c.kind.Drill?
    ensures GetSpeed(c, m, tiles) == GetSpeed(c, m.(isNatural := !m.isNatural), tiles)
  {
    var m' := m.(isNatural := !m.isNatural);
    assert DrillError(c, m) == DrillError(c, m');
    SameResult(GetSpeed(c, m, tiles), GetSpeed(c, m', tiles));
  }

  lemma SameResult(r: Result<real>, r': Result<real>)
    requires r.Ok? == r'.Ok?
    requires r.Ok? ==> r.value == r'.value
    requires r.Err? ==> r.error == r'.error
    ensures r == r'
  {
  }

  /** The declared boost multiplier never affects a drill's speed. */
  lemma BoostMultiplierUnused(c: Collector, m: Materials.Material, tiles: Option<int>, k: real)
    requires c.kind.Drill?
    ensures GetSpeed(c, m, tiles) == GetSpeed(c.(kind := c.kind.(boostMultiplier := k)), m, tiles)
  {
    var c' := c.(kind := c.kind.(boostMultiplier := k));
    assert c'.kind.Drill? && c'.baseSpeed == c.baseSpeed && c'.size == c.size;
    assert c'.kind.maxHardness == c.kind.maxHardness && c'.kind.boosted == c.kind.boosted;
    assert c'.kind.waterBoost == c.kind.waterBoost;
    assert DrillError(c, m) == DrillError(c', m);
    SameResult(GetSpeed(c, m, tiles), GetSpeed(c', m, tiles));
  }

  /** A pump rejects non-liquids, and also liquids that are not natural (it defers to the base rule). */
  lemma PumpNeedsNaturalLiquid(c: Collector, m: Materials.Material, tiles: Option<int>)
    requires c.kind.Pump?
    ensures GetSpeed(c, m, tiles).Ok? <==> m.isLiquid && m.isNatural
    ensures !m.isLiquid ==> GetSpeed(c, m, tiles) == Err(NotLiquid)
    ensures m.isLiquid && !m.isNatural ==> GetSpeed(c, m, tiles) == Err(NotNatural)
  {
  }

  // ---------------------------------------------------------------------------------------------
  // The drills and pumps of the catalog used as examples

  const MechanicalDrill := NewDrill(201, "Mechanical Drill", 0, 2, 600.0, 2, 3.0)
  const PneumaticDrill := NewDrill(202, "Pneumatic Drill", 0, 2, 400.0, 3, 3.6)
  const LaserDrill := NewDrill(203, "Laser Drill", -60, 3, 280.0, 4, 4.8)
  const AirblastDrill := NewDrill(204, "Airblast Drill", -60, 4, 280.0, 4, 3.0, waterBoost := Some(3.24))
  const MechanicalPump := Collector(401, "Mechanical Pump", 0, 1, 7.0, Pump)

  /** A mechanical drill on copper (hardness 1) covering its 4 tiles: 60 / 650 * 4 per second. */
  lemma MechanicalDrillOnCopper()
    ensures GetSpeed(MechanicalDrill, Materials.COPPER, None) == Ok(240.0 / 650.0)
  {
  }

  /** Titanium (hardness 3) is too hard for the mechanical drill (limit 2). */
  lemma MechanicalDrillRejectsTitanium()
    ensures GetSpeed(MechanicalDrill, Materials.TITANIUM, None) == Err(TooHard)
  {
  }

  /** The pneumatic drill (limit 3) mines titanium: 60 / (400 + 150) * 4 per second over its 4 tiles. */
  lemma PneumaticDrillOnTitanium()
    ensures GetSpeed(PneumaticDrill, Materials.TITANIUM, None) == Ok(240.0 / 550.0)
  {
  }

  /** Graphite has no hardness: comparing it with the drill's limit is a type error. */
  lemma DrillOnGraphiteIsTypeError()
    ensures GetSpeed(MechanicalDrill, Materials.GRAPHITE, Some(1)) == Err(TypeError)
  {
  }

  /** Boosting only works where a water boost is declared: the airblast drill, not the laser drill. */
  lemma BoostNeedsWaterBoost()
    ensures GetSpeed(AirblastDrill.(kind := AirblastDrill.kind.(boosted := true)), Materials.COAL, Some(1))
            == Ok(60.0 / 380.0 * 3.24)
    ensures GetSpeed(LaserDrill.(kind := LaserDrill.kind.(boosted := true)), Materials.COAL, Some(1)) == Err(AttributeError)
  {
  }

  /** A mechanical pump gives 7 water per second, needs 3 tiles for 21, and cannot pump slag. */
  lemma MechanicalPumpExamples()
    ensures GetSpeed(MechanicalPump, Materials.WATER, None) == Ok(7.0)
    ensures RequiredTiles(MechanicalPump, Materials.WATER, 21.0) == Ok(3.0)
    ensures GetSpeed(MechanicalPump, Materials.SLAG, None) == Err(NotNatural)
    ensures GetSpeed(MechanicalPump, Materials.COAL, None) == Err(NotLiquid)
  {
  }
}
