/** The frozen material records and the material constants (MindustryTools/Materials.py). */
module Materials {
  import opened Outcomes
  import MindustryObjects

  /**
   * A material: an item, a liquid or power. Records are immutable values. `hardness` is
   * absent for materials that are not ores. `sources` and `source` are the producing
   * buildings; the frozen record never changes them after construction.
   */
  datatype Material = Material(
    id: int,
    name: string,
    hardness: Option<int>,
    isLiquid: bool,
    isNatural: bool,
    sources: seq<MindustryObjects.MindustryObject>,
    source: Option<MindustryObjects.MindustryObject>)

  /** The dataclass constructor with its field defaults. */
  function NewMaterial(id: int, name: string, hardness: Option<int> := None,
                       isLiquid: bool := false, isNatural: bool := false): (m: Material)
    ensures m.id == id && m.name == name && m.hardness == hardness
    ensures m.isLiquid == isLiquid && m.isNatural == isNatural
    ensures m.sources == [] && m.source == None
  {
    Material(id, name, hardness, isLiquid, isNatural, [], None)
  }

  /** A value a material is compared with: another material, or a value of any other type. */
  datatype Value = MaterialValue(material: Material) | NotAMaterial

  /** Python `==`: the other value must be a material with the same id. */
  predicate Equals(a: Material, other: Value) {
    other.MaterialValue? && a.id == other.material.id
  }

  function Hash(a: Material): int {
    a.id
  }

  /** Equal materials hash equally, so id-equal materials are one key of a rate map. */
  lemma EqualMaterialsHashEqual(a: Material, b: Material)
    requires Equals(a, MaterialValue(b))
    ensures Hash(a) == Hash(b)
  {
  }

  /** Material `==` looks at the id alone and is an equivalence. */
  lemma EqualsIsIdEquivalence(a: Material, b: Material, c: Material)
    ensures Equals(a, MaterialValue(b)) <==> a.id == b.id
    ensures Equals(a, MaterialValue(a))
    ensures Equals(a, MaterialValue(b)) ==> Equals(b, MaterialValue(a))
    ensures Equals(a, MaterialValue(b)) && Equals(b, MaterialValue(c)) ==> Equals(a, MaterialValue(c))
    ensures !Equals(a, NotAMaterial)
  {
  }

  const POWER := NewMaterial(0, "Power")
  const COPPER := NewMaterial(1, "Copper", hardness := Some(1), isNatural := true)
  const LEAD := NewMaterial(1, "Lead", hardness := Some(1), isNatural := true)
  const GRAPHITE := NewMaterial(2, "Graphite")
  const SILICON := NewMaterial(3, "Silicon")
  const COAL := NewMaterial(4, "Coal", hardness := Some(2), isNatural := true)
  const SAND := NewMaterial(5, "Sand", hardness := Some(0), isNatural := true)
  const METAGLASS := NewMaterial(6, "Metaglass")
  const TITANIUM := NewMaterial(7, "Titanium", hardness := Some(3), isNatural := true)
  const PLASTANIUM := NewMaterial(8, "Plastanium")
  const THORIUM := NewMaterial(9, "Thorium", hardness := Some(4), isNatural := true)
  const PHASE_FABRIC := NewMaterial(10, "Phase_fabric")
  const SURGE_ALLOY := NewMaterial(11, "Surge_alloy")
  const SCRAP := NewMaterial(12, "Scrap", hardness := Some(0), isNatural := true)
  const SPORE_POD := NewMaterial(13, "Spore_pod")
  const PYRATITE := NewMaterial(14, "Pyratite")
  const BLAST_COMPOUND := NewMaterial(15, "Blast_compound")
  const WATER := NewMaterial(16, "Water", isLiquid := true, isNatural := true)
  const SLAG := NewMaterial(17, "Slag", isLiquid := true)
  const OIL := NewMaterial(18, "Oil", isLiquid := true, isNatural := true)
  const CRYOFLUID := NewMaterial(19, "Cryofluid", isLiquid := true)

  /** Every declared material except POWER, in declaration order. */
  const MATERIALS: seq<Material> := [COPPER, LEAD, GRAPHITE, SILICON, COAL, SAND, METAGLASS,
    TITANIUM, PLASTANIUM, THORIUM, PHASE_FABRIC, SURGE_ALLOY, SCRAP, SPORE_POD, PYRATITE,
    BLAST_COMPOUND, WATER, SLAG, OIL, CRYOFLUID]

  /** COPPER and LEAD are distinct records that share id 1: they compare and hash equal. */
  lemma CopperEqualsLead()
    ensures COPPER != LEAD
    ensures Equals(COPPER, MaterialValue(LEAD)) && Hash(COPPER) == Hash(LEAD)
  {
  }

  /**
   * MATERIALS holds the twenty declared materials other than POWER, in declaration order: entry
   * `i` has id `i`, except COPPER in front, which shares LEAD's id 1. So no entry equals POWER,
   * and the liquids are exactly the last four entries.
   */
  lemma MaterialsOmitsPower()
    ensures |MATERIALS| == 20
    ensures forall i :: 0 <= i < |MATERIALS| ==> MATERIALS[i].id == if i == 0 then 1 else i
    ensures forall i :: 0 <= i < |MATERIALS| ==> (MATERIALS[i].isLiquid <==> i >= 16)
    ensures forall m :: m in MATERIALS ==> !Equals(POWER, MaterialValue(m))
    ensures MATERIALS[0] == COPPER && MATERIALS[1] == LEAD && MATERIALS[19] == CRYOFLUID
  {
  }
}
