# MindustryTools in Dafny

MindustryTools is a Python toolkit for planning production chains in the game Mindustry. This
project models its core:

- **Materials.** Items, liquids and power are identified by id. Two materials with the same id
  are `==`, hash equally, and are one key of every rate dictionary. COPPER and LEAD share id 1.
- **Factories.** A factory is a building with fixed input and output rates. Its efficiency scales
  the rates, and only buildings with efficiency options accept anything other than 1.0.
- **The SOURCES index.** It maps each material to the buildings that produce it.
- **FactoryGroup.** A group holds weighted factory counts and the net material flow they imply.
  Its operators:
  - `+` adds groups and prunes near-zero rates of the right operand.
  - `-` and `*` subtract and scale.
  - `/` by a number scales; `/` by an entity gives the covering ratio.
  - `@` chains in a supplier at the ratio that covers the shared deficits.
- **Collectors.** Drills and pumps collect at speeds that depend on the material and the tiles
  covered. There are two variants: the frozen `MindustryTools` package, and the mutable root
  package, whose drills register themselves as sources of the materials they can mine.

Layout, one module per source file:

| file | module | source |
|---|---|---|
| `outcomes.dfy` | `Outcomes` | the raised exceptions, as `Result`/`Option` values |
| `sets.dfy` | `Sets` | a helper: a non-empty set has an element |
| `mindustry_object.dfy` | `MindustryObjects` | MindustryObject.py |
| `materials.dfy` | `Materials` | MindustryTools/Materials.py |
| `root_material.dfy` | `RootMaterial` | Material.py |
| `factories.dfy` | `Factories` | Factories.py: Factory, catalog examples, SOURCES |
| `factory_group.dfy` | `FactoryGroups` | Factories.py: FactoryGroup |
| `factory_group_laws.dfy` | `FactoryGroupLaws` | Factories.py: laws of the FactoryGroup operators |
| `collectors.dfy` | `Collectors` | MindustryTools/Collectors.py |
| `root_collectors.dfy` | `RootCollectors` | Collectors.py |

How the Python is represented:

- **Exceptions** become error values: `ValueError`, `TypeError`, `ZeroDivisionError`,
  `AttributeError`, and the three `MindustryException` messages (`NotNatural`, `TooHard`,
  `NotLiquid`), plus `NoSharedMaterial` for a division with nothing shared.
- **Dictionaries** keyed by materials or factories become maps keyed by the integer id, because
  their `__eq__` and `__hash__` use the id alone.
- **Floats** are modelled as exact reals.
- **Groups are values.** A group is a datatype: every operator builds a new group. The in-place
  accumulation the source does on its copied dictionaries is modelled by methods with loops
  (`NewGroup`, `Add`, `AccumulateRates`, `AccumulatePruned`, `BuildSources`). Each is proved
  equal to a specification function, and the laws are proved about those functions.
- **Root materials are a class.** The root `Material` is updated in place by `set_source`, so it
  is a class, and `Drill.__post_init__` is a method with a loop over the material list.

## Model

| member | source | states |
|---|---|---|
| MindustryObjects.NewObject | MindustryObject.py:2-4 | the object keeps the given id and name |
| MindustryObjects.NewBuilding | MindustryObject.py:15-25 | a building keeps id, name, power and size, and starts at efficiency 1.0 |
| MindustryObjects.Equals | MindustryObject.py:9-10 | `==`: the other value is a game object with the same id (laws in `EqualsIsIdEquivalence`) |
| MindustryObjects.Hash | MindustryObject.py:6-7 | the hash is the id, so `==` objects hash equally (`EqualObjectsHashEqual`) |
| MindustryObjects.Repr | MindustryObject.py:12-13 | the printed form is the name |
| MindustryObjects.EqualObjectsHashEqual | MindustryObject.py:6-10 | `==` objects have equal hashes |
| MindustryObjects.EqualsIsIdEquivalence | MindustryObject.py:9-10 | `==` holds exactly for equal ids, is an equivalence, and is false against a non-object |
| Materials.NewMaterial | MindustryTools/Materials.py:22-26 | dataclass defaults: no hardness, not liquid, not natural, no sources, no source |
| Materials.Equals | MindustryTools/Materials.py:42-43 | `==`: the other value is a material with the same id (laws in `Materials.EqualsIsIdEquivalence`) |
| Materials.Hash | MindustryTools/Materials.py:39-40 | the hash is the id (`EqualMaterialsHashEqual`) |
| Materials.EqualMaterialsHashEqual | MindustryTools/Materials.py:39-43 | `==` materials have equal hashes, so they are one dictionary key |
| Materials.EqualsIsIdEquivalence | MindustryTools/Materials.py:42-43 | material `==` is id equality, an equivalence, and false against a non-material |
| Materials.CopperEqualsLead | MindustryTools/Materials.py:52-53 | COPPER and LEAD are different records that compare and hash equal |
| Materials.MaterialsOmitsPower | MindustryTools/Materials.py:51-74 | MATERIALS lists the 20 declared materials in declaration order: entry `i` has id `i` except COPPER in front with id 1; none equals POWER; the liquids are exactly the last four |
| RootMaterial.Material.constructor | Material.py:5-25 | stores the attributes given; the source list starts empty with no preferred source |
| RootMaterial.Material.SetSource | Material.py:27-36 | the source is appended unless an `==` entry is present, and becomes the preferred source |
| RootMaterial.WithSourceContains | Material.py:35-36 | after `set_source(s)` the list holds an entry `==` to `s` |
| RootMaterial.WithSourceExtends | Material.py:35-36 | old entries keep their order; at most `s` is appended; nothing changes iff `s` was present |
| RootMaterial.WithSourceKeepsDuplicateFree | Material.py:35-36 | a list without `==` duplicates stays without them |
| RootMaterial.WithSourceIdempotent | Material.py:35-36 | setting the same source twice gives the list of setting it once |
| RootMaterial.SetSourceTwice | Material.py:27-36 | two `set_source(s)` calls leave the state of one call |
| Factories.RateMapLastWins | Factories.py:199 | the keys of a dict literal are its materials' ids, and each holds the value of the last pair with that id |
| Factories.NewFactory | Factories.py:32-36 | ValueError iff efficiency is not 1.0 without efficiency options; otherwise same keys, and every rate is multiplied by the efficiency |
| Factories.DefaultEfficiencyKeepsRates | Factories.py:32-36 | at efficiency 1.0 the declared rates are kept unchanged |
| Factories.EqualsIsIdEquivalence | Factories.py:41-49 | factory `==` (the second definition) is id equality, an equivalence, with equal hashes |
| Factories.Equals | Factories.py:48-49 | the `__eq__` in effect: the other value is a factory with the same id (laws in `Factories.EqualsIsIdEquivalence`) |
| Factories.Hash | Factories.py:41-42 | the hash is the id |
| Factories.SurgeSmelterInputsCollapse | Factories.py:195-201 | the surge smelter's copper and lead inputs collapse into one entry for id 1 holding 3.2 |
| Factories.EfficiencyOptions | Factories.py:79-86 | a water extractor accepts efficiency 0.5 and halves its output; a graphite press refuses it |
| Factories.AppendProducer | Factories.py:441-442 | one factory's outputs each get the factory appended to their list, keys added as needed |
| Factories.BuildSources | Factories.py:439-442 | the loop builds SOURCES: power maps to the generators plus power producers, each other output to its producers in catalog order |
| Factories.SourcesFromIsIndex | Factories.py:439-442 | the built map is exactly that index |
| Factories.SourcesFromKeys | Factories.py:439-442 | SOURCES has a key for power and for every output material, and no others |
| Factories.SourcesFromAt | Factories.py:439-442 | each entry is the generators (power only) followed by the material's producers |
| Factories.ProducersOfExact | Factories.py:441-442 | a factory is listed for a material iff it is in the catalog and outputs it |
| Factories.ProducersOfAppend | Factories.py:440-442 | producer lists follow catalog order: a concatenated catalog gives concatenated lists |
| Factories.ProducersOfOutside | Factories.py:440-442 | a material no factory outputs has no producers |
| Factories.OutputMaterialsExact | Factories.py:440-441 | a material is an index key iff some catalog factory outputs it |
| Factories.PowerSourcesAreGenerators | Factories.py:439 | when no catalog factory outputs power, SOURCES[POWER] is the generator list |
| FactoryGroups.AccumulateRates | Factories.py:491-498 | the dictionary loop adds `k` times every rate into the map, missing keys counting as 0 |
| FactoryGroups.AccumulateFactory | Factories.py:489-495 | one factory pass adds the count, outputs, inputs and power as the specification function does |
| FactoryGroups.AddFactory | Factories.py:489-495 | one pass of the constructor loop: the factory's id gains a count and no key is lost (values in `AddFactoryRate`, `AddFactoryCount`) |
| FactoryGroups.AddFactories | Factories.py:488-495 | the constructor loop keeps every key of the seed and gives every item's id a count (values in `AddFactoriesGet`) |
| FactoryGroups.Init | Factories.py:479-498 | the constructor keeps every key of the copied seed, counts every listed factory and gives every raw material a rate (values in `ConstructGet`) |
| FactoryGroups.Singleton | Factories.py:51-73 | `FactoryGroup([f])`, behind every Factory operator, counts `f` once and nothing else (rates in `SingletonGet`) |
| FactoryGroups.NewGroup | Factories.py:479-498 | the constructor copies the seed, then accumulates the factories and then the raw materials |
| FactoryGroups.AccumulatePruned | Factories.py:518-523 | the group-`+` loop sums rates and deletes an updated entry that ends strictly within 0.0001 of zero |
| FactoryGroups.Add | Factories.py:511-525 | `+` adds a factory or material through the constructor, and a group by summing counts and pruned rates |
| FactoryGroups.Sum | Factories.py:516-524 | group `+`: the counted factories are those of either group; a rate key comes from one of them, and a key only the left group has keeps its rate (values in `SumGet`) |
| FactoryGroups.Plus | Factories.py:511-525 | `+` never drops a factory: the counted ids are the left group's plus the operand's (values in `SumGet`, `ConstructGet`) |
| FactoryGroups.Scale | Factories.py:536-541 | `*` keeps every count key and rate key (values in `ScaleGet`) |
| FactoryGroups.Minus | Factories.py:530-531 | `-` as written counts the ids of both operands (its reversed sign in `MinusIsReversed`) |
| FactoryGroups.Difference | Factories.py:466-467 | corrected `-`: the ids of both operands, rate keys from either, left-only rates kept (values in `DifferenceGet`) |
| FactoryGroups.Inputs | Factories.py:591-592 | `get_inputs` keeps exactly the strictly negative entries, unchanged |
| FactoryGroups.Outputs | Factories.py:594-595 | `get_outputs` keeps exactly the strictly positive entries, unchanged |
| FactoryGroups.MaxCandidateExists | Factories.py:588 | some shared material attains the largest ratio, so `max` is defined |
| FactoryGroups.Ratio | Factories.py:583-589 | an error iff no material is consumed by the first group and produced by the second; otherwise the largest candidate ratio, which is positive |
| FactoryGroups.Divide | Factories.py:567-589 | `/`: a number is a division error iff it is 0 and otherwise a scaled group; an entity gives NoSharedMaterial iff nothing is shared and otherwise a positive count (laws in `DivideByNumber`, `DivideByMaterial`, `RatioIsLeastCover`) |
| FactoryGroups.Chain | Factories.py:547-560 | `@`: a TypeError iff the operand is not a factory; otherwise the counted ids are the group's plus the factory's (laws in `ChainCovers`, `ChainFallsBack`) |
| FactoryGroupLaws.AddFactoryRate | Factories.py:491-495 | one constructor pass adds count × (outputs − inputs), plus count × power on POWER |
| FactoryGroupLaws.AddFactoryCount | Factories.py:490 | one constructor pass adds the count under the factory's id only |
| FactoryGroupLaws.AddFactoriesGet | Factories.py:488-495 | after the loop every rate and count is the seed's plus the items' sum, and a key is present iff the seed has it or an item names it |
| FactoryGroupLaws.ConstructGet | Factories.py:479-498 | the constructor's rate of each material is seed + factories' net rate + raw material rate; counts are seed + item counts |
| FactoryGroupLaws.ConstructHasPower | Factories.py:495 | any non-empty factory argument creates a POWER entry, even for a building that uses no power |
| FactoryGroupLaws.ListCountsOnce | Factories.py:483-484 | a factory list gives every listed id count 1 exactly once, whatever the repetitions |
| FactoryGroupLaws.SingletonGet | Factories.py:51-73 | `FactoryGroup([f])`, behind every Factory operator, is count 1 of `f` with outputs − inputs plus power |
| FactoryGroupLaws.SumGet | Factories.py:516-524 | group `+`: counts add and are never pruned; left-only rates stay; right keys are dropped iff their sum is near zero; each rate is within 0.0001 of the exact sum |
| FactoryGroupLaws.SumRightIdentity | Factories.py:516-524 | adding the empty group changes nothing |
| FactoryGroupLaws.SumCommutes | Factories.py:516-524 | `+` commutes exactly on counts and up to 0.0001 on rates |
| FactoryGroupLaws.SumKeepsLeftNearZero | Factories.py:520-523 | pruning is one-sided: a near-zero rate only the left operand has survives |
| FactoryGroupLaws.ScaleGet | Factories.py:536-541 | `g * k` keeps the keys and multiplies every count and rate by `k` |
| FactoryGroupLaws.ScaleByOne | Factories.py:536-541 | scaling by 1 is the identity |
| FactoryGroupLaws.ScaleTwice | Factories.py:536-545 | scaling twice is scaling once by the product |
| FactoryGroupLaws.ScaleInverse | Factories.py:536-541 | scaling by `k` and then by its inverse gives the group back |
| FactoryGroupLaws.DivideByNumber | Factories.py:574-575 | `g / k` divides every count and rate by `k` over the same keys; `k = 0` is a division error |
| FactoryGroupLaws.DivideUndoesScale | Factories.py:574-575 | `(g * k) / k == g` for `k != 0` |
| FactoryGroupLaws.MinusIsReversed | Factories.py:530-531 | `a - b` as written gives counts b − a and rates within 0.0001 of b − a |
| FactoryGroupLaws.MinusEmptyNegates | Factories.py:530-531 | a witness: rate 1 minus the empty group is rate −1 as written, 1 when corrected |
| FactoryGroupLaws.DifferenceGet | Factories.py:466-467 | corrected `a - b`: counts a − b, rates within 0.0001 of a − b |
| FactoryGroupLaws.DifferenceUndoesSum | Factories.py:466-467 | `(a + b) - b` gives a's counts back exactly and its rates within 0.0002 |
| FactoryGroupLaws.DifferenceSelf | Factories.py:466-467 | `a - a` prunes every rate and leaves every count at 0 |
| FactoryGroupLaws.MaterialListRatesGet | Factories.py:485-486 | a material list gives rate 1 to every listed id and to nothing else |
| FactoryGroupLaws.ReflectedMinusMaterial | Factories.py:533-534 | `material - g` (reflected) is rate 1 of the material minus `g`, with every count negated |
| FactoryGroupLaws.SignFiltersPartition | Factories.py:591-595 | inputs and outputs are disjoint, lie in the map, and leave out only exact zeros |
| FactoryGroupLaws.RatioIsLeastCover | Factories.py:583-589 | the ratio is the least scale of the divisor that leaves no shared deficit: a scale covers iff it is at least the ratio |
| FactoryGroupLaws.RatioCovers | Factories.py:583-589 | the ratio itself covers every shared deficit |
| FactoryGroupLaws.MaterialGroup | Factories.py:578-579 | a material operand is the group with rate 1 of that material and nothing else |
| FactoryGroupLaws.DivideByMaterial | Factories.py:578-589 | `g / material` is how much of it `g` lacks, or NoSharedMaterial when `g` does not consume it |
| FactoryGroupLaws.ChainOnlyFactories | Factories.py:555-560 | `@` with anything but a factory is a TypeError |
| FactoryGroupLaws.ChainCovers | Factories.py:555-557 | with a shared material, `g @ f` leaves no shared material in deficit and raises f's count by exactly the ratio |
| FactoryGroupLaws.ChainFallsBack | Factories.py:556-559 | with nothing shared, `g @ f` is `g + f`: one more `f`, rates and all |
| FactoryGroupLaws.CoveredSum | Factories.py:557 | adding the divisor at the ratio leaves every shared material at or above zero |
| FactoryGroupLaws.FactoryPlusFactory | Factories.py:51-52 | `f + f2` counts 2 under one id when they are `==`, else 1 each |
| FactoryGroupLaws.FactoryPlusFactoryCount | Factories.py:51-52 | the count of each id in `f + f2` |
| FactoryGroupLaws.PlusFactoryCounts | Factories.py:512-513 | `g + f` raises the count of `f`'s id by one and leaves every other count unchanged |
| FactoryGroupLaws.GraphitePressRates | Factories.py:117-123 | the graphite press's input and output dicts and zero power |
| FactoryGroupLaws.GraphitePressGroup | Factories.py:479-498 | one graphite press: coal −1.33, graphite 0.66, power 0 |
| FactoryGroupLaws.CoalSourceGroup | Factories.py:479-498 | one coal source: coal 2, power 0 |
| FactoryGroupLaws.ExampleRatio | Factories.py:583-589 | press / coal source is 0.665 |
| FactoryGroupLaws.ChainGraphitePress | Factories.py:547-559 | press @ coal source adds 0.665 sources; the coal and power rates cancel and are pruned |
| Collectors.NewDrill | MindustryTools/Collectors.py:69-72 | every given field is stored (id, name, power, size, base speed, hardness limit, water intake); defaults: boost multiplier 2.56, not boosted, no water boost |
| Collectors.Tiles | MindustryTools/Collectors.py:35-36 | the given tile count, else full coverage `size²` |
| Collectors.BaseSpeed | MindustryTools/Collectors.py:22-37 | NotNatural iff the material is not natural, else base speed × tiles |
| Collectors.DrillError | MindustryTools/Collectors.py:74-86 | in order: no hardness is a TypeError, too hard is TooHard, a zero denominator is a division error, and boosted without `water_boost` is an AttributeError; no error iff none applies |
| Collectors.DrillSpeed | MindustryTools/Collectors.py:74-86 | when no check fails, `60 / (base + 50·hardness) × tiles × boost` |
| Collectors.GetSpeed | MindustryTools/Collectors.py:22-101 | dispatch: a pump rejects non-liquids with NotLiquid and otherwise defers to the base rule |
| Collectors.RequiredTiles | MindustryTools/Collectors.py:39-49 | the errors of `get_speed` propagate; a zero per-tile speed is a division error; a non-zero per-tile speed gives target ÷ per-tile speed, so tiles × per-tile speed equal the target |
| Collectors.DefaultTilesIsFullCoverage | MindustryTools/Collectors.py:35-36 | omitting `tiles` equals asking for `size²` tiles, for every collector |
| Collectors.SpeedLinearInTiles | MindustryTools/Collectors.py:37 | every collector's speed is the tile count times the one-tile speed |
| Collectors.RequiredTilesMeetTarget | MindustryTools/Collectors.py:39-49 | whenever one tile collects at a non-zero speed, `required_tiles` succeeds and that many tiles collect exactly the target; a whole tile count asked of `get_speed` gives the target back |
| Collectors.DrillSlowerOnHarder | MindustryTools/Collectors.py:86 | with positive base speed, tiles and boost, a harder mineable material is strictly slower |
| Collectors.DrillIgnoresNaturalness | MindustryTools/Collectors.py:74-86 | a drill's speed does not depend on naturalness |
| Collectors.BoostMultiplierUnused | MindustryTools/Collectors.py:71 | the declared boost multiplier never changes a speed |
| Collectors.PumpNeedsNaturalLiquid | MindustryTools/Collectors.py:91-101 | a pump succeeds iff the material is a natural liquid, with NotLiquid or NotNatural otherwise |
| Collectors.MechanicalDrillOnCopper | MindustryTools/Collectors.py:106-113 | a mechanical drill on copper: 240/650 per second |
| Collectors.MechanicalDrillRejectsTitanium | MindustryTools/Collectors.py:106-113 | titanium is too hard for the mechanical drill |
| Collectors.PneumaticDrillOnTitanium | MindustryTools/Collectors.py:115-123 | the pneumatic drill (limit 3) mines titanium at 240/550 per second |
| Collectors.DrillOnGraphiteIsTypeError | MindustryTools/Collectors.py:83 | a material without hardness makes the comparison a TypeError |
| Collectors.BoostNeedsWaterBoost | MindustryTools/Collectors.py:126-145 | a boosted airblast drill uses its 3.24 water boost; a boosted laser drill has none |
| Collectors.MechanicalPumpExamples | MindustryTools/Collectors.py:148-154 | a mechanical pump: 7 water per second, 3 tiles for 21, slag not natural, coal not a liquid |
| RootCollectors.Attributes | Collectors.py:22-37 | the attributes the speed rules read are copied unchanged |
| RootCollectors.GetSpeed | Collectors.py:22-106 | keyword-only binding: a positional argument or a missing material is a TypeError, except that a pump defaults to water |
| RootCollectors.KeywordCallMatchesPackage | Collectors.py:22-106 | with the material by keyword, the root rules equal the package rules |
| RootCollectors.PumpDefaultsToWater | Collectors.py:96 | a pump called without a material pumps water; other collectors reject the call |
| RootCollectors.PumpDefaultSucceeds | Collectors.py:96-106 | with a natural liquid as the default material, a pump called without one succeeds at base speed × tiles |
| RootCollectors.RequiredTilesAsWritten | Collectors.py:39-49 | the positional call makes `required_tiles` a TypeError on every collector |
| RootCollectors.Quotient | Collectors.py:49 | float division: a division error iff the divisor is 0, otherwise quotient × divisor == dividend |
| RootCollectors.RequiredTiles | Collectors.py:39-49 | corrected: errors propagate, zero speed is a division error, a non-zero speed gives target ÷ per-tile speed, and tiles × per-tile speed == target |
| RootCollectors.RequiredTilesMatchesPackage | Collectors.py:39-49 | the corrected root version equals the package version |
| RootCollectors.AsSource | Collectors.py:77 | the drill is recorded as a building with its id and name |
| RootCollectors.RegisterDrill | Collectors.py:74-77 | every listed material with a hardness within the limit gets the drill appended once and made its preferred source; all others are unchanged |

## Left out

- Printing: `__repr__`/`__str__` of groups and materials are not modelled beyond
  `MindustryObjects.Repr`. Rounding and string formatting are presentation only.
- Floating point: rates, ratios and speeds are exact reals. Rounding error and IEEE special
  values are not modelled.
- Only a few catalog buildings are modelled: the graphite press, surge smelter, water extractor,
  combustion generator, the mechanical, pneumatic, laser and airblast drills, and the mechanical
  pump. `FactoryGroupLaws.CoalSource` (id 900) is a stand-in coal producer for the worked `@`
  example, not a catalog building. The others, and the FACTORIES,
  GENERATORS, DRILLS and PUMPS dictionaries, are data of the same shape. `BuildSources` takes the
  catalog and the generator list as parameters.
- The top-level `Materials` module that Factories.py and Collectors.py import is not part of
  this model. Factories are modelled over the records of MindustryTools/Materials.py, which
  declares the same ids.
- The root catalog is a parameter of `RootCollectors.RegisterDrill`, since its material list
  belongs to that module.
- Material.py:38-61 declares constants without the required `hardness` argument, so that module
  cannot be imported as written. Its class is modelled (`RootMaterial.Material`); its constants
  are not.
- Collector.py, Factory.py, main.py, setup.py and the build/lib copies are not part of this
  model.
- `isinstance` fallbacks that only raise TypeError for unsupported operand types are folded into
  the operand datatypes (`Operand`, `Divisor`). `@` is modelled with its TypeError; `+`, `*` and
  `/` take only the operand kinds they accept.
- Reflected operators: `__radd__`, `__rsub__` and `__rmul__` call the forward operator and are
  the same functions here. `ReflectedMinusMaterial` states what `material - g` computes.
  `__rmatmul__` (Factories.py:562-565) is not modelled: a factory on the left of `@` runs its own
  `__matmul__` first, so it is reached only with a material or a number on the left, and then it
  falls through and returns None instead of raising.
- Factory operators delegate to `FactoryGroup([self])`: they are `Singleton(f)` followed by the
  group operator (`SingletonGet`, `FactoryPlusFactory`).
- `get_upstream` and other planning helpers outside the FactoryGroup operators are not modelled.
- FactoryGroups.Ratio: ghost because it picks the maximum with `:|`. Divide and Chain use it, so
  they are ghost too. Their properties are proved; there is no executable `max` loop.
- Group factories are keyed by id; two `==` factories with different rates count as one key.
  The rates of the first one seen are the ones accumulated, as in the source.
- `MindustryException` is imported from MindustryObject.py (Factories.py:5, Collectors.py:4), but
  MindustryObject.py does not define it, so those imports fail as written. The model gives its
  messages as error values (`NotNatural`, `TooHard`, `NotLiquid`, `NoSharedMaterial`).
  MindustryTools/MindustryObject.py, which the package collectors import it from, is not part of
  this model.
- RootCollectors.GetSpeed: the pump's default `M.WATER` belongs to the top-level `Materials`
  module, which is not part of this model, so it is the parameter `water`; nothing constrains it
  beyond what `RootCollectors.PumpDefaultSucceeds` assumes (a natural liquid, as the package's
  WATER is).
- Collector records of the root package are mutable dataclasses that no code mutates, so they
  are values here.
- RootCollectors.RegisterDrill: the membership test of `set_source` is by id, as
  `MindustryObject.__eq__` defines it. The generated dataclass `__eq__` of a drill compares all
  of its fields, so two drills of one class that differ in a field (for example `boosted`) are
  two entries in Python and one in the model.
- RootCollectors.AsSource: the recorded drill has efficiency 1.0. The dataclass constructor of a
  collector does not run `Building.__init__`, so the Python drill has no `efficiency` attribute.

## Findings

| source | as written | input that shows it | evidently intended | confidence | as-written member | corrected member |
|---|---|---|---|---|---|---|
| Factories.py:530-531 | `g - o` evaluates `(-1 * g) + o`, which is `o - g` | `g` = a group with rate 1 of material 1, `o` = the empty group: the result has rate −1 | `g + (-1 * o)`, as the class documentation says at Factories.py:466-467 | high; not executed | FactoryGroupLaws.MinusEmptyNegates | FactoryGroupLaws.DifferenceUndoesSum |
| Collectors.py:49 | `self.get_speed(material) / target_rate` passes `material` positionally to a keyword-only method and divides speed by target | any collector and any material: a TypeError | `target_rate / self.get_speed(material=material, tiles=1)`, as MindustryTools/Collectors.py:49 computes | high; not executed | RootCollectors.RequiredTilesAsWritten | RootCollectors.RequiredTiles |
