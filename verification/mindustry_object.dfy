/** Identity of the named game objects: plain objects and buildings (MindustryObject.py). */
module MindustryObjects {

  /** A game object. Buildings add power use, footprint and efficiency to the id and name. */
  datatype MindustryObject =
    | MindustryObject(id: int, name: string)
    | Building(id: int, name: string, power: int, size: int, efficiency: real)

  /** A value an object is compared with: another game object, or a value of any other type. */
  datatype Value = Object(obj: MindustryObject) | OtherValue

  /** The base constructor: it stores the id and the name. */
  function NewObject(id: int, name: string): (o: MindustryObject)
    ensures o.id == id && o.name == name
  {
    MindustryObject(id, name)
  }

  /** A building stores its fields as given and starts at full efficiency. */
  function NewBuilding(id: int, name: string, power: int, size: int): (b: MindustryObject)
    ensures b.Building?
    ensures b.id == id && b.name == name && b.power == power && b.size == size
    ensures b.efficiency == 1.0
  {
    Building(id, name, power, size, 1.0)
  }

  /** Python `==`: the other value must be a game object with the same id. */
  predicate Equals(a: MindustryObject, other: Value) {
    other.Object? && a.id == other.obj.id
  }

  function Hash(a: MindustryObject): int {
    a.id
  }

  /** The printed form of an object is its name. */
  function Repr(a: MindustryObject): (s: string)
    ensures s == a.name
  {
    a.name
  }

  /** Equal objects land in the same hash bucket, so id-equal objects are one dictionary key. */
  lemma EqualObjectsHashEqual(a: MindustryObject, b: MindustryObject)
    requires Equals(a, Object(b))
    ensures Hash(a) == Hash(b)
  {
  }

  /** `==` compares only ids: it is an equivalence, and never holds against a non-object. */
  lemma EqualsIsIdEquivalence(a: MindustryObject, b: MindustryObject, c: MindustryObject)
    ensures Equals(a, Object(b)) <==> a.id == b.id
    ensures Equals(a, Object(a))
    ensures Equals(a, Object(b)) ==> Equals(b, Object(a))
    ensures Equals(a, Object(b)) && Equals(b, Object(c)) ==> Equals(a, Object(c))
    ensures !Equals(a, OtherValue)
  {
  }
}
