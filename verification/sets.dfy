/** A helper for loops that take the keys of a dictionary one at a time. */
module Sets {

  /** A non-empty set has an element to take next. */
  lemma HasElement(s: set<int>)
    requires s != {}
    ensures exists x :: x in s
  {
    if forall x :: x !in s {
      assert false;
    }
  }
}
