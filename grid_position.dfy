/**
 * Model of Domain/Models/GridPosition.cs: an immutable pair of integer cell
 * coordinates, compared component by component. The grid's dictionary is keyed
 * by it, so the model keys its map by this datatype's value equality.
 */
module GridPositions {

  datatype GridPosition = GridPosition(X: int, Y: int) {

    /** `Equals`: two positions are equal when both coordinates match. */
    predicate Equals(other: GridPosition) {
      X == other.X && Y == other.Y
    }
  }

  /** `operator ==` delegates to `Equals`. */
  predicate Eq(left: GridPosition, right: GridPosition) {
    left.Equals(right)
  }

  /** `operator !=` is the negation of `==`. */
  predicate NotEq(left: GridPosition, right: GridPosition) {
    !Eq(left, right)
  }

  /**
   * `Equals` coincides with value identity of the pair, so a dictionary keyed
   * through `Equals` and a Dafny map keyed by value address the same cells.
   */
  lemma EqualsIsIdentity(a: GridPosition, b: GridPosition)
    ensures a.Equals(b) <==> a == b
  {
  }

  /** The two operators agree with `Equals` and exclude each other. */
  lemma OperatorsAgree(a: GridPosition, b: GridPosition)
    ensures Eq(a, b) <==> a.Equals(b)
    ensures NotEq(a, b) <==> !a.Equals(b)
    ensures Eq(a, b) != NotEq(a, b)
  {
  }

  /** `Equals` is an equivalence: reflexive, symmetric and transitive. */
  lemma EqualsIsEquivalence(a: GridPosition, b: GridPosition, c: GridPosition)
    ensures a.Equals(a)
    ensures a.Equals(b) ==> b.Equals(a)
    ensures a.Equals(b) && b.Equals(c) ==> a.Equals(c)
  {
  }
}
