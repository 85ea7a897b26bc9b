// The earlier revision of the vector, classes/Vec.h. Its storage, constructors,
// element access, binary operators and `==` are those of the later revision
// (CoreVec.Vec, CoreVec.Combine, CoreVec.EqualEarlyExit); its compound
// assignments and its `!=` differ, and are modelled here exactly as written,
// over the same vector class.

module LegacyVec {
  import opened CoreVec

  /**
   * `+=`, `-=`, `*=` and `/=` as written: all four loops add the other
   * vector's element, whichever operator was called. The later revision's
   * CoreVec.Vec.Assign applies the operator itself.
   */
  method CompoundAssign(v: Vec, op: Op, other: Vec)
    requires v.Valid() && other.Valid() && other.len == v.len
    modifies v.data
    ensures v.Elems() == ElementWise(Add, old(v.Elems()), old(other.Elems()))
  {
    var index := 0;
    while index < v.len
      invariant 0 <= index <= v.len
      invariant forall k :: 0 <= k < index ==> v.data[k] == old(v.data[k]) + old(other.data[k])
      invariant forall k :: index <= k < v.len ==> v.data[k] == old(v.data[k]) && other.data[k] == old(other.data[k])
    {
      v.data[index] := v.data[index] + other.data[index];
      index := index + 1;
    }
  }

  /** Every position of the two sequences holds different values. */
  predicate AllDiffer(a: seq<int>, b: seq<int>)
    requires |a| == |b|
  {
    forall i :: 0 <= i < |a| ==> a[i] != b[i]
  }

  /**
   * `operator!=` as written: returns false at the first EQUAL position, so it
   * holds only when every position differs, which is not the negation of `==`.
   */
  method NotEqual(lhs: Vec, rhs: Vec) returns (notEqual: bool)
    requires lhs.Valid() && rhs.Valid() && lhs.len == rhs.len
    ensures notEqual <==> AllDiffer(lhs.Elems(), rhs.Elems())
  {
    var index := 0;
    while index < lhs.len
      invariant 0 <= index <= lhs.len
      invariant forall k :: 0 <= k < index ==> lhs.data[k] != rhs.data[k]
    {
      if lhs.data[index] == rhs.data[index] {
        assert lhs.Elems()[index] == rhs.Elems()[index];
        return false;
      }
      index := index + 1;
    }
    return true;
  }

  /** Two vectors that share one position but differ in another are neither `==` nor `!=`. */
  method EqualityDefectExample() returns (equal: bool, notEqual: bool, corrected: bool)
    ensures !equal && !notEqual
    ensures corrected
  {
    var lhs := new Vec.FromElems([1, 2]);
    var rhs := new Vec.FromElems([1, 3]);
    assert lhs.Elems()[1] != rhs.Elems()[1];
    equal := EqualEarlyExit(lhs, rhs);
    assert lhs.Elems()[0] == rhs.Elems()[0];
    notEqual := NotEqual(lhs, rhs);
    corrected := CoreVec.NotEqual(lhs, rhs);
  }

  /** `-=` on [1, 1] with [1, 1] leaves [2, 2], where the later revision leaves [0, 0]. */
  method SubAssignDefectExample() returns (asWritten: seq<int>, corrected: seq<int>)
    ensures asWritten == [2, 2]
    ensures corrected == [0, 0]
  {
    var v := new Vec.Fill(2, 1);
    var w := new Vec.Fill(2, 1);
    CompoundAssign(v, Sub, w);
    asWritten := v.Elems();
    var cv := new Vec.Fill(2, 1);
    cv.Assign(Sub, w);
    corrected := cv.Elems();
  }
}
