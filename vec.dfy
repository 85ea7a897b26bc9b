// The fixed-length vector `Vec<len, Ty>` of core/Vec.h, over integers.
// Constructors and compound assignment update the element array in place;
// binary operators build a fresh vector element by element; equality is a
// loop, with an early exit for long vectors and an accumulator for short ones.

module CoreVec {

  /** The four arithmetic operators the vector lifts element-wise. */
  datatype Op = Add | Sub | Mul | Div

  function Abs(x: int): nat {
    if x < 0 then -x else x
  }

  /** C++ integer division: the quotient is truncated toward zero. */
  function CDiv(a: int, b: int): int
    requires b != 0
  {
    if (a < 0) == (b < 0) then Abs(a) / Abs(b) else -(Abs(a) / Abs(b))
  }

  /**
   * The guarantee of C++ division: a == q * b + r with |r| < |b|, and the
   * remainder is zero or has the sign of the dividend (truncation, unlike
   * Dafny's Euclidean division).
   */
  lemma CDivTruncates(a: int, b: int)
    requires b != 0
    ensures var q := CDiv(a, b); var r := a - q * b;
      Abs(r) < Abs(b) && (r == 0 || (r < 0 <==> a < 0))
  {
    var q0, m := Abs(a) / Abs(b), Abs(a) % Abs(b);
    assert Abs(a) == q0 * Abs(b) + m;
    if a >= 0 && b > 0 {
      assert a - CDiv(a, b) * b == m;
    } else if a >= 0 {
      assert CDiv(a, b) * b == (-q0) * b == q0 * Abs(b);
    } else if b > 0 {
      assert CDiv(a, b) * b == (-q0) * b == -(q0 * Abs(b));
    } else {
      assert CDiv(a, b) * b == q0 * b == -(q0 * Abs(b));
    }
  }

  /** `lhs op rhs` on one element. */
  function Apply(op: Op, lhs: int, rhs: int): int
    requires op == Div ==> rhs != 0
  {
    match op
    case Add => lhs + rhs
    case Sub => lhs - rhs
    case Mul => lhs * rhs
    case Div => CDiv(lhs, rhs)
  }

  predicate NoZero(s: seq<int>) {
    forall i :: 0 <= i < |s| ==> s[i] != 0
  }

  /** The operator lifted to two equally long sequences, position by position. */
  function ElementWise(op: Op, lhs: seq<int>, rhs: seq<int>): (r: seq<int>)
    requires |lhs| == |rhs|
    requires op == Div ==> NoZero(rhs)
    ensures |r| == |lhs|
    ensures forall i :: 0 <= i < |r| ==> r[i] == Apply(op, lhs[i], rhs[i])
  {
    if lhs == [] then [] else [Apply(op, lhs[0], rhs[0])] + ElementWise(op, lhs[1..], rhs[1..])
  }

  function Filled(n: nat, value: int): (r: seq<int>)
    ensures |r| == n && forall i :: 0 <= i < n ==> r[i] == value
  {
    seq(n, _ => value)
  }

  /** Subtracting what was added gives back the original vector. */
  lemma SubUndoesAdd(a: seq<int>, b: seq<int>)
    requires |a| == |b|
    ensures ElementWise(Sub, ElementWise(Add, a, b), b) == a
  {
  }

  /** Addition and multiplication of vectors commute, as they do per element. */
  lemma AddMulCommute(op: Op, a: seq<int>, b: seq<int>)
    requires op == Add || op == Mul
    requires |a| == |b|
    ensures ElementWise(op, a, b) == ElementWise(op, b, a)
  {
  }

  /** Multiplying then dividing by a vector without zeros gives back the original. */
  lemma DivUndoesMul(a: seq<int>, b: seq<int>)
    requires |a| == |b| && NoZero(b)
    ensures ElementWise(Div, ElementWise(Mul, a, b), b) == a
  {
    var m := ElementWise(Mul, a, b);
    forall i | 0 <= i < |a|
      ensures ElementWise(Div, m, b)[i] == a[i]
    {
      DivOfMultiple(a[i], b[i]);
    }
  }

  lemma DivOfMultiple(x: int, y: int)
    requires y != 0
    ensures CDiv(x * y, y) == x
  {
    AbsMul(x, y);
    MulDivCancel(Abs(x), Abs(y));
  }

  lemma AbsMul(x: int, y: int)
    ensures Abs(x * y) == Abs(x) * Abs(y)
  {
    if x < 0 && y >= 0 {
      assert x * y == -(Abs(x) * y);
    } else if x >= 0 && y < 0 {
      assert x * y == -(x * Abs(y));
    } else if x < 0 && y < 0 {
      assert x * y == Abs(x) * Abs(y);
    }
  }

  lemma MulDivCancel(a: nat, b: nat)
    requires b > 0
    ensures (a * b) / b == a
  {
    var q, r := (a * b) / b, (a * b) % b;
    assert (a - q) * b == r by {
      assert a * b == q * b + r;
    }
    if a - q >= 1 {
      assert false;
    } else if a - q <= -1 {
      assert false;
    }
  }

  /** Lengths 0 and 1 are rejected at compile time. */
  predicate ValidLength(len: nat) {
    len != 0 && len != 1
  }

  /** The letters a vector of length 2 to 4 offers, and the index each aliases. */
  predicate HasMember(len: nat, name: char) {
    match name
    case 'x' => 2 <= len <= 4
    case 'y' => 2 <= len <= 4
    case 'z' => 3 <= len <= 4
    case 'w' => len == 4
    case 'r' => 3 <= len <= 4
    case 'g' => 3 <= len <= 4
    case 'b' => 3 <= len <= 4
    case 'a' => len == 4
    case _ => false
  }

  /** The axis letters and the colour letters, each in index order. */
  const Axes: string := "xyzw"
  const ColourLetters: string := "rgba"

  /**
   * The anonymous structs of the union put x, y, z, w and r, g, b, a over
   * the array in declaration order: a letter aliases its own position.
   */
  function MemberIndex(name: char): (i: nat)
    ensures i < 4
    ensures name in Axes ==> Axes[i] == name
    ensures name in ColourLetters ==> ColourLetters[i] == name
  {
    match name
    case 'x' => 0
    case 'r' => 0
    case 'y' => 1
    case 'g' => 1
    case 'z' => 2
    case 'b' => 2
    case _ => 3
  }

  /** x and r alias index 0, y and g index 1, z and b index 2, w and a index 3. */
  lemma MemberAliases()
    ensures forall k :: 0 <= k < 4 ==> MemberIndex(Axes[k]) == k && MemberIndex(ColourLetters[k]) == k
  {
  }

  /** Every letter a vector offers names one of its own elements. */
  lemma MembersInBounds(len: nat, name: char)
    requires HasMember(len, name)
    ensures MemberIndex(name) < len
  {
  }

  class Vec {
    const len: nat
    const data: array<int>

    ghost predicate Valid()
      reads this
    {
      ValidLength(len) && data.Length == len
    }

    function Elems(): seq<int>
      reads this, data
    {
      data[..]
    }

    /** `Vec()`: every element is `Ty{}`, which is 0 for integers. */
    constructor Default(len: nat)
      requires ValidLength(len)
      ensures Valid() && fresh(data)
      ensures Elems() == Filled(len, 0)
    {
      this.len := len;
      data := new int[len];
      new;
      var index := 0;
      while index < len
        invariant 0 <= index <= len
        invariant forall k :: 0 <= k < index ==> data[k] == 0
      {
        data[index] := 0;
        index := index + 1;
      }
    }

    /** `Vec(value)`: every one of the `len` elements is `value`. */
    constructor Fill(len: nat, value: int)
      requires ValidLength(len)
      ensures Valid() && fresh(data)
      ensures Elems() == Filled(len, value)
    {
      this.len := len;
      data := new int[len];
      new;
      var index := 0;
      while index < len
        invariant 0 <= index <= len
        invariant forall k :: 0 <= k < index ==> data[k] == value
      {
        data[index] := value;
        index := index + 1;
      }
    }

    /** `Vec(args...)`: exactly `len` values, in order. */
    constructor FromElems(values: seq<int>)
      requires ValidLength(|values|)
      ensures Valid() && fresh(data) && len == |values|
      ensures Elems() == values
    {
      len := |values|;
      data := new int[|values|](i requires 0 <= i < |values| => values[i]);
    }

    /** `operator[]` read; indices outside the vector are undefined behaviour. */
    function At(index: nat): int
      reads this, data
      requires Valid() && index < len
    {
      data[index]
    }

    /** Writing through the reference `operator[]` returns. */
    method Set(index: nat, value: int)
      requires Valid() && index < len
      modifies data
      ensures Elems() == old(Elems())[index := value]
    {
      data[index] := value;
    }

    /** The named members share storage with the array: the letter reads the element it aliases. */
    function Member(name: char): (v: int)
      reads this, data
      requires Valid() && HasMember(len, name)
      ensures forall k :: 0 <= k < len && (name == Axes[k] || name == ColourLetters[k]) ==> v == Elems()[k]
    {
      data[MemberIndex(name)]
    }

    /** Writing a named member writes the element it aliases, and nothing else. */
    method SetMember(name: char, value: int)
      requires Valid() && HasMember(len, name)
      modifies data
      ensures Elems() == old(Elems())[MemberIndex(name) := value]
      ensures Member(name) == value
    {
      data[MemberIndex(name)] := value;
    }

    /**
     * `+= -= *= /=` with a vector: element i becomes old[i] op other[i]; the
     * length and the other vector's elements are unchanged. Writing v op= v is
     * allowed: each element is read before it is written.
     */
    method Assign(op: Op, other: Vec)
      requires Valid() && other.Valid() && other.len == len
      requires op == Div ==> NoZero(other.Elems())
      modifies data
      ensures Elems() == ElementWise(op, old(Elems()), old(other.Elems()))
    {
      var index := 0;
      while index < len
        invariant 0 <= index <= len
        invariant forall k :: 0 <= k < index ==> data[k] == Apply(op, old(data[k]), old(other.data[k]))
        invariant forall k :: index <= k < len ==> data[k] == old(data[k]) && other.data[k] == old(other.data[k])
      {
        data[index] := Apply(op, data[index], other.data[index]);
        index := index + 1;
      }
    }

    /** `+= -= *= /=` with a scalar: the scalar is applied to every element. */
    method AssignScalar(op: Op, scalar: int)
      requires Valid()
      requires op == Div ==> scalar != 0
      modifies data
      ensures Elems() == ElementWise(op, old(Elems()), Filled(len, scalar))
    {
      var index := 0;
      while index < len
        invariant 0 <= index <= len
        invariant forall k :: 0 <= k < index ==> data[k] == Apply(op, old(data[k]), scalar)
        invariant forall k :: index <= k < len ==> data[k] == old(data[k])
      {
        data[index] := Apply(op, data[index], scalar);
        index := index + 1;
      }
    }
  }

  /** Binary `+ - * /` on two vectors: a new vector, element i being lhs[i] op rhs[i]. */
  method Combine(op: Op, lhs: Vec, rhs: Vec) returns (r: Vec)
    requires lhs.Valid() && rhs.Valid() && lhs.len == rhs.len
    requires op == Div ==> NoZero(rhs.Elems())
    ensures fresh(r) && r.Valid() && r.len == lhs.len
    ensures r.Elems() == ElementWise(op, lhs.Elems(), rhs.Elems())
  {
    r := new Vec.FromElems(ElementWise(op, lhs.Elems(), rhs.Elems()));
  }

  /** Binary `vec + s`, `vec - s`, `vec * s`, `vec / s`. */
  method CombineScalar(op: Op, lhs: Vec, scalar: int) returns (r: Vec)
    requires lhs.Valid()
    requires op == Div ==> scalar != 0
    ensures fresh(r) && r.Valid() && r.len == lhs.len
    ensures r.Elems() == ElementWise(op, lhs.Elems(), Filled(lhs.len, scalar))
  {
    r := new Vec.FromElems(ElementWise(op, lhs.Elems(), Filled(lhs.len, scalar)));
  }

  /** Binary `s + vec` and `s * vec`; the header defines no scalar-first `-` or `/`. */
  method ScalarCombine(op: Op, scalar: int, rhs: Vec) returns (r: Vec)
    requires rhs.Valid()
    requires op == Add || op == Mul
    ensures fresh(r) && r.Valid() && r.len == rhs.len
    ensures r.Elems() == ElementWise(op, Filled(rhs.len, scalar), rhs.Elems())
  {
    r := new Vec.FromElems(ElementWise(op, Filled(rhs.len, scalar), rhs.Elems()));
  }

  /** `operator==` for vectors longer than 4: stops at the first unequal position. */
  method EqualEarlyExit(lhs: Vec, rhs: Vec) returns (equal: bool)
    requires lhs.Valid() && rhs.Valid() && lhs.len == rhs.len
    ensures equal <==> lhs.Elems() == rhs.Elems()
  {
    var index := 0;
    while index < lhs.len
      invariant 0 <= index <= lhs.len
      invariant forall k :: 0 <= k < index ==> lhs.data[k] == rhs.data[k]
    {
      if lhs.data[index] != rhs.data[index] {
        assert lhs.Elems()[index] != rhs.Elems()[index];
        return false;
      }
      index := index + 1;
    }
    assert lhs.Elems() == rhs.Elems();
    return true;
  }

  /** `operator==` for vectors of length 4 or less: one accumulated conjunction, no early exit. */
  method EqualAccumulate(lhs: Vec, rhs: Vec) returns (equal: bool)
    requires lhs.Valid() && rhs.Valid() && lhs.len == rhs.len
    ensures equal <==> lhs.Elems() == rhs.Elems()
  {
    var allEqual := true;
    var index := 0;
    while index < lhs.len
      invariant 0 <= index <= lhs.len
      invariant allEqual <==> lhs.data[..index] == rhs.data[..index]
    {
      assert lhs.data[..index + 1] == lhs.data[..index] + [lhs.data[index]];
      assert rhs.data[..index + 1] == rhs.data[..index] + [rhs.data[index]];
      allEqual := allEqual && lhs.data[index] == rhs.data[index];
      index := index + 1;
    }
    assert lhs.data[..lhs.len] == lhs.Elems() && rhs.data[..rhs.len] == rhs.Elems();
    equal := allEqual;
  }

  /** `operator==`: the strategy depends on the length; either way, equal iff all positions are. */
  method Equal(lhs: Vec, rhs: Vec) returns (equal: bool)
    requires lhs.Valid() && rhs.Valid() && lhs.len == rhs.len
    ensures equal <==> lhs.Elems() == rhs.Elems()
  {
    if lhs.len > 4 {
      equal := EqualEarlyExit(lhs, rhs);
    } else {
      equal := EqualAccumulate(lhs, rhs);
    }
  }

  /** `operator!=`: exactly the negation of `==`. */
  method NotEqual(lhs: Vec, rhs: Vec) returns (notEqual: bool)
    requires lhs.Valid() && rhs.Valid() && lhs.len == rhs.len
    ensures notEqual <==> lhs.Elems() != rhs.Elems()
  {
    var equal := Equal(lhs, rhs);
    notEqual := !equal;
  }

  /**
   * `CustomLogIter` as the length-2 specialisation evidently intends: index 0
   * is "x", 1 is "y"; lengths 3 and 4 give x, y, z and x, y, z, w, and an index
   * past the end falls to the last letter.
   */
  function AxisLabel(len: nat, index: nat): (name: string)
    requires 2 <= len <= 4
    ensures index < len ==> name == [Axes[index]]
    ensures index >= len ==> name == [Axes[len - 1]]
  {
    if index == 0 then "x"
    else if index == 1 || len == 2 then "y"
    else if index == 2 || len == 3 then "z"
    else "w"
  }

  /**
   * `CustomLogIter` as written: the length-2 version tests `index = 0`, an
   * assignment whose value is 0, so it always writes "y".
   */
  function AxisLabelAsWritten(len: nat, index: nat): (name: string)
    requires 2 <= len <= 4
    ensures len == 2 ==> name == "y"
    ensures len != 2 ==> name == AxisLabel(len, index)
  {
    if len == 2 then "y"
    else if index == 0 then "x"
    else if index == 1 then "y"
    else if index == 2 || len == 3 then "z"
    else "w"
  }

  /** The length-2 defect: index 0 is labelled "y", not "x". */
  lemma AxisLabelVec2Defect()
    ensures AxisLabelAsWritten(2, 0) == "y"
    ensures AxisLabel(2, 0) == "x"
  {
  }

  /**
   * The Vec4 alias test: fill with 5393 and read through x, y, z, w; write
   * the four indices and read them back through the axis letters; write the
   * four axis letters and read them back through r, g, b, a.
   */
  method Vec4Aliases() returns (filled: seq<int>, byIndex: seq<int>, byColour: seq<int>)
    ensures filled == [5393, 5393, 5393, 5393]
    ensures byIndex == [254, 534, 349, 435]
    ensures byColour == [423, 534, 434, 503]
  {
    var v := new Vec.Fill(4, 5393);
    filled := [v.Member('x'), v.Member('y'), v.Member('z'), v.Member('w')];
    v.Set(0, 254);
    v.Set(1, 534);
    v.Set(2, 349);
    v.Set(3, 435);
    byIndex := [v.Member('x'), v.Member('y'), v.Member('z'), v.Member('w')];
    v.SetMember('x', 423);
    v.SetMember('y', 534);
    v.SetMember('z', 434);
    v.SetMember('w', 503);
    byColour := [v.Member('r'), v.Member('g'), v.Member('b'), v.Member('a')];
  }
}
