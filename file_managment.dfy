// core/FileManagment.cpp: the reason table of FileReadError and the
// conversion of a string index into a 1-based (column, line) location whose
// fields are `unsigned short` and so wrap modulo 2^16.

module FileManagment {

  /** `FileReadError::Reason`, in declaration order. */
  datatype Reason = FileNotFound | PermissionDenied | NotAFile

  /** `FileReadError`: the absolute path that was tried and why reading it failed. */
  datatype FileReadError = FileReadError(path: string, reason: Reason)

  /** The enumerator's integer value, which indexes the reason table. */
  function Ordinal(reason: Reason): (n: nat)
    ensures n < 3
  {
    match reason
    case FileNotFound => 0
    case PermissionDenied => 1
    case NotAFile => 2
  }

  /** The static table inside `ReasonStr`, in enumerator order. */
  const ReasonTable: seq<string> := [
    "File cannot be found",
    "File reading permissions are denied",
    "Not a file"
  ]

  /** `ReasonStr`: the table entry at the reason's ordinal. */
  function ReasonStr(reason: Reason): (s: string)
    ensures s in ReasonTable
    ensures reason == FileNotFound ==> s == "File cannot be found"
    ensures reason == PermissionDenied ==> s == "File reading permissions are denied"
    ensures reason == NotAFile ==> s == "Not a file"
  {
    ReasonTable[Ordinal(reason)]
  }

  /** Different reasons have different texts, so the text identifies the reason. */
  lemma ReasonStrInjective(a: Reason, b: Reason)
    requires ReasonStr(a) == ReasonStr(b)
    ensures a == b
  {
  }

  /** `unsigned short` arithmetic wraps modulo 2^16. */
  const U16Modulus: nat := 0x1_0000

  /** `uint32_t` holds values below 2^32. */
  const U32Modulus: nat := 0x1_0000_0000

  /** `StringLocation`: 1-based column and line; {0, 0} marks an index out of range. */
  datatype StringLocation = StringLocation(column: nat, line: nat)

  /**
   * The line reached after reading `prefix` from line 1: one more for every
   * newline read. Unbounded; the source's field keeps this modulo 2^16.
   */
  function LineOf(prefix: string): (line: nat)
    ensures line >= 1
  {
    if prefix == [] then 1
    else LineOf(prefix[..|prefix| - 1]) + (if prefix[|prefix| - 1] == '\n' then 1 else 0)
  }

  /**
   * The column reached after reading `prefix` from column 1: a newline
   * restarts the count at 1, any other character advances it by one.
   */
  function ColumnOf(prefix: string): (column: nat)
    ensures column >= 1
  {
    if prefix == [] then 1
    else if prefix[|prefix| - 1] == '\n' then 1
    else ColumnOf(prefix[..|prefix| - 1]) + 1
  }

  /** The line is one more than the number of newlines read. */
  lemma {:induction false} LineCountsNewlines(prefix: string)
    ensures LineOf(prefix) == 1 + multiset(prefix)['\n']
    decreases |prefix|
  {
    if prefix != [] {
      var init := prefix[..|prefix| - 1];
      LineCountsNewlines(init);
      assert prefix == init + [prefix[|prefix| - 1]];
      assert multiset(prefix) == multiset(init) + multiset{prefix[|prefix| - 1]};
    }
  }

  /**
   * The column is one more than the number of characters after the last
   * newline: `start` is the position just past that newline, or 0 when there
   * is none.
   */
  lemma {:induction false} ColumnCountsSinceNewline(prefix: string, start: nat)
    requires start <= |prefix|
    requires start == 0 || prefix[start - 1] == '\n'
    requires forall j :: start <= j < |prefix| ==> prefix[j] != '\n'
    ensures ColumnOf(prefix) == 1 + |prefix| - start
    decreases |prefix|
  {
    if |prefix| > start {
      var init := prefix[..|prefix| - 1];
      ColumnCountsSinceNewline(init, start);
    } else if prefix != [] {
      assert prefix[|prefix| - 1] == '\n';
    }
  }

  /** The location the source promises for `index`: {0, 0} past the end, else both counts wrapped to 16 bits. */
  function LocationOf(s: string, index: nat): (loc: StringLocation)
    ensures index > |s| ==> loc == StringLocation(0, 0)
    ensures loc.column < U16Modulus && loc.line < U16Modulus
  {
    if index > |s| then StringLocation(0, 0)
    else StringLocation(ColumnOf(s[..index]) % U16Modulus, LineOf(s[..index]) % U16Modulus)
  }

  /**
   * `GetLocationAtStringIndex`: walks the string up to `index`, resetting the
   * column and advancing the line at every newline. `index == |s|` is in
   * range; anything larger gives {0, 0}.
   */
  method GetLocationAtStringIndex(s: string, index: nat) returns (loc: StringLocation)
    requires index < U32Modulus
    ensures loc == LocationOf(s, index)
    ensures index == 0 ==> loc == StringLocation(1, 1)
  {
    if index > |s| {
      return StringLocation(0, 0);
    }
    var column, line := 1, 1;
    var it := 0;
    while it != index
      invariant 0 <= it <= index
      invariant column == ColumnOf(s[..it]) % U16Modulus
      invariant line == LineOf(s[..it]) % U16Modulus
    {
      assert s[..it + 1][..it] == s[..it];
      if s[it] == '\n' {
        column := 0;
        line := (line + 1) % U16Modulus;
      }
      column := (column + 1) % U16Modulus;
      it := it + 1;
    }
    loc := StringLocation(column, line);
  }

  /**
   * The closed form: within range, the line is 1 plus the newlines before
   * `index` and the column 1 plus the characters since the last of them,
   * each modulo 2^16.
   */
  lemma LocationClosedForm(s: string, index: nat, start: nat)
    requires start <= index <= |s|
    requires start == 0 || s[start - 1] == '\n'
    requires forall j :: start <= j < index ==> s[j] != '\n'
    ensures LocationOf(s, index).line == (1 + multiset(s[..index])['\n']) % U16Modulus
    ensures LocationOf(s, index).column == (1 + index - start) % U16Modulus
  {
    LineCountsNewlines(s[..index]);
    ColumnCountsSinceNewline(s[..index], start);
  }

  /** Text without newlines is all line 1, and the column is the 1-based position. */
  lemma SingleLineLocation(s: string, index: nat)
    requires index <= |s| && index + 1 < U16Modulus
    requires forall j :: 0 <= j < |s| ==> s[j] != '\n'
    ensures LocationOf(s, index) == StringLocation(index + 1, 1)
  {
    LocationClosedForm(s, index, 0);
    assert multiset(s[..index])['\n'] == 0;
  }

  lemma {:induction false} CountRepeated(n: nat, c: char)
    ensures multiset(seq(n, _ => c))[c] == n
  {
    if n > 0 {
      CountRepeated(n - 1, c);
      assert seq(n, _ => c) == seq(n - 1, _ => c) + [c];
    }
  }

  /**
   * The {0, 0} marker is not reserved for an index past the end: after
   * 65535 newlines and then 65535 other characters, both counters have
   * wrapped to 0 for an index that is in range.
   */
  lemma OutOfRangeMarkerNotUnique()
    ensures var s := seq(0xFFFF, _ => '\n') + seq(0xFFFF, _ => 'a');
      |s| < U32Modulus && LocationOf(s, |s|) == StringLocation(0, 0)
  {
    var lines, rest := seq(0xFFFF, _ => '\n'), seq(0xFFFF, _ => 'a');
    var s := lines + rest;
    assert s[..|s|] == s;
    CountRepeated(0xFFFF, '\n');
    assert multiset(rest)['\n'] == 0;
    assert multiset(s) == multiset(lines) + multiset(rest);
    LocationClosedForm(s, |s|, 0xFFFF);
  }
}
