// Message assembly of the later logging header, core/Log.h. Each argument is
// rendered by the first rule that applies to its type; the renderings are
// concatenated in order; Log wraps them in a fixed prefix and a newline and
// writes the same text to the console and to the log file. The two sinks are
// modelled as strings that the writes extend.

module CoreLog {
  import opened Wrappers
  import opened Text
  import CoreVec

  /** `Internal::LogCommand`. */
  datatype LogCommand = NewLine | ClearConsole

  /**
   * A logged argument, described by what its static type offers:
   * - Pointer: any pointer type; `target` is None for nullptr, and
   *   `typeName` stands for the implementation-defined `typeid(...).name()`;
   * - Command: a LogCommand;
   * - Object: a class type with, where present, the output of its
   *   `LogStr(LogStream&)`, of its legacy `LogStr()` and of its `operator<<`;
   * - Boolean, Integer, Character, Text (a std::string or a string literal):
   *   types the standard stream writes.
   */
  datatype Arg =
    | Pointer(target: Option<Arg>, typeName: string)
    | Command(command: LogCommand)
    | Object(logStr: Option<string>, legacyLogStr: Option<string>, streamed: Option<string>)
    | Boolean(b: bool)
    | Integer(i: int)
    | Character(c: char)
    | Text(s: string)

  /** The `Logable` concept: a type no rule applies to is rejected at compile time. */
  predicate Logable(arg: Arg) {
    match arg
    case Pointer(target, _) => target.None? || Logable(target.value)
    case Object(logStr, legacyLogStr, streamed) => logStr.Some? || legacyLogStr.Some? || streamed.Some?
    case _ => true
  }

  predicate AllLogable(args: seq<Arg>) {
    forall i :: 0 <= i < |args| ==> Logable(args[i])
  }

  const NullPrefix: string := "Nullptr of type: ["

  /**
   * `ProcessArg`: pointers first (a non-null one renders as what it points
   * at), then log commands, then `LogStr(LogStream&)`, then the legacy
   * `LogStr()`, then the stream operator, where a bool is spelled out.
   */
  function ProcessArg(arg: Arg): (s: string)
    requires Logable(arg)
    ensures arg.Pointer? && arg.target.None? ==> s == NullPrefix + arg.typeName + "]"
    ensures arg.Object? && arg.logStr.Some? ==> s == arg.logStr.value
    ensures arg.Object? && arg.logStr.None? && arg.legacyLogStr.Some? ==> s == arg.legacyLogStr.value
    ensures arg.Boolean? ==> s == (if arg.b then "TRUE" else "FALSE")
    ensures arg == Command(NewLine) ==> s == "\n"
  {
    match arg
    case Pointer(target, typeName) =>
      if target.Some? then ProcessArg(target.value) else NullPrefix + typeName + "]"
    case Command(command) =>
      // ClearConsole also clears the screen, a side effect outside the model.
      if command == NewLine then "\n" else ""
    case Object(logStr, legacyLogStr, streamed) =>
      if logStr.Some? then logStr.value
      else if legacyLogStr.Some? then legacyLogStr.value
      else streamed.value
    case Boolean(b) => if b then "TRUE" else "FALSE"
    case Integer(i) => IntToString(i)
    case Character(c) => [c]
    case Text(s) => s
  }

  /** `depth` non-null pointers in front of `arg`. */
  function PointerChain(arg: Arg, depth: nat, typeName: string): (p: Arg)
    ensures Logable(arg) ==> Logable(p)
  {
    if depth == 0 then arg else Pointer(Some(PointerChain(arg, depth - 1, typeName)), typeName)
  }

  /** However many valid pointers lead to a value, it is the value that is rendered. */
  lemma {:induction false} PointersAreTransparent(arg: Arg, depth: nat, typeName: string)
    requires Logable(arg)
    ensures ProcessArg(PointerChain(arg, depth, typeName)) == ProcessArg(arg)
  {
    if depth > 0 {
      PointersAreTransparent(arg, depth - 1, typeName);
    }
  }

  /**
   * A `const char*` variable holding `text` (not a string literal, which is
   * an array) is a pointer to its first character.
   */
  function CharPointer(text: string, typeName: string): (p: Arg)
    ensures p.Pointer? && Logable(p)
  {
    Pointer(Some(Character(if text == [] then '\0' else text[0])), typeName)
  }

  /** So only that first character is rendered (the terminator for empty text), not the text. */
  lemma CharPointerRendersFirstChar(text: string, typeName: string)
    requires text != []
    ensures ProcessArg(CharPointer(text, typeName)) == [text[0]]
    ensures |text| > 1 ==> ProcessArg(CharPointer(text, typeName)) != ProcessArg(Text(text))
  {
  }

  /** `ProcessArgs`: the fold `(ProcessArg(args) + ... + "")`. */
  function ProcessArgs(args: seq<Arg>): (s: string)
    requires AllLogable(args)
    ensures args == [] ==> s == ""
    ensures |args| == 1 ==> s == ProcessArg(args[0])
  {
    if args == [] then "" else ProcessArg(args[0]) + ProcessArgs(args[1..])
  }

  /** Rendering a list is rendering its parts in order, one after the other. */
  lemma {:induction false} ProcessArgsAppend(a: seq<Arg>, b: seq<Arg>)
    requires AllLogable(a) && AllLogable(b)
    ensures AllLogable(a + b)
    ensures ProcessArgs(a + b) == ProcessArgs(a) + ProcessArgs(b)
    decreases |a|
  {
    if a != [] {
      assert (a + b)[0] == a[0];
      assert (a + b)[1..] == a[1..] + b;
      ProcessArgsAppend(a[1..], b);
      assert ProcessArgs(a + b) == ProcessArg(a[0]) + ProcessArgs(a[1..] + b);
    } else {
      assert a + b == b;
    }
  }

  const LogPrefix: string := "[PB_Util::Log]: "

  /**
   * The text `Log(args...)` writes: the arguments rendered between the prefix
   * literal and a NewLine command.
   */
  function LogMessage(args: seq<Arg>): (m: string)
    requires AllLogable(args)
    ensures m == LogPrefix + ProcessArgs(args) + "\n"
  {
    var all := [Text(LogPrefix)] + args + [Command(NewLine)];
    ProcessArgsAppend([Text(LogPrefix)], args);
    ProcessArgsAppend([Text(LogPrefix)] + args, [Command(NewLine)]);
    ProcessArgs(all)
  }

  /** How a container's items are labelled: by index, or by a Vec's `CustomLogIter`. */
  datatype Labels = ByIndex | VecAxes(len: nat)

  /** The labels the container Log uses for a `Vec<len, Ty>`: letters for lengths 2 to 4. */
  function VecLabels(len: nat): (labels: Labels)
    ensures labels.VecAxes? <==> 2 <= len <= 4
  {
    if 2 <= len <= 4 then VecAxes(len) else ByIndex
  }

  predicate ValidLabels(labels: Labels) {
    labels.VecAxes? ==> 2 <= labels.len <= 4
  }

  /**
   * An item's label: its index in decimal, or what the Vec's `CustomLogIter`
   * writes. The length-2 version writes "y" for every index (its `index = 0`
   * test is an assignment); lengths 3 and 4 write the index's axis letter, or
   * the last letter past the end, as CoreVec.AxisLabel states.
   */
  function Label(labels: Labels, index: nat): (s: string)
    requires ValidLabels(labels)
    ensures labels.ByIndex? ==> s == NatToString(index)
    ensures labels.VecAxes? && labels.len == 2 ==> s == "y"
    ensures labels.VecAxes? && labels.len != 2 ==> s == CoreVec.AxisLabel(labels.len, index)
  {
    match labels
    case ByIndex => NatToString(index)
    case VecAxes(len) => CoreVec.AxisLabelAsWritten(len, index)
  }

  /** Eight spaces of indent, the label left-justified in four columns, then the separator. */
  function ItemPrefix(labels: Labels, index: nat): (p: string)
    requires ValidLabels(labels)
    ensures |p| == 8 + (if |Label(labels, index)| >= 4 then |Label(labels, index)| else 4) + 3
  {
    Spaces(8) + PadRight(Label(labels, index), 4) + " | "
  }

  /**
   * The prefix's three parts: eight spaces, then the label left-justified in
   * at least four columns, then " | ".
   */
  lemma ItemPrefixParts(labels: Labels, index: nat)
    requires ValidLabels(labels)
    ensures var p := ItemPrefix(labels, index);
      && p[..8] == Spaces(8)
      && p[8..|p| - 3] == PadRight(Label(labels, index), 4)
      && p[|p| - 3..] == " | "
  {
    var indent, padded := Spaces(8), PadRight(Label(labels, index), 4);
    var p := ItemPrefix(labels, index);
    assert p == indent + padded + " | ";
    assert p[..8] == indent;
    assert p[8..|p| - 3] == padded;
  }

  function ItemLine(labels: Labels, index: nat, item: Arg): string
    requires ValidLabels(labels) && Logable(item)
  {
    ItemPrefix(labels, index) + ProcessArg(item) + "\n"
  }

  /** One line per item, in iteration order, labelled 0, 1, 2, ... by position. */
  function ItemLines(labels: Labels, items: seq<Arg>): string
    requires ValidLabels(labels) && AllLogable(items)
  {
    if items == [] then ""
    else ItemLines(labels, items[..|items| - 1]) + ItemLine(labels, |items| - 1, items[|items| - 1])
  }

  lemma AppendAssociative(a: string, b: string, c: string)
    ensures (a + b) + c == a + (b + c)
  {
  }

  lemma ItemLinesSnoc(labels: Labels, items: seq<Arg>, index: nat)
    requires ValidLabels(labels) && AllLogable(items) && index < |items|
    ensures ItemLines(labels, items[..index + 1]) == ItemLines(labels, items[..index]) + ItemLine(labels, index, items[index])
  {
    var next := items[..index + 1];
    assert next[..|next| - 1] == items[..index];
  }

  function ContainerHeader(name: Arg): string
    requires Logable(name)
  {
    ContainerOpen + ProcessArg(name) + ContainerClose
  }

  /** The whole text the container `Log(name, container)` writes. */
  function ContainerMessage(name: Arg, labels: Labels, items: seq<Arg>): string
    requires Logable(name) && ValidLabels(labels) && AllLogable(items)
  {
    ContainerHeader(name) + ItemLines(labels, items) + "}\n"
  }

  /**
   * The loop of the container `Log`: the header, then for each item its
   * prefix, its rendering and a newline, with `index` counting up from 0,
   * then the closing brace.
   */
  method BuildContainerMessage(name: Arg, labels: Labels, items: seq<Arg>) returns (message: string)
    requires Logable(name) && ValidLabels(labels) && AllLogable(items)
    ensures message == ContainerMessage(name, labels, items)
  {
    var os := ContainerHeader(name);
    ghost var header := os;
    var index := 0;
    assert items[..0] == [];
    while index < |items|
      invariant 0 <= index <= |items|
      invariant os == header + ItemLines(labels, items[..index])
    {
      var prefix := ItemPrefix(labels, index);
      var itemStr := ProcessArg(items[index]);
      ItemLinesSnoc(labels, items, index);
      ghost var done := ItemLines(labels, items[..index]);
      ghost var line := ItemLine(labels, index, items[index]);
      assert prefix + itemStr + "\n" == line;
      AppendAssociative(header, done, line);
      os := os + (prefix + itemStr + "\n");
      index := index + 1;
    }
    assert items[..|items|] == items;
    message := os + "}\n";
  }

  predicate NoNewline(s: string) {
    forall i :: 0 <= i < |s| ==> s[i] != '\n'
  }

  /** The number of '\n' characters in the text, i.e. the lines it ends. */
  function NewlineCount(s: string): nat {
    if s == [] then 0 else NewlineCount(s[..|s| - 1]) + (if s[|s| - 1] == '\n' then 1 else 0)
  }

  lemma {:induction false} NoNewlineCount(s: string)
    requires NoNewline(s)
    ensures NewlineCount(s) == 0
    decreases |s|
  {
    if s != [] {
      NoNewlineCount(s[..|s| - 1]);
    }
  }

  lemma {:induction false} NewlineCountAppend(a: string, b: string)
    ensures NewlineCount(a + b) == NewlineCount(a) + NewlineCount(b)
    decreases |b|
  {
    if b == [] {
      assert a + b == a;
    } else {
      var ab := a + b;
      assert ab[..|ab| - 1] == a + b[..|b| - 1];
      assert ab[|ab| - 1] == b[|b| - 1];
      NewlineCountAppend(a, b[..|b| - 1]);
    }
  }

  lemma LabelHasNoNewline(labels: Labels, index: nat)
    requires ValidLabels(labels)
    ensures NoNewline(Label(labels, index))
  {
    var s := Label(labels, index);
    if labels.ByIndex? {
      assert AllDigits(s);
    }
  }

  lemma NoNewlineAppend(a: string, b: string)
    requires NoNewline(a) && NoNewline(b)
    ensures NoNewline(a + b)
  {
    forall i | 0 <= i < |a + b|
      ensures (a + b)[i] != '\n'
    {
      if i < |a| {
        assert (a + b)[i] == a[i];
      } else {
        assert (a + b)[i] == b[i - |a|];
      }
    }
  }

  lemma PaddedHasNoNewline(s: string, width: nat)
    requires NoNewline(s)
    ensures NoNewline(PadRight(s, width))
  {
    var padded := PadRight(s, width);
    forall i | 0 <= i < |padded|
      ensures padded[i] != '\n'
    {
      if i < |s| {
        assert padded[i] == padded[..|s|][i] == s[i];
      }
    }
  }

  /** An item's prefix never contains a newline. */
  lemma PrefixHasNoNewline(labels: Labels, index: nat)
    requires ValidLabels(labels)
    ensures NoNewline(ItemPrefix(labels, index))
  {
    LabelHasNoNewline(labels, index);
    PaddedHasNoNewline(Label(labels, index), 4);
    var indent, padded, separator := Spaces(8), PadRight(Label(labels, index), 4), " | ";
    assert NoNewline(indent);
    assert NoNewline(separator);
    NoNewlineAppend(indent, padded);
    NoNewlineAppend(indent + padded, separator);
  }

  /** Each item line ends in the only newline it contains, when the item's rendering has none. */
  lemma ItemLineNewlines(labels: Labels, index: nat, item: Arg)
    requires ValidLabels(labels) && Logable(item)
    requires NoNewline(ProcessArg(item))
    ensures NewlineCount(ItemLine(labels, index, item)) == 1
  {
    var prefix, rendered := ItemPrefix(labels, index), ProcessArg(item);
    PrefixHasNoNewline(labels, index);
    NoNewlineCount(prefix);
    NoNewlineCount(rendered);
    NewlineCountAppend(prefix, rendered);
    NewlineCountAppend(prefix + rendered, "\n");
  }

  /**
   * One line per item: when neither the name nor any item renders a newline,
   * the message has exactly |items| + 3 lines (the header takes two, the
   * closing brace one).
   */
  lemma {:induction false} ItemLinesNewlines(labels: Labels, items: seq<Arg>)
    requires ValidLabels(labels) && AllLogable(items)
    requires forall i :: 0 <= i < |items| ==> NoNewline(ProcessArg(items[i]))
    ensures NewlineCount(ItemLines(labels, items)) == |items|
    decreases |items|
  {
    if items != [] {
      var init, last := items[..|items| - 1], items[|items| - 1];
      assert forall i :: 0 <= i < |init| ==> init[i] == items[i];
      ItemLinesCountStep(labels, items);
      ItemLinesNewlines(labels, init);
      ItemLineNewlines(labels, |items| - 1, last);
    }
  }

  /** The last item adds its own line's newlines to those of the lines before it. */
  lemma ItemLinesCountStep(labels: Labels, items: seq<Arg>)
    requires ValidLabels(labels) && AllLogable(items) && items != []
    ensures AllLogable(items[..|items| - 1])
    ensures NewlineCount(ItemLines(labels, items))
      == NewlineCount(ItemLines(labels, items[..|items| - 1])) + NewlineCount(ItemLine(labels, |items| - 1, items[|items| - 1]))
  {
    var before := ItemLines(labels, items[..|items| - 1]);
    var line := ItemLine(labels, |items| - 1, items[|items| - 1]);
    assert ItemLines(labels, items) == before + line;
    NewlineCountAppend(before, line);
  }

  const ContainerOpen: string := "[PB_Util::LogContainer]: \""
  const ContainerClose: string := "\"\n{\n"

  lemma HeaderPartsNewlines()
    ensures NewlineCount(ContainerOpen) == 0
    ensures NewlineCount(ContainerClose) == 2
    ensures NewlineCount("}\n") == 1
  {
    OpenHasNoNewline();
    CloseNewlines();
    NewlineCountAppend("}", "\n");
  }

  lemma OpenHasNoNewline()
    ensures NewlineCount(ContainerOpen) == 0
  {
    var open := ContainerOpen;
    forall i | 0 <= i < |open|
      ensures open[i] != '\n'
    {
    }
    NoNewlineCount(open);
  }

  lemma CloseNewlines()
    ensures NewlineCount(ContainerClose) == 2
  {
    var quote, brace := "\"\n", "{\n";
    assert ContainerClose == quote + brace;
    assert NewlineCount(quote) == 1 && NewlineCount(brace) == 1;
    NewlineCountAppend(quote, brace);
  }

  lemma HeaderNewlines(name: Arg)
    requires Logable(name) && NoNewline(ProcessArg(name))
    ensures NewlineCount(ContainerHeader(name)) == 2
  {
    var rendered := ProcessArg(name);
    HeaderPartsNewlines();
    NoNewlineCount(rendered);
    NewlineCountAppend(ContainerOpen, rendered);
    NewlineCountAppend(ContainerOpen + rendered, ContainerClose);
  }

  lemma ContainerLineCount(name: Arg, labels: Labels, items: seq<Arg>)
    requires Logable(name) && ValidLabels(labels) && AllLogable(items)
    requires NoNewline(ProcessArg(name))
    requires forall i :: 0 <= i < |items| ==> NoNewline(ProcessArg(items[i]))
    ensures NewlineCount(ContainerMessage(name, labels, items)) == |items| + 3
  {
    HeaderNewlines(name);
    HeaderPartsNewlines();
    ItemLinesNewlines(labels, items);
    NewlineCountAppend(ContainerHeader(name), ItemLines(labels, items));
    NewlineCountAppend(ContainerHeader(name) + ItemLines(labels, items), "}\n");
  }

  /** A three-element Vec is listed with the labels x, y and z, each padded to four columns. */
  lemma Vec3Prefixes()
    ensures ItemPrefix(VecLabels(3), 0) == "        x    | "
    ensures ItemPrefix(VecLabels(3), 1) == "        y    | "
    ensures ItemPrefix(VecLabels(3), 2) == "        z    | "
  {
    assert Spaces(8) == "        ";
    assert PadRight("x", 4) == "x   " && PadRight("y", 4) == "y   " && PadRight("z", 4) == "z   ";
  }

  /** A two-element Vec is listed with the label y on both lines. */
  lemma Vec2Prefixes()
    ensures ItemPrefix(VecLabels(2), 0) == "        y    | "
    ensures ItemPrefix(VecLabels(2), 1) == "        y    | "
  {
    assert Spaces(8) == "        ";
    assert PadRight("y", 4) == "y   ";
  }

  /**
   * The console and the log file, as the text written to each so far. Every
   * write passes `message.c_str()` to a stream, so it stops at the message's
   * first '\0' (CStr).
   */
  class Sinks {
    var console: string
    var logFile: string

    constructor ()
      ensures console == "" && logFile == ""
    {
      console, logFile := "", "";
    }

    /** `Print(args...)` in the default colour: the rendering goes to the console only. */
    method Print(args: seq<Arg>)
      requires AllLogable(args)
      modifies this
      ensures console == old(console) + CStr(ProcessArgs(args))
      ensures logFile == old(logFile)
    {
      console := console + CStr(ProcessArgs(args));
    }

    /** `PrintLn(args...)`: `Print` with a NewLine command appended. */
    method PrintLn(args: seq<Arg>)
      requires AllLogable(args)
      modifies this
      ensures console == old(console) + CStr(ProcessArgs(args) + "\n")
      ensures logFile == old(logFile)
    {
      ProcessArgsAppend(args, [Command(NewLine)]);
      Print(args + [Command(NewLine)]);
    }

    /** `Log(args...)`: the same message to both sinks. */
    method Log(args: seq<Arg>)
      requires AllLogable(args)
      modifies this
      ensures console == old(console) + CStr(LogMessage(args))
      ensures logFile == old(logFile) + CStr(LogMessage(args))
    {
      var message := LogMessage(args);
      console := console + CStr(message);
      logFile := logFile + CStr(message);
    }

    /** The container `Log(name, container)`: the assembled message to both sinks. */
    method LogContainer(name: Arg, labels: Labels, items: seq<Arg>)
      requires Logable(name) && ValidLabels(labels) && AllLogable(items)
      modifies this
      ensures console == old(console) + CStr(ContainerMessage(name, labels, items))
      ensures logFile == old(logFile) + CStr(ContainerMessage(name, labels, items))
    {
      var message := BuildContainerMessage(name, labels, items);
      console := console + CStr(message);
      logFile := logFile + CStr(message);
    }
  }

  /** A message whose arguments render no '\0' is written whole: the prefix and the newline. */
  lemma LogWritesWholeMessage(args: seq<Arg>)
    requires AllLogable(args) && '\0' !in ProcessArgs(args)
    ensures CStr(LogMessage(args)) == LogPrefix + ProcessArgs(args) + "\n"
  {
    var m, rendered := LogMessage(args), ProcessArgs(args);
    PrefixHasNoNul();
    assert m == (LogPrefix + rendered) + "\n";
    assert '\0' !in LogPrefix + rendered;
  }

  lemma PrefixHasNoNul()
    ensures '\0' !in LogPrefix
  {
  }

  /** A '\0' among the arguments ends the write: what follows it, the newline included, is lost. */
  lemma NulTruncatesLog()
    ensures CStr(LogMessage([Character('\0'), Text("lost")])) == LogPrefix
  {
    var m := LogMessage([Character('\0'), Text("lost")]);
    assert m == LogPrefix + ("\0" + "lost") + "\n";
    assert '\0' !in LogPrefix && m[..|LogPrefix|] == LogPrefix;
    assert m[|LogPrefix|] == '\0';
    CStrStopsAtNul(m, |LogPrefix|);
  }

  lemma CStrStopsAtNul(s: string, n: nat)
    requires n < |s| && s[n] == '\0' && '\0' !in s[..n]
    ensures CStr(s) == s[..n]
  {

  }

  const Int32Min: int := -0x8000_0000
  const Int32Max: int := 0x7FFF_FFFF
  const Int64Min: int := -0x8000_0000_0000_0000
  const Int64Max: int := 0x7FFF_FFFF_FFFF_FFFF

  predicate InInt64(x: int) {
    Int64Min <= x <= Int64Max
  }

  /** Conversion of a `long long` to `int`: the value modulo 2^32, read as two's complement. */
  function WrapToInt32(x: int): (r: int)
    ensures Int32Min <= r <= Int32Max
    ensures (x - r) % 0x1_0000_0000 == 0
    ensures Int32Min <= x <= Int32Max ==> r == x
  {
    var m := x % 0x1_0000_0000;
    if m > Int32Max then m - 0x1_0000_0000 else m
  }

  /**
   * `Input<int>` as written, given the `long long` that `std::stoll` parsed:
   * values above INT_MAX become INT_MAX; all others are converted to `int`,
   * which wraps those below INT_MIN.
   */
  function InputIntAsWritten(parsed: int): (r: int)
    requires InInt64(parsed)
    ensures Int32Min <= r <= Int32Max
    ensures parsed > Int32Max ==> r == Int32Max
    ensures parsed <= Int32Max ==> (parsed - r) % 0x1_0000_0000 == 0
  {
    if parsed > Int32Max then Int32Max else WrapToInt32(parsed)
  }

  /** `Input<int>` as the upper clamp evidently intends: saturating at both ends. */
  function InputInt(parsed: int): (r: int)
    requires InInt64(parsed)
    ensures Int32Min <= r <= Int32Max
  {
    if parsed > Int32Max then Int32Max else if parsed < Int32Min then Int32Min else parsed
  }

  function Distance(a: int, b: int): nat {
    if a < b then b - a else a - b
  }

  /** The saturating conversion returns the `int` nearest to the parsed value. */
  lemma InputIntIsNearest(parsed: int, y: int)
    requires InInt64(parsed) && Int32Min <= y <= Int32Max
    ensures Distance(InputInt(parsed), parsed) <= Distance(y, parsed)
    ensures Int32Min <= parsed <= Int32Max ==> InputInt(parsed) == parsed
  {
  }

  /** Below INT_MIN the two differ: -3000000000 comes back as 1294967296 instead of INT_MIN. */
  lemma InputIntWrapsBelowMin()
    ensures InputIntAsWritten(-3000000000) == 1294967296
    ensures InputInt(-3000000000) == Int32Min
  {
  }

  /** `Input<long long>`: the parsed value already fits, so the clamp never fires. */
  function InputLongLong(parsed: int): (r: int)
    requires InInt64(parsed)
    ensures r == parsed
  {
    if parsed > Int64Max then Int64Max else parsed
  }
}
