// Message assembly of the earlier logging header, sections/Log.h: pointers,
// then a `LogStr()` method, then the stream operator (which writes a bool as
// 1 or 0); a different Log prefix; and a container layout indented by a tab
// with an `unsigned` counter.

module LegacyLog {
  import opened Wrappers
  import opened Text
  import opened CoreLog

  /** What this header accepts: no log commands and no `LogStr(LogStream&)`. */
  predicate LegacyLogable(arg: Arg) {
    match arg
    case Pointer(target, _) => target.None? || LegacyLogable(target.value)
    case Command(_) => false
    case Object(_, legacyLogStr, streamed) => legacyLogStr.Some? || streamed.Some?
    case _ => true
  }

  predicate AllLegacyLogable(args: seq<Arg>) {
    forall i :: 0 <= i < |args| ==> LegacyLogable(args[i])
  }

  /** `ProcessArg`: pointers first, then `LogStr()`, then the stream operator. */
  function LegacyProcessArg(arg: Arg): (s: string)
    requires LegacyLogable(arg)
    ensures arg.Pointer? && arg.target.None? ==> s == NullPrefix + arg.typeName + "]"
    ensures arg.Object? && arg.legacyLogStr.Some? ==> s == arg.legacyLogStr.value
    ensures arg.Boolean? ==> s == (if arg.b then "1" else "0")
  {
    match arg
    case Pointer(target, typeName) =>
      if target.Some? then LegacyProcessArg(target.value) else NullPrefix + typeName + "]"
    case Object(_, legacyLogStr, streamed) =>
      if legacyLogStr.Some? then legacyLogStr.value else streamed.value
    case Boolean(b) => if b then "1" else "0"
    case Integer(i) => IntToString(i)
    case Character(c) => [c]
    case Text(s) => s
  }

  /**
   * What the two headers render alike: an argument the earlier header
   * accepts that is not a bool and not an object with a `LogStr(LogStream&)`,
   * nor a pointer leading, through any number of pointers, to one of those.
   */
  predicate RendersAlike(arg: Arg) {
    match arg
    case Pointer(target, _) => target.None? || RendersAlike(target.value)
    case Command(_) => false
    case Boolean(_) => false
    case Object(logStr, legacyLogStr, streamed) => logStr.None? && (legacyLogStr.Some? || streamed.Some?)
    case _ => true
  }

  /**
   * The two headers agree on everything the earlier one accepts except a
   * bool, which the later one spells out, and an object with both kinds of
   * LogStr, where the later one prefers `LogStr(LogStream&)`; a pointer
   * renders alike iff what it leads to does.
   */
  lemma {:induction false} RenderingsAgree(arg: Arg)
    requires RendersAlike(arg)
    ensures LegacyLogable(arg) && Logable(arg)
    ensures LegacyProcessArg(arg) == ProcessArg(arg)
  {
    if arg.Pointer? && arg.target.Some? {
      RenderingsAgree(arg.target.value);
    }
  }

  /** A pointer to a bool meets the earlier header's rules, yet renders "1" there and "TRUE" in the later one. */
  lemma PointerToBoolDiffers(typeName: string)
    ensures LegacyLogable(Pointer(Some(Boolean(true)), typeName))
    ensures LegacyProcessArg(Pointer(Some(Boolean(true)), typeName)) == "1"
    ensures ProcessArg(Pointer(Some(Boolean(true)), typeName)) == "TRUE"
  {
  }

  lemma {:induction false} LegacyLogableIsLogable(arg: Arg)
    requires LegacyLogable(arg)
    ensures Logable(arg)
  {
    if arg.Pointer? && arg.target.Some? {
      LegacyLogableIsLogable(arg.target.value);
    }
  }

  /** The only difference on a bool: "1"/"0" here, "TRUE"/"FALSE" in the later header. */
  lemma BoolRenderingDiffers(b: bool)
    ensures LegacyProcessArg(Boolean(b)) == (if b then "1" else "0")
    ensures ProcessArg(Boolean(b)) == (if b then "TRUE" else "FALSE")
  {
  }

  /** `ProcessArgs`: the renderings concatenated in argument order. */
  function LegacyProcessArgs(args: seq<Arg>): (s: string)
    requires AllLegacyLogable(args)
    ensures args == [] ==> s == ""
    ensures |args| == 1 ==> s == LegacyProcessArg(args[0])
  {
    if args == [] then "" else LegacyProcessArg(args[0]) + LegacyProcessArgs(args[1..])
  }

  lemma {:induction false} LegacyProcessArgsAppend(a: seq<Arg>, b: seq<Arg>)
    requires AllLegacyLogable(a) && AllLegacyLogable(b)
    ensures AllLegacyLogable(a + b)
    ensures LegacyProcessArgs(a + b) == LegacyProcessArgs(a) + LegacyProcessArgs(b)
    decreases |a|
  {
    if a != [] {
      assert (a + b)[0] == a[0];
      assert (a + b)[1..] == a[1..] + b;
      LegacyProcessArgsAppend(a[1..], b);
      assert LegacyProcessArgs(a + b) == LegacyProcessArg(a[0]) + LegacyProcessArgs(a[1..] + b);
    } else {
      assert a + b == b;
    }
  }

  const LegacyLogPrefix: string := "[PB_Util::Log()]: "

  /** `Log(args...)`: the prefix literal, the arguments and a '\n' character, rendered in order. */
  function LegacyLogMessage(args: seq<Arg>): (m: string)
    requires AllLegacyLogable(args)
    ensures m == LegacyLogPrefix + LegacyProcessArgs(args) + "\n"
  {
    var all := [Text(LegacyLogPrefix)] + args + [Character('\n')];
    LegacyProcessArgsAppend([Text(LegacyLogPrefix)], args);
    LegacyProcessArgsAppend([Text(LegacyLogPrefix)] + args, [Character('\n')]);
    LegacyProcessArgs(all)
  }

  /** `unsigned` is 32 bits wide, so the counter wraps after 2^32 items. */
  const UnsignedModulus: nat := 0x1_0000_0000

  lemma CounterStep(i: nat)
    ensures ((i % UnsignedModulus) + 1) % UnsignedModulus == (i + 1) % UnsignedModulus
  {
    var q, r := i / UnsignedModulus, i % UnsignedModulus;
    assert i == q * UnsignedModulus + r;
    if r + 1 == UnsignedModulus {
      assert i + 1 == (q + 1) * UnsignedModulus;
    } else {
      assert i + 1 == q * UnsignedModulus + (r + 1);
    }
  }

  /** A tab, the counter left-justified in four columns, then the separator. */
  function CounterPrefix(counter: nat): string {
    "\t" + PadRight(NatToString(counter), 4) + " | "
  }

  function LegacyItemLine(counter: nat, item: Arg): string
    requires LegacyLogable(item)
  {
    CounterPrefix(counter) + LegacyProcessArg(item) + "\n"
  }

  /** One line per item, the counter being the item's position modulo 2^32. */
  function LegacyItemLines(items: seq<Arg>): string
    requires AllLegacyLogable(items)
  {
    if items == [] then ""
    else LegacyItemLines(items[..|items| - 1]) + LegacyItemLine((|items| - 1) % UnsignedModulus, items[|items| - 1])
  }

  function LegacyContainerHeader(name: Arg): string
    requires LegacyLogable(name)
  {
    "[PB_Util::Log]: \"" + LegacyProcessArg(name) + "\"\n{\n"
  }

  function LegacyContainerMessage(name: Arg, items: seq<Arg>): string
    requires LegacyLogable(name) && AllLegacyLogable(items)
  {
    LegacyContainerHeader(name) + LegacyItemLines(items) + "}\n"
  }

  lemma LegacyItemLinesSnoc(items: seq<Arg>, index: nat)
    requires AllLegacyLogable(items) && index < |items|
    ensures LegacyItemLines(items[..index + 1])
      == LegacyItemLines(items[..index]) + LegacyItemLine(index % UnsignedModulus, items[index])
  {
    var next := items[..index + 1];
    assert next[..|next| - 1] == items[..index];
  }

  /**
   * The container `Log` loop: the counter starts at 0 and goes up by one per
   * item (modulo 2^32); each item gets one line.
   */
  method LegacyBuildContainerMessage(name: Arg, items: seq<Arg>) returns (message: string)
    requires LegacyLogable(name) && AllLegacyLogable(items)
    ensures message == LegacyContainerMessage(name, items)
  {
    var os := LegacyContainerHeader(name);
    ghost var header := os;
    var counter := 0;
    var index := 0; // the range-for's position in the container
    assert items[..0] == [];
    while index < |items|
      invariant 0 <= index <= |items|
      invariant counter == index % UnsignedModulus
      invariant os == header + LegacyItemLines(items[..index])
    {
      var itemStr := LegacyProcessArg(items[index]);
      var line := CounterPrefix(counter) + itemStr + "\n";
      assert line == LegacyItemLine(counter, items[index]);
      LegacyItemLinesSnoc(items, index);
      AppendAssociative(header, LegacyItemLines(items[..index]), line);
      os := os + line;
      CounterStep(index);
      counter := (counter + 1) % UnsignedModulus;
      index := index + 1;
    }
    assert items[..|items|] == items;
    message := os + "}\n";
  }

  /**
   * Before the counter wraps, item i's line is labelled with i itself: the
   * counter starts at 0 and goes up by exactly one per item.
   */
  lemma CounterIsPosition(items: seq<Arg>, index: nat)
    requires AllLegacyLogable(items) && index < |items| && index < UnsignedModulus
    ensures LegacyItemLines(items[..index + 1])
      == LegacyItemLines(items[..index]) + LegacyItemLine(index, items[index])
  {
    assert index % UnsignedModulus == index;
    LegacyItemLinesSnoc(items, index);
  }

  /** The sinks as the earlier header writes them: each write also stops at the first '\0'. */
  method LegacyPrint(sinks: Sinks, args: seq<Arg>)
    requires AllLegacyLogable(args)
    modifies sinks
    ensures sinks.console == old(sinks.console) + CStr(LegacyProcessArgs(args))
    ensures sinks.logFile == old(sinks.logFile)
  {
    sinks.console := sinks.console + CStr(LegacyProcessArgs(args));
  }

  /** `PrintLn`: `Print` with a '\n' character appended. */
  method LegacyPrintLn(sinks: Sinks, args: seq<Arg>)
    requires AllLegacyLogable(args)
    modifies sinks
    ensures sinks.console == old(sinks.console) + CStr(LegacyProcessArgs(args) + "\n")
    ensures sinks.logFile == old(sinks.logFile)
  {
    LegacyProcessArgsAppend(args, [Character('\n')]);
    LegacyPrint(sinks, args + [Character('\n')]);
  }

  /** `Log(args...)`: the same message to the console and to the log file. */
  method LegacyLog(sinks: Sinks, args: seq<Arg>)
    requires AllLegacyLogable(args)
    modifies sinks
    ensures sinks.console == old(sinks.console) + CStr(LegacyLogMessage(args))
    ensures sinks.logFile == old(sinks.logFile) + CStr(LegacyLogMessage(args))
  {
    var message := LegacyLogMessage(args);
    sinks.console := sinks.console + CStr(message);
    sinks.logFile := sinks.logFile + CStr(message);
  }

  /** The container `Log(name, container)`: the assembled message to both sinks. */
  method LegacyLogContainer(sinks: Sinks, name: Arg, items: seq<Arg>)
    requires LegacyLogable(name) && AllLegacyLogable(items)
    modifies sinks
    ensures sinks.console == old(sinks.console) + CStr(LegacyContainerMessage(name, items))
    ensures sinks.logFile == old(sinks.logFile) + CStr(LegacyContainerMessage(name, items))
  {
    var message := LegacyBuildContainerMessage(name, items);
    sinks.console := sinks.console + CStr(message);
    sinks.logFile := sinks.logFile + CStr(message);
  }
}
