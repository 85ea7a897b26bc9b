# PashaBibko-Util core, modelled in Dafny

This project models the core of the PashaBibko-Util C++ utility library and proves properties of that model. It covers:

- **The typed result/error container `ReturnVal`** in its two revisions.
  - `core/ReturnVal.h` has three states (failed, succeeded, succeeded with a warning).
  - `classes/ReturnVal.h` has a `const bool` failed flag.
  - Both revisions share `DefaultError` and the `FunctionFail` marker.
- **The fixed-length vector `Vec<len, Ty>`** in its two revisions (`core/Vec.h`, `classes/Vec.h`), over integers.
- **The string-index to (column, line) conversion and the `FileReadError` reason table** (`core/FileManagment.cpp`).
- **The Win32 colour codes and their ANSI translation** (`classes/Colour.h`, `GetAnsiCode` in `src/Misc.cpp`).
- **The text that `Print`, `PrintLn`, `Log` and the container `Log` assemble** in the two logging headers (`core/Log.h`, `sections/Log.h`), and the integer clamp of `Input`.
- **The unit-test harness bookkeeping** (`extensions/testing/PBTesting.cpp`, `extensions/testing/PBTesting.h`):
  - group registration in a linked list;
  - per-test failure;
  - failure collection;
  - the exit code.

How each part is represented:

- **State that the C++ changes in place is a Dafny `class`.**
  - `ReturnVal` has a constant tag and a payload union.
  - `Vec` is backed by an `array<int>`.
  - The test harness consists of test, group, list-node and registry objects.
  - The console and the log file are modelled as two strings that the writes extend.
- **Pure logic is modelled as functions and lemmas.** This covers argument rendering, message layout, the colour switch and the reason table.
- **Loops in the source are `while` loops** proved against specification functions. These are:
  - the vector constructors and compound assignments;
  - both equality strategies;
  - the location walk;
  - both container layouts;
  - `ExecuteBatch`, the group constructor and `ExecuteAllTests`.
- **A test body is a sequence of checks.** `Dispatch` is the user's straight-line body under `PB_TEST` (extensions/testing/PBTesting.h:112). The model runs its `PB_EXPECT_*` checks in order with a `while` loop over that sequence; this loop stands for the statements, not a loop in the source.

Where the two revisions of a header agree, the later revision's definition is used by both. Where they disagree, each revision is modelled as written.

- The earlier `Vec` (`classes/Vec.h`) shares the later one's class: storage, constructors, `operator[]`, the binary operators and the early-exit `==`. Only its compound assignments and its `!=` are separate, as module methods of `LegacyVec` over the same class.
- The earlier `ReturnVal` has its own class, since it keeps a `const bool` flag instead of the three-state discriminant. Both revisions share `DefaultError` and `FunctionFail`.
- The earlier logging header shares the argument description `Arg` and the sinks, and has its own rendering, prefix and container layout.

`PBTesting.h` declares `UnitTestGroup(const char*)` and `void ExecuteAllTests()`. `PBTesting.cpp` defines `UnitTestGroup(name, deps)` and `int ExecuteAllTests()`. The model follows the `.cpp` definitions. The inline `ExecuteBatch` in the header does the same accounting as the `.cpp` one.

The comment on `GetLocationAtStringIndex` (core/FileManagment.h:73-74) says an index outside the string gives {0, 0}. The code (core/FileManagment.cpp:61) rejects only `index > length`, so the index equal to the length gets the location just past the last character. The model follows the code: `LocationOf` returns {0, 0} only past that point.

## Model

| member | source | states |
|---|---|---|
| CoreReturnVal.NewDefaultError | core/ReturnVal.h:44-45 | The default error's message is exactly "NO REASON PROVIDED" |
| CoreReturnVal.InPlaceFailureRoundTrip | core/ReturnVal.h:90-94 | A marker built in place from the arguments and returned into a ReturnVal makes it failed, and its checked Error() is the error built from those arguments |
| CoreReturnVal.ReturnVal.FromResult | core/ReturnVal.h:141-152 | Building from a result gives the success state with that result as the live payload |
| CoreReturnVal.ReturnVal.FromFail | core/ReturnVal.h:160-162 | Building from a FunctionFail gives the fail state with the marker's error as the live payload |
| CoreReturnVal.ReturnVal.Failed | core/ReturnVal.h:236-239 | Failed holds iff the error is the live payload |
| CoreReturnVal.ReturnVal.Success | core/ReturnVal.h:244-247 | Success is exactly the negation of Failed, and holds iff the result is live (the warning state included) |
| CoreReturnVal.ReturnVal.GetWarning | core/ReturnVal.h:260-266 | No warning in both sentinel states; a warning exactly in the third state, which counts as success |
| CoreReturnVal.ReturnVal.SuccessNoWarnings | core/ReturnVal.h:252-255 | Holds iff the value succeeded and carries no warning |
| CoreReturnVal.ReturnVal.Error | core/ReturnVal.h:192-204 | Checked access is only possible on a failed value (otherwise the process ends); on a failed value it returns the stored error |
| CoreReturnVal.ReturnVal.Result | core/ReturnVal.h:219-231 | Checked access is only possible on a successful value; on a successful value it returns the stored result |
| CoreReturnVal.ReturnVal.AssignResult | core/ReturnVal.h:219-231 | Writing through the returned reference replaces the result and keeps the state successful |
| CoreReturnVal.ReturnVal.AssignError | core/ReturnVal.h:192-204 | Writing through the returned reference replaces the error and keeps the state failed |
| CoreReturnVal.ReturnVal.Destruct | core/ReturnVal.h:167-175 | Exactly one destructor runs: the error's iff Failed, otherwise the result's |
| CoreReturnVal.SuccessRoundTrip | core/ReturnVal.h:141-152 | A success value reads back unchanged, not failed, with no warning |
| CoreReturnVal.FailureRoundTrip | core/ReturnVal.h:160-162 | A FunctionFail error reads back unchanged, failed, not successful, with no warning |
| CoreReturnVal.DestroyAll | core/ReturnVal.h:167-175 | Destroying N successes and M failures runs N result and M error destructors |
| CoreReturnVal.DefaultErrorRoundTrip | core/ReturnVal.h:44-45 | A failure carrying the default error reads back the message "NO REASON PROVIDED" |
| LegacyReturnVal.ReturnVal.FromResult | classes/ReturnVal.h:132-143 | The flag is false and the result is live |
| LegacyReturnVal.ReturnVal.FromFail | classes/ReturnVal.h:151-153 | The flag is true and the marker's error is live |
| LegacyReturnVal.ReturnVal.Failed | classes/ReturnVal.h:229 | Failed (the flag) holds iff the error is live |
| LegacyReturnVal.ReturnVal.Success | classes/ReturnVal.h:234 | Success is the negation of Failed and holds iff the result is live |
| LegacyReturnVal.ReturnVal.Error | classes/ReturnVal.h:183-196 | Checked access requires the flag set; then it returns the stored error |
| LegacyReturnVal.ReturnVal.Result | classes/ReturnVal.h:211-224 | Checked access requires the flag clear; then it returns the stored result |
| LegacyReturnVal.ReturnVal.AssignResult | classes/ReturnVal.h:211-224 | Writing through the reference changes the result; the const flag and the invariant stay |
| LegacyReturnVal.ReturnVal.AssignError | classes/ReturnVal.h:183-196 | Writing through the reference changes the error; the const flag and the invariant stay |
| LegacyReturnVal.ReturnVal.Destruct | classes/ReturnVal.h:158-166 | The error's destructor runs iff the flag is set, otherwise the result's |
| LegacyReturnVal.SuccessRoundTrip | classes/ReturnVal.h:132-143 | A result reads back unchanged, and a write through the accessor reads back without the value becoming failed |
| LegacyReturnVal.FailureRoundTrip | classes/ReturnVal.h:151-153 | A FunctionFail error reads back unchanged and the value stays failed |
| Text.NatToString | core/Log.h:180-184 | Streaming an integer gives decimal digits with no leading zero |
| Text.DecimalRoundTrip | core/Log.h:180-184 | Reading the decimal text back gives the number, so the rendering loses nothing |
| Text.PadRight | core/Log.h:334 | `setw(4) << left` keeps the text as a prefix, pads with spaces to the width, never truncates |
| CoreVec.CDivTruncates | core/Vec.h:593-611 | Integer division truncates toward zero: the remainder is smaller than the divisor and has the dividend's sign |
| CoreVec.ElementWise | core/Vec.h:475-611 | Element i of the result is the operator applied to element i of the operands; the length is kept |
| CoreVec.Filled | core/Vec.h:271-275 | Every one of the n elements is the value |
| CoreVec.SubUndoesAdd | core/Vec.h:475-533 | (a + b) - b == a element-wise |
| CoreVec.DivUndoesMul | core/Vec.h:548-611 | (a * b) / b == a for a divisor vector without zeros, under truncating division |
| CoreVec.MemberIndex | core/Vec.h:30-104 | A letter aliases its own position in x, y, z, w and in r, g, b, a, an index below 4 |
| CoreVec.MemberAliases | core/Vec.h:30-104 | x and r alias index 0, y and g index 1, z and b index 2, w and a index 3 |
| CoreVec.MembersInBounds | core/Vec.h:30-104 | Every letter a vector of length 2, 3 or 4 offers names one of its own elements |
| CoreVec.Vec.Default | core/Vec.h:260-264 | All len elements are Ty{} (0) |
| CoreVec.Vec.Fill | core/Vec.h:271-275 | All len elements are the value |
| CoreVec.Vec.FromElems | core/Vec.h:286 | The elements are the arguments, in order; only lengths other than 0 and 1 are accepted |
| CoreVec.Vec.Set | core/Vec.h:297 | Writing through operator[] changes that element and nothing else |
| CoreVec.Vec.Member | core/Vec.h:30-104 | Reading the k-th axis letter or the k-th colour letter gives element k of the array |
| CoreVec.Vec.SetMember | core/Vec.h:30-104 | Writing a letter writes the aliased element only, and reads back |
| CoreVec.Vec.Assign | core/Vec.h:337-453 | `+= -= *= /=` with a vector: element i becomes old[i] op other[i] and nothing else changes |
| CoreVec.Vec.AssignScalar | core/Vec.h:354-470 | The scalar forms: every element becomes old[i] op scalar |
| CoreVec.Combine | core/Vec.h:475-611 | Binary vector–vector operators give a new vector of the element-wise results |
| CoreVec.CombineScalar | core/Vec.h:490-611 | Binary vector–scalar operators give a new vector, scalar applied to each element |
| CoreVec.ScalarCombine | core/Vec.h:505-582 | Scalar-first + and * give a new vector |
| CoreVec.EqualEarlyExit | core/Vec.h:621-635 | The early-exit loop answers true iff every position is equal |
| CoreVec.EqualAccumulate | core/Vec.h:636-645 | The accumulator loop gives the same answer: true iff every position is equal |
| CoreVec.Equal | core/Vec.h:621-645 | == holds iff the element sequences are equal, whichever strategy the length selects |
| CoreVec.NotEqual | core/Vec.h:655-658 | != holds iff the element sequences differ |
| CoreVec.AxisLabel | core/Vec.h:42-104 | Label of index i is the i-th of x, y, z, w; indices past the end fall to the last letter |
| CoreVec.AxisLabelAsWritten | core/Vec.h:42-49 | For length 2 the label is always "y"; for 3 and 4 it agrees with AxisLabel |
| CoreVec.AxisLabelVec2Defect | core/Vec.h:44 | Index 0 of a length-2 vector is labelled "y" as written, "x" as intended |
| CoreVec.Vec4Aliases | code-tests/src/VecTests.cpp:52-79 | Filled with 5393, x, y, z, w read 5393; after writing indices 0-3 they read 254, 534, 349, 435; after writing x, y, z, w, the letters r, g, b, a read 423, 534, 434, 503 |
| LegacyVec.CompoundAssign | classes/Vec.h:135-173 | Every one of `+= -= *= /=` adds element-wise, whatever operator was called |
| LegacyVec.NotEqual | classes/Vec.h:217-228 | != holds iff every position differs |
| LegacyVec.EqualityDefectExample | classes/Vec.h:217-228 | [1,2] against [1,3] is neither == nor != as written; the later revision's != holds |
| LegacyVec.SubAssignDefectExample | classes/Vec.h:145-153 | [1,1] -= [1,1] leaves [2,2] as written, [0,0] in the later revision |
| FileManagment.Ordinal | core/FileManagment.h:20-25 | Each reason's value indexes the three-entry table |
| FileManagment.ReasonStr | core/FileManagment.cpp:20-30 | FileNotFound, PermissionDenied and NotAFile map to their three texts, all from the table |
| FileManagment.ReasonStrInjective | core/FileManagment.cpp:20-30 | Different reasons give different texts |
| FileManagment.LineOf | core/FileManagment.cpp:65-75 | The unbounded line count starts at 1 and never drops below it |
| FileManagment.ColumnOf | core/FileManagment.cpp:65-75 | The unbounded column count starts at 1 and never drops below it |
| FileManagment.LineCountsNewlines | core/FileManagment.cpp:65-75 | The line is 1 plus the number of newlines read |
| FileManagment.ColumnCountsSinceNewline | core/FileManagment.cpp:65-75 | The column is 1 plus the number of characters since the last newline |
| FileManagment.LocationOf | core/FileManagment.h:77-80 | An index past the end gives {0, 0}; both fields fit in 16 bits |
| FileManagment.GetLocationAtStringIndex | core/FileManagment.cpp:57-78 | The loop computes LocationOf (counts wrapped modulo 2^16); index 0 gives {1, 1} |
| FileManagment.LocationClosedForm | core/FileManagment.cpp:57-78 | In range: line = 1 + newlines before index, column = 1 + characters since the last one, each modulo 2^16 |
| FileManagment.SingleLineLocation | core/FileManagment.cpp:65-75 | Without newlines the location is (index + 1, 1) |
| FileManagment.OutOfRangeMarkerNotUnique | core/FileManagment.cpp:61-75 | An in-range index can also give {0, 0}: 65535 newlines then 65535 letters |
| Colours.ColourCodes | classes/Colour.h:15-34 | Default == LightGray; all named codes are below 0x10; 0x08 is unnamed; light = dark + 8 |
| Misc.Sgr | src/Misc.cpp:60-75 | Every code has the form ESC [ digits m |
| Misc.GetAnsiCode | src/Misc.cpp:54-77 | Total over all 16-bit values, and every result is ESC [ digits m |
| Misc.SwapRedBlue | src/Misc.cpp:60-74 | Bit 0 (blue) and bit 2 (red) of a 3-bit code trade places; bit 1 (green) stays |
| Misc.SwapRedBlueInvolution | src/Misc.cpp:60-74 | Swapping twice gives the original code |
| Misc.DarkCodeRule | src/Misc.cpp:60-66 | Codes 0 to 6 give SGR 30 + the bit-swapped code |
| Misc.LightCodeRule | src/Misc.cpp:68-74 | Codes 9 to 15 give SGR 90 + the bit-swapped low three bits |
| Misc.ResetCodeRule | src/Misc.cpp:67-75 | LightGray, the unused 8 and every value from 16 give the reset code |
| Misc.DefaultResets | src/Misc.cpp:67 | Default and LightGray give the reset code, not 37 |
| Misc.SgrDistinct | src/Misc.cpp:60-75 | Different numbers give different codes |
| Misc.AnsiNumber | src/Misc.cpp:60-74 | Dark codes map into 30 to 37, light codes into 90 to 97 |
| Misc.AnsiNumberDistinct | src/Misc.cpp:60-74 | Different dark or light codes get different SGR numbers |
| Misc.AnsiCodesDistinct | src/Misc.cpp:60-74 | No two named colours other than LightGray share a code |
| CoreLog.ProcessArg | core/Log.h:118-192 | Precedence pointer, command, LogStr(LogStream&), legacy LogStr(), stream; null pointer text; bool as TRUE/FALSE; NewLine as "\n" |
| CoreLog.PointerChain | core/Log.h:123-133 | A chain of pointers to a loggable value is loggable |
| CoreLog.PointersAreTransparent | core/Log.h:123-133 | Any number of non-null pointers render as the value they lead to |
| CoreLog.CharPointer | core/Log.h:123-127 | A `const char*` variable is a pointer to its first character |
| CoreLog.CharPointerRendersFirstChar | core/Log.h:123-127 | It renders as that one character, not as the text |
| CoreLog.ProcessArgs | core/Log.h:195-199 | No arguments give ""; one gives its rendering |
| CoreLog.ProcessArgsAppend | core/Log.h:195-199 | Rendering a + b is rendering a then b (in-order concatenation) |
| CoreLog.LogMessage | core/Log.h:304-309 | The message is "[PB_Util::Log]: " + the rendered arguments + "\n" |
| CoreLog.VecLabels | core/Log.h:336-341 | Vectors of length 2 to 4 use their letters; everything else uses the index |
| CoreLog.Label | core/Log.h:336-341 | Without a custom iterator the label is the decimal index; a Vec2 writes "y" for every index; a Vec3 or Vec4 writes the index's axis letter, the last one past the end |
| CoreLog.ItemPrefixParts | core/Log.h:333-344 | The prefix is eight spaces, then the label left-justified in at least four columns, then the separator (space, vertical bar, space) |
| CoreLog.ItemLinesSnoc | core/Log.h:329-350 | Each further item appends exactly its line, labelled with its position |
| CoreLog.BuildContainerMessage | core/Log.h:323-358 | The loop builds header, one line per item in order, then "}\n" |
| CoreLog.ItemLinesNewlines | core/Log.h:329-350 | Items without newlines give exactly one line each |
| CoreLog.HeaderNewlines | core/Log.h:327 | The header takes exactly two lines |
| CoreLog.ContainerLineCount | core/Log.h:323-358 | The whole container message has the number of items + 3 lines |
| CoreLog.Vec3Prefixes | core/Log.h:333-344 | A Vec3's items are prefixed eight spaces, the letter x, y or z padded to four columns, and the separator |
| CoreLog.Vec2Prefixes | core/Vec.h:42-49 | Both items of a Vec2 are prefixed with the label y |
| Text.CStr | src/Log.cpp:66-76 | Streaming a `const char*` writes the longest prefix of the text without '\0': all of it when it has none, otherwise up to its first '\0' |
| CoreLog.Sinks.Print | core/Log.h:253-263 | The rendering, up to its first '\0', is appended to the console only |
| CoreLog.Sinks.PrintLn | core/Log.h:316-319 | Print of the arguments followed by a newline |
| CoreLog.Sinks.Log | core/Log.h:304-309 | The same message, up to its first '\0', is appended to both console and log file |
| CoreLog.Sinks.LogContainer | core/Log.h:323-358 | The container message, up to its first '\0', is appended to both sinks |
| CoreLog.LogWritesWholeMessage | core/Log.h:304-309 | When no argument renders a '\0', Log writes the prefix, the renderings and the newline whole |
| CoreLog.NulTruncatesLog | core/Log.h:304-309 | A '\0' character among the arguments ends the write: only the prefix reaches the sinks |
| CoreLog.WrapToInt32 | core/Log.h:374-382 | Conversion to int keeps the value modulo 2^32 in the int range, unchanged when it fits |
| CoreLog.InputIntAsWritten | core/Log.h:374-382 | Above INT_MAX gives INT_MAX; otherwise the value modulo 2^32 |
| CoreLog.InputInt | core/Log.h:374-382 | The result always lies in the int range |
| CoreLog.InputIntIsNearest | core/Log.h:374-382 | The corrected result is the int nearest the parsed value, itself when it fits |
| CoreLog.InputIntWrapsBelowMin | core/Log.h:374-382 | -3000000000 gives 1294967296 as written, INT_MIN corrected |
| CoreLog.InputLongLong | core/Log.h:374-382 | For long long the clamp never fires: the parsed value is returned |
| LegacyLog.LegacyProcessArg | sections/Log.h:45-81 | Precedence pointer, LogStr(), stream; null pointer text; bool as 1/0 |
| LegacyLog.LegacyLogableIsLogable | sections/Log.h:90-91 | Everything the earlier header accepts the later one accepts |
| LegacyLog.RenderingsAgree | sections/Log.h:45-81 | Everything the earlier header accepts renders alike in both headers, unless it is, or a pointer chain leads to, a bool or an object with a `LogStr(LogStream&)` |
| LegacyLog.PointerToBoolDiffers | sections/Log.h:48-74 | A pointer to true renders "1" here and "TRUE" in the later header |
| LegacyLog.BoolRenderingDiffers | sections/Log.h:68-74 | A bool renders 1/0 here and TRUE/FALSE in the later header |
| LegacyLog.LegacyProcessArgs | sections/Log.h:84-88 | No arguments give ""; one gives its rendering |
| LegacyLog.LegacyProcessArgsAppend | sections/Log.h:84-88 | In-order concatenation of the renderings |
| LegacyLog.LegacyLogMessage | sections/Log.h:188-193 | The message is "[PB_Util::Log()]: " + the rendered arguments + "\n" |
| LegacyLog.LegacyItemLinesSnoc | sections/Log.h:213-219 | Each further item appends exactly its line, counter = position mod 2^32 |
| LegacyLog.LegacyBuildContainerMessage | sections/Log.h:207-227 | The loop builds header, one tab-indented counted line per item, then "}\n" |
| LegacyLog.CounterIsPosition | sections/Log.h:213-218 | Before wrapping, item i's line carries the counter i |
| LegacyLog.LegacyPrint | sections/Log.h:137-147 | The rendering, up to its first '\0', goes to the console only |
| LegacyLog.LegacyPrintLn | sections/Log.h:200-203 | Print followed by '\n' |
| LegacyLog.LegacyLog | sections/Log.h:188-193 | The same message, up to its first '\0', to both sinks |
| LegacyLog.LegacyLogContainer | sections/Log.h:207-227 | The container message, up to its first '\0', to both sinks |
| Testing.ExpectTrue | extensions/testing/PBTesting.h:120 | PB_EXPECT_TRUE compares the value itself against true |
| Testing.ExpectFalse | extensions/testing/PBTesting.h:119 | PB_EXPECT_FALSE compares the value itself against false |
| Testing.ErrorsIffSomeCheckFails | extensions/testing/PBTesting.h:115 | A body reports an error iff some check's sides differ, at most one per check |
| Testing.ExpectTrueSemantics | extensions/testing/PBTesting.h:115-120 | PB_EXPECT_TRUE pushes one error iff the value is not true (for ints: not 1) |
| Testing.ExpectFalseSemantics | extensions/testing/PBTesting.h:115-119 | PB_EXPECT_FALSE pushes one error iff the value is not false (for ints: not 0) |
| Testing.UnitTest.constructor | extensions/testing/PBTesting.h:104-112 | A PB_TEST instance registers itself with its group exactly once |
| Testing.UnitTest.Dispatch | extensions/testing/PBTesting.h:109-115 | Running the body appends one NotEqualError per failing check, in order |
| Testing.FailedTests | extensions/testing/PBTesting.cpp:54-81 | There are never more failures than tests |
| Testing.FailedTestsMembership | extensions/testing/PBTesting.cpp:58-81 | A test is collected iff it is one of the tests and it reported an error |
| Testing.UnitTestGroup.constructor | extensions/testing/PBTesting.cpp:25-49 | Dependencies copied in order; the group fills the root or is appended at the tail, so list order is registration order |
| Testing.UnitTestGroup.RegisterTest | extensions/testing/PBTesting.h:35-38 | The test is appended to the end and nothing else changes |
| Testing.UnitTestGroup.ExecuteBatch | extensions/testing/PBTesting.cpp:51-100 | Failed tests appended in order after existing entries; count equals their number, at most the tests; all-passed iff none failed |
| Testing.TestRegistry.constructor | extensions/testing/PBTesting.cpp:19-23 | The static root starts as the only node, holding no group |
| Testing.NoFailedTestsIffAllPass | extensions/testing/PBTesting.cpp:85-89 | A batch reports all passed iff none of its tests failed |
| Testing.NoFailuresIffAllPass | extensions/testing/PBTesting.cpp:143-161 | No failures iff no test of any group failed |
| Testing.CountTests | extensions/testing/PBTesting.cpp:108-117 | The walk dereferences a null group iff no group registered; otherwise the tests counted are the sum of every group's test count, and the groups counted the list length |
| Testing.EmptyRegistryCrashes | extensions/testing/PBTesting.cpp:108-117 | With no group registered, the first walk dereferences the root's null group |
| Testing.RunBatches | extensions/testing/PBTesting.cpp:123-140 | Every group's failures are collected, group after group in list order |
| Testing.ExecuteAllTests | extensions/testing/PBTesting.cpp:102-162 | Counts tests and groups over the list, collects every group's failures in order, exits 0 iff none; with no group, counts nothing and exits 0 |
| Testing.EmptyRegistryPasses | extensions/testing/PBTesting.cpp:102-162 | Without any group the corrected run finds 0 tests in 0 groups and exits with 0 |

## Left out

- `ReadFile` and `TempFilePath` (core/FileManagment.cpp) are left out. They are filesystem and Win32 I/O. `FileReadError` is kept as a value.
- `SetConsoleColor` and the colour template argument of `Print` are left out, because console colour is an OS call. `GetAnsiCode` is modelled.
- `TriggerBreakpoint` and `EndProcess` are OS calls and `abort`. `EndProcess` appears only as the unmet precondition of the checked accessors.
- The console, the log file, console input and the screen clear of `ClearConsole` are abstracted. Writes extend two strings with the text that streaming the message's `c_str()` writes (up to its first '\0'), `ClearConsole` renders as "", and the parsed input is a parameter.
- The text of `typeid(...).name()` is implementation-defined. It is an opaque string parameter.
- Generic `std::ostream` rendering of user types is abstracted. An object's stream output, and the output of its `LogStr` functions, are given strings.
- `LogStream` and the depth argument passed to `LogStr(LogStream&)` are not modelled. The function's output is taken as given.
- The `std::stoll`/`std::stod` parsing, the floating-point branch of `Input`, and `Input<std::string>` are left out. These are library parsing and floating point.
- `Vec` is modelled over unbounded integers. Element overflow and floating-point element types are not modelled, and division by zero is excluded by a precondition.
- Compile-time concepts, the `requires` clauses on element types and the alias typedefs are type-level only. They have no runtime behaviour.
- The union layout, manual destructor calls and the two static sentinel addresses are replaced by a tag datatype. The sentinels are assumed distinct.
- `CoreReturnVal.ReturnVal.Error`, `CoreReturnVal.ReturnVal.Result`, `LegacyReturnVal.ReturnVal.Error` and `LegacyReturnVal.ReturnVal.Result` leave the value unspecified for a `Force` access on the wrong state. The C++ reads the inactive union member, which has no defined value.
- FileManagment.LocationOf: the contract says an index past the end gives {0, 0}, but not the converse. The 16-bit counters can wrap to {0, 0} for an index in range; OutOfRangeMarkerNotUnique shows this.
- Testing.UnitTest.Dispatch: a test body is modelled as the sequence of `PB_EXPECT_*` checks it performs. Arbitrary user code in a body is not modelled, nor are values compared other than bools, integers and strings.
- Testing.ExpectTrue, Testing.ExpectFalse and Testing.UnitTest.Dispatch compare two whole values. They do not model the textual expansion of `PB_EXPECT_EQL` (extensions/testing/PBTesting.h:115), which pastes its arguments unparenthesised into `if (lhs != rhs)`. An argument with an operator of lower precedence than `!=` is therefore split: `PB_EXPECT_TRUE(a || b)` tests `a || (b != true)`, and `PB_EXPECT_EQL(f & m, 0)` tests `f & (m != 0)`. Two `const char*` arguments compare addresses, while `TextValue` compares the text.
- Testing.Differs, Testing.UnitTest.Dispatch, Testing.ExpectTrue and Testing.ExpectFalse compare integers as mathematical integers. `IntValue` carries no width or signedness, so the usual arithmetic conversions of C++ `lhs != rhs` (extensions/testing/PBTesting.h:115) are not modelled. For example, `PB_EXPECT_EQL(-1, 4294967295u)` converts -1 to unsigned and pushes no error, while the model says the two differ. Comparisons between values of the same signedness and width agree with the model.
- Testing.RunBatches requires a registered group. It runs only after the first walk (CountTests), which has already dereferenced the null root group when there is none.
- The harness's console output is not modelled: pass/fail lines, summaries and `PBTestErrors.h`.
- `classes/CRef.h`, the Python extension and the declaration-only headers have no behaviour to model.
- The `std::size_t` index of the container `Log` is unbounded in the model. A container of 2^64 items is not a practical input.

## Findings

| source | as written | input that shows it | evidently intended | confidence | as-written member | corrected member |
|---|---|---|---|---|---|---|
| classes/Vec.h:145-173 | the loops of `-=`, `*=` and `/=` all do `+=` | [1,1] -= [1,1] gives [2,2] | each applies its own operator, as core/Vec.h:371-453 does | not executed | LegacyVec.CompoundAssign, LegacyVec.SubAssignDefectExample | CoreVec.Vec.Assign |
| classes/Vec.h:217-228 | `!=` returns false at the first equal position | [1,2] != [1,3] is false, and [1,2] == [1,3] is false too | `!=` is the negation of `==`, as core/Vec.h:655-658 | not executed | LegacyVec.NotEqual, LegacyVec.EqualityDefectExample | CoreVec.NotEqual |
| core/Vec.h:42-49 | the length-2 label tests `index = 0`, an assignment that is always false | index 0 of a Vec2 is labelled "y" | index 0 is "x", index 1 is "y" | not executed | CoreVec.AxisLabelAsWritten, CoreVec.AxisLabelVec2Defect, CoreLog.Vec2Prefixes | CoreVec.AxisLabel |
| core/Log.h:374-382 | `Input<int>` clamps only above INT_MAX, then narrows the `long long` to `int` | parsed -3000000000 returns 1294967296 | saturate at both ends of the int range | not executed | CoreLog.InputIntAsWritten, CoreLog.InputIntWrapsBelowMin | CoreLog.InputInt, CoreLog.InputIntIsNearest |
| extensions/testing/PBTesting.cpp:108-117 | the first walk reads `group->tests->m_Tests` from the static root without checking that a group filled it | a test binary with no `PB_TEST_GROUP`: `main` calls `ExecuteAllTests` and the root's group pointer is null | report 0 tests from 0 groups and exit with 0 | not executed | Testing.CountTests, Testing.EmptyRegistryCrashes | Testing.ExecuteAllTests, Testing.EmptyRegistryPasses |

The container `Log` model (CoreLog.Label) prints what the program prints, so a length-2 `Vec` is labelled with the "y"-only label as written. CoreVec.AxisLabel is the corrected label, proved to give each index its own axis letter.
