# SwiftBot shape drawing: descriptor parser, motion plans and session log

A SwiftBot robot draws shapes whose sizes it reads from a QR code. The code
carries a descriptor: up to five `&`-separated tokens, each one of
`S-<side>` (square), `H-<side>` (hexagon), `P-<side>` (pentagon) or
`T-<a>-<b>-<c>` (triangle), with sides in centimetres.

`processQRCodeData` works in three steps:

- It splits the descriptor and refuses more than five tokens.
- It decides each token on its own.
- It calls the drawing routine of each accepted shape, in input order.

The drawing routines (`makeSquare`, `makePentagon`, `makeHexagon`, `makeTriangle`)
work by dead-reckoning. Each side is a timed drive at fixed power, then a pause,
then a timed turn, then a pause. The durations come from a fixed speed of
12.33 cm/s and the calibration "1500 ms turns 115 degrees". Every finished shape
is reported to `SwiftBotLogger`. That logger keeps:

- a running log;
- the total time;
- the shape count;
- a frequency map;
- the largest shape by area.

At the end of the session it renders a four-line summary.

The model, by module:

- `JavaInt` and `JavaText` give the Java library behaviour the program relies on:
  - 32-bit `int` wrap-around;
  - the `(long)` cast;
  - `String.split` with trailing empty strings dropped;
  - `Integer.parseInt` and `Integer.toString`;
  - the numeric text of the log.
- `Kinematics` holds the two timing functions.
- `Geometry` holds:
  - the triangle test;
  - the reordering of the triangle's sides;
  - its exterior angles.
- `Motion` holds:
  - the motion commands, as data (`swiftBot.move` becomes `Move`, `Thread.sleep` becomes `Sleep`);
  - the plan each routine issues.
- `Descriptor` decides what `processQRCodeData` does with a descriptor and each of its tokens. The console messages are the kinds of `ParseError`.
- `Logger` models the logger as a class with the source's fields and a ghost history of every logging call. Its invariant `Valid` ties each field to the summary of that history.
- `DrawShapes` holds the routines and the descriptor loop. These are methods that return the commands they issue and update the logger. Each one is proved equal to the plan and log functions.

The program's behaviour is modelled as the code has it, including these quirks:

- Pentagons and hexagons are logged through the square overload of `logShape`, so their recorded area is `side * side`.
- Triangle sides are not range-checked when the token is read. A side out of [15, 85] stops the drawing just before that side, after the earlier commands have been issued, and the triangle is then not logged.
- The triangle's first turn is a fixed 1200 ms.
- The turn time ignores its speed argument.
- The triangle's largest-shape caption names only `sideA`.
- The triangle test adds the sides in Java `int` arithmetic, so a triangle with a pairwise side sum above `Integer.MAX_VALUE` is rejected as "Invalid triangle" (see "## Findings"). A corrected parser with the exact test is modelled beside it, and the two are proved to issue the same commands and log the same shapes for every token: only the message differs.

Where the code's own comments and messages suggest something else, the model still
follows the code:

- The triangle error message (DrawShapes.java:142) speaks of sides "between 15-85", but no such check is made when a `T-` token is read (DrawShapes.java:130-137). Such sides are only refused by `calculateTimeForDistance`, just before each one is driven.
- `logPolygonShape` (SwiftBotLogger.java:90-116) holds the pentagon and hexagon area formulas, but `makePentagon` and `makeHexagon` log through the square overload (DrawShapes.java:348, DrawShapes.java:386).
- On a tie for the most frequent shape, the reported name is whichever the `HashMap` stream yields (SwiftBotLogger.java:132-135). That order is unspecified, so the model allows any name of maximal count.

Parameters stand for what is not computed here:

- The wall clock: `timeTaken`, and `elapsed(i)` for the token at index `i`.
- `Math.acos` and `Math.toDegrees` of the law of cosines: `angleOpposite(x, y, z)`, the interior angle opposite side `x`.
- `Math.sqrt`: `sqrt`.

## Model

| member | source | states |
|---|---|---|
| JavaInt.WrapInt | DrawShapes.java:209 | the `(int)` cast / `int` arithmetic result is the unique `int` congruent to the exact value modulo 2^32, and is the value itself when it fits |
| JavaInt.WrapIntOfNonNegativeSum | DrawShapes.java:191 | a sum of two non-negative `int`s that exceeds `Integer.MAX_VALUE` wraps to that sum minus 2^32, a negative number |
| JavaInt.TruncateTowardZero | DrawShapes.java:413 | the `(long)` cast truncates toward zero: the result is within 1 of the real, on the side of zero |
| JavaInt.LongCast | DrawShapes.java:431 | the `(long)` cast lies in the `long` range and is the truncation toward zero of any real inside that range |
| JavaText.Pieces | DrawShapes.java:106 | the pieces between separators: at least one piece, none of them containing the separator |
| JavaText.DropTrailingEmpty | DrawShapes.java:106 | `split` keeps a prefix of the pieces, drops only empty pieces, and ends with a non-empty piece unless nothing is kept |
| JavaText.Split | DrawShapes.java:106 | `data.split("&")`: `[s]` when the separator does not occur (so `""` gives `[""]`), otherwise the pieces with the trailing empty ones dropped; no token contains the separator |
| JavaText.JoinAppend | DrawShapes.java:106 | joining one more part appends the separator and that part |
| JavaText.JoinPieces | DrawShapes.java:106 | the pieces of a text, joined again with the separator, give the text back |
| JavaText.PiecesOfJoin | DrawShapes.java:106 | cutting a join of separator-free parts at the separators gives those parts back |
| JavaText.SplitOfJoin | DrawShapes.java:106 | round trip: `split` recovers the separator-free tokens a descriptor was joined from, when the last of several is not empty |
| JavaText.TrailingSeparatorDropped | DrawShapes.java:106 | a single trailing `&` adds no token: `"S-40&"` splits to `["S-40"]` |
| JavaText.DigitChar | SwiftBotLogger.java:45 | a digit value below 10 is written as a digit character (its only promise; `NatTextValue` states what the digits mean) |
| JavaText.Unsigned | DrawShapes.java:117 | the text after `parseInt`'s optional sign (no contract; used by `ParseInt`'s) |
| JavaText.ParseInt | DrawShapes.java:117 | `Integer.parseInt` succeeds exactly when the text after an optional sign is one or more decimal digits whose signed value fits in an `int`, and then yields that signed value |
| JavaText.NatText | SwiftBotLogger.java:45 | the decimal text of a natural number is a non-empty string of digits |
| JavaText.NatTextValue | SwiftBotLogger.java:45 | the decimal text reads back as the number and has no leading zero |
| JavaText.IntText | SwiftBotLogger.java:45 | `append(int)` writes at least one character (its only promise; `ParseIntText` states that it reads back) |
| JavaText.ParseIntText | DrawShapes.java:117 | `Integer.parseInt` reads back every `int` that `Integer.toString` writes |
| JavaText.SecondsText | SwiftBotLogger.java:46 | `timeTaken / 1000.0` as text: the whole seconds, a point, and one to three digits of milliseconds with trailing zeros dropped (no contract) |
| JavaText.FixedTwoText | SwiftBotLogger.java:142 | `String.format("%.2f", x)`: two decimals, rounded half away from zero (no contract) |
| JavaText.StripTrailingSeparator | SwiftBotLogger.java:124 | `replaceAll(", $", "")` removes exactly one trailing `", "` when there is one, and otherwise changes nothing |
| Kinematics.TimeForDistance | DrawShapes.java:400-422 | returns -1 exactly when the distance is outside [15, 85]; otherwise a positive time that is the truncation of distance / 12.33 s in milliseconds |
| Kinematics.TimeForDistanceMonotone | DrawShapes.java:400-422 | over [15, 85] the drive time never decreases with distance and lies in [1216, 6893] ms |
| Kinematics.TurnTime | DrawShapes.java:424-432 | for angles in [0, 1000] the turn time is the truncation of angle / 115 * 1500 |
| Kinematics.TurnTimeIgnoresSpeed | DrawShapes.java:424 | the speed percentage has no effect on the turn time |
| Kinematics.RegularTurnTimes | DrawShapes.java:213 | the 90, 72 and 60 degree turns of the square, pentagon and hexagon last 1173, 939 and 782 ms |
| Geometry.IsValidTriangleInt32 | DrawShapes.java:190-192 | `isValidTriangle` as written: each pairwise sum is an `int` addition that wraps (no contract; the lemmas below state its properties) |
| Geometry.IsValidTriangle | DrawShapes.java:190-192 | the corrected test: the strict triangle inequality over exact integers (no contract) |
| Geometry.Int32TriangleSymmetric | DrawShapes.java:190-192 | the test as written is invariant under every permutation of the sides, and on non-negative `int` sides accepts only strictly positive ones |
| Geometry.ValidTriangleSymmetric | DrawShapes.java:190-192 | the corrected (exact) test is invariant under every permutation of the sides and accepts only strictly positive sides |
| Geometry.Int32TriangleRejectsLargeEquilateral | DrawShapes.java:191 | the test as written (`int` sums) rejects every equilateral triangle whose doubled side exceeds `Integer.MAX_VALUE` |
| Geometry.Int32TriangleAcceptsNegativeSides | DrawShapes.java:191 | the test as written accepts three `Integer.MIN_VALUE` sides, which are no triangle |
| Geometry.Int32TriangleOnNonNegative | DrawShapes.java:190-192 | on non-negative `int` sides the test as written only errs by rejecting, and agrees with the exact test when no sum overflows |
| Geometry.LongestIndex | DrawShapes.java:237-254 | the side driven first is a longest side, and no earlier side is as long |
| Geometry.OrderSides | DrawShapes.java:237-254 | the reordering puts that longest side first and the other two after it in their input order |
| Geometry.OrderSidesProperties | DrawShapes.java:237-254 | the reordering is a permutation of the sides with a maximum first, the earliest maximum on a tie, and the other two in input order |
| Geometry.TriangleExteriorAngles | DrawShapes.java:257-264 | the three exterior angles (180 minus each interior angle, the third interior angle completing 180) add up to 360 degrees |
| Motion.SideSteps | DrawShapes.java:207-216 | one side of a path is four commands (its only promise; `SideStepsTimes`, `RegularPlanShape` and `TriangleFullPlanBlocks` state their contents) |
| Motion.RepeatAt | DrawShapes.java:207-216 | `n` repetitions of a four-command block have `4n` commands, command `i` being the block's command `i mod 4` |
| Motion.RegularPlan | DrawShapes.java:197-216 | what a one-side routine issues: nothing if `calculateTimeForDistance` gives -1, else its `for` loop's blocks (no contract; `RegularPlanShape` and `RegularPlanTotals` state it) |
| Motion.RegularPlanShape | DrawShapes.java:207-216 | a one-side shape issues nothing for a side out of range, otherwise exactly `n` drive(40,40,t)-sleep 500-turn(0,58,turn time)-sleep 500 blocks |
| Motion.TriangleFullPlan | DrawShapes.java:272-306 | a triangle with every side driven issues twelve commands (`TriangleFullPlanBlocks` states which) |
| Motion.LeadingInRange | DrawShapes.java:272-297 | counts how many reordered sides, from the first, are in range: every counted side is in range and the next one is not |
| Motion.TrianglePlan | DrawShapes.java:272-306 | what `makeTriangle` issues: the full plan cut before the first reordered side out of range (no contract; `TriangleFullPlanBlocks`, `TriangleInRangeCompletes` and `DrawShapes.DriveTriangle` state it) |
| Motion.TriangleFullPlanBlocks | DrawShapes.java:272-306 | the triangle issues drive longest + fixed 1200 ms turn, then drive second + turn for the second exterior angle, then drive third + turn for the third exterior angle |
| Motion.TriangleInRangeCompletes | DrawShapes.java:272-306 | a triangle whose three sides are all in range is driven to the end |
| Motion.RegularPlanDrivesValid | DrawShapes.java:197-209 | every drive command of a one-side routine lasts between 1216 and 6893 ms |
| Motion.TrianglePlanDrivesValid | DrawShapes.java:272-300 | every drive command of the triangle routine lasts between 1216 and 6893 ms |
| Motion.PlansDriveOnlyValidTimes | DrawShapes.java:199 | no routine ever drives with the -1 error time: every drive command lasts between 1216 and 6893 ms |
| Motion.TimeIn | DrawShapes.java:207-216 | the total duration of the selected commands of a plan (no contract) |
| Motion.TimeInConcat | DrawShapes.java:207-216 | the durations of two plans issued one after the other add up |
| Motion.TimeInRepeat | DrawShapes.java:207-216 | `n` repetitions of a block last `n` times the block's duration |
| Motion.SideStepsTimes | DrawShapes.java:209-214 | within one side, the drive lasts the `(int)`-cast drive time and the turn the `(int)`-cast turn time |
| Motion.RegularPlanTotals | DrawShapes.java:197-216 | a one-side routine drives for `n` times the side's time and turns for `n` times the angle's turn time; out of range it neither drives nor turns |
| Descriptor.ParseRegular | DrawShapes.java:114-125 | an `S-`/`H-`/`P-` remainder is accepted exactly when it parses to an integer in [15, 85]; an integer outside gets the range error and a non-integer the invalid-input error |
| Descriptor.DecideTriangle | DrawShapes.java:128-146 | the `T-` branch for a given triangle test: the format error exactly when the remainder does not split into three parts; the invalid-input error exactly when one of them is not an `int`; the invalid-triangle error exactly when all are and the test fails; otherwise the triangle of exactly the parsed sides, which are non-negative `int`s |
| Descriptor.ParseTriangle | DrawShapes.java:128-146 | the `T-` branch as written, with the `int` test: whatever it accepts is a real triangle with positive sides |
| Descriptor.ParseTriangleCorrected | DrawShapes.java:128-146 | the `T-` branch with the exact test: whatever it accepts is a real triangle |
| Descriptor.ParseToken | DrawShapes.java:113-179 | prefixes are tested in the order `S-`, `T-`, `H-`, `P-`; a token with none of them gets the format error; every accepted shape is drawable |
| Descriptor.ParseTokenCorrected | DrawShapes.java:113-179 | a token decided with the corrected triangle test; every token not starting with `T-` is decided exactly as by `ParseToken` |
| Descriptor.ParseDescriptor | DrawShapes.java:106-111 | the batch is refused as a whole exactly when the split gives more than five tokens; otherwise there is one decision per token |
| Descriptor.Decisions | DrawShapes.java:113-180 | one decision per token |
| Descriptor.DecisionsStep | DrawShapes.java:113-180 | deciding one more token appends its own decision to the earlier ones |
| Descriptor.RegularTokenRule | DrawShapes.java:114-125 | for every one-side prefix and every remainder, the accept, range-error and invalid-input cases hold in both directions |
| Descriptor.RegularTokenOfInt | DrawShapes.java:118 | a one-side token written from an `int` is accepted exactly when the `int` is in [15, 85], and gets the range error otherwise |
| Descriptor.RegularTokenBoundaries | DrawShapes.java:118 | `S-15`/`S-85` (and the `H-`, `P-` forms) are accepted, `S-14`/`S-86` get the range error, and `S-4O` gets the invalid-input error |
| Descriptor.NatTextHasNoMinus | DrawShapes.java:129 | the text of a non-negative side contains no `-` |
| Descriptor.JoinThree | DrawShapes.java:129 | three parts joined with a separator are the parts with the separator between them |
| Descriptor.TriangleTokenDispatch | DrawShapes.java:128-129 | every `T-` token reaches the triangle branch with the text after the prefix |
| Descriptor.TriangleTextParts | DrawShapes.java:129-134 | three written non-negative `int` sides split back into three parts that parse to those sides |
| Descriptor.TriangleSidesRule | DrawShapes.java:129-140 | three written non-negative `int` sides are accepted exactly when they pass the `int` test as written (by the corrected parser: the exact test), and get the invalid-triangle error otherwise |
| Descriptor.TriangleTokenOfSides | DrawShapes.java:128-140 | the same for the whole `T-a-b-c` token, for both parsers |
| Descriptor.TriangleSidesNotRangeChecked | DrawShapes.java:130-137 | `T-90-90-90` is accepted although 90 is outside [15, 85] |
| Descriptor.DescriptorOfTokens | DrawShapes.java:106-180 | a descriptor joined from more than five tokens is refused; otherwise its decisions are exactly each token's own decision, in order |
| Descriptor.DescriptorOfThree | DrawShapes.java:113-180 | a three-token descriptor is decided token by token |
| Descriptor.UnknownPrefixRejected | DrawShapes.java:176-179 | a token starting with any letter but S, T, H, P gets the format error |
| Descriptor.BadTokenIsolated | DrawShapes.java:113-180 | `S-40&X-99&H-30`: the bad middle token is rejected and both its neighbours are still accepted |
| Descriptor.SixTokensRefused | DrawShapes.java:108-111 | six tokens are refused together, however well-formed each one is |
| Descriptor.SplitEdgeCases | DrawShapes.java:106 | a trailing `&` adds no token, the empty descriptor is one empty token (format error), and a lone `&` is no token at all |
| Descriptor.LargeEquilateralTriangleToken | DrawShapes.java:136-139 | every equilateral token whose doubled side overflows `int` gets the invalid-triangle error, while the corrected parser accepts it |
| Descriptor.CorrectedParserAgrees | DrawShapes.java:136-139 | wherever the parser as written accepts, the corrected one accepts the same shape; where they differ, the token is a triangle with a side over half the `int` range that only the corrected one accepts |
| Logger.SquareRecord | SwiftBotLogger.java:42-46 | what the square overload records: area `size * size` in `int` arithmetic, caption `name: size`, entry with the time in seconds (no contract; `SwiftBotLogger.LogShape` states it) |
| Logger.HeronArea | SwiftBotLogger.java:65-66 | Heron's formula on the sides as given, their sum an `int` addition (no contract) |
| Logger.TriangleRecord | SwiftBotLogger.java:65-74 | what the triangle overload records: Heron's area, caption naming `sideA` only, entry with all sides, the three angles and the time (no contract; `SwiftBotLogger.LogTriangleShape` states it) |
| Logger.PolygonArea | SwiftBotLogger.java:93-98 | the pentagon and hexagon closed-form areas, 0 for any other name (no contract; `SwiftBotLogger.LogPolygonShape` states it) |
| Logger.PolygonRecord | SwiftBotLogger.java:93-102 | what `logPolygonShape` records (no contract) |
| Logger.LogText | SwiftBotLogger.java:45-46 | the log buffer a history leaves: every entry followed by `", "` (no contract; `LogTextJoin` states it) |
| Logger.TotalTime | SwiftBotLogger.java:49 | the sum of the logged times (no contract; `SwiftBotLogger.Record` states its update) |
| Logger.Frequencies | SwiftBotLogger.java:53 | the frequency map a history leaves (no contract; `FrequencyKeys` and `FrequenciesSum` state it) |
| Logger.LargestOf | SwiftBotLogger.java:56-59 | the largest shape a history leaves, replaced only by a strictly larger area (no contract; `LargestIsEarliestMaximum` states it) |
| Logger.HistoryAppend | SwiftBotLogger.java:45-59 | one more logged record appends its entry and `", "` to the log, adds its time, increments its name's count, and replaces the largest only when strictly larger |
| Logger.SumValuesRemove | SwiftBotLogger.java:53 | the sum of a map's counts is one key's count plus the sum of the rest |
| Logger.SumValuesIncrement | SwiftBotLogger.java:53 | incrementing one key's count (`getOrDefault + 1`) raises the sum of all counts by exactly one |
| Logger.FrequencyKeys | SwiftBotLogger.java:53 | the frequency map has a key for exactly the logged names, every count is at least 1, and it is empty exactly when nothing was logged |
| Logger.FrequenciesSum | SwiftBotLogger.java:49-53 | the counts of the frequency map add up to the number of shapes logged |
| Logger.LargestIsEarliestMaximum | SwiftBotLogger.java:56-59 | the largest area is the maximum of 0 and all logged areas, and its caption is that of the earliest record reaching it (or empty if no area is positive) |
| Logger.NonPositiveAreaNeverLargest | SwiftBotLogger.java:112-115 | a record of area 0 or less never changes the largest shape |
| Logger.LogTextJoin | SwiftBotLogger.java:124 | every log entry ends in `", "`, and removing the final one leaves the entries joined by `", "` in call order |
| Logger.AverageSecondsText | SwiftBotLogger.java:141-142 | the mean time per shape in seconds with two decimals (no contract) |
| Logger.CountCaption | SwiftBotLogger.java:134 | how the summary reports a count: `name: count times` (no contract) |
| Logger.MostFrequentExists | SwiftBotLogger.java:132-135 | a non-empty frequency map has a name of maximal count |
| Logger.MostFrequentText | SwiftBotLogger.java:132-135 | the most-frequent text is "No shapes drawn" for an empty map, otherwise a name of maximal count with its count |
| Logger.SwiftBotLogger.constructor | SwiftBotLogger.java:27-32 | a new logger has an empty log, zero time and count, no frequencies, largest area 0 and an empty caption |
| Logger.SwiftBotLogger.Record | SwiftBotLogger.java:45-59 | the bookkeeping of every logging call: the log, total time, count and frequency are updated, and the largest is replaced only by a strictly larger area; the invariant is kept |
| Logger.SwiftBotLogger.LogShape | SwiftBotLogger.java:40-60 | the square overload adds one shape and its time, increments its name's count, and records area `size * size` (in `int` arithmetic) captioned `name: size` if strictly larger |
| Logger.SwiftBotLogger.LogTriangleShape | SwiftBotLogger.java:63-88 | the triangle overload does the same with Heron's area and a caption naming `sideA` only |
| Logger.SwiftBotLogger.LogPolygonShape | SwiftBotLogger.java:91-116 | `logPolygonShape` does the same with the regular-polygon area; any name other than Pentagon or Hexagon leaves the largest shape unchanged |
| Logger.SwiftBotLogger.FinalizeLog | SwiftBotLogger.java:119-157 | the summary has four lines: the entries joined by `", "`, the largest caption, a name of maximal count or "No shapes drawn", and the mean time or "No shapes drawn." when nothing was logged |
| DrawShapes.RegularTurnsMakeFullTurn | DrawShapes.java:207-216 | the turns of a square, pentagon or hexagon add up to `n` times the angle's turn time, which is a full turn (360 / 115 * 1500 ms) less at most `n` ms of truncation |
| DrawShapes.RegularLog | DrawShapes.java:219 | what a one-side routine logs: one square-overload record when the side is in range, nothing otherwise (no contract; `DrawRegular` states it) |
| DrawShapes.TriangleLog | DrawShapes.java:310 | what `makeTriangle` logs: one record with the sides as given and the exterior angles, only when all three sides were driven (no contract; `TriangleLoggedIffComplete` states it) |
| DrawShapes.AcceptedRegularCompletes | DrawShapes.java:194-219 | an accepted one-side token is always driven fully (4n commands of the repeated block) and logs one record of area `side * side` |
| DrawShapes.TriangleLoggedIffComplete | DrawShapes.java:272-310 | a triangle is logged exactly when all twelve commands are issued, and always when all three sides are in range |
| DrawShapes.FlattenStep | DrawShapes.java:113-180 | the commands of one more token come after those of the tokens before it |
| DrawShapes.FlattenIndexedStep | DrawShapes.java:113-180 | the records of one more token come after those of the tokens before it |
| DrawShapes.FlattenConcat | DrawShapes.java:113-180 | the commands of two runs of tokens are those of the first followed by those of the second |
| DrawShapes.FlattenIndexedBound | DrawShapes.java:113-180 | when each token contributes at most one record, the run contributes at most one per token |
| DrawShapes.BatchStep | DrawShapes.java:113-180 | one more token extends the batch's commands and records by that token's own |
| DrawShapes.HistoryStep | DrawShapes.java:113-180 | the logger's history after one more token is the earlier history followed by that token's records |
| DrawShapes.BatchPlanConcat | DrawShapes.java:113-180 | a batch's commands are those of its parts, in order |
| DrawShapes.RejectedTokenIssuesNothing | DrawShapes.java:113-180 | a rejected token issues nothing and leaves the commands of the tokens before and after it unchanged |
| DrawShapes.BatchLogBound | DrawShapes.java:113-180 | each token logs at most one shape |
| DrawShapes.OverflowOnlyChangesMessage | DrawShapes.java:136-139 | for every token, the parser as written and the corrected one lead to the same commands and the same logged shapes |
| DrawShapes.DescriptorLogsAtMostFive | DrawShapes.java:106-180 | a processed descriptor logs at most five shapes |
| DrawShapes.DriveSides | DrawShapes.java:207-216 | the `for` loop issues `n` drive-settle-turn-settle blocks: every fourth command is the drive and every odd one a 500 ms pause |
| DrawShapes.DrawRegular | DrawShapes.java:194-229 | a one-side routine issues its regular plan and logs one square-overload record, or nothing at all when the side is out of range |
| DrawShapes.MakeSquare | DrawShapes.java:194-229 | `makeSquare` issues four 90-degree blocks and logs "Square" with area `side * side`, or does nothing for a side out of range |
| DrawShapes.MakePentagon | DrawShapes.java:323-358 | `makePentagon` issues five 72-degree blocks and logs "Pentagon" through the square overload |
| DrawShapes.MakeHexagon | DrawShapes.java:361-396 | `makeHexagon` issues six 60-degree blocks and logs "Hexagon" through the square overload |
| DrawShapes.DriveTriangle | DrawShapes.java:232-306 | the triangle's commands are its plan cut off before the first reordered side out of range; completion means all three sides were in range |
| DrawShapes.MakeTriangle | DrawShapes.java:232-320 | `makeTriangle` issues the triangle plan and logs the given sides with the exterior angles only when all sides were driven, leaving the logger unchanged otherwise |
| DrawShapes.DrawShape | DrawShapes.java:113-179 | an accepted shape issues its plan and logs its record through the routine of its kind |
| DrawShapes.HandleToken | DrawShapes.java:113-179 | one token is decided by the parser; only an accepted one issues commands and logs |
| DrawShapes.ProcessTokens | DrawShapes.java:113-180 | the loop decides every token in input order and issues and logs exactly what the accepted ones do, in that order |
| DrawShapes.ProcessQRCodeData | DrawShapes.java:105-187 | more than five tokens: nothing is issued and the logger is unchanged; otherwise the commands and records are those of each token in order |

## Left out

- `main`, `mainMenu`, `enableButtonInputs` and `scanQRCode`: button callbacks, camera capture, QR decoding, the retry loop and the return to the menu are user interface and hardware.
- The underlight blink and the sleeps after each routine (`Thread.sleep(1500)`, `fillUnderlights`, `disableUnderlights`) are not part of the command sequences; they follow the last command and the logging.
- Console messages are modelled by their kind (`ParseError`, the -1 result), not as text; the "Drawing a ..." banners are left out.
- The log file: `File`, `BufferedWriter`, the constructor's file name and `System.exit`, and the closing messages of `finalizeLog`. The summary is returned as its four lines.
- `synchronized`: the logger's methods are modelled as plain sequential mutators.
- The clock (`System.currentTimeMillis`) is the parameter `timeTaken`, and `elapsed` for a batch.
- Geometry.TriangleExteriorAngles: `Math.acos`/`Math.toDegrees` of the law of cosines are the parameter `angleOpposite`. The `int` product `2 * secondSide * thirdSide` inside that expression, which can overflow for huge sides, is part of what the parameter stands for.
- Logger.HeronArea, Logger.PolygonArea: `Math.sqrt` is the parameter `sqrt`; double rounding and the NaN of Heron's formula on a degenerate input are not modelled (areas are reals).
- Kinematics.TimeForDistance is exact integer arithmetic (`distance * 100000 / 1233`) in place of the double division; for every distance in [15, 85] the exact quotient is at least 1/1233 away from an integer, much more than the double's error.
- Kinematics.TurnTime is exact real arithmetic; the double result can differ from the exact one in the last bit, which may move the truncation for angles whose exact time is an integer.
- JavaText.ParseInt accepts only ASCII digits; `Integer.parseInt` also accepts digits of other Unicode scripts.
- JavaText.FixedTwoText rounds the exact real value, halves away from zero; `String.format("%.2f")` rounds a double, which can land on the other side of a tie; it also uses the default locale, which in some locales writes a decimal comma.
- JavaText.SecondsText writes `timeTaken / 1000.0` as a plain decimal; `Double.toString` switches to scientific notation at 10^7 seconds and above.
- Logger.SwiftBotLogger.Record: `totalTime` (a `long`) and `shapeCount` (an `int`) are unbounded integers; their overflow after 2^31 shapes or 2^63 ms is not modelled.
- Logger.MostFrequentText: which of several names of maximal count is reported depends on `HashMap` iteration order; the model only states that the reported count is the maximum.

## Findings

| source | as written | input that shows it | evidently intended | confidence | as-written member | corrected member |
|---|---|---|---|---|---|---|
| DrawShapes.java:190-192 | the triangle inequality is tested with `int` additions, which wrap around | `T-2147483647-2147483647-2147483647` (any equilateral triangle whose doubled side exceeds 2147483647): a real triangle, but `a + b` wraps to -2 and the token is rejected as "Invalid triangle" | the triangle inequality over exact integers | not executed | Descriptor.ParseTriangle, Descriptor.LargeEquilateralTriangleToken | Descriptor.ParseTriangleCorrected, Descriptor.TriangleSidesRule |

The descriptor loop keeps the test as written: `Descriptor.ParseToken` rejects such a
triangle as the code does. `Descriptor.ParseTokenCorrected` decides tokens with the
exact test. `Descriptor.CorrectedParserAgrees` shows that the two differ only on triangles
with a side above half the `int` range. `DrawShapes.OverflowOnlyChangesMessage` shows
that both lead to the same commands and the same logged shapes, because such a side is
never driven. The overflow therefore changes only the console message.
