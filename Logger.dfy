/**
 * The session logger: every completed shape is recorded once, and at the end of the
 * session a four-line summary is rendered (shapes drawn, largest shape, most frequent
 * shape, average time).
 *
 * `Math.sqrt` is a parameter `sqrt` of the methods that need it (Heron's formula and
 * the pentagon and hexagon areas). The summary is returned as its lines instead of
 * being written to the log file.
 */
module Logger {
  import opened JavaInt
  import opened JavaText

  /** One logging call as the session remembers it: its shape name, area, largest-shape caption and log entry. */
  datatype ShapeRecord = ShapeRecord(name: string, area: real, caption: string, entry: string, timeTaken: int)

  /** What `logShape(shapeName, size, timeTaken)` records: area `size * size` in Java `int` arithmetic. */
  function SquareRecord(shapeName: string, size: int, timeTaken: int): ShapeRecord {
    var caption := shapeName + ": " + IntText(size);
    ShapeRecord(shapeName, WrapInt(size * size) as real, caption,
                caption + " (time: " + SecondsText(timeTaken) + " seconds)", timeTaken)
  }

  /** Heron's formula on the three sides as given; their sum is a Java `int` addition. */
  function HeronArea(sideA: int, sideB: int, sideC: int, sqrt: real -> real): real {
    var s := WrapInt(sideA + sideB + sideC) as real / 2.0;
    sqrt(s * (s - sideA as real) * (s - sideB as real) * (s - sideC as real))
  }

  /** What the triangle overload of `logShape` records: the caption names only `sideA`. */
  function TriangleRecord(shapeName: string, sideA: int, sideB: int, sideC: int,
                          angleA: real, angleB: real, angleC: real, timeTaken: int,
                          sqrt: real -> real): ShapeRecord
  {
    ShapeRecord(shapeName, HeronArea(sideA, sideB, sideC, sqrt), shapeName + ": " + IntText(sideA),
                shapeName + ": " + IntText(sideA) + ", " + IntText(sideB) + ", " + IntText(sideC)
                + " (angles: " + FixedTwoText(angleA) + ", " + FixedTwoText(angleB) + ", "
                + FixedTwoText(angleC) + "; time: " + SecondsText(timeTaken) + " seconds)",
                timeTaken)
  }

  /** The regular-polygon area of `logPolygonShape`; 0 for any name but "Pentagon" and "Hexagon". */
  function PolygonArea(shapeName: string, sideLength: int, sqrt: real -> real): real {
    var sideSquared := (sideLength * sideLength) as real;
    if shapeName == "Pentagon" then (1.0 / 4.0) * sqrt(5.0 * (5.0 + 2.0 * sqrt(5.0))) * sideSquared
    else if shapeName == "Hexagon" then (3.0 * sqrt(3.0) / 2.0) * sideSquared
    else 0.0
  }

  /** What `logPolygonShape` records. */
  function PolygonRecord(shapeName: string, sideLength: int, timeTaken: int, sqrt: real -> real): ShapeRecord {
    var caption := shapeName + ": " + IntText(sideLength);
    ShapeRecord(shapeName, PolygonArea(shapeName, sideLength, sqrt), caption,
                caption + " (time: " + SecondsText(timeTaken) + " seconds)", timeTaken)
  }

  // ---------------------------------------------------------------------------
  // What a session's history determines
  // ---------------------------------------------------------------------------

  /** The log buffer: every entry followed by `", "`, in call order. */
  function LogText(h: seq<ShapeRecord>): string {
    if h == [] then "" else LogText(h[..|h| - 1]) + h[|h| - 1].entry + ", "
  }

  /** The log entries, one per logging call, in call order. */
  function Entries(h: seq<ShapeRecord>): seq<string> {
    seq(|h|, i requires 0 <= i < |h| => h[i].entry)
  }

  function TotalTime(h: seq<ShapeRecord>): int {
    if h == [] then 0 else TotalTime(h[..|h| - 1]) + h[|h| - 1].timeTaken
  }

  /** `m.getOrDefault(k, 0)`. */
  function FrequencyOf(m: map<string, int>, k: string): int {
    if k in m then m[k] else 0
  }

  function Frequencies(h: seq<ShapeRecord>): map<string, int> {
    if h == [] then map[]
    else
      var m, name := Frequencies(h[..|h| - 1]), h[|h| - 1].name;
      m[name := FrequencyOf(m, name) + 1]
  }

  datatype Largest = Largest(area: real, caption: string)

  /** The largest-area record, replaced only by a strictly larger area; starts at (0, ""). */
  function LargestOf(h: seq<ShapeRecord>): Largest {
    if h == [] then Largest(0.0, "")
    else
      var previous, r := LargestOf(h[..|h| - 1]), h[|h| - 1];
      if r.area > previous.area then Largest(r.area, r.caption) else previous
  }

  /** The summaries of a history extended by one record, in terms of the summaries before. */
  lemma HistoryAppend(h: seq<ShapeRecord>, r: ShapeRecord)
    ensures LogText(h + [r]) == LogText(h) + r.entry + ", "
    ensures TotalTime(h + [r]) == TotalTime(h) + r.timeTaken
    ensures Frequencies(h + [r]) == Frequencies(h)[r.name := FrequencyOf(Frequencies(h), r.name) + 1]
    ensures LargestOf(h + [r]) ==
      if r.area > LargestOf(h).area then Largest(r.area, r.caption) else LargestOf(h)
  {
    assert (h + [r])[..|h|] == h;
  }

  /** The sum of all values of a map. */
  ghost function SumValues(m: map<string, int>): int
    decreases m.Keys
  {
    if m == map[] then 0
    else
      var k :| k in m;
      m[k] + SumValues(m - {k})
  }

  lemma {:induction false} SumValuesRemove(m: map<string, int>, k: string)
    requires k in m
    ensures SumValues(m) == m[k] + SumValues(m - {k})
    decreases m.Keys
  {
    var j :| j in m && SumValues(m) == m[j] + SumValues(m - {j});
    if j != k {
      SumValuesRemove(m - {j}, k);
      SumValuesRemove(m - {k}, j);
      assert m - {j} - {k} == m - {k} - {j};
    }
  }

  lemma SumValuesIncrement(m: map<string, int>, k: string)
    ensures SumValues(m[k := FrequencyOf(m, k) + 1]) == SumValues(m) + 1
  {
    var m' := m[k := FrequencyOf(m, k) + 1];
    SumValuesRemove(m', k);
    if k in m {
      SumValuesRemove(m, k);
      assert m' - {k} == m - {k};
    } else {
      assert m' - {k} == m;
    }
  }

  /**
   * The frequency map has a key for exactly the logged names, every count is positive,
   * and it is empty exactly when nothing was logged.
   */
  lemma {:induction false} FrequencyKeys(h: seq<ShapeRecord>)
    ensures Frequencies(h).Keys == set i | 0 <= i < |h| :: h[i].name
    ensures forall k :: k in Frequencies(h) ==> Frequencies(h)[k] >= 1
    ensures Frequencies(h) == map[] <==> h == []
  {
    if h != [] {
      var h', r := h[..|h| - 1], h[|h| - 1];
      FrequencyKeys(h');
      assert (set i | 0 <= i < |h| :: h[i].name) == (set i | 0 <= i < |h'| :: h'[i].name) + {r.name} by {
        forall i | 0 <= i < |h'| ensures h[i].name == h'[i].name { }
        assert h[|h| - 1].name == r.name;
      }
    }
  }

  /** The frequency map counts every logged shape exactly once: the counts add up to the number of shapes. */
  lemma {:induction false} FrequenciesSum(h: seq<ShapeRecord>)
    ensures SumValues(Frequencies(h)) == |h|
  {
    if h != [] {
      var h', r := h[..|h| - 1], h[|h| - 1];
      FrequenciesSum(h');
      SumValuesIncrement(Frequencies(h'), r.name);
    }
  }

  /**
   * The tracked largest area is the maximum of 0 and every logged area; when it is
   * positive, its caption is that of the EARLIEST record reaching it (ties keep the
   * first), and when it is 0 the caption is still the initial empty string.
   */
  lemma {:induction false} LargestIsEarliestMaximum(h: seq<ShapeRecord>)
    ensures LargestOf(h).area >= 0.0
    ensures forall i :: 0 <= i < |h| ==> h[i].area <= LargestOf(h).area
    ensures LargestOf(h).area == 0.0 ==> LargestOf(h).caption == ""
    ensures LargestOf(h).area > 0.0 ==>
      exists i :: 0 <= i < |h| && h[i].area == LargestOf(h).area && h[i].caption == LargestOf(h).caption
        && forall j :: 0 <= j < i ==> h[j].area < LargestOf(h).area
  {
    if h != [] {
      var h', r := h[..|h| - 1], h[|h| - 1];
      assert h == h' + [r];
      LargestIsEarliestMaximum(h');
      HistoryAppend(h', r);
      var before, after := LargestOf(h'), LargestOf(h);
      assert forall i :: 0 <= i < |h'| ==> h[i] == h'[i];
      if r.area > before.area {
        assert forall j :: 0 <= j < |h| - 1 ==> h[j].area < after.area;
        assert h[|h| - 1].area == after.area && h[|h| - 1].caption == after.caption;
      } else if after.area > 0.0 {
        var i :| 0 <= i < |h'| && h'[i].area == before.area && h'[i].caption == before.caption
          && forall j :: 0 <= j < i ==> h'[j].area < before.area;
        assert h[i].area == after.area && h[i].caption == after.caption;
      }
    }
  }

  /** A record whose area is not positive never becomes the largest shape. */
  lemma NonPositiveAreaNeverLargest(h: seq<ShapeRecord>, r: ShapeRecord)
    requires r.area <= 0.0
    ensures LargestOf(h + [r]) == LargestOf(h)
  {
    LargestIsEarliestMaximum(h);
    HistoryAppend(h, r);
  }

  /** Stripping the one trailing `", "` from the log buffer leaves the entries joined by `", "`. */
  lemma {:induction false} LogTextJoin(h: seq<ShapeRecord>)
    ensures h != [] ==> LogText(h) == Join(Entries(h), ", ") + ", "
    ensures StripTrailingSeparator(LogText(h)) == Join(Entries(h), ", ")
  {
    if h != [] {
      var h', r := h[..|h| - 1], h[|h| - 1];
      assert h == h' + [r];
      LogTextJoin(h');
      HistoryAppend(h', r);
      assert Entries(h) == Entries(h') + [r.entry];
      if h' != [] {
        JoinAppend(Entries(h'), r.entry, ", ");
      } else {
        assert Entries(h) == [r.entry];
      }
      var s := LogText(h);
      assert EndsWith(s, ", ") by {
        assert s[|s| - 2..] == ", ";
      }
    }
  }

  /** The mean time per shape, in seconds with two decimals: `(double) totalTime / shapeCount / 1000.0`. */
  function AverageSecondsText(totalTime: int, shapeCount: int): string
    requires shapeCount > 0
  {
    var averageTime := totalTime as real / shapeCount as real;
    FixedTwoText(averageTime / 1000.0)
  }

  /** `name` has the highest count in `m`. */
  predicate IsMostFrequent(m: map<string, int>, name: string) {
    name in m && forall k :: k in m ==> m[k] <= m[name]
  }

  lemma {:induction false} MostFrequentExists(m: map<string, int>)
    requires m != map[]
    ensures exists name :: IsMostFrequent(m, name)
    decreases m.Keys
  {
    var k :| k in m;
    var rest := m - {k};
    assert forall j :: j in m ==> j == k || j in rest;
    if rest == map[] {
      assert IsMostFrequent(m, k);
    } else {
      MostFrequentExists(rest);
      var best :| IsMostFrequent(rest, best);
      if m[k] > m[best] {
        assert IsMostFrequent(m, k);
      } else {
        assert IsMostFrequent(m, best);
      }
    }
  }

  /** How the summary reports a shape's count: `entry.getKey() + ": " + entry.getValue() + " times"`. */
  function CountCaption(name: string, count: int): string {
    name + ": " + IntText(count) + " times"
  }

  /**
   * The most-frequent part of the summary: a name of maximal count with its count,
   * or "No shapes drawn" for an empty map. Which of several maximal names is chosen
   * depends on a HashMap's iteration order, which is unspecified.
   */
  method MostFrequentText(shapeFrequency: map<string, int>) returns (text: string)
    ensures shapeFrequency == map[] ==> text == "No shapes drawn"
    ensures shapeFrequency != map[] ==>
      exists name :: IsMostFrequent(shapeFrequency, name) &&
        text == CountCaption(name, shapeFrequency[name])
  {
    if shapeFrequency == map[] {
      text := "No shapes drawn";
    } else {
      MostFrequentExists(shapeFrequency);
      var name :| name in shapeFrequency && IsMostFrequent(shapeFrequency, name);
      text := CountCaption(name, shapeFrequency[name]);
    }
  }

  // ---------------------------------------------------------------------------
  // The logger object
  // ---------------------------------------------------------------------------

  class SwiftBotLogger {
    var shapeLog: string
    var totalTime: int
    var shapeCount: int
    var shapeFrequency: map<string, int>
    var largestShapeArea: real
    var largestShape: string
    /** Every logging call so far, in order. */
    ghost var history: seq<ShapeRecord>

    /** Every field is the summary of the history that its name says. */
    ghost predicate Valid()
      reads this
    {
      && shapeLog == LogText(history)
      && totalTime == TotalTime(history)
      && shapeCount == |history|
      && shapeFrequency == Frequencies(history)
      && largestShapeArea == LargestOf(history).area
      && largestShape == LargestOf(history).caption
    }

    /** A logger for a new session: nothing logged, largest area 0 with an empty caption. */
    constructor ()
      ensures Valid() && history == []
      ensures shapeLog == "" && totalTime == 0 && shapeCount == 0 && shapeFrequency == map[]
      ensures largestShapeArea == 0.0 && largestShape == ""
    {
      shapeLog := "";
      totalTime := 0;
      shapeCount := 0;
      shapeFrequency := map[];
      largestShapeArea := 0.0;
      largestShape := "";
      history := [];
    }

    /** The bookkeeping every logging call shares, for a shape of the given area and caption. */
    method Record(shapeName: string, area: real, caption: string, entry: string, timeTaken: int)
      requires Valid()
      modifies this
      ensures Valid()
      ensures history == old(history) + [ShapeRecord(shapeName, area, caption, entry, timeTaken)]
      ensures shapeLog == old(shapeLog) + entry + ", "
      ensures shapeCount == old(shapeCount) + 1 && totalTime == old(totalTime) + timeTaken
      ensures shapeFrequency == old(shapeFrequency)[shapeName := FrequencyOf(old(shapeFrequency), shapeName) + 1]
      ensures area > old(largestShapeArea) ==> largestShapeArea == area && largestShape == caption
      ensures area <= old(largestShapeArea) ==>
        largestShapeArea == old(largestShapeArea) && largestShape == old(largestShape)
    {
      ghost var r := ShapeRecord(shapeName, area, caption, entry, timeTaken);
      ghost var h := history + [r];
      assert LogText(h) == shapeLog + entry + ", " && TotalTime(h) == totalTime + timeTaken
          && Frequencies(h) == shapeFrequency[shapeName := FrequencyOf(shapeFrequency, shapeName) + 1]
          && LargestOf(h) == if area > largestShapeArea then Largest(area, caption)
                             else Largest(largestShapeArea, largestShape) by {
        HistoryAppend(history, r);
      }
      shapeLog := shapeLog + entry + ", ";
      totalTime := totalTime + timeTaken;
      shapeCount := shapeCount + 1;
      shapeFrequency := shapeFrequency[shapeName := FrequencyOf(shapeFrequency, shapeName) + 1];
      if area > largestShapeArea {
        largestShapeArea := area;
        largestShape := caption;
      }
      history := h;
    }

    /** `logShape(shapeName, size, timeTaken)`: a square, or any shape logged by one side. */
    method LogShape(shapeName: string, size: int, timeTaken: int)
      requires Valid()
      modifies this
      ensures Valid()
      ensures history == old(history) + [SquareRecord(shapeName, size, timeTaken)]
      ensures shapeCount == old(shapeCount) + 1 && totalTime == old(totalTime) + timeTaken
      ensures shapeFrequency == old(shapeFrequency)[shapeName := FrequencyOf(old(shapeFrequency), shapeName) + 1]
      ensures var area := WrapInt(size * size) as real;
        if area > old(largestShapeArea)
        then largestShapeArea == area && largestShape == shapeName + ": " + IntText(size)
        else largestShapeArea == old(largestShapeArea) && largestShape == old(largestShape)
    {
      var area := WrapInt(size * size) as real;
      var caption := shapeName + ": " + IntText(size);
      Record(shapeName, area, caption, caption + " (time: " + SecondsText(timeTaken) + " seconds)", timeTaken);
    }

    /** The triangle overload of `logShape`: Heron's area, captioned by `sideA` alone. */
    method LogTriangleShape(shapeName: string, sideA: int, sideB: int, sideC: int,
                            angleA: real, angleB: real, angleC: real, timeTaken: int,
                            sqrt: real -> real)
      requires Valid()
      modifies this
      ensures Valid()
      ensures history == old(history) +
        [TriangleRecord(shapeName, sideA, sideB, sideC, angleA, angleB, angleC, timeTaken, sqrt)]
      ensures shapeCount == old(shapeCount) + 1 && totalTime == old(totalTime) + timeTaken
      ensures shapeFrequency == old(shapeFrequency)[shapeName := FrequencyOf(old(shapeFrequency), shapeName) + 1]
      ensures var area := HeronArea(sideA, sideB, sideC, sqrt);
        if area > old(largestShapeArea)
        then largestShapeArea == area && largestShape == shapeName + ": " + IntText(sideA)
        else largestShapeArea == old(largestShapeArea) && largestShape == old(largestShape)
    {
      var r := TriangleRecord(shapeName, sideA, sideB, sideC, angleA, angleB, angleC, timeTaken, sqrt);
      Record(shapeName, r.area, r.caption, r.entry, timeTaken);
    }

    /**
     * `logPolygonShape`: pentagon and hexagon areas from their closed forms; any
     * other name has area 0 and so leaves the largest shape as it was.
     */
    method LogPolygonShape(shapeName: string, sideLength: int, timeTaken: int, sqrt: real -> real)
      requires Valid()
      modifies this
      ensures Valid()
      ensures history == old(history) + [PolygonRecord(shapeName, sideLength, timeTaken, sqrt)]
      ensures shapeCount == old(shapeCount) + 1 && totalTime == old(totalTime) + timeTaken
      ensures shapeFrequency == old(shapeFrequency)[shapeName := FrequencyOf(old(shapeFrequency), shapeName) + 1]
      ensures shapeName != "Pentagon" && shapeName != "Hexagon" ==>
        largestShapeArea == old(largestShapeArea) && largestShape == old(largestShape)
      ensures var area := PolygonArea(shapeName, sideLength, sqrt);
        if area > old(largestShapeArea)
        then largestShapeArea == area && largestShape == shapeName + ": " + IntText(sideLength)
        else largestShapeArea == old(largestShapeArea) && largestShape == old(largestShape)
    {
      LargestIsEarliestMaximum(history);
      var r := PolygonRecord(shapeName, sideLength, timeTaken, sqrt);
      Record(shapeName, r.area, r.caption, r.entry, timeTaken);
    }

    /**
     * The summary `finalizeLog` writes: the entries joined by ", ", the largest shape's
     * caption, a most frequent shape (any name of maximal count, since the order of a
     * HashMap is unspecified) and the average time in seconds.
     */
    method FinalizeLog() returns (lines: seq<string>)
      requires Valid()
      ensures |lines| == 4
      ensures lines[0] == "Shapes drawn: " + StripTrailingSeparator(shapeLog)
      ensures lines[0] == "Shapes drawn: " + Join(Entries(history), ", ")
      ensures lines[1] == "Largest shape: " + largestShape
      ensures shapeCount == 0 <==> shapeFrequency == map[]
      ensures shapeFrequency == map[] ==> lines[2] == "Most frequent shape: No shapes drawn"
      ensures shapeFrequency != map[] ==>
        exists name :: IsMostFrequent(shapeFrequency, name) &&
          lines[2] == "Most frequent shape: " + CountCaption(name, shapeFrequency[name])
      ensures shapeCount > 0 ==>
        lines[3] == "Average time: " + AverageSecondsText(totalTime, shapeCount) + " seconds"
      ensures shapeCount == 0 ==> lines[3] == "No shapes drawn."
    {
      LogTextJoin(history);
      FrequencyKeys(history);
      var mostFrequentShape := MostFrequentText(shapeFrequency);
      var average: string;
      if shapeCount > 0 {
        average := "Average time: " + AverageSecondsText(totalTime, shapeCount) + " seconds";
      } else {
        average := "No shapes drawn.";
      }
      lines := ["Shapes drawn: " + StripTrailingSeparator(shapeLog), "Largest shape: " + largestShape,
                "Most frequent shape: " + mostFrequentShape, average];
    }
  }
}
