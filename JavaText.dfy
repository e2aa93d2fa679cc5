/**
 * The few pieces of Java's string library the robot program relies on, with their
 * Java semantics: `String.startsWith`, `String.split` on a one-character separator
 * (trailing empty strings dropped), `Integer.parseInt`, `Integer.toString`, and the
 * decimal renderings used by the session log.
 */
module JavaText {
  import opened JavaInt

  datatype Option<+T> = None | Some(value: T)

  predicate StartsWith(s: string, prefix: string) {
    |prefix| <= |s| && s[..|prefix|] == prefix
  }

  predicate EndsWith(s: string, suffix: string) {
    |suffix| <= |s| && s[|s| - |suffix|..] == suffix
  }

  // ---------------------------------------------------------------------------
  // Splitting and joining
  // ---------------------------------------------------------------------------

  /** `parts` separated by `sep`: the inverse of splitting. */
  function Join(parts: seq<string>, sep: string): string {
    if |parts| == 0 then ""
    else if |parts| == 1 then parts[0]
    else parts[0] + sep + Join(parts[1..], sep)
  }

  /** Every piece of text between occurrences of `sep`, empty pieces included. */
  function Pieces(s: string, sep: char): (r: seq<string>)
    ensures |r| >= 1
    ensures forall i :: 0 <= i < |r| ==> sep !in r[i]
    decreases |s|
  {
    if |s| == 0 then [""]
    else
      var rest := Pieces(s[1..], sep);
      if s[0] == sep then [""] + rest
      else [[s[0]] + rest[0]] + rest[1..]
  }

  /** `parts` with its run of trailing empty strings removed. */
  function DropTrailingEmpty(parts: seq<string>): (r: seq<string>)
    ensures |r| <= |parts| && r == parts[..|r|]
    ensures forall i :: |r| <= i < |parts| ==> parts[i] == ""
    ensures r == [] || r[|r| - 1] != ""
  {
    if |parts| > 0 && parts[|parts| - 1] == "" then DropTrailingEmpty(parts[..|parts| - 1])
    else parts
  }

  /**
   * Java's `s.split(sep)` for a separator that is one literal character: when `sep`
   * does not occur the result is `[s]` (so `""` gives `[""]`); otherwise the pieces
   * between separators, with trailing empty pieces dropped.
   */
  function Split(s: string, sep: char): (r: seq<string>)
    ensures forall i :: 0 <= i < |r| ==> sep !in r[i]
    ensures sep !in s ==> r == [s]
    ensures sep in s ==> |r| <= |Pieces(s, sep)| && r == Pieces(s, sep)[..|r|]
    ensures sep in s ==> forall i :: |r| <= i < |Pieces(s, sep)| ==> Pieces(s, sep)[i] == ""
    ensures sep in s ==> r == [] || r[|r| - 1] != ""
  {
    if sep !in s then [s]
    else
      var pieces := Pieces(s, sep);
      var r := DropTrailingEmpty(pieces);
      assert forall i :: 0 <= i < |r| ==> r[i] == pieces[i];
      r
  }

  lemma {:induction false} JoinAppend(parts: seq<string>, last: string, sep: string)
    requires |parts| >= 1
    ensures Join(parts + [last], sep) == Join(parts, sep) + sep + last
  {
    if |parts| == 1 {
      assert parts + [last] == [parts[0], last];
      assert [parts[0], last][1..] == [last];
    } else {
      assert (parts + [last])[1..] == parts[1..] + [last];
      JoinAppend(parts[1..], last, sep);
    }
  }

  /** Joining the pieces back together with the separator gives the original text. */
  lemma {:induction false} JoinPieces(s: string, sep: char)
    ensures Join(Pieces(s, sep), [sep]) == s
    decreases |s|
  {
    if |s| > 0 {
      var rest := Pieces(s[1..], sep);
      JoinPieces(s[1..], sep);
      if s[0] == sep {
        assert ([""] + rest)[1..] == rest;
      } else {
        var r := [[s[0]] + rest[0]] + rest[1..];
        if |rest| == 1 {
          assert r == [[s[0]] + rest[0]];
        } else {
          assert r[1..] == rest[1..];
          assert Join(rest, [sep]) == rest[0] + [sep] + Join(rest[1..], [sep]);
        }
      }
    }
  }

  /** Splitting a text built by joining separator-free pieces gives those pieces back. */
  lemma {:induction false} PiecesOfJoin(parts: seq<string>, sep: char)
    requires |parts| >= 1
    requires forall i :: 0 <= i < |parts| ==> sep !in parts[i]
    ensures Pieces(Join(parts, [sep]), sep) == parts
    decreases |parts|, |parts[0]|
  {
    var p := parts[0];
    if |p| == 0 {
      if |parts| == 1 {
      } else {
        var s := Join(parts, [sep]);
        assert s == [sep] + Join(parts[1..], [sep]);
        assert s[1..] == Join(parts[1..], [sep]);
        PiecesOfJoin(parts[1..], sep);
        assert parts == [""] + parts[1..];
      }
    } else {
      var s := Join(parts, [sep]);
      var tail := [p[1..]] + parts[1..];
      assert tail[1..] == parts[1..];
      assert forall i :: 0 <= i < |tail| ==> sep !in tail[i] by {
        forall i | 0 <= i < |tail| ensures sep !in tail[i] {
          if i == 0 {
            assert forall c :: c in p[1..] ==> c in p;
          } else {
            assert tail[i] == parts[i];
          }
        }
      }
      if |parts| == 1 {
        assert s == p;
        assert Join(tail, [sep]) == p[1..];
      } else {
        assert s == p + [sep] + Join(parts[1..], [sep]);
        assert Join(tail, [sep]) == p[1..] + [sep] + Join(parts[1..], [sep]);
      }
      assert s[0] == p[0] && s[1..] == Join(tail, [sep]);
      PiecesOfJoin(tail, sep);
      assert p[0] != sep by { assert p[0] in p; }
      assert [p[0]] + p[1..] == p;
      assert parts == [p] + parts[1..];
    }
  }

  /**
   * Round trip: `Split` recovers the separator-free pieces a text was joined from,
   * provided the last of two or more pieces is not empty (Java drops it otherwise).
   */
  lemma SplitOfJoin(parts: seq<string>, sep: char)
    requires |parts| >= 1
    requires forall i :: 0 <= i < |parts| ==> sep !in parts[i]
    requires |parts| >= 2 ==> parts[|parts| - 1] != ""
    ensures Split(Join(parts, [sep]), sep) == parts
  {
    var s := Join(parts, [sep]);
    PiecesOfJoin(parts, sep);
    if |parts| == 1 {
      assert s == parts[0];
    } else {
      assert s == parts[0] + [sep] + Join(parts[1..], [sep]);
      assert s[|parts[0]|] == sep;
    }
  }

  /** A single trailing separator yields no extra token: `"S-40&"` splits to `["S-40"]`. */
  lemma TrailingSeparatorDropped(token: string, sep: char)
    requires token != "" && sep !in token
    ensures Split(token + [sep], sep) == [token]
  {
    var parts := [token, ""];
    assert Join(parts, [sep]) == token + [sep];
    PiecesOfJoin(parts, sep);
    assert (token + [sep])[|token|] == sep;
    assert DropTrailingEmpty(parts) == DropTrailingEmpty([token]);
  }

  // ---------------------------------------------------------------------------
  // Decimal integers
  // ---------------------------------------------------------------------------

  predicate IsDigit(c: char) {
    '0' <= c <= '9'
  }

  predicate AllDigits(s: string) {
    forall i :: 0 <= i < |s| ==> IsDigit(s[i])
  }

  function DigitChar(d: nat): (c: char)
    requires d < 10
    ensures IsDigit(c)
  {
    ('0' as int + d) as char
  }

  /** The value of a string of decimal digits, most significant first. */
  function DigitsValue(s: string): nat
    requires AllDigits(s)
  {
    if |s| == 0 then 0
    else 10 * DigitsValue(s[..|s| - 1]) + ((s[|s| - 1] as int) - ('0' as int))
  }

  /** `s` without its leading sign, if it has one. */
  function Unsigned(s: string): string {
    if |s| > 0 && (s[0] == '-' || s[0] == '+') then s[1..] else s
  }

  /**
   * Java's `Integer.parseInt(s)`: an optional `+` or `-`, then one or more decimal
   * digits, and the value must fit in an `int`; anything else is a NumberFormatException.
   */
  function ParseInt(s: string): (r: Option<int>)
    ensures var d := Unsigned(s);
      r.Some? <==> |d| >= 1 && AllDigits(d) && IsInt((if StartsWith(s, "-") then -1 else 1) * DigitsValue(d))
    ensures r.Some? ==> var d := Unsigned(s);
      AllDigits(d) && r.value == (if StartsWith(s, "-") then -1 else 1) * DigitsValue(d)
    ensures r.Some? ==> |s| >= 1 && (s[0] == '+' || s[0] == '-' || IsDigit(s[0]))
    ensures r.Some? && s[0] != '-' ==> r.value >= 0
  {
    var digits := Unsigned(s);
    if |digits| == 0 || !AllDigits(digits) then None
    else
      var n: int := DigitsValue(digits);
      var v := if s[0] == '-' then -n else n;
      if IsInt(v) then Some(v) else None
  }

  /** Decimal digits of a natural number, most significant first. */
  function NatText(n: nat): (r: string)
    ensures |r| >= 1 && AllDigits(r)
  {
    if n < 10 then [DigitChar(n)]
    else NatText(n / 10) + [DigitChar(n % 10)]
  }

  /** `NatText` writes the number's value, without leading zeros. */
  lemma {:induction false} NatTextValue(n: nat)
    ensures DigitsValue(NatText(n)) == n
    ensures |NatText(n)| > 1 ==> NatText(n)[0] != '0'
  {
    if n >= 10 {
      NatTextValue(n / 10);
      var r := NatText(n);
      assert r[..|r| - 1] == NatText(n / 10);
    }
  }

  /** Java's `Integer.toString(n)` (and `StringBuilder.append(int)`). */
  function IntText(n: int): (r: string)
    ensures |r| >= 1
  {
    if n < 0 then "-" + NatText(-n) else NatText(n)
  }

  /** `Integer.parseInt` reads back every `int` that `Integer.toString` writes. */
  lemma ParseIntText(n: int)
    requires IsInt(n)
    ensures ParseInt(IntText(n)) == Some(n)
  {
    NatTextValue(if n < 0 then -n else n);
    if n < 0 {
      assert ("-" + NatText(-n))[1..] == NatText(-n);
    }
  }

  // ---------------------------------------------------------------------------
  // Numeric text of the session log
  // ---------------------------------------------------------------------------

  /** Up to three fractional digits, trailing zeros trimmed, at least one digit kept. */
  function FractionText(f: nat): string
    requires f < 1000
  {
    var digits := [DigitChar(f / 100), DigitChar(f / 10 % 10), DigitChar(f % 10)];
    if f % 100 == 0 then digits[..1] else if f % 10 == 0 then digits[..2] else digits
  }

  /** `Double.toString(ms / 1000.0)`: a number of milliseconds written in seconds. */
  function SecondsText(ms: int): string {
    var m := if ms < 0 then -ms else ms;
    (if ms < 0 then "-" else "") + NatText(m / 1000) + "." + FractionText(m % 1000)
  }

  /** `String.format("%.2f", x)`: two decimals, halves rounded away from zero. */
  function FixedTwoText(x: real): string {
    var a := if x < 0.0 then -x else x;
    var q := (a * 100.0 + 0.5).Floor;
    assert q >= 0;
    (if x < 0.0 then "-" else "") + NatText(q / 100) + "." + [DigitChar(q / 10 % 10), DigitChar(q % 10)]
  }

  /** Removes one trailing `", "`, as `replaceAll(", $", "")` does on the session log. */
  function StripTrailingSeparator(s: string): (r: string)
    ensures EndsWith(s, ", ") ==> r + ", " == s
    ensures !EndsWith(s, ", ") ==> r == s
  {
    if EndsWith(s, ", ") then s[..|s| - 2] else s
  }
}
