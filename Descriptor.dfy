/**
 * The shape descriptor a QR code carries: up to five `&`-separated tokens, each
 * `S-<side>`, `H-<side>`, `P-<side>` (square, hexagon, pentagon) or `T-<a>-<b>-<c>`
 * (triangle). This module decides, for each token, what `processQRCodeData` does with
 * it: which routine it calls and with which sides, or which error message it prints.
 * The messages themselves are modelled as the kinds of `ParseError`.
 */
module Descriptor {
  import opened JavaInt
  import opened JavaText
  import opened Kinematics
  import opened Geometry

  /** A descriptor with more tokens than this is refused as a whole. */
  const MaxShapes: int := 5

  const ShapeSeparator: char := '&'
  const SideSeparator: char := '-'

  /** The three shapes given by one side length, in the order their prefixes are tested. */
  datatype RegularKind = SquareKind | HexagonKind | PentagonKind

  datatype Shape = Regular(kind: RegularKind, side: int) | Triangle(a: int, b: int, c: int)

  /** The error messages of `processQRCodeData`, one kind per message. */
  datatype ParseError =
    | InvalidShapeFormat             // no known prefix
    | InvalidRegularInput(kind: RegularKind)  // the side is not an integer
    | SideOutOfRange(kind: RegularKind)       // the side is outside [15, 85]
    | TriangleFormat                 // not exactly three sides
    | InvalidTriangleInput           // a side is not an integer
    | InvalidTriangle                // the sides fail the triangle inequality

  datatype TokenOutcome = Accepted(shape: Shape) | Rejected(error: ParseError)

  datatype Batch = TooManyShapes | Processed(outcomes: seq<TokenOutcome>)

  function Prefix(kind: RegularKind): string {
    match kind
    case SquareKind => "S-"
    case HexagonKind => "H-"
    case PentagonKind => "P-"
  }

  /**
   * What a token that `processQRCodeData` accepts guarantees: a one-side shape has its
   * side in [15, 85]; a triangle satisfies the triangle inequality, with sides that
   * are Java `int`s, but its sides are not range-checked.
   */
  predicate Drawable(s: Shape) {
    match s
    case Regular(_, side) => InRange(side)
    case Triangle(a, b, c) => IsValidTriangle(a, b, c) && IsInt(a) && IsInt(b) && IsInt(c)
  }

  /** The `S-`, `H-` and `P-` branches on the text after the prefix: parse it as an `int`, then check its range. */
  function ParseRegular(kind: RegularKind, text: string): (r: TokenOutcome)
    ensures r == Rejected(InvalidRegularInput(kind)) <==> ParseInt(text).None?
    ensures r == Rejected(SideOutOfRange(kind)) <==> ParseInt(text).Some? && !InRange(ParseInt(text).value)
    ensures r.Accepted? <==> ParseInt(text).Some? && InRange(ParseInt(text).value)
    ensures r.Accepted? ==> r.shape == Regular(kind, ParseInt(text).value) && Drawable(r.shape)
  {
    match ParseInt(text)
    case None => Rejected(InvalidRegularInput(kind))
    case Some(side) =>
      if MinDistance <= side <= MaxDistance then Accepted(Regular(kind, side))
      else Rejected(SideOutOfRange(kind))
  }

  /**
   * The `T-` branch on the text after the prefix, with the triangle test `test`: split
   * the text on `-`, demand exactly three parts, parse each as an `int`, then apply the
   * test to the three parsed sides.
   */
  function DecideTriangle(text: string, test: (int, int, int) -> bool): (r: TokenOutcome)
    ensures var sides := Split(text, SideSeparator);
      && (r == Rejected(TriangleFormat) <==> |sides| != 3)
      && (|sides| == 3 ==>
            var pa, pb, pc := ParseInt(sides[0]), ParseInt(sides[1]), ParseInt(sides[2]);
            && (r == Rejected(InvalidTriangleInput) <==> pa.None? || pb.None? || pc.None?)
            && (r == Rejected(InvalidTriangle) <==>
                  pa.Some? && pb.Some? && pc.Some? && !test(pa.value, pb.value, pc.value))
            && (r.Accepted? <==> pa.Some? && pb.Some? && pc.Some? && test(pa.value, pb.value, pc.value))
            && (r.Accepted? ==> r.shape == Triangle(pa.value, pb.value, pc.value)))
    ensures r.Accepted? ==> r.shape.Triangle? && test(r.shape.a, r.shape.b, r.shape.c)
    ensures r.Accepted? ==>
      0 <= r.shape.a <= IntMax && 0 <= r.shape.b <= IntMax && 0 <= r.shape.c <= IntMax
  {
    var sides := Split(text, SideSeparator);
    if |sides| != 3 then Rejected(TriangleFormat)
    else
      assert forall i :: 0 <= i < 3 && |sides[i]| > 0 ==> sides[i][0] != SideSeparator by {
        forall i | 0 <= i < 3 && |sides[i]| > 0 ensures sides[i][0] != SideSeparator {
          assert sides[i][0] in sides[i];
        }
      }
      match (ParseInt(sides[0]), ParseInt(sides[1]), ParseInt(sides[2]))
      case (Some(a), Some(b), Some(c)) =>
        if test(a, b, c) then Accepted(Triangle(a, b, c)) else Rejected(InvalidTriangle)
      case _ => Rejected(InvalidTriangleInput)
  }

  /**
   * `processQRCodeData`'s `T-` branch as written: the triangle test adds the sides in
   * Java `int` arithmetic. It only ever errs by rejecting, so what it accepts is a
   * real triangle.
   */
  function ParseTriangle(text: string): (r: TokenOutcome)
    ensures r.Accepted? ==> r.shape.Triangle? && Drawable(r.shape)
    ensures r.Accepted? ==> 0 < r.shape.a && 0 < r.shape.b && 0 < r.shape.c
  {
    var r := DecideTriangle(text, IsValidTriangleInt32);
    if r.Accepted? then
      Int32TriangleOnNonNegative(r.shape.a, r.shape.b, r.shape.c);
      r
    else r
  }

  /** The `T-` branch with the triangle inequality over exact integers, as evidently intended. */
  function ParseTriangleCorrected(text: string): (r: TokenOutcome)
    ensures r.Accepted? ==> r.shape.Triangle? && Drawable(r.shape)
  {
    DecideTriangle(text, IsValidTriangle)
  }

  /** One token, its prefix tested in the order `S-`, `T-`, `H-`, `P-`. */
  function ParseToken(token: string): (r: TokenOutcome)
    ensures r.Accepted? ==> Drawable(r.shape)
    ensures r == Rejected(InvalidShapeFormat) <==>
      !StartsWith(token, "S-") && !StartsWith(token, "T-") && !StartsWith(token, "H-") && !StartsWith(token, "P-")
  {
    if StartsWith(token, "S-") then ParseRegular(SquareKind, token[2..])
    else if StartsWith(token, "T-") then ParseTriangle(token[2..])
    else if StartsWith(token, "H-") then ParseRegular(HexagonKind, token[2..])
    else if StartsWith(token, "P-") then ParseRegular(PentagonKind, token[2..])
    else Rejected(InvalidShapeFormat)
  }

  /** A token decided with the corrected triangle test; every other branch is unchanged. */
  function ParseTokenCorrected(token: string): (r: TokenOutcome)
    ensures r.Accepted? ==> Drawable(r.shape)
    ensures !StartsWith(token, "T-") ==> r == ParseToken(token)
  {
    if StartsWith(token, "T-") then ParseTriangleCorrected(token[2..]) else ParseToken(token)
  }

  /** `processQRCodeData`'s decisions: the batch cap first, then every token on its own. */
  function ParseDescriptor(data: string): (b: Batch)
    ensures b.TooManyShapes? <==> |Split(data, ShapeSeparator)| > MaxShapes
    ensures b.Processed? ==> |b.outcomes| == |Split(data, ShapeSeparator)| <= MaxShapes
  {
    var tokens := Split(data, ShapeSeparator);
    if |tokens| > MaxShapes then TooManyShapes
    else Processed(Decisions(tokens))
  }

  /** Every token decided on its own, in order. */
  function Decisions(tokens: seq<string>): (r: seq<TokenOutcome>)
    ensures |r| == |tokens|
  {
    seq(|tokens|, i requires 0 <= i < |tokens| => ParseToken(tokens[i]))
  }

  /** Deciding one more token appends its decision to those before it. */
  lemma DecisionsStep(tokens: seq<string>, i: nat)
    requires i < |tokens|
    ensures Decisions(tokens[..i + 1]) == Decisions(tokens[..i]) + [ParseToken(tokens[i])]
  {
    var longer, shorter := Decisions(tokens[..i + 1]), Decisions(tokens[..i]) + [ParseToken(tokens[i])];
    forall k | 0 <= k <= i ensures longer[k] == shorter[k] {
      assert tokens[..i + 1][k] == if k < i then tokens[..i][k] else tokens[i];
    }
  }

  // ---------------------------------------------------------------------------
  // The acceptance rules
  // ---------------------------------------------------------------------------

  /**
   * A one-side token is accepted exactly when its rest is an integer in [15, 85]; an
   * integer outside gets the range error and anything else the invalid-input error.
   */
  lemma RegularTokenRule(kind: RegularKind, text: string)
    ensures var r, n := ParseToken(Prefix(kind) + text), ParseInt(text);
      && (r == Rejected(InvalidRegularInput(kind)) <==> n.None?)
      && (r == Rejected(SideOutOfRange(kind)) <==> n.Some? && !InRange(n.value))
      && (r.Accepted? <==> n.Some? && InRange(n.value))
      && (r.Accepted? ==> r.shape == Regular(kind, n.value))
  {
    var token := Prefix(kind) + text;
    assert token[..2] == Prefix(kind) && token[2..] == text;
  }

  /** A one-side token written from an `int` is accepted exactly when it is in [15, 85]. */
  lemma RegularTokenOfInt(kind: RegularKind, n: int)
    requires IsInt(n)
    ensures ParseToken(Prefix(kind) + IntText(n)) ==
      if InRange(n) then Accepted(Regular(kind, n)) else Rejected(SideOutOfRange(kind))
  {
    ParseIntText(n);
    RegularTokenRule(kind, IntText(n));
  }

  /**
   * The range boundaries, for every one-side prefix: 15 and 85 pass, 14 and 86 do not;
   * a letter O is not a digit.
   */
  lemma RegularTokenBoundaries(kind: RegularKind)
    ensures ParseToken(Prefix(kind) + IntText(15)) == Accepted(Regular(kind, 15))
    ensures ParseToken(Prefix(kind) + IntText(85)) == Accepted(Regular(kind, 85))
    ensures ParseToken(Prefix(kind) + IntText(14)) == Rejected(SideOutOfRange(kind))
    ensures ParseToken(Prefix(kind) + IntText(86)) == Rejected(SideOutOfRange(kind))
    ensures ParseToken(Prefix(kind) + "4O") == Rejected(InvalidRegularInput(kind))
  {
    RegularTokenOfInt(kind, 15);
    RegularTokenOfInt(kind, 85);
    RegularTokenOfInt(kind, 14);
    RegularTokenOfInt(kind, 86);
    RegularTokenRule(kind, "4O");
    assert !IsDigit("4O"[1]);
  }

  /** The text `Integer.toString` writes for a non-negative number contains no `-`. */
  lemma NatTextHasNoMinus(n: nat)
    ensures SideSeparator !in NatText(n)
  {
  }

  lemma JoinThree(x: string, y: string, z: string, sep: string)
    ensures Join([x, y, z], sep) == x + sep + y + sep + z
  {
    assert [x, y, z][1..] == [y, z];
    assert [y, z][1..] == [z];
    assert Join([y, z], sep) == y + sep + z;
  }

  /** A token starting with `T-` goes to the triangle branch with the text after the prefix. */
  lemma TriangleTokenDispatch(text: string)
    ensures ParseToken("T-" + text) == ParseTriangle(text)
    ensures ParseTokenCorrected("T-" + text) == ParseTriangleCorrected(text)
  {
    var token := "T-" + text;
    assert token[..2] == "T-" && token[2..] == text;
  }

  /** Three non-negative `int` sides written out split back into their texts, which parse to the sides. */
  lemma TriangleTextParts(a: nat, b: nat, c: nat)
    requires a <= IntMax && b <= IntMax && c <= IntMax
    ensures var sides := Split(NatText(a) + "-" + NatText(b) + "-" + NatText(c), SideSeparator);
      |sides| == 3 && ParseInt(sides[0]) == Some(a) && ParseInt(sides[1]) == Some(b) && ParseInt(sides[2]) == Some(c)
  {
    var parts := [NatText(a), NatText(b), NatText(c)];
    NatTextHasNoMinus(a);
    NatTextHasNoMinus(b);
    NatTextHasNoMinus(c);
    JoinThree(NatText(a), NatText(b), NatText(c), "-");
    SplitOfJoin(parts, SideSeparator);
    ParseIntText(a);
    ParseIntText(b);
    ParseIntText(c);
  }

  /**
   * Three non-negative `int` sides written out are accepted exactly when they pass the
   * triangle test, whatever their range: the `int` test as written for `ParseTriangle`,
   * the exact one for the corrected parser. Otherwise they get the invalid-triangle error.
   */
  lemma TriangleSidesRule(a: nat, b: nat, c: nat)
    requires a <= IntMax && b <= IntMax && c <= IntMax
    ensures var text := NatText(a) + "-" + NatText(b) + "-" + NatText(c);
      ParseTriangle(text) ==
        if IsValidTriangleInt32(a, b, c) then Accepted(Triangle(a, b, c)) else Rejected(InvalidTriangle)
    ensures var text := NatText(a) + "-" + NatText(b) + "-" + NatText(c);
      ParseTriangleCorrected(text) ==
        if IsValidTriangle(a, b, c) then Accepted(Triangle(a, b, c)) else Rejected(InvalidTriangle)
  {
    var text := NatText(a) + "-" + NatText(b) + "-" + NatText(c);
    TriangleTextParts(a, b, c);
    var r := DecideTriangle(text, IsValidTriangleInt32);
    assert r == if IsValidTriangleInt32(a, b, c) then Accepted(Triangle(a, b, c)) else Rejected(InvalidTriangle);
    assert ParseTriangle(text) == r;
  }

  /** The same, for the whole `T-` token. */
  lemma TriangleTokenOfSides(a: nat, b: nat, c: nat)
    requires a <= IntMax && b <= IntMax && c <= IntMax
    ensures var token := "T-" + (NatText(a) + "-" + NatText(b) + "-" + NatText(c));
      ParseToken(token) ==
        if IsValidTriangleInt32(a, b, c) then Accepted(Triangle(a, b, c)) else Rejected(InvalidTriangle)
    ensures var token := "T-" + (NatText(a) + "-" + NatText(b) + "-" + NatText(c));
      ParseTokenCorrected(token) ==
        if IsValidTriangle(a, b, c) then Accepted(Triangle(a, b, c)) else Rejected(InvalidTriangle)
  {
    var text := NatText(a) + "-" + NatText(b) + "-" + NatText(c);
    TriangleSidesRule(a, b, c);
    TriangleTokenDispatch(text);
  }

  /** Triangle sides are not range-checked when the token is read: `T-90-90-90` is accepted. */
  lemma TriangleSidesNotRangeChecked()
    ensures ParseToken("T-90-90-90") == Accepted(Triangle(90, 90, 90))
    ensures !InRange(90)
  {
    var side := NatText(90);
    assert "T-" + (side + "-" + side + "-" + side) == "T-90-90-90" by {
      assert side == "90";
    }
    TriangleTokenOfSides(90, 90, 90);
    Int32TriangleOnNonNegative(90, 90, 90);
  }

  /**
   * The descriptor's tokens are exactly the `&`-separated pieces it was written from
   * (when the last of several is not empty): more than five are refused as a whole,
   * and otherwise each is decided on its own, in order.
   */
  lemma DescriptorOfTokens(tokens: seq<string>)
    requires |tokens| >= 1
    requires forall i :: 0 <= i < |tokens| ==> ShapeSeparator !in tokens[i]
    requires |tokens| >= 2 ==> tokens[|tokens| - 1] != ""
    ensures |tokens| > MaxShapes ==> ParseDescriptor(Join(tokens, "&")) == TooManyShapes
    ensures |tokens| <= MaxShapes ==>
      var b := ParseDescriptor(Join(tokens, "&"));
      b.Processed? && |b.outcomes| == |tokens| &&
      forall i :: 0 <= i < |tokens| ==> b.outcomes[i] == ParseToken(tokens[i])
  {
    SplitOfJoin(tokens, ShapeSeparator);
  }

  /** A descriptor of three tokens is decided token by token. */
  lemma DescriptorOfThree(x: string, y: string, z: string)
    requires ShapeSeparator !in x && ShapeSeparator !in y && ShapeSeparator !in z && z != ""
    ensures ParseDescriptor(x + "&" + y + "&" + z) == Processed([ParseToken(x), ParseToken(y), ParseToken(z)])
  {
    JoinThree(x, y, z, "&");
    DescriptorOfTokens([x, y, z]);
  }

  /** A token with none of the four prefixes is a format error. */
  lemma UnknownPrefixRejected(token: string)
    requires |token| >= 2 && token[0] != 'S' && token[0] != 'T' && token[0] != 'H' && token[0] != 'P'
    ensures ParseToken(token) == Rejected(InvalidShapeFormat)
  {
    assert token[..2][0] == token[0];
  }

  /** One bad token in the middle does not stop the tokens around it. */
  lemma BadTokenIsolated()
    ensures ParseDescriptor("S-40&X-99&H-30") ==
      Processed([Accepted(Regular(SquareKind, 40)), Rejected(InvalidShapeFormat), Accepted(Regular(HexagonKind, 30))])
  {
    var square, bad, hexagon := Prefix(SquareKind) + IntText(40), "X-99", Prefix(HexagonKind) + IntText(30);
    assert square + "&" + bad + "&" + hexagon == "S-40&X-99&H-30" by {
      assert square == "S-40" && hexagon == "H-30";
    }
    DescriptorOfThree(square, bad, hexagon);
    RegularTokenOfInt(SquareKind, 40);
    RegularTokenOfInt(HexagonKind, 30);
    UnknownPrefixRejected(bad);
  }

  /** Six tokens are refused together, however well-formed each of them is. */
  lemma SixTokensRefused(t: string)
    requires ShapeSeparator !in t && t != ""
    ensures ParseDescriptor(t + "&" + t + "&" + t + "&" + t + "&" + t + "&" + t) == TooManyShapes
  {
    var tokens := [t, t, t, t, t, t];
    assert Join(tokens, "&") == t + "&" + t + "&" + t + "&" + t + "&" + t + "&" + t by {
      assert tokens[1..][1..][1..][1..][1..] == [t];
      assert Join(tokens[1..][1..][1..][1..], "&") == t + "&" + t;
      assert Join(tokens[1..][1..][1..], "&") == t + "&" + t + "&" + t;
      assert Join(tokens[1..][1..], "&") == t + "&" + t + "&" + t + "&" + t;
      assert Join(tokens[1..], "&") == t + "&" + t + "&" + t + "&" + t + "&" + t;
    }
    DescriptorOfTokens(tokens);
  }

  /**
   * Java's `split` edge cases: a trailing `&` adds no token, an empty descriptor is one
   * empty token (a format error), and a lone `&` is no token at all.
   */
  lemma SplitEdgeCases(token: string)
    requires ShapeSeparator !in token && token != ""
    ensures ParseDescriptor(token + "&") == Processed([ParseToken(token)])
    ensures ParseDescriptor("") == Processed([Rejected(InvalidShapeFormat)])
    ensures ParseDescriptor("&") == Processed([])
  {
    TrailingSeparatorDropped(token, ShapeSeparator);
    assert ParseDescriptor("") == Processed([Rejected(InvalidShapeFormat)]) by {
      assert Split("", ShapeSeparator) == [""];
    }
    assert ParseDescriptor("&") == Processed([]) by {
      assert Pieces("&", ShapeSeparator) == ["", ""];
      assert Split("&", ShapeSeparator) == [];
    }
  }

  /**
   * The descriptors the `int` overflow of the triangle test matters for: every
   * equilateral triangle whose doubled side exceeds the `int` range is rejected as
   * not a triangle, while the corrected parser accepts it.
   */
  lemma LargeEquilateralTriangleToken(n: int)
    requires IntMax < n + n && n <= IntMax
    ensures var side := IntText(n);
      ParseToken("T-" + side + "-" + side + "-" + side) == Rejected(InvalidTriangle)
    ensures var side := IntText(n);
      ParseTokenCorrected("T-" + side + "-" + side + "-" + side) == Accepted(Triangle(n, n, n))
  {
    var side := NatText(n);
    assert "T-" + side + "-" + side + "-" + side == "T-" + (side + "-" + side + "-" + side);
    TriangleTokenOfSides(n, n, n);
    Int32TriangleRejectsLargeEquilateral(n);
  }

  /**
   * The overflow only ever turns an accepted triangle into the invalid-triangle error,
   * and only for a triangle with a side longer than half the `int` range: wherever the
   * parser as written accepts, the corrected one accepts the same shape.
   */
  lemma CorrectedParserAgrees(token: string)
    ensures ParseToken(token).Accepted? ==> ParseTokenCorrected(token) == ParseToken(token)
    ensures ParseToken(token) != ParseTokenCorrected(token) ==>
      && ParseToken(token) == Rejected(InvalidTriangle)
      && ParseTokenCorrected(token).Accepted?
      && var t := ParseTokenCorrected(token).shape;
         t.Triangle? && IntMax < 2 * Max(t.a, Max(t.b, t.c))
  {
    if StartsWith(token, "T-") {
      var text := token[2..];
      assert !StartsWith(token, "S-");
      assert ParseToken(token) == ParseTriangle(text);
      var sides := Split(text, SideSeparator);
      var asWritten, corrected := DecideTriangle(text, IsValidTriangleInt32), DecideTriangle(text, IsValidTriangle);
      assert ParseTriangle(text) == asWritten;
      if |sides| == 3 && ParseInt(sides[0]).Some? && ParseInt(sides[1]).Some? && ParseInt(sides[2]).Some? {
        var a, b, c := ParseInt(sides[0]).value, ParseInt(sides[1]).value, ParseInt(sides[2]).value;
        assert 0 <= a && 0 <= b && 0 <= c by {
          assert sides[0][0] in sides[0] && sides[1][0] in sides[1] && sides[2][0] in sides[2];
        }
        Int32TriangleOnNonNegative(a, b, c);
      }
    }
  }
}
