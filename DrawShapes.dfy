/**
 * The drawing routines and the descriptor loop. Each `make*` routine issues its motion
 * commands into a sequence it returns and reports the finished shape to the session
 * logger; `ProcessQRCodeData` decides every token of a descriptor and calls the
 * routine of each accepted one, in order.
 *
 * The wall clock is not modelled: the time a routine reports (`currentTimeMillis()`
 * after minus before) is its parameter `timeTaken`, and the batch takes a function
 * `elapsed` giving that time for the token at each index. `Math.acos`/`Math.toDegrees`
 * and `Math.sqrt` are the parameters `angleOpposite` and `sqrt` (see `Geometry` and
 * `Logger`).
 */
module DrawShapes {
  import opened JavaInt
  import opened JavaText
  import opened Kinematics
  import opened Geometry
  import opened Motion
  import opened Descriptor
  import opened Logger

  /** How many sides each one-side shape has. */
  function SideCount(kind: RegularKind): nat {
    match kind
    case SquareKind => 4
    case HexagonKind => 6
    case PentagonKind => 5
  }

  /** The exterior angle turned after each side, in degrees. */
  function ExteriorAngle(kind: RegularKind): real {
    match kind
    case SquareKind => 90.0
    case HexagonKind => 60.0
    case PentagonKind => 72.0
  }

  /** The name the routine logs the shape under. */
  function ShapeName(kind: RegularKind): string {
    match kind
    case SquareKind => "Square"
    case HexagonKind => "Hexagon"
    case PentagonKind => "Pentagon"
  }

  /**
   * The turns of a one-side shape add up to a full turn, up to the truncation of each
   * turn's time: `n` turns of `calculateTurnTime(360 / n)` last between 4692 and 4695 ms,
   * against 360 / 115 * 1500 = 4695.65 ms for a full turn.
   */
  lemma RegularTurnsMakeFullTurn(kind: RegularKind, side: int)
    ensures InRange(side) ==>
      var turning := TimeIn(RegularPlan(SideCount(kind), ExteriorAngle(kind), side), IsTurn);
      && turning == SideCount(kind) * TurnTime(ExteriorAngle(kind), TurnPower as real)
      && turning as real <= 360.0 * TurnCalibrationMs / TurnCalibrationDegrees < turning as real + SideCount(kind) as real
  {
    RegularPlanTotals(SideCount(kind), ExteriorAngle(kind), side);
    RegularTurnTimes();
    TurnTimeIgnoresSpeed(ExteriorAngle(kind), TurnPower as real, 58.0);
  }

  // ---------------------------------------------------------------------------
  // What each routine does, as values
  // ---------------------------------------------------------------------------

  /**
   * What `makeSquare`, `makePentagon` and `makeHexagon` log: all three go through the
   * square overload of `logShape`, so the area is `side * side` for every one of them.
   */
  function RegularLog(kind: RegularKind, side: int, timeTaken: int): seq<ShapeRecord> {
    if InRange(side) then [SquareRecord(ShapeName(kind), side, timeTaken)] else []
  }

  /**
   * What `makeTriangle` logs: the sides as given (not reordered), the exterior angles
   * at the reordered sides, and only once all three sides have been driven.
   */
  function TriangleLog(a: int, b: int, c: int, timeTaken: int,
                       angleOpposite: (int, int, int) -> real, sqrt: real -> real): seq<ShapeRecord>
  {
    var r := OrderSides(a, b, c);
    var e := TriangleExteriorAngles(r, angleOpposite);
    if LeadingInRange(r) == 3 then [TriangleRecord("Triangle", a, b, c, e.atFirst, e.atSecond, e.atThird, timeTaken, sqrt)]
    else []
  }

  function ShapePlan(s: Shape, angleOpposite: (int, int, int) -> real): seq<MotionCommand> {
    match s
    case Regular(kind, side) => RegularPlan(SideCount(kind), ExteriorAngle(kind), side)
    case Triangle(a, b, c) => TrianglePlan(a, b, c, angleOpposite)
  }

  function ShapeLog(s: Shape, timeTaken: int, angleOpposite: (int, int, int) -> real,
                    sqrt: real -> real): seq<ShapeRecord>
  {
    match s
    case Regular(kind, side) => RegularLog(kind, side, timeTaken)
    case Triangle(a, b, c) => TriangleLog(a, b, c, timeTaken, angleOpposite, sqrt)
  }

  /** What one token issues: its shape's plan if accepted, nothing if rejected. */
  function OutcomePlan(o: TokenOutcome, angleOpposite: (int, int, int) -> real): seq<MotionCommand> {
    if o.Accepted? then ShapePlan(o.shape, angleOpposite) else []
  }

  /** What one token logs: its shape's record if accepted and completed, nothing if rejected. */
  function OutcomeLog(o: TokenOutcome, timeTaken: int, angleOpposite: (int, int, int) -> real,
                      sqrt: real -> real): seq<ShapeRecord>
  {
    if o.Accepted? then ShapeLog(o.shape, timeTaken, angleOpposite, sqrt) else []
  }

  /** `piece(x)` of every element of `xs`, one after the other. */
  function Flatten<A, B>(xs: seq<A>, piece: A -> seq<B>): seq<B> {
    if xs == [] then [] else Flatten(xs[..|xs| - 1], piece) + piece(xs[|xs| - 1])
  }

  /** `piece(i, xs[i])` of every element of `xs`, one after the other. */
  function FlattenIndexed<A, B>(xs: seq<A>, piece: (nat, A) -> seq<B>): seq<B> {
    if xs == [] then [] else FlattenIndexed(xs[..|xs| - 1], piece) + piece(|xs| - 1, xs[|xs| - 1])
  }

  /** The commands of a run of tokens: each token's, in order. */
  function BatchPlan(outcomes: seq<TokenOutcome>, angleOpposite: (int, int, int) -> real): seq<MotionCommand> {
    Flatten(outcomes, o => OutcomePlan(o, angleOpposite))
  }

  /** The records a run of tokens logs, in order; the token at index `i` takes `elapsed(i)`. */
  function BatchLog(outcomes: seq<TokenOutcome>, elapsed: nat -> int,
                    angleOpposite: (int, int, int) -> real, sqrt: real -> real): seq<ShapeRecord>
  {
    FlattenIndexed(outcomes, (i, o) => OutcomeLog(o, elapsed(i), angleOpposite, sqrt))
  }

  // ---------------------------------------------------------------------------
  // Properties of the plans and logs
  // ---------------------------------------------------------------------------

  /**
   * An accepted one-side token always completes: it issues `n` drive-settle-turn-settle
   * blocks (4, 5 or 6) and logs exactly one record of area `side * side`.
   */
  lemma AcceptedRegularCompletes(kind: RegularKind, side: int, timeTaken: int)
    requires Drawable(Regular(kind, side))
    ensures RegularLog(kind, side, timeTaken) == [SquareRecord(ShapeName(kind), side, timeTaken)]
    ensures SquareRecord(ShapeName(kind), side, timeTaken).area == (side * side) as real
    ensures var plan := RegularPlan(SideCount(kind), ExteriorAngle(kind), side);
      |plan| == 4 * SideCount(kind) &&
      forall i :: 0 <= i < |plan| ==>
        plan[i] == SideSteps(TimeForDistance(side), TurnTime(ExteriorAngle(kind), TurnPower as real))[i % 4]
  {
    assert SquareRecord(ShapeName(kind), side, timeTaken).area == (side * side) as real by {
      assert 0 <= side * side <= 85 * side <= 85 * 85;
      assert WrapInt(side * side) == side * side;
    }
    assert RegularLog(kind, side, timeTaken) == [SquareRecord(ShapeName(kind), side, timeTaken)];
    RegularPlanShape(SideCount(kind), ExteriorAngle(kind), side);
  }

  /**
   * A triangle is logged exactly when it is driven to the end; a triangle whose sides
   * are all in range always is, with all twelve commands.
   */
  lemma TriangleLoggedIffComplete(a: int, b: int, c: int, timeTaken: int,
                                  angleOpposite: (int, int, int) -> real, sqrt: real -> real)
    ensures |TriangleLog(a, b, c, timeTaken, angleOpposite, sqrt)| == 1 <==> |TrianglePlan(a, b, c, angleOpposite)| == 12
    ensures |TriangleLog(a, b, c, timeTaken, angleOpposite, sqrt)| == 0 <==> |TrianglePlan(a, b, c, angleOpposite)| < 12
    ensures InRange(a) && InRange(b) && InRange(c) ==>
      |TriangleLog(a, b, c, timeTaken, angleOpposite, sqrt)| == 1 &&
      TrianglePlan(a, b, c, angleOpposite) == TriangleFullPlan(a, b, c, angleOpposite)
  {
    if InRange(a) && InRange(b) && InRange(c) {
      TriangleInRangeCompletes(a, b, c, angleOpposite);
    }
  }

  lemma FlattenStep<A, B>(xs: seq<A>, x: A, piece: A -> seq<B>)
    ensures Flatten(xs + [x], piece) == Flatten(xs, piece) + piece(x)
  {
    assert (xs + [x])[..|xs|] == xs;
  }

  lemma FlattenIndexedStep<A, B>(xs: seq<A>, x: A, piece: (nat, A) -> seq<B>)
    ensures FlattenIndexed(xs + [x], piece) == FlattenIndexed(xs, piece) + piece(|xs|, x)
  {
    assert (xs + [x])[..|xs|] == xs;
  }

  lemma {:induction false} FlattenConcat<A, B>(xs: seq<A>, ys: seq<A>, piece: A -> seq<B>)
    ensures Flatten(xs + ys, piece) == Flatten(xs, piece) + Flatten(ys, piece)
  {
    if ys == [] {
      assert xs + ys == xs;
    } else {
      var ys', y := ys[..|ys| - 1], ys[|ys| - 1];
      calc {
        Flatten(xs + ys, piece);
        { assert xs + ys == (xs + ys') + [y]; }
        Flatten((xs + ys') + [y], piece);
        { FlattenStep(xs + ys', y, piece); }
        Flatten(xs + ys', piece) + piece(y);
        { FlattenConcat(xs, ys', piece); }
        Flatten(xs, piece) + Flatten(ys', piece) + piece(y);
        { assert ys == ys' + [y]; FlattenStep(ys', y, piece); }
        Flatten(xs, piece) + Flatten(ys, piece);
      }
    }
  }

  lemma {:induction false} FlattenIndexedBound<A, B>(xs: seq<A>, piece: (nat, A) -> seq<B>)
    requires forall i: nat, x: A :: |piece(i, x)| <= 1
    ensures |FlattenIndexed(xs, piece)| <= |xs|
  {
    if xs != [] {
      FlattenIndexedBound(xs[..|xs| - 1], piece);
    }
  }

  /** One more token extends the batch's commands and records by that token's own. */
  lemma BatchStep(outcomes: seq<TokenOutcome>, o: TokenOutcome, elapsed: nat -> int,
                  angleOpposite: (int, int, int) -> real, sqrt: real -> real)
    ensures BatchPlan(outcomes + [o], angleOpposite) == BatchPlan(outcomes, angleOpposite) + OutcomePlan(o, angleOpposite)
    ensures BatchLog(outcomes + [o], elapsed, angleOpposite, sqrt) ==
      BatchLog(outcomes, elapsed, angleOpposite, sqrt) + OutcomeLog(o, elapsed(|outcomes|), angleOpposite, sqrt)
  {
    FlattenStep(outcomes, o, o => OutcomePlan(o, angleOpposite));
    FlattenIndexedStep(outcomes, o, (i, o) => OutcomeLog(o, elapsed(i), angleOpposite, sqrt));
  }

  /** A history holding a batch's records, extended by one more token's records. */
  lemma HistoryStep(start: seq<ShapeRecord>, outcomes: seq<TokenOutcome>, o: TokenOutcome, elapsed: nat -> int,
                    angleOpposite: (int, int, int) -> real, sqrt: real -> real)
    ensures start + BatchLog(outcomes, elapsed, angleOpposite, sqrt) + OutcomeLog(o, elapsed(|outcomes|), angleOpposite, sqrt)
      == start + BatchLog(outcomes + [o], elapsed, angleOpposite, sqrt)
  {
    BatchStep(outcomes, o, elapsed, angleOpposite, sqrt);
  }

  /** The plan of a batch is the plans of its parts, one after the other. */
  lemma BatchPlanConcat(xs: seq<TokenOutcome>, ys: seq<TokenOutcome>, angleOpposite: (int, int, int) -> real)
    ensures BatchPlan(xs + ys, angleOpposite) == BatchPlan(xs, angleOpposite) + BatchPlan(ys, angleOpposite)
  {
    FlattenConcat(xs, ys, o => OutcomePlan(o, angleOpposite));
  }

  /**
   * Tokens are independent: a rejected token issues nothing and leaves the commands
   * of the tokens before and after it exactly as they would be without it.
   */
  lemma RejectedTokenIssuesNothing(xs: seq<TokenOutcome>, e: ParseError, ys: seq<TokenOutcome>,
                                   angleOpposite: (int, int, int) -> real)
    ensures BatchPlan(xs + [Rejected(e)] + ys, angleOpposite) == BatchPlan(xs + ys, angleOpposite)
  {
    var piece := o => OutcomePlan(o, angleOpposite);
    FlattenConcat(xs + [Rejected(e)], ys, piece);
    FlattenStep(xs, Rejected(e), piece);
    FlattenConcat(xs, ys, piece);
  }

  /** Every token logs at most one record, so a batch logs at most one record per token. */
  lemma BatchLogBound(outcomes: seq<TokenOutcome>, elapsed: nat -> int,
                      angleOpposite: (int, int, int) -> real, sqrt: real -> real)
    ensures |BatchLog(outcomes, elapsed, angleOpposite, sqrt)| <= |outcomes|
  {
    var piece := (i, o) => OutcomeLog(o, elapsed(i), angleOpposite, sqrt);
    forall i: nat, o: TokenOutcome ensures |piece(i, o)| <= 1 {
      assert piece(i, o) == OutcomeLog(o, elapsed(i), angleOpposite, sqrt);
    }
    FlattenIndexedBound(outcomes, piece);
  }

  /**
   * The `int` overflow of the triangle test changes only which message a token gets:
   * the parser as written and the corrected one issue the same commands and log the
   * same shapes for every token, because a triangle the overflow rejects has a side
   * far outside [15, 85] and is never driven.
   */
  lemma OverflowOnlyChangesMessage(token: string, timeTaken: int,
                                   angleOpposite: (int, int, int) -> real, sqrt: real -> real)
    ensures OutcomePlan(ParseToken(token), angleOpposite) == OutcomePlan(ParseTokenCorrected(token), angleOpposite)
    ensures OutcomeLog(ParseToken(token), timeTaken, angleOpposite, sqrt) ==
      OutcomeLog(ParseTokenCorrected(token), timeTaken, angleOpposite, sqrt)
  {
    CorrectedParserAgrees(token);
    var corrected := ParseTokenCorrected(token);
    if ParseToken(token) != corrected {
      var t := corrected.shape;
      OrderSidesProperties(t.a, t.b, t.c);
      var r := OrderSides(t.a, t.b, t.c);
      assert r.first == Max(t.a, Max(t.b, t.c)) by {
        assert r.first in multiset{t.a, t.b, t.c};
      }
      assert LeadingInRange(r) == 0;
      assert TrianglePlan(t.a, t.b, t.c, angleOpposite) == [];
    }
  }

  /** A descriptor that is processed logs at most `MaxShapes` shapes. */
  lemma DescriptorLogsAtMostFive(data: string, elapsed: nat -> int,
                                 angleOpposite: (int, int, int) -> real, sqrt: real -> real)
    ensures ParseDescriptor(data).Processed? ==>
      |BatchLog(ParseDescriptor(data).outcomes, elapsed, angleOpposite, sqrt)| <= MaxShapes
  {
    if ParseDescriptor(data).Processed? {
      BatchLogBound(ParseDescriptor(data).outcomes, elapsed, angleOpposite, sqrt);
    }
  }

  // ---------------------------------------------------------------------------
  // The routines
  // ---------------------------------------------------------------------------

  /** The `for` loop of the one-side routines: `sides` times drive, settle, turn, settle. */
  method DriveSides(sides: nat, movementTime: int, angle: real) returns (cmds: seq<MotionCommand>)
    ensures cmds == Repeat(sides, SideSteps(movementTime, TurnTime(angle, TurnPower as real)))
    ensures |cmds| == 4 * sides
    ensures forall i :: 0 <= i < |cmds| && i % 4 == 0 ==> cmds[i] == Move(DrivePower, DrivePower, WrapInt(movementTime))
    ensures forall i :: 0 <= i < |cmds| && i % 2 == 1 ==> cmds[i] == Sleep(SettleMs)
  {
    cmds := [];
    for i := 0 to sides
      invariant cmds == Repeat(i, SideSteps(movementTime, TurnTime(angle, TurnPower as real)))
    {
      cmds := cmds + [Move(DrivePower, DrivePower, WrapInt(movementTime)), Sleep(SettleMs)];
      var turnTime := TurnTime(angle, TurnPower as real);
      cmds := cmds + [Move(0, TurnPower, WrapInt(turnTime)), Sleep(SettleMs)];
    }
    RepeatAt(sides, SideSteps(movementTime, TurnTime(angle, TurnPower as real)));
  }

  /** The body the three one-side routines share. */
  method DrawRegular(kind: RegularKind, sideLength: int, logger: SwiftBotLogger, timeTaken: int)
    returns (cmds: seq<MotionCommand>)
    requires logger.Valid()
    modifies logger
    ensures logger.Valid()
    ensures cmds == RegularPlan(SideCount(kind), ExteriorAngle(kind), sideLength)
    ensures logger.history == old(logger.history) + RegularLog(kind, sideLength, timeTaken)
    ensures !InRange(sideLength) ==> unchanged(logger)
  {
    var movementTime := TimeForDistance(sideLength);
    if movementTime == NoTime {
      return [];
    }
    cmds := DriveSides(SideCount(kind), movementTime, ExteriorAngle(kind));
    logger.LogShape(ShapeName(kind), sideLength, timeTaken);
  }

  /** `makeSquare`: four sides, 90-degree turns, logged as a square. */
  method MakeSquare(sideLength: int, logger: SwiftBotLogger, timeTaken: int) returns (cmds: seq<MotionCommand>)
    requires logger.Valid()
    modifies logger
    ensures logger.Valid()
    ensures cmds == RegularPlan(4, 90.0, sideLength)
    ensures InRange(sideLength) ==> logger.history == old(logger.history) + [SquareRecord("Square", sideLength, timeTaken)]
    ensures !InRange(sideLength) ==> unchanged(logger)
  {
    cmds := DrawRegular(SquareKind, sideLength, logger, timeTaken);
  }

  /** `makePentagon`: five sides, 72-degree turns, logged through the square overload. */
  method MakePentagon(sideLength: int, logger: SwiftBotLogger, timeTaken: int) returns (cmds: seq<MotionCommand>)
    requires logger.Valid()
    modifies logger
    ensures logger.Valid()
    ensures cmds == RegularPlan(5, 72.0, sideLength)
    ensures InRange(sideLength) ==> logger.history == old(logger.history) + [SquareRecord("Pentagon", sideLength, timeTaken)]
    ensures !InRange(sideLength) ==> unchanged(logger)
  {
    cmds := DrawRegular(PentagonKind, sideLength, logger, timeTaken);
  }

  /** `makeHexagon`: six sides, 60-degree turns, logged through the square overload. */
  method MakeHexagon(sideLength: int, logger: SwiftBotLogger, timeTaken: int) returns (cmds: seq<MotionCommand>)
    requires logger.Valid()
    modifies logger
    ensures logger.Valid()
    ensures cmds == RegularPlan(6, 60.0, sideLength)
    ensures InRange(sideLength) ==> logger.history == old(logger.history) + [SquareRecord("Hexagon", sideLength, timeTaken)]
    ensures !InRange(sideLength) ==> unchanged(logger)
  {
    cmds := DrawRegular(HexagonKind, sideLength, logger, timeTaken);
  }

  /**
   * The motion part of `makeTriangle`: reorder the sides longest first, then drive each
   * side and turn, stopping at the first side out of range. `completed` says whether
   * all three sides were driven.
   */
  method DriveTriangle(sideA: int, sideB: int, sideC: int, angleOpposite: (int, int, int) -> real)
    returns (cmds: seq<MotionCommand>, completed: bool)
    ensures cmds == TrianglePlan(sideA, sideB, sideC, angleOpposite)
    ensures completed <==> LeadingInRange(OrderSides(sideA, sideB, sideC)) == 3
  {
    var order := OrderSides(sideA, sideB, sideC);
    var firstSide, secondSide, thirdSide := order.first, order.second, order.third;
    var exterior := TriangleExteriorAngles(order, angleOpposite);
    ghost var full := TriangleFullPlan(sideA, sideB, sideC, angleOpposite);

    cmds := [];
    completed := false;
    var movementTimeA := TimeForDistance(firstSide);
    if movementTimeA == NoTime {
      assert LeadingInRange(order) == 0;
      return;
    }
    cmds := cmds + [Move(DrivePower, DrivePower, WrapInt(movementTimeA)), Sleep(SettleMs)];
    cmds := cmds + [Move(0, TurnPower, FirstTriangleTurnMs), Sleep(SettleMs)];
    assert cmds == full[..4] by {
      TriangleFullPlanBlocks(sideA, sideB, sideC, angleOpposite);
      assert WrapInt(FirstTriangleTurnMs) == FirstTriangleTurnMs;
    }

    var movementTimeB := TimeForDistance(secondSide);
    if movementTimeB == NoTime {
      assert LeadingInRange(order) == 1;
      return;
    }
    ghost var before := cmds;
    cmds := cmds + [Move(DrivePower, DrivePower, WrapInt(movementTimeB)), Sleep(SettleMs)];
    var turnTimeB := TurnTime(exterior.atSecond, TurnPower as real);
    cmds := cmds + [Move(0, TurnPower, WrapInt(turnTimeB)), Sleep(SettleMs)];
    assert cmds == full[..8] by {
      TriangleFullPlanBlocks(sideA, sideB, sideC, angleOpposite);
      assert cmds == before + SideSteps(movementTimeB, turnTimeB);
    }

    var movementTimeC := TimeForDistance(thirdSide);
    if movementTimeC == NoTime {
      assert LeadingInRange(order) == 2;
      return;
    }
    before := cmds;
    cmds := cmds + [Move(DrivePower, DrivePower, WrapInt(movementTimeC)), Sleep(SettleMs)];
    var turnTimeC := TurnTime(exterior.atThird, TurnPower as real);
    cmds := cmds + [Move(0, TurnPower, WrapInt(turnTimeC)), Sleep(SettleMs)];
    assert cmds == full by {
      TriangleFullPlanBlocks(sideA, sideB, sideC, angleOpposite);
      assert cmds == before + SideSteps(movementTimeC, turnTimeC);
    }
    assert LeadingInRange(order) == 3 && full[..12] == full;
    completed := true;
  }

  /**
   * `makeTriangle`: drive the triangle; log it, with the sides as given and the exterior
   * angles at the reordered sides, only once all three sides are driven.
   */
  method MakeTriangle(sideA: int, sideB: int, sideC: int, logger: SwiftBotLogger, timeTaken: int,
                      angleOpposite: (int, int, int) -> real, sqrt: real -> real)
    returns (cmds: seq<MotionCommand>)
    requires logger.Valid()
    modifies logger
    ensures logger.Valid()
    ensures cmds == TrianglePlan(sideA, sideB, sideC, angleOpposite)
    ensures logger.history == old(logger.history) + TriangleLog(sideA, sideB, sideC, timeTaken, angleOpposite, sqrt)
    ensures LeadingInRange(OrderSides(sideA, sideB, sideC)) < 3 ==> unchanged(logger)
  {
    var completed;
    cmds, completed := DriveTriangle(sideA, sideB, sideC, angleOpposite);
    if !completed {
      return;
    }
    var exterior := TriangleExteriorAngles(OrderSides(sideA, sideB, sideC), angleOpposite);
    logger.LogTriangleShape("Triangle", sideA, sideB, sideC, exterior.atFirst, exterior.atSecond, exterior.atThird,
                            timeTaken, sqrt);
  }

  /** The routine an accepted token calls. */
  method DrawShape(shape: Shape, logger: SwiftBotLogger, timeTaken: int,
                   angleOpposite: (int, int, int) -> real, sqrt: real -> real)
    returns (cmds: seq<MotionCommand>)
    requires logger.Valid()
    modifies logger
    ensures logger.Valid()
    ensures cmds == ShapePlan(shape, angleOpposite)
    ensures logger.history == old(logger.history) + ShapeLog(shape, timeTaken, angleOpposite, sqrt)
  {
    match shape {
      case Regular(kind, side) =>
        match kind {
          case SquareKind => cmds := MakeSquare(side, logger, timeTaken);
          case HexagonKind => cmds := MakeHexagon(side, logger, timeTaken);
          case PentagonKind => cmds := MakePentagon(side, logger, timeTaken);
        }
      case Triangle(a, b, c) => cmds := MakeTriangle(a, b, c, logger, timeTaken, angleOpposite, sqrt);
    }
  }

  /**
   * The body of `processQRCodeData`'s loop for one token: decide it, and call the
   * routine of an accepted shape.
   */
  method HandleToken(token: string, logger: SwiftBotLogger, timeTaken: int,
                     angleOpposite: (int, int, int) -> real, sqrt: real -> real)
    returns (outcome: TokenOutcome, issued: seq<MotionCommand>)
    requires logger.Valid()
    modifies logger
    ensures logger.Valid()
    ensures outcome == ParseToken(token)
    ensures issued == OutcomePlan(outcome, angleOpposite)
    ensures logger.history == old(logger.history) + OutcomeLog(outcome, timeTaken, angleOpposite, sqrt)
  {
    outcome := ParseToken(token);
    issued := [];
    if outcome.Accepted? {
      issued := DrawShape(outcome.shape, logger, timeTaken, angleOpposite, sqrt);
    }
  }

  /**
   * The loop of `processQRCodeData`: each token in turn is decided and, when accepted,
   * drawn, with the shape's elapsed time taken from the clock at its position.
   */
  method ProcessTokens(shapes: seq<string>, logger: SwiftBotLogger, elapsed: nat -> int,
                       angleOpposite: (int, int, int) -> real, sqrt: real -> real)
    returns (outcomes: seq<TokenOutcome>, cmds: seq<MotionCommand>)
    requires logger.Valid()
    modifies logger
    ensures logger.Valid()
    ensures outcomes == Decisions(shapes)
    ensures cmds == BatchPlan(outcomes, angleOpposite)
    ensures logger.history == old(logger.history) + BatchLog(outcomes, elapsed, angleOpposite, sqrt)
  {
    outcomes := [];
    cmds := [];
    for i := 0 to |shapes|
      invariant logger.Valid()
      invariant outcomes == Decisions(shapes[..i])
      invariant cmds == BatchPlan(outcomes, angleOpposite)
      invariant logger.history == old(logger.history) + BatchLog(outcomes, elapsed, angleOpposite, sqrt)
    {
      var outcome, issued := HandleToken(shapes[i], logger, elapsed(i), angleOpposite, sqrt);
      BatchStep(outcomes, outcome, elapsed, angleOpposite, sqrt);
      HistoryStep(old(logger.history), outcomes, outcome, elapsed, angleOpposite, sqrt);
      DecisionsStep(shapes, i);
      cmds := cmds + issued;
      outcomes := outcomes + [outcome];
    }
    assert shapes[..|shapes|] == shapes;
  }

  /**
   * `processQRCodeData`: split the descriptor on `&`; refuse more than five tokens with
   * nothing drawn; otherwise decide each token in order and draw the accepted ones.
   */
  method ProcessQRCodeData(data: string, logger: SwiftBotLogger, elapsed: nat -> int,
                           angleOpposite: (int, int, int) -> real, sqrt: real -> real)
    returns (batch: Batch, cmds: seq<MotionCommand>)
    requires logger.Valid()
    modifies logger
    ensures logger.Valid()
    ensures batch == ParseDescriptor(data)
    ensures batch.TooManyShapes? ==> cmds == [] && unchanged(logger)
    ensures batch.Processed? ==>
      cmds == BatchPlan(batch.outcomes, angleOpposite) &&
      logger.history == old(logger.history) + BatchLog(batch.outcomes, elapsed, angleOpposite, sqrt)
  {
    var shapes := Split(data, ShapeSeparator);
    if |shapes| > MaxShapes {
      return TooManyShapes, [];
    }
    var outcomes;
    outcomes, cmds := ProcessTokens(shapes, logger, elapsed, angleOpposite, sqrt);
    batch := Processed(outcomes);
  }
}
