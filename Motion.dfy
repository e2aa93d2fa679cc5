/**
 * The commands the shape routines issue to the robot, as data. `swiftBot.move(l, r, ms)`
 * becomes `Move(l, r, ms)` and `Thread.sleep(ms)` becomes `Sleep(ms)`; a routine's
 * effect on the robot is the sequence of commands it issues, in order.
 */
module Motion {
  import opened JavaInt
  import opened Kinematics
  import opened Geometry

  datatype MotionCommand = Move(left: int, right: int, ms: int) | Sleep(ms: int)

  /** Wheel power (percent) for driving straight: both wheels at 40. */
  const DrivePower: int := 40
  /** Wheel power (percent) of the right wheel when turning in place. */
  const TurnPower: int := 58
  /** The settle pause after every drive and every turn. */
  const SettleMs: int := 500
  /** The fixed duration of the triangle's first turn, used instead of its exterior angle. */
  const FirstTriangleTurnMs: int := 1200

  /**
   * One side of a path: drive, settle, turn, settle. The durations are Java `long`s
   * passed through an `(int)` cast.
   */
  function SideSteps(driveMs: int, turnMs: int): (s: seq<MotionCommand>)
    ensures |s| == 4
  {
    [Move(DrivePower, DrivePower, WrapInt(driveMs)), Sleep(SettleMs),
     Move(0, TurnPower, WrapInt(turnMs)), Sleep(SettleMs)]
  }

  /** `block` issued `n` times in a row. */
  function Repeat(n: nat, block: seq<MotionCommand>): seq<MotionCommand> {
    if n == 0 then [] else Repeat(n - 1, block) + block
  }

  /** Command `i` of `n` repetitions of a four-command block is the block's command `i % 4`. */
  lemma {:induction false} RepeatAt(n: nat, block: seq<MotionCommand>)
    requires |block| == 4
    ensures |Repeat(n, block)| == 4 * n
    ensures forall i :: 0 <= i < 4 * n ==> Repeat(n, block)[i] == block[i % 4]
  {
    if n > 0 {
      RepeatAt(n - 1, block);
      var r := Repeat(n, block);
      forall i | 0 <= i < 4 * n ensures r[i] == block[i % 4] {
        if i >= 4 * (n - 1) {
          assert i % 4 == i - 4 * (n - 1);
        }
      }
    }
  }

  /**
   * What `makeSquare`, `makePentagon` and `makeHexagon` issue for side length `side`:
   * nothing when the side is out of range, otherwise one drive-settle-turn-settle
   * block per side.
   */
  function RegularPlan(sides: nat, angle: real, side: int): seq<MotionCommand> {
    var movementTime := TimeForDistance(side);
    if movementTime == NoTime then []
    else Repeat(sides, SideSteps(movementTime, TurnTime(angle, TurnPower as real)))
  }

  /**
   * A regular plan issues exactly `sides` identical blocks when the side is in range:
   * drive at 40/40 for the side's time, settle, turn at 0/58 for the angle's time, settle.
   */
  lemma RegularPlanShape(sides: nat, angle: real, side: int)
    ensures !InRange(side) ==> RegularPlan(sides, angle, side) == []
    ensures InRange(side) ==>
      var plan, block := RegularPlan(sides, angle, side),
        SideSteps(TimeForDistance(side), TurnTime(angle, TurnPower as real));
      |plan| == 4 * sides && forall i :: 0 <= i < |plan| ==> plan[i] == block[i % 4]
  {
    if InRange(side) {
      RepeatAt(sides, SideSteps(TimeForDistance(side), TurnTime(angle, TurnPower as real)));
    }
  }

  /** The three reordered sides' drive-settle-turn-settle blocks, if every side were in range. */
  function TriangleFullPlan(a: int, b: int, c: int, angleOpposite: (int, int, int) -> real): (p: seq<MotionCommand>)
    ensures |p| == 12
  {
    var r := OrderSides(a, b, c);
    var e := TriangleExteriorAngles(r, angleOpposite);
    SideSteps(TimeForDistance(r.first), FirstTriangleTurnMs)
    + SideSteps(TimeForDistance(r.second), TurnTime(e.atSecond, TurnPower as real))
    + SideSteps(TimeForDistance(r.third), TurnTime(e.atThird, TurnPower as real))
  }

  /** How many of the reordered sides, counted from the first, are in range. */
  function LeadingInRange(r: SideOrder): (k: nat)
    ensures k <= 3
    ensures k >= 1 ==> InRange(r.first)
    ensures k >= 2 ==> InRange(r.second)
    ensures k == 3 ==> InRange(r.third)
    ensures k == 0 ==> !InRange(r.first)
    ensures k == 1 ==> !InRange(r.second)
    ensures k == 2 ==> !InRange(r.third)
  {
    if !InRange(r.first) then 0
    else if !InRange(r.second) then 1
    else if !InRange(r.third) then 2
    else 3
  }

  /**
   * What `makeTriangle` issues: the full plan cut off before the first side that is
   * out of range (the commands for earlier sides have already been issued then).
   */
  function TrianglePlan(a: int, b: int, c: int, angleOpposite: (int, int, int) -> real): seq<MotionCommand> {
    TriangleFullPlan(a, b, c, angleOpposite)[..4 * LeadingInRange(OrderSides(a, b, c))]
  }

  /** The triangle plan, block by block: each block is one side's drive-settle-turn-settle. */
  lemma TriangleFullPlanBlocks(a: int, b: int, c: int, angleOpposite: (int, int, int) -> real)
    ensures var r, full := OrderSides(a, b, c), TriangleFullPlan(a, b, c, angleOpposite);
      var e := TriangleExteriorAngles(r, angleOpposite);
      && full[..4] == SideSteps(TimeForDistance(r.first), FirstTriangleTurnMs)
      && full[..8] == full[..4] + SideSteps(TimeForDistance(r.second), TurnTime(e.atSecond, TurnPower as real))
      && full == full[..8] + SideSteps(TimeForDistance(r.third), TurnTime(e.atThird, TurnPower as real))
  {
  }

  /** Every side of a triangle whose input sides are all in range is driven. */
  lemma TriangleInRangeCompletes(a: int, b: int, c: int, angleOpposite: (int, int, int) -> real)
    requires InRange(a) && InRange(b) && InRange(c)
    ensures TrianglePlan(a, b, c, angleOpposite) == TriangleFullPlan(a, b, c, angleOpposite)
  {
    OrderSidesProperties(a, b, c);
    var r := OrderSides(a, b, c);
    assert r.first in multiset{a, b, c} && r.second in multiset{a, b, c} && r.third in multiset{a, b, c};
  }

  /** A drive command: both wheels at drive power. */
  predicate IsDrive(m: MotionCommand) {
    m.Move? && m.left == DrivePower && m.right == DrivePower
  }

  /** Every drive command of a regular plan lasts between 1216 and 6893 ms. */
  lemma RegularPlanDrivesValid(sides: nat, angle: real, side: int)
    ensures forall m :: m in RegularPlan(sides, angle, side) && IsDrive(m) ==> 1216 <= m.ms <= 6893
  {
    RegularPlanShape(sides, angle, side);
    if InRange(side) {
      var t := TimeForDistance(side);
      TimeForDistanceMonotone(side, side);
      var plan := RegularPlan(sides, angle, side);
      forall m | m in plan && IsDrive(m) ensures 1216 <= m.ms <= 6893 {
        var i :| 0 <= i < |plan| && plan[i] == m;
        assert WrapInt(t) == t;
      }
    }
  }

  /** Every drive command of a triangle plan lasts between 1216 and 6893 ms. */
  lemma TrianglePlanDrivesValid(a: int, b: int, c: int, angleOpposite: (int, int, int) -> real)
    ensures forall m :: m in TrianglePlan(a, b, c, angleOpposite) && IsDrive(m) ==> 1216 <= m.ms <= 6893
  {
    var r := OrderSides(a, b, c);
    var plan := TrianglePlan(a, b, c, angleOpposite);
    var full := TriangleFullPlan(a, b, c, angleOpposite);
    forall m | m in plan && IsDrive(m) ensures 1216 <= m.ms <= 6893 {
      var i :| 0 <= i < |plan| && plan[i] == m;
      assert plan[i] == full[i];
      assert i == 0 || i == 4 || i == 8;
      var side := if i == 0 then r.first else if i == 4 then r.second else r.third;
      assert InRange(side);
      TimeForDistanceMonotone(side, side);
    }
  }

  /**
   * The routines never drive with the error duration: every drive command in a
   * regular or triangle plan lasts a positive time, between 1216 and 6893 ms.
   */
  lemma PlansDriveOnlyValidTimes(sides: nat, angle: real, side: int,
                                 a: int, b: int, c: int, angleOpposite: (int, int, int) -> real)
    ensures forall m :: m in RegularPlan(sides, angle, side) && IsDrive(m) ==> 1216 <= m.ms <= 6893
    ensures forall m :: m in TrianglePlan(a, b, c, angleOpposite) && IsDrive(m) ==> 1216 <= m.ms <= 6893
  {
    RegularPlanDrivesValid(sides, angle, side);
    TrianglePlanDrivesValid(a, b, c, angleOpposite);
  }

  /** A turn command: left wheel still, right wheel at turn power. */
  predicate IsTurn(m: MotionCommand) {
    m.Move? && m.left == 0 && m.right == TurnPower
  }

  /** The total duration of the commands of `plan` that `selected` picks out. */
  function TimeIn(plan: seq<MotionCommand>, selected: MotionCommand -> bool): int {
    if plan == [] then 0
    else
      var last := plan[|plan| - 1];
      TimeIn(plan[..|plan| - 1], selected) + if selected(last) then last.ms else 0
  }

  lemma {:induction false} TimeInConcat(p: seq<MotionCommand>, q: seq<MotionCommand>, selected: MotionCommand -> bool)
    ensures TimeIn(p + q, selected) == TimeIn(p, selected) + TimeIn(q, selected)
  {
    if q == [] {
      assert p + q == p;
    } else {
      var q', last := q[..|q| - 1], q[|q| - 1];
      assert (p + q)[..|p + q| - 1] == p + q';
      TimeInConcat(p, q', selected);
    }
  }

  lemma {:induction false} TimeInRepeat(n: nat, block: seq<MotionCommand>, selected: MotionCommand -> bool)
    ensures TimeIn(Repeat(n, block), selected) == n * TimeIn(block, selected)
  {
    if n > 0 {
      TimeInRepeat(n - 1, block, selected);
      TimeInConcat(Repeat(n - 1, block), block, selected);
    }
  }

  /** Within one side's block, the drive lasts the drive time and the turn the turn time. */
  lemma SideStepsTimes(driveMs: int, turnMs: int)
    ensures TimeIn(SideSteps(driveMs, turnMs), IsDrive) == WrapInt(driveMs)
    ensures TimeIn(SideSteps(driveMs, turnMs), IsTurn) == WrapInt(turnMs)
  {
    var s := SideSteps(driveMs, turnMs);
    assert s == [s[0]] + [s[1]] + [s[2]] + [s[3]];
    forall selected: MotionCommand -> bool
      ensures TimeIn(s, selected) == TimeIn([s[0]], selected) + TimeIn([s[1]], selected)
                                     + TimeIn([s[2]], selected) + TimeIn([s[3]], selected)
    {
      TimeInConcat([s[0]] + [s[1]] + [s[2]], [s[3]], selected);
      TimeInConcat([s[0]] + [s[1]], [s[2]], selected);
      TimeInConcat([s[0]], [s[1]], selected);
    }
    assert forall m: MotionCommand, selected: MotionCommand -> bool ::
      TimeIn([m], selected) == if selected(m) then m.ms else 0 by {
      forall m: MotionCommand, selected: MotionCommand -> bool
        ensures TimeIn([m], selected) == if selected(m) then m.ms else 0
      {
        assert [m][..0] == [];
      }
    }
  }

  /**
   * A regular plan drives for `sides` times the side's drive time and turns for `sides`
   * times the angle's turn time; a side out of range issues no drive and no turn at all.
   */
  lemma RegularPlanTotals(sides: nat, angle: real, side: int)
    ensures InRange(side) ==> TimeIn(RegularPlan(sides, angle, side), IsDrive) == sides * TimeForDistance(side)
    ensures InRange(side) ==>
      TimeIn(RegularPlan(sides, angle, side), IsTurn) == sides * WrapInt(TurnTime(angle, TurnPower as real))
    ensures !InRange(side) ==>
      TimeIn(RegularPlan(sides, angle, side), IsDrive) == 0 && TimeIn(RegularPlan(sides, angle, side), IsTurn) == 0
  {
    if InRange(side) {
      var t := TimeForDistance(side);
      var block := SideSteps(t, TurnTime(angle, TurnPower as real));
      TimeForDistanceMonotone(side, side);
      SideStepsTimes(t, TurnTime(angle, TurnPower as real));
      TimeInRepeat(sides, block, IsDrive);
      TimeInRepeat(sides, block, IsTurn);
    }
  }
}
