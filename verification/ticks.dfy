/** The arithmetic half of the autonomous op-mode: a distance in inches or an
    angle in degrees becomes a signed encoder tick count, which each move
    spreads over the four wheels by its own fixed sign table. */
module Ticks {
  import opened Hardware

  // GoBILDA chassis: 312 RPM motors, 104 mm mecanum wheels.
  const TicksPerRev: real := 537.7
  const WheelDiameterIn: real := 4.0945
  /** Java's Math.PI, written out as its decimal literal. */
  const Pi: real := 3.141592653589793
  const TicksPerInch: real := TicksPerRev / (WheelDiameterIn * Pi)
  /** Strafing slips sideways, so it asks for more ticks per inch than driving. */
  const StrafeCorrection: real := 1.1
  /** The empirical turn factor that turn() declares locally. */
  const TurnTicksPerDegree: real := 8.0

  /** `n` is `x` truncated toward zero: its integer part, with its sign. */
  predicate TruncatesTo(x: real, n: int)
  {
    if 0.0 <= x then 0 <= n && n as real <= x < n as real + 1.0
    else n <= 0 && n as real - 1.0 < x <= n as real
  }

  /** Java's narrowing `(int)` cast of a double, which rounds toward zero
      (section 5.1.3 of the Java Language Specification). */
  function IntCast(x: real): (n: int)
    ensures TruncatesTo(x, n)
  {
    if x < 0.0 then -((-x).Floor) else x.Floor
  }

  /** Truncation names exactly one integer. */
  lemma {:induction false} TruncationUnique(x: real, n: int, m: int)
    requires TruncatesTo(x, n) && TruncatesTo(x, m)
    ensures n == m
  {
  }

  /** The cast is odd: a negated input gives the negated count. */
  lemma {:induction false} IntCastOdd(x: real)
    ensures IntCast(-x) == -IntCast(x)
  {
    var n := IntCast(x);
    assert TruncatesTo(-x, -n);
    TruncationUnique(-x, IntCast(-x), -n);
  }

  /** The cast never decreases: a longer move never gets fewer ticks. */
  lemma {:induction false} IntCastMonotone(x: real, y: real)
    requires x <= y
    ensures IntCast(x) <= IntCast(y)
  {
  }

  // Per-wheel sign tables, as the moves send them.
  const DriveSigns: Wheels<int> := Wheels(-1, 1, -1, 1)
  const StrafeSigns: Wheels<int> := Wheels(1, -1, 1, -1)
  const TurnSigns: Wheels<int> := Wheels(-1, 1, 1, -1)

  /** The wheel targets a sign table gives for the tick count `t`. */
  function Spread(signs: Wheels<int>, t: int): Wheels<int>
  {
    Wheels(signs.fl * t, signs.fr * t, signs.bl * t, signs.br * t)
  }

  function Negate(w: Wheels<int>): Wheels<int>
  {
    Wheels(-w.fl, -w.fr, -w.bl, -w.br)
  }

  /** The targets drive(inches) passes to moveMotors. */
  function DriveTargets(inches: real): (w: Wheels<int>)
    ensures w == Spread(DriveSigns, w.fr)
    ensures TruncatesTo(inches * TicksPerInch, w.fr)
  {
    var ticks := IntCast(inches * TicksPerInch);
    Wheels(-ticks, ticks, -ticks, ticks)
  }

  /** The targets strafe(inches) passes to moveMotors. */
  function StrafeTargets(inches: real): (w: Wheels<int>)
    ensures w == Spread(StrafeSigns, w.fl)
    ensures TruncatesTo(inches * TicksPerInch * StrafeCorrection, w.fl)
  {
    var ticks := IntCast(inches * TicksPerInch * StrafeCorrection);
    Wheels(ticks, -ticks, ticks, -ticks)
  }

  /** The targets turn(degrees) passes to moveMotors. */
  function TurnTargets(degrees: real): (w: Wheels<int>)
    ensures w == Spread(TurnSigns, w.fr)
    ensures TruncatesTo(degrees * TurnTicksPerDegree, w.fr)
  {
    var ticks := IntCast(degrees * TurnTicksPerDegree);
    Wheels(-ticks, ticks, ticks, -ticks)
  }

  /** Reversing a move negates every wheel target, and a move of zero
      commands no wheel to turn. */
  lemma {:induction false} MovesAreOdd(x: real)
    ensures DriveTargets(-x) == Negate(DriveTargets(x))
    ensures StrafeTargets(-x) == Negate(StrafeTargets(x))
    ensures TurnTargets(-x) == Negate(TurnTargets(x))
    ensures DriveTargets(0.0) == StrafeTargets(0.0) == TurnTargets(0.0) == Each(0)
  {
    IntCastOdd(x * TicksPerInch);
    assert -x * TicksPerInch == -(x * TicksPerInch);
    IntCastOdd(x * TicksPerInch * StrafeCorrection);
    assert -x * TicksPerInch * StrafeCorrection == -(x * TicksPerInch * StrafeCorrection);
    IntCastOdd(x * TurnTicksPerDegree);
    assert -x * TurnTicksPerDegree == -(x * TurnTicksPerDegree);
  }

  /** A longer move never asks for fewer ticks. */
  lemma {:induction false} MovesMonotone(x: real, y: real)
    requires x <= y
    ensures DriveTargets(x).fr <= DriveTargets(y).fr
    ensures StrafeTargets(x).fl <= StrafeTargets(y).fl
    ensures TurnTargets(x).fr <= TurnTargets(y).fr
  {
    IntCastMonotone(x * TicksPerInch, y * TicksPerInch);
    IntCastMonotone(x * TicksPerInch * StrafeCorrection, y * TicksPerInch * StrafeCorrection);
    IntCastMonotone(x * TurnTicksPerDegree, y * TurnTicksPerDegree);
  }

  /** The autonomous script's one move, drive(10): 10 inches is 418.01 ticks,
      so each wheel is sent 418 ticks. */
  lemma DriveTenInches()
    ensures DriveTargets(10.0) == Wheels(-418, 418, -418, 418)
  {
    var x := 10.0 * TicksPerInch;
    assert 418.0 <= x < 419.0;
    TruncationUnique(x, IntCast(x), 418);
  }

  /** A quarter turn clockwise is 720 ticks per wheel. */
  lemma QuarterTurn()
    ensures TurnTargets(90.0) == Wheels(-720, 720, 720, -720)
  {
    TruncationUnique(90.0 * TurnTicksPerDegree, IntCast(90.0 * TurnTicksPerDegree), 720);
  }
}
