/** One iteration of the tele-op loop: the gamepad's sticks become a chassis
    motion, the standard mecanum mixing turns it into four wheel powers, and
    when any power's magnitude exceeds 1 all four are divided by the largest
    magnitude. */
module Tele {
  import opened Hardware
  import Ticks

  /** The three stick axes the loop reads.  Pushing the left stick forward
      gives a negative y. */
  datatype Gamepad = Gamepad(leftStickX: real, leftStickY: real, rightStickX: real)

  /** A chassis motion: axial forward, lateral to the right, yaw clockwise. */
  datatype Motion = Motion(axial: real, lateral: real, yaw: real)

  /** The sticks' reading of a chassis motion: pushing the left stick
      forward drives forward, and the three axes can be read back. */
  function MotionOf(g: Gamepad): (m: Motion)
    ensures Gamepad(m.lateral, -m.axial, m.yaw) == g
    ensures 0.0 < m.axial <==> g.leftStickY < 0.0
  {
    Motion(-g.leftStickY, g.leftStickX, g.rightStickX)
  }

  /** The mecanum mixing equations.  Mixing loses nothing: the motion can
      be read back from the powers, which always balance front against back. */
  function Mix(m: Motion): (p: Powers)
    ensures Mixable(p) && Unmix(p) == m
  {
    Powers(m.axial + m.lateral + m.yaw,
           m.axial - m.lateral - m.yaw,
           m.axial - m.lateral + m.yaw,
           m.axial + m.lateral - m.yaw)
  }

  /** Recovers the motion from four wheel powers the mixing produced. */
  function Unmix(p: Powers): Motion
  {
    Motion((p.fl + p.fr + p.bl + p.br) / 4.0,
           (p.fl - p.fr - p.bl + p.br) / 4.0,
           (p.fl - p.fr + p.bl - p.br) / 4.0)
  }

  /** Four powers that some motion mixes to: both front wheels together
      equal both back wheels together. */
  predicate Mixable(p: Powers)
  {
    p.fl + p.fr == p.bl + p.br
  }

  /** Every mixable set of powers is the mixing of exactly one motion. */
  lemma MixableIsMixed(p: Powers)
    requires Mixable(p)
    ensures Mix(Unmix(p)) == p
  {
  }

  /** Sticks at rest command no wheel. */
  lemma SticksAtRest()
    ensures Mix(MotionOf(Gamepad(0.0, 0.0, 0.0))) == Uniform(0.0)
  {
  }

  function Abs(x: real): real
  {
    if x < 0.0 then -x else x
  }

  function Max(a: real, b: real): real
  {
    if a < b then b else a
  }

  /** The largest of the four power magnitudes. */
  function MaxMagnitude(p: Powers): (m: real)
    ensures Abs(p.fl) <= m && Abs(p.fr) <= m && Abs(p.bl) <= m && Abs(p.br) <= m
    ensures m == Abs(p.fl) || m == Abs(p.fr) || m == Abs(p.bl) || m == Abs(p.br)
  {
    Max(Max(Max(Abs(p.fl), Abs(p.fr)), Abs(p.bl)), Abs(p.br))
  }

  /** No power exceeds the motors' range. */
  predicate InRange(p: Powers)
  {
    Abs(p.fl) <= 1.0 && Abs(p.fr) <= 1.0 && Abs(p.bl) <= 1.0 && Abs(p.br) <= 1.0
  }

  function Scale(p: Powers, k: real): Powers
  {
    Powers(p.fl * k, p.fr * k, p.bl * k, p.br * k)
  }

  /** `x / m` for a divisor `m` at least as large as `|x|`. */
  lemma {:induction false} DivideByLarger(x: real, m: real)
    requires 0.0 < m && Abs(x) <= m
    ensures Abs(x / m) <= 1.0 && (x / m) * m == x
    ensures Abs(x) == m ==> Abs(x / m) == 1.0
  {
    assert -m <= x <= m;
    assert -1.0 <= x / m <= 1.0;
    if x == m {
      assert x / m == 1.0;
    } else if x == -m {
      assert x / m == -1.0;
    }
  }

  /** Four powers divided by a common nonzero `m`. */
  function DivideAll(p: Powers, m: real): Powers
    requires m != 0.0
  {
    Powers(p.fl / m, p.fr / m, p.bl / m, p.br / m)
  }

  /** Multiplying back by `m` undoes the division. */
  lemma {:induction false} DivideAllUndone(p: Powers, m: real)
    requires m != 0.0
    ensures Scale(DivideAll(p, m), m) == p
  {
    var q := DivideAll(p, m);
    assert q.fl * m == p.fl;
    assert q.fr * m == p.fr;
    assert q.bl * m == p.bl;
    assert q.br * m == p.br;
    assert Scale(q, m) == Powers(q.fl * m, q.fr * m, q.bl * m, q.br * m);
  }

  /** Dividing four powers by their largest magnitude leaves a largest
      magnitude of exactly 1. */
  lemma {:induction false} DivideByMaxMagnitude(p: Powers, m: real)
    requires 0.0 < m && m == MaxMagnitude(p)
    ensures InRange(DivideAll(p, m)) && MaxMagnitude(DivideAll(p, m)) == 1.0
  {
    var q := DivideAll(p, m);
    DivideByLarger(p.fl, m);
    DivideByLarger(p.fr, m);
    DivideByLarger(p.bl, m);
    DivideByLarger(p.br, m);
    assert Abs(q.fl) == 1.0 || Abs(q.fr) == 1.0 || Abs(q.bl) == 1.0 || Abs(q.br) == 1.0;
  }

  /** Divides all four powers by their largest magnitude when it exceeds 1.
      The result is in range, is the input itself when that was in range,
      and otherwise is the input shrunk by a common factor so that its
      largest magnitude is exactly 1. */
  function Normalize(p: Powers): (q: Powers)
    ensures InRange(q)
    ensures MaxMagnitude(p) <= 1.0 ==> q == p
    ensures MaxMagnitude(p) > 1.0 ==> Scale(q, MaxMagnitude(p)) == p && MaxMagnitude(q) == 1.0
  {
    var m := MaxMagnitude(p);
    if m > 1.0 then
      DivideByMaxMagnitude(p, m);
      DivideAllUndone(p, m);
      DivideAll(p, m)
    else
      p
  }

  /** Power of wheel `i`, in the order front-left, front-right, back-left,
      back-right. */
  function At(p: Powers, i: nat): real
    requires i < 4
  {
    if i == 0 then p.fl else if i == 1 then p.fr else if i == 2 then p.bl else p.br
  }

  /** Normalizing keeps every ratio between two wheels' powers, stated
      without division so that zero powers are covered. */
  lemma {:induction false} NormalizeKeepsRatios(p: Powers)
    ensures forall i: nat, j: nat :: i < 4 && j < 4 ==>
      At(Normalize(p), i) * At(p, j) == At(Normalize(p), j) * At(p, i)
  {
    if MaxMagnitude(p) > 1.0 {
      ScaledDownKeepsRatios(p);
    } else {
      PassedThroughKeepsRatios(p);
    }
  }

  lemma {:induction false} ScaledDownKeepsRatios(p: Powers)
    requires MaxMagnitude(p) > 1.0
    ensures forall i: nat, j: nat :: i < 4 && j < 4 ==>
      At(Normalize(p), i) * At(p, j) == At(Normalize(p), j) * At(p, i)
  {
    ScaledKeepsRatios(Normalize(p), MaxMagnitude(p), p);
  }

  lemma {:induction false} PassedThroughKeepsRatios(p: Powers)
    requires MaxMagnitude(p) <= 1.0
    ensures forall i: nat, j: nat :: i < 4 && j < 4 ==>
      At(Normalize(p), i) * At(p, j) == At(Normalize(p), j) * At(p, i)
  {
    EqualKeepsRatios(Normalize(p), p);
  }

  /** `p` is `q` scaled by `m`, so the two have the same ratios. */
  lemma {:induction false} ScaledKeepsRatios(q: Powers, m: real, p: Powers)
    requires Scale(q, m) == p
    ensures forall i: nat, j: nat :: i < 4 && j < 4 ==>
      At(q, i) * At(p, j) == At(q, j) * At(p, i)
  {
    forall i: nat, j: nat | i < 4 && j < 4
      ensures At(q, i) * At(p, j) == At(q, j) * At(p, i)
    {
      ScaledAt(q, m, i);
      ScaledAt(q, m, j);
      CrossProduct(At(q, i), At(q, j), m);
    }
  }

  lemma {:induction false} EqualKeepsRatios(q: Powers, p: Powers)
    requires q == p
    ensures forall i: nat, j: nat :: i < 4 && j < 4 ==>
      At(q, i) * At(p, j) == At(q, j) * At(p, i)
  {
    forall i: nat, j: nat | i < 4 && j < 4
      ensures At(q, i) * At(p, j) == At(q, j) * At(p, i)
    {
      var a, b := At(p, i), At(p, j);
      assert a * b == b * a;
    }
  }

  /** Normalizing keeps the sign of every wheel's power. */
  lemma {:induction false} NormalizeKeepsSigns(p: Powers)
    ensures forall i: nat :: i < 4 ==>
      (0.0 < At(Normalize(p), i) <==> 0.0 < At(p, i)) &&
      (At(Normalize(p), i) < 0.0 <==> At(p, i) < 0.0)
  {
    var q, m := Normalize(p), MaxMagnitude(p);
    forall i: nat | i < 4
      ensures (0.0 < At(q, i) <==> 0.0 < At(p, i)) && (At(q, i) < 0.0 <==> At(p, i) < 0.0)
    {
      if m > 1.0 {
        ScaledAt(q, m, i);
        SignOfScaled(At(q, i), m);
      }
    }
  }

  lemma {:induction false} ScaledAt(q: Powers, m: real, i: nat)
    requires i < 4
    ensures At(Scale(q, m), i) == At(q, i) * m
  {
  }

  lemma {:induction false} CrossProduct(a: real, b: real, m: real)
    ensures a * (b * m) == b * (a * m)
  {
  }

  /** A positive factor keeps the sign. */
  lemma {:induction false} SignOfScaled(x: real, k: real)
    requires 0.0 < k
    ensures (0.0 < x * k <==> 0.0 < x) && (x * k < 0.0 <==> x < 0.0)
  {
  }

  /** Normalizing twice is normalizing once. */
  lemma {:induction false} NormalizeIdempotent(p: Powers)
    ensures Normalize(Normalize(p)) == Normalize(p)
  {
    NormalizeInRange(Normalize(p));
  }

  /** Powers already in range are passed through untouched. */
  lemma {:induction false} NormalizeInRange(p: Powers)
    requires InRange(p)
    ensures Normalize(p) == p
  {
  }

  /** Full forward stick drives every wheel at full power, which
      normalizing leaves alone. */
  lemma FullForward()
    ensures Mix(MotionOf(Gamepad(0.0, -1.0, 0.0))) == Uniform(1.0)
    ensures Normalize(Uniform(1.0)) == Uniform(1.0)
  {
    assert MotionOf(Gamepad(0.0, -1.0, 0.0)) == Motion(1.0, 0.0, 0.0);
    NormalizeInRange(Uniform(1.0));
  }

  /** The loop body's power computation, step by step as the op-mode does it:
      read the axes, mix, find the largest magnitude, divide in place. */
  method WheelPowers(g: Gamepad) returns (p: Powers)
    ensures p == Normalize(Mix(MotionOf(g)))
    ensures InRange(p)
  {
    var axial := -g.leftStickY;
    var lateral := g.leftStickX;
    var yaw := g.rightStickX;

    var frontLeftPower := axial + lateral + yaw;
    var frontRightPower := axial - lateral - yaw;
    var backLeftPower := axial - lateral + yaw;
    var backRightPower := axial + lateral - yaw;

    var max := Max(Abs(frontLeftPower), Abs(frontRightPower));
    max := Max(max, Abs(backLeftPower));
    max := Max(max, Abs(backRightPower));

    if max > 1.0 {
      frontLeftPower := frontLeftPower / max;
      frontRightPower := frontRightPower / max;
      backLeftPower := backLeftPower / max;
      backRightPower := backRightPower / max;
    }
    p := Powers(frontLeftPower, frontRightPower, backLeftPower, backRightPower);
  }

  datatype Direction = Forward | Reverse

  /** The tele-op reverses both left motors. */
  const TeleDirections: Wheels<Direction> := Wheels(Reverse, Forward, Reverse, Forward)

  /** The power a motor applies in its own polarity once its direction is
      set.  A direction never changes a power's magnitude, so it never moves
      a power set into or out of range. */
  function Oriented(d: Wheels<Direction>, p: Powers): (r: Powers)
    ensures Abs(r.fl) == Abs(p.fl) && Abs(r.fr) == Abs(p.fr) && Abs(r.bl) == Abs(p.bl) && Abs(r.br) == Abs(p.br)
    ensures InRange(r) <==> InRange(p)
  {
    Powers(if d.fl == Reverse then -p.fl else p.fl,
           if d.fr == Reverse then -p.fr else p.fr,
           if d.bl == Reverse then -p.bl else p.bl,
           if d.br == Reverse then -p.br else p.br)
  }

  function AsReals(w: Wheels<int>): Powers
  {
    Powers(w.fl as real, w.fr as real, w.bl as real, w.br as real)
  }

  /** Pure forward stick, seen in each motor's own polarity, follows the
      autonomous drive table, whose motors keep their default direction. */
  lemma ForwardMatchesDriveTable()
    ensures Oriented(TeleDirections, Mix(Motion(1.0, 0.0, 0.0))) == AsReals(Ticks.DriveSigns)
  {
    assert Mix(Motion(1.0, 0.0, 0.0)) == Uniform(1.0);
    assert AsReals(Ticks.DriveSigns) == Powers(-1.0, 1.0, -1.0, 1.0);
  }

  /** Pure sideways and pure rotating stick, seen the same way, follow
      neither the autonomous strafe table nor its turn table, nor their
      negations. */
  lemma LateralAndYawDifferFromMoveTables()
    ensures Oriented(TeleDirections, Mix(Motion(0.0, 1.0, 0.0))) == Powers(-1.0, -1.0, 1.0, 1.0)
    ensures Oriented(TeleDirections, Mix(Motion(0.0, 0.0, 1.0))) == Uniform(-1.0)
    ensures AsReals(Ticks.StrafeSigns) == Powers(1.0, -1.0, 1.0, -1.0)
    ensures AsReals(Ticks.TurnSigns) == Powers(-1.0, 1.0, 1.0, -1.0)
  {
    assert Mix(Motion(0.0, 1.0, 0.0)) == Powers(1.0, -1.0, -1.0, 1.0);
    assert Mix(Motion(0.0, 0.0, 1.0)) == Powers(1.0, -1.0, 1.0, -1.0);
  }

  class FirstTele {
    const frontLeftDrive: DcMotor
    const frontRightDrive: DcMotor
    const backLeftDrive: DcMotor
    const backRightDrive: DcMotor

    function Motors(): Wheels<DcMotor>
    {
      Wheels(frontLeftDrive, frontRightDrive, backLeftDrive, backRightDrive)
    }

    ghost predicate Valid()
    {
      Distinct(Motors())
    }

    constructor (fl: DcMotor, fr: DcMotor, bl: DcMotor, br: DcMotor)
      requires Distinct(Wheels(fl, fr, bl, br))
      ensures Valid() && Motors() == Wheels(fl, fr, bl, br)
    {
      frontLeftDrive, frontRightDrive, backLeftDrive, backRightDrive := fl, fr, bl, br;
    }

    /** One pass of the loop: every motor gets its normalized power, in range,
        and nothing else about the motors changes. */
    method Step(g: Gamepad)
      requires Valid()
      modifies frontLeftDrive, frontRightDrive, backLeftDrive, backRightDrive
      ensures MotorPowers(Motors()) == Normalize(Mix(MotionOf(g)))
      ensures InRange(MotorPowers(Motors()))
      ensures Modes(Motors()) == old(Modes(Motors()))
      ensures Targets(Motors()) == old(Targets(Motors()))
      ensures Busy(Motors()) == old(Busy(Motors()))
      ensures var p := MotorPowers(Motors());
              Logs(Motors()) == Extend(old(Logs(Motors())), Wheels([Power(p.fl)], [Power(p.fr)], [Power(p.bl)], [Power(p.br)]))
    {
      var p := WheelPowers(g);
      SetPowers(Motors(), p);
      // The run time and powers sent to telemetry here are not modelled.
    }
  }
}
