/** The autonomous op-mode's move supervisor.  A move resets the four
    encoders, writes the four targets, switches the motors to run to
    position, starts them, polls until the op-mode stops, the move times out
    or no motor is busy any more, and then cuts all power.

    The elapsed time, the op-mode's active flag and the motors' busy flags
    change outside the program; they are given as a trace with one `Poll`
    per evaluation of the loop condition. */
module Auto {
  import opened Hardware
  import opened Ticks

  const DriveSpeed: real := 0.1
  /** A move gives up after this many seconds. */
  const TimeoutSeconds: real := 2.0

  /** What one evaluation of the polling condition observes. */
  datatype Poll = Poll(active: bool, elapsed: real, busy: Wheels<bool>)

  predicate AnyBusy(b: Wheels<bool>)
  {
    b.fl || b.fr || b.bl || b.br
  }

  /** The polling loop's condition. */
  predicate KeepPolling(p: Poll)
  {
    p.active && p.elapsed < TimeoutSeconds && AnyBusy(p.busy)
  }

  /** Some poll in the trace ends the loop: the op-mode stops, the clock
      reaches the timeout or the motors arrive. */
  predicate Settles(trace: seq<Poll>)
  {
    exists k :: 0 <= k < |trace| && !KeepPolling(trace[k])
  }

  /** The loop ran `polls` times and stopped at the first poll that ends it. */
  predicate StopsAt(trace: seq<Poll>, polls: nat)
  {
    polls < |trace| && !KeepPolling(trace[polls]) &&
    forall j :: 0 <= j < polls ==> KeepPolling(trace[j])
  }

  /** The commands one motor receives while a move to `target` starts it at
      `power`: the encoder is cleared, the target written, run-to-position
      selected and the power applied. */
  ghost function StartCommands(target: int, power: real): seq<Command>
  {
    [Mode(StopAndResetEncoder), Mode(RunUsingEncoder), Target(target),
     Mode(RunToPosition), Power(power)]
  }

  /** The commands the four motors receive while a move to `w` starts: the
      front-left motor is started at power 0, the others at DriveSpeed. */
  ghost function StartLogs(w: Wheels<int>): Wheels<seq<Command>>
  {
    Wheels(StartCommands(w.fl, 0.0), StartCommands(w.fr, DriveSpeed),
           StartCommands(w.bl, DriveSpeed), StartCommands(w.br, DriveSpeed))
  }

  /** The commands the four motors receive during a whole move to `w`: the
      start, then power 0 once polling ends. */
  ghost function MoveLogs(w: Wheels<int>): Wheels<seq<Command>>
  {
    Extend(StartLogs(w), Each([Power(0.0)]))
  }

  /** The five command batches that start a move, appended one after
      another, make up StartLogs. */
  lemma MoveLogsInOrder(w: Wheels<int>, before: Wheels<seq<Command>>, reset: Wheels<seq<Command>>,
                        encoding: Wheels<seq<Command>>, targeted: Wheels<seq<Command>>,
                        positioning: Wheels<seq<Command>>, started: Wheels<seq<Command>>)
    requires reset == Extend(before, Each([Mode(StopAndResetEncoder)]))
    requires encoding == Extend(reset, Each([Mode(RunUsingEncoder)]))
    requires targeted == Extend(encoding, Wheels([Target(w.fl)], [Target(w.fr)], [Target(w.bl)], [Target(w.br)]))
    requires positioning == Extend(targeted, Each([Mode(RunToPosition)]))
    requires started == Extend(positioning, Wheels([Power(0.0)], [Power(DriveSpeed)], [Power(DriveSpeed)], [Power(DriveSpeed)]))
    ensures started == Extend(before, StartLogs(w))
  {
    assert started.fl == before.fl + StartCommands(w.fl, 0.0);
    assert started.fr == before.fr + StartCommands(w.fr, DriveSpeed);
    assert started.bl == before.bl + StartCommands(w.bl, DriveSpeed);
    assert started.br == before.br + StartCommands(w.br, DriveSpeed);
  }

  /** Appending two batches one after the other appends their concatenation. */
  lemma ExtendTwice(logs: Wheels<seq<Command>>, first: Wheels<seq<Command>>, second: Wheels<seq<Command>>)
    ensures Extend(Extend(logs, first), second) == Extend(logs, Extend(first, second))
  {
    assert (logs.fl + first.fl) + second.fl == logs.fl + (first.fl + second.fl);
    assert (logs.fr + first.fr) + second.fr == logs.fr + (first.fr + second.fr);
    assert (logs.bl + first.bl) + second.bl == logs.bl + (first.bl + second.bl);
    assert (logs.br + first.br) + second.br == logs.br + (first.br + second.br);
  }

  class FirstAuto {
    const frontLeftDrive: DcMotor
    const frontRightDrive: DcMotor
    const backLeftDrive: DcMotor
    const backRightDrive: DcMotor

    function Motors(): Wheels<DcMotor>
    {
      Wheels(frontLeftDrive, frontRightDrive, backLeftDrive, backRightDrive)
    }

    ghost predicate Valid()
    {
      Distinct(Motors())
    }

    constructor (fl: DcMotor, fr: DcMotor, bl: DcMotor, br: DcMotor)
      requires Distinct(Wheels(fl, fr, bl, br))
      ensures Valid() && Motors() == Wheels(fl, fr, bl, br)
    {
      frontLeftDrive, frontRightDrive, backLeftDrive, backRightDrive := fl, fr, bl, br;
    }

    /** A finished move: every motor runs to the position `w` and has no
        power, and each received exactly the commands of a move to `w`. */
    twostate predicate MovedTo(w: Wheels<int>)
      reads frontLeftDrive, frontRightDrive, backLeftDrive, backRightDrive
    {
      Modes(Motors()) == Each(RunToPosition) &&
      Targets(Motors()) == w &&
      MotorPowers(Motors()) == Uniform(0.0) &&
      Logs(Motors()) == Extend(old(Logs(Motors())), MoveLogs(w))
    }

    /** resetEncoders(): every encoder is cleared to zero. */
    method ResetEncoders()
      requires Valid()
      modifies frontLeftDrive, frontRightDrive, backLeftDrive, backRightDrive
      ensures Modes(Motors()) == Each(StopAndResetEncoder)
      ensures Targets(Motors()) == old(Targets(Motors()))
      ensures MotorPowers(Motors()) == old(MotorPowers(Motors()))
      ensures Busy(Motors()) == old(Busy(Motors()))
      ensures Logs(Motors()) == Extend(old(Logs(Motors())), Each([Mode(StopAndResetEncoder)]))
    {
      SetModes(Motors(), StopAndResetEncoder);
    }

    /** stopMotors(): every motor's power is cut. */
    method StopMotors()
      requires Valid()
      modifies frontLeftDrive, frontRightDrive, backLeftDrive, backRightDrive
      ensures MotorPowers(Motors()) == Uniform(0.0)
      ensures Modes(Motors()) == old(Modes(Motors()))
      ensures Targets(Motors()) == old(Targets(Motors()))
      ensures Busy(Motors()) == old(Busy(Motors()))
      ensures Logs(Motors()) == Extend(old(Logs(Motors())), Each([Power(0.0)]))
    {
      SetPowers(Motors(), Uniform(0.0));
    }

    /** The first half of moveMotors: clear the encoders, write the targets,
        switch to run-to-position and start the motors.  The front-left motor
        is started at power 0, the others at DriveSpeed. */
    method StartMove(w: Wheels<int>)
      requires Valid()
      modifies frontLeftDrive, frontRightDrive, backLeftDrive, backRightDrive
      ensures Modes(Motors()) == Each(RunToPosition)
      ensures Targets(Motors()) == w
      ensures MotorPowers(Motors()) == Powers(0.0, DriveSpeed, DriveSpeed, DriveSpeed)
      ensures Busy(Motors()) == old(Busy(Motors()))
      ensures Logs(Motors()) == Extend(old(Logs(Motors())), StartLogs(w))
    {
      ghost var before := Logs(Motors());
      ResetEncoders();
      ghost var reset := Logs(Motors());
      SetModes(Motors(), RunUsingEncoder);
      ghost var encoding := Logs(Motors());
      SetTargets(Motors(), w);
      ghost var targeted := Logs(Motors());
      SetModes(Motors(), RunToPosition);
      ghost var positioning := Logs(Motors());
      // The clock restarts here: the trace's elapsed times count from this point.
      SetPowers(Motors(), Powers(0.0, DriveSpeed, DriveSpeed, DriveSpeed));
      MoveLogsInOrder(w, before, reset, encoding, targeted, positioning, Logs(Motors()));
    }

    /** The polling loop of moveMotors: it runs while the op-mode is active,
        the move has not timed out and some motor is busy.  Only the busy
        flags change. */
    method AwaitMotors(trace: seq<Poll>) returns (ghost polls: nat)
      requires Valid() && Settles(trace)
      modifies frontLeftDrive, frontRightDrive, backLeftDrive, backRightDrive
      ensures StopsAt(trace, polls)
      ensures Busy(Motors()) == trace[polls].busy
      ensures Modes(Motors()) == old(Modes(Motors()))
      ensures Targets(Motors()) == old(Targets(Motors()))
      ensures MotorPowers(Motors()) == old(MotorPowers(Motors()))
      ensures Logs(Motors()) == old(Logs(Motors()))
    {
      ghost var k :| 0 <= k < |trace| && !KeepPolling(trace[k]);
      var i := 0;
      ReportBusy(Motors(), trace[0].busy);
      while trace[i].active && trace[i].elapsed < TimeoutSeconds &&
            (frontLeftDrive.busy || frontRightDrive.busy || backLeftDrive.busy || backRightDrive.busy)
        invariant 0 <= i <= k
        invariant Busy(Motors()) == trace[i].busy
        invariant forall j :: 0 <= j < i ==> KeepPolling(trace[j])
        invariant Modes(Motors()) == old(Modes(Motors()))
        invariant Targets(Motors()) == old(Targets(Motors()))
        invariant MotorPowers(Motors()) == old(MotorPowers(Motors()))
        invariant Logs(Motors()) == old(Logs(Motors()))
        decreases k - i
      {
        // The encoder positions reported to telemetry here are not modelled.
        i := i + 1;
        ReportBusy(Motors(), trace[i].busy);
      }
      polls := i;
    }

    /** Runs a move to the relative targets (fl, fr, bl, br).  `polls` is
        how many times the loop body ran; whichever condition ended the loop,
        all four powers are 0 on return. */
    method MoveMotors(fl: int, fr: int, bl: int, br: int, trace: seq<Poll>) returns (ghost polls: nat)
      requires Valid() && Settles(trace)
      modifies frontLeftDrive, frontRightDrive, backLeftDrive, backRightDrive
      ensures MovedTo(Wheels(fl, fr, bl, br))
      ensures StopsAt(trace, polls)
      ensures Busy(Motors()) == trace[polls].busy
    {
      ghost var before := Logs(Motors());
      StartMove(Wheels(fl, fr, bl, br));
      polls := AwaitMotors(trace);
      StopMotors();
      ExtendTwice(before, StartLogs(Wheels(fl, fr, bl, br)), Each([Power(0.0)]));
    }

    /** drive(inches): forward for positive inches, backward for negative. */
    method Drive(inches: real, trace: seq<Poll>) returns (ghost polls: nat)
      requires Valid() && Settles(trace)
      modifies frontLeftDrive, frontRightDrive, backLeftDrive, backRightDrive
      ensures MovedTo(DriveTargets(inches))
      ensures StopsAt(trace, polls)
    {
      var ticks := IntCast(inches * TicksPerInch);
      polls := MoveMotors(-ticks, ticks, -ticks, ticks, trace);
    }

    /** strafe(inches): right for positive inches, left for negative. */
    method Strafe(inches: real, trace: seq<Poll>) returns (ghost polls: nat)
      requires Valid() && Settles(trace)
      modifies frontLeftDrive, frontRightDrive, backLeftDrive, backRightDrive
      ensures MovedTo(StrafeTargets(inches))
      ensures StopsAt(trace, polls)
    {
      var ticks := IntCast(inches * TicksPerInch * StrafeCorrection);
      polls := MoveMotors(ticks, -ticks, ticks, -ticks, trace);
    }

    /** turn(degrees): clockwise for positive degrees. */
    method Turn(degrees: real, trace: seq<Poll>) returns (ghost polls: nat)
      requires Valid() && Settles(trace)
      modifies frontLeftDrive, frontRightDrive, backLeftDrive, backRightDrive
      ensures MovedTo(TurnTargets(degrees))
      ensures StopsAt(trace, polls)
    {
      var ticks := IntCast(degrees * TurnTicksPerDegree);
      polls := MoveMotors(-ticks, ticks, ticks, -ticks, trace);
    }

    /** The autonomous script after start: the encoders are cleared once
        more, then the robot drives 10 inches forward: 418 ticks on each
        wheel, negated on the left side. */
    method RunOpMode(trace: seq<Poll>) returns (ghost polls: nat)
      requires Valid() && Settles(trace)
      modifies frontLeftDrive, frontRightDrive, backLeftDrive, backRightDrive
      ensures Modes(Motors()) == Each(RunToPosition)
      ensures Targets(Motors()) == Wheels(-418, 418, -418, 418)
      ensures MotorPowers(Motors()) == Uniform(0.0)
      ensures Logs(Motors()) == Extend(Extend(old(Logs(Motors())), Each([Mode(StopAndResetEncoder)])),
                                       MoveLogs(Wheels(-418, 418, -418, 418)))
      ensures StopsAt(trace, polls)
    {
      ResetEncoders();
      polls := Drive(10.0, trace);
      DriveTenInches();
    }
  }

  /** A move whose motors report arrival at the first poll runs the loop
      body no times. */
  lemma ArrivedAtOnce(trace: seq<Poll>, polls: nat)
    requires |trace| > 0 && !AnyBusy(trace[0].busy)
    requires StopsAt(trace, polls)
    ensures polls == 0
  {
  }

  /** The loop ends only because the op-mode stopped, the move timed out or
      no motor is busy. */
  lemma {:induction false} ExitReasons(trace: seq<Poll>, polls: nat)
    requires StopsAt(trace, polls)
    ensures var p := trace[polls];
            !p.active || TimeoutSeconds <= p.elapsed ||
            !(p.busy.fl || p.busy.fr || p.busy.bl || p.busy.br)
  {
  }

  /** A trace fixes how many times the loop body runs. */
  lemma {:induction false} StopsAtUnique(trace: seq<Poll>, a: nat, b: nat)
    requires StopsAt(trace, a) && StopsAt(trace, b)
    ensures a == b
  {
  }

  /** While the op-mode runs and some motor stays busy, the move gives up at
      the first poll that reads the timeout. */
  lemma {:induction false} TimesOut(trace: seq<Poll>, n: nat, polls: nat)
    requires n < |trace|
    requires forall j :: 0 <= j <= n ==> trace[j].active && AnyBusy(trace[j].busy)
    requires forall j :: 0 <= j < n ==> trace[j].elapsed < TimeoutSeconds
    requires TimeoutSeconds <= trace[n].elapsed
    requires StopsAt(trace, polls)
    ensures polls == n
  {
    assert StopsAt(trace, n);
    StopsAtUnique(trace, n, polls);
  }
}
