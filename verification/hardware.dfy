/** The slice of the FTC hardware interface that the two op-modes drive: four
    DC motors with encoders, one per mecanum wheel.  A motor's state is the
    run mode, target position and power last written to it and the busy flag
    its controller last reported; each motor also keeps a ghost log of the
    commands it received, so that the order of writes can be specified. */
module Hardware {

  /** One value per wheel: front-left, front-right, back-left, back-right. */
  datatype Wheels<T> = Wheels(fl: T, fr: T, bl: T, br: T)

  /** The same value on all four wheels. */
  function Each<T>(x: T): Wheels<T>
  {
    Wheels(x, x, x, x)
  }

  /** The four wheels' power levels.  (Kept apart from `Wheels<real>`: real
      arithmetic on a datatype's own fields is much easier on the verifier
      than on boxed type-parameter fields.) */
  datatype Powers = Powers(fl: real, fr: real, bl: real, br: real)

  /** The same power level on all four wheels. */
  function Uniform(x: real): Powers
  {
    Powers(x, x, x, x)
  }

  datatype RunMode = RunWithoutEncoder | RunUsingEncoder | RunToPosition | StopAndResetEncoder

  /** A command written to a motor. */
  datatype Command = Mode(runMode: RunMode) | Target(ticks: int) | Power(level: real)

  class DcMotor {
    var mode: RunMode
    var target: int
    var power: real
    var busy: bool
    ghost var log: seq<Command>

    constructor ()
      ensures mode == RunWithoutEncoder && target == 0 && power == 0.0 && !busy && log == []
    {
      mode := RunWithoutEncoder;
      target := 0;
      power := 0.0;
      busy := false;
      log := [];
    }

    method SetMode(m: RunMode)
      modifies this
      ensures mode == m && target == old(target) && power == old(power) && busy == old(busy)
      ensures log == old(log) + [Mode(m)]
    {
      mode := m;
      log := log + [Mode(m)];
    }

    method SetTargetPosition(t: int)
      modifies this
      ensures target == t && mode == old(mode) && power == old(power) && busy == old(busy)
      ensures log == old(log) + [Target(t)]
    {
      target := t;
      log := log + [Target(t)];
    }

    method SetPower(p: real)
      modifies this
      ensures power == p && mode == old(mode) && target == old(target) && busy == old(busy)
      ensures log == old(log) + [Power(p)]
    {
      power := p;
      log := log + [Power(p)];
    }

    /** The motor controller reports whether the motor is still travelling to
        its target.  When that changes is physical behaviour, an input here. */
    method Report(b: bool)
      modifies this
      ensures busy == b && mode == old(mode) && target == old(target) && power == old(power)
      ensures log == old(log)
    {
      busy := b;
    }
  }

  /** The four motors are four different devices. */
  predicate Distinct(m: Wheels<DcMotor>)
  {
    m.fl != m.fr && m.fl != m.bl && m.fl != m.br &&
    m.fr != m.bl && m.fr != m.br && m.bl != m.br
  }

  function Modes(m: Wheels<DcMotor>): Wheels<RunMode>
    reads m.fl, m.fr, m.bl, m.br
  {
    Wheels(m.fl.mode, m.fr.mode, m.bl.mode, m.br.mode)
  }

  function Targets(m: Wheels<DcMotor>): Wheels<int>
    reads m.fl, m.fr, m.bl, m.br
  {
    Wheels(m.fl.target, m.fr.target, m.bl.target, m.br.target)
  }

  function MotorPowers(m: Wheels<DcMotor>): Powers
    reads m.fl, m.fr, m.bl, m.br
  {
    Powers(m.fl.power, m.fr.power, m.bl.power, m.br.power)
  }

  function Busy(m: Wheels<DcMotor>): Wheels<bool>
    reads m.fl, m.fr, m.bl, m.br
  {
    Wheels(m.fl.busy, m.fr.busy, m.bl.busy, m.br.busy)
  }

  ghost function Logs(m: Wheels<DcMotor>): Wheels<seq<Command>>
    reads m.fl, m.fr, m.bl, m.br
  {
    Wheels(m.fl.log, m.fr.log, m.bl.log, m.br.log)
  }

  /** Each wheel's log followed by the commands `more` holds for that wheel. */
  ghost function Extend(logs: Wheels<seq<Command>>, more: Wheels<seq<Command>>): Wheels<seq<Command>>
  {
    Wheels(logs.fl + more.fl, logs.fr + more.fr, logs.bl + more.bl, logs.br + more.br)
  }

  /** Writes run mode `r` to all four motors. */
  method SetModes(m: Wheels<DcMotor>, r: RunMode)
    requires Distinct(m)
    modifies m.fl, m.fr, m.bl, m.br
    ensures Modes(m) == Each(r)
    ensures Targets(m) == old(Targets(m)) && MotorPowers(m) == old(MotorPowers(m)) && Busy(m) == old(Busy(m))
    ensures Logs(m) == Extend(old(Logs(m)), Each([Mode(r)]))
  {
    m.fl.SetMode(r);
    m.fr.SetMode(r);
    m.bl.SetMode(r);
    m.br.SetMode(r);
  }

  /** Writes each motor its own target position. */
  method SetTargets(m: Wheels<DcMotor>, w: Wheels<int>)
    requires Distinct(m)
    modifies m.fl, m.fr, m.bl, m.br
    ensures Targets(m) == w
    ensures Modes(m) == old(Modes(m)) && MotorPowers(m) == old(MotorPowers(m)) && Busy(m) == old(Busy(m))
    ensures Logs(m) == Extend(old(Logs(m)), Wheels([Target(w.fl)], [Target(w.fr)], [Target(w.bl)], [Target(w.br)]))
  {
    m.fl.SetTargetPosition(w.fl);
    m.fr.SetTargetPosition(w.fr);
    m.bl.SetTargetPosition(w.bl);
    m.br.SetTargetPosition(w.br);
  }

  /** Writes each motor its own power. */
  method SetPowers(m: Wheels<DcMotor>, p: Powers)
    requires Distinct(m)
    modifies m.fl, m.fr, m.bl, m.br
    ensures MotorPowers(m) == p
    ensures Modes(m) == old(Modes(m)) && Targets(m) == old(Targets(m)) && Busy(m) == old(Busy(m))
    ensures Logs(m) == Extend(old(Logs(m)), Wheels([Power(p.fl)], [Power(p.fr)], [Power(p.bl)], [Power(p.br)]))
  {
    m.fl.SetPower(p.fl);
    m.fr.SetPower(p.fr);
    m.bl.SetPower(p.bl);
    m.br.SetPower(p.br);
  }

  /** The four controllers' busy reports. */
  method ReportBusy(m: Wheels<DcMotor>, b: Wheels<bool>)
    requires Distinct(m)
    modifies m.fl, m.fr, m.bl, m.br
    ensures Busy(m) == b
    ensures Modes(m) == old(Modes(m)) && Targets(m) == old(Targets(m)) && MotorPowers(m) == old(MotorPowers(m))
    ensures Logs(m) == old(Logs(m))
  {
    m.fl.Report(b.fl);
    m.fr.Report(b.fr);
    m.bl.Report(b.bl);
    m.br.Report(b.br);
  }
}
