# Mecanum drive op-modes, modelled in Dafny

A model of the two driver programs ("op-modes") of an FTC robot whose
chassis runs on four mecanum wheels. Each wheel has its own DC motor with an
encoder.

- **Autonomous (`FirstAuto`)**
  - A distance in inches, or an angle in degrees, becomes a signed encoder
    tick count. The count is truncated toward zero, like Java's `(int)` cast.
  - Each move spreads that count over the four wheels with its own sign
    table.
  - `moveMotors` supervises one move:
    1. clear the encoders;
    2. write the four targets;
    3. switch every motor to run-to-position;
    4. start the motors;
    5. poll until the op-mode stops, the move times out (2 s) or no motor is
       busy;
    6. cut all power.
- **Tele-op (`FirstTele`)**
  - One pass of the driver loop maps three stick axes to a chassis motion
    (axial, lateral, yaw).
  - It mixes that motion into four wheel powers.
  - When the largest magnitude exceeds 1, it divides all four powers by it.

Files:

- `hardware.dfy` (module `Hardware`): the four-wheel value types. It also
  holds a `DcMotor` class with the fields the op-modes write (run mode,
  target, power) and the busy flag its controller reports. A ghost log of the
  commands each motor received lets the order of writes be specified.
- `ticks.dfy` (module `Ticks`): the calibration constants, the truncating
  cast and the three sign tables. These are pure functions.
- `auto.dfy` (module `Auto`): the class `FirstAuto` and its move methods.
  These are imperative. The clock, the op-mode's active flag and the
  motors' busy flags are not computed by the program. They enter as a trace
  of `Poll` observations, one per evaluation of the loop condition.
- `tele.dfy` (module `Tele`): the axis mapping, mixing and normalisation as
  functions. `WheelPowers` is the step-by-step loop body. The class
  `FirstTele` writes the powers to the motors.

All source paths below are relative to the repository root.

## Model

| member | source | states |
|---|---|---|
| Ticks.IntCast | robot/TeamCode/src/main/java/org/firstinspires/ftc/teamcode/FirstAuto.java:60 | The `(int)` cast truncates toward zero: for x ≥ 0 the result n satisfies 0 ≤ n ≤ x < n+1; for x < 0 it satisfies n−1 < x ≤ n ≤ 0. |
| Ticks.TruncationUnique | robot/TeamCode/src/main/java/org/firstinspires/ftc/teamcode/FirstAuto.java:60 | Truncation determines exactly one integer, so any count meeting the truncation bounds is the cast's result. |
| Ticks.IntCastOdd | robot/TeamCode/src/main/java/org/firstinspires/ftc/teamcode/FirstAuto.java:60 | The cast is odd: casting −x gives minus the cast of x. |
| Ticks.IntCastMonotone | robot/TeamCode/src/main/java/org/firstinspires/ftc/teamcode/FirstAuto.java:60 | The cast never decreases: x ≤ y gives cast(x) ≤ cast(y). |
| Ticks.DriveTargets | robot/TeamCode/src/main/java/org/firstinspires/ftc/teamcode/FirstAuto.java:59-62 | drive sends the sign table (−t, t, −t, t), where t is inches × TICKS_PER_INCH truncated toward zero. |
| Ticks.StrafeTargets | robot/TeamCode/src/main/java/org/firstinspires/ftc/teamcode/FirstAuto.java:65-68 | strafe sends (t, −t, t, −t), where t is inches × TICKS_PER_INCH × 1.1 truncated toward zero. |
| Ticks.TurnTargets | robot/TeamCode/src/main/java/org/firstinspires/ftc/teamcode/FirstAuto.java:74-78 | turn sends (−t, t, t, −t), where t is degrees × 8.0 truncated toward zero. |
| Ticks.MovesAreOdd | robot/TeamCode/src/main/java/org/firstinspires/ftc/teamcode/FirstAuto.java:59-78 | For all three moves, reversing the input negates every wheel target, and an input of 0 gives four zero targets. |
| Ticks.MovesMonotone | robot/TeamCode/src/main/java/org/firstinspires/ftc/teamcode/FirstAuto.java:59-78 | A longer move (or a larger angle) never gets a smaller tick count. |
| Ticks.DriveTenInches | robot/TeamCode/src/main/java/org/firstinspires/ftc/teamcode/FirstAuto.java:52 | With the chassis constants, drive(10) sends the targets (−418, 418, −418, 418). |
| Ticks.QuarterTurn | robot/TeamCode/src/main/java/org/firstinspires/ftc/teamcode/FirstAuto.java:74-78 | turn(90) sends the targets (−720, 720, 720, −720). |
| Hardware.SetModes | robot/TeamCode/src/main/java/org/firstinspires/ftc/teamcode/FirstAuto.java:92-95 | Every motor is switched to the given run mode and logs that command. Targets, powers and busy flags are unchanged. |
| Hardware.SetTargets | robot/TeamCode/src/main/java/org/firstinspires/ftc/teamcode/FirstAuto.java:97-100 | Each motor's target becomes its own argument and it logs that command. Nothing else changes. |
| Hardware.SetPowers | robot/TeamCode/src/main/java/org/firstinspires/ftc/teamcode/FirstTele.java:63-66 | Each motor's power becomes its own argument and it logs that command. Nothing else changes. |
| Auto.FirstAuto.ResetEncoders | robot/TeamCode/src/main/java/org/firstinspires/ftc/teamcode/FirstAuto.java:126-131 | All four motors are in STOP_AND_RESET_ENCODER mode, each has logged exactly that one command, and targets, powers and busy flags are unchanged. |
| Auto.FirstAuto.StopMotors | robot/TeamCode/src/main/java/org/firstinspires/ftc/teamcode/FirstAuto.java:133-138 | All four powers are exactly 0, each motor has logged exactly one power-0 command, and modes, targets and busy flags are unchanged. |
| Hardware.ReportBusy | robot/TeamCode/src/main/java/org/firstinspires/ftc/teamcode/FirstAuto.java:114-115 | The four `isBusy()` answers, given from outside, become the motors' busy flags; modes, targets, powers and logs are unchanged. |
| Auto.MoveLogsInOrder | robot/TeamCode/src/main/java/org/firstinspires/ftc/teamcode/FirstAuto.java:90-111 | The five command batches of a move's start, in source order, make up each motor's start sequence: reset, using-encoder, its own target, run-to-position, power. |
| Auto.FirstAuto.StartMove | robot/TeamCode/src/main/java/org/firstinspires/ftc/teamcode/FirstAuto.java:90-111 | Before polling starts: all four motors are in RUN_TO_POSITION, each target equals its argument, and the powers are (0, 0.1, 0.1, 0.1). Each motor's log grows by reset, using-encoder, target, run-to-position and power, in that order, so every target write comes after an encoder reset. |
| Auto.FirstAuto.AwaitMotors | robot/TeamCode/src/main/java/org/firstinspires/ftc/teamcode/FirstAuto.java:113-121 | The loop stops at the first poll where the op-mode is inactive, the clock reads ≥ 2.0 s or no motor is busy, and every earlier poll kept it going. Modes, targets, powers and logs are unchanged. |
| Auto.FirstAuto.MoveMotors | robot/TeamCode/src/main/java/org/firstinspires/ftc/teamcode/FirstAuto.java:89-124 | Whatever ends the loop, on return every motor is in RUN_TO_POSITION with its argument as target and power exactly 0. Each motor received exactly the start sequence followed by power 0. The poll count satisfies the loop's exit condition. |
| Auto.FirstAuto.Drive | robot/TeamCode/src/main/java/org/firstinspires/ftc/teamcode/FirstAuto.java:59-62 | drive(inches) is a finished move, whatever ended polling, to DriveTargets(inches), with all powers 0 at the end. |
| Auto.FirstAuto.Strafe | robot/TeamCode/src/main/java/org/firstinspires/ftc/teamcode/FirstAuto.java:65-68 | strafe(inches) is a finished move, whatever ended polling, to StrafeTargets(inches), with all powers 0 at the end. |
| Auto.FirstAuto.Turn | robot/TeamCode/src/main/java/org/firstinspires/ftc/teamcode/FirstAuto.java:74-78 | turn(degrees) is a finished move, whatever ended polling, to TurnTargets(degrees), with all powers 0 at the end. |
| Auto.FirstAuto.RunOpMode | robot/TeamCode/src/main/java/org/firstinspires/ftc/teamcode/FirstAuto.java:44-52 | One encoder reset followed by drive(10) leaves the targets at (−418, 418, −418, 418), every motor in RUN_TO_POSITION and every power at 0. |
| Auto.KeepPolling | robot/TeamCode/src/main/java/org/firstinspires/ftc/teamcode/FirstAuto.java:113-115 | The polling condition: the op-mode is active, the elapsed time is below TIMEOUT_SECONDS, and at least one motor is busy. |
| Auto.ExitReasons | robot/TeamCode/src/main/java/org/firstinspires/ftc/teamcode/FirstAuto.java:113-115 | The loop ends only because the op-mode is inactive, the elapsed time reached TIMEOUT_SECONDS, or no motor is busy. |
| Auto.StopsAtUnique | robot/TeamCode/src/main/java/org/firstinspires/ftc/teamcode/FirstAuto.java:113-121 | A poll trace determines how many times the loop body runs. |
| Auto.TimesOut | robot/TeamCode/src/main/java/org/firstinspires/ftc/teamcode/FirstAuto.java:113-115 | While the op-mode stays active and some motor stays busy, the loop stops at exactly the first poll whose clock reads ≥ 2.0 s. |
| Auto.ArrivedAtOnce | robot/TeamCode/src/main/java/org/firstinspires/ftc/teamcode/FirstAuto.java:113-115 | If no motor is busy at the first poll, the loop body never runs. |
| Tele.MotionOf | robot/TeamCode/src/main/java/org/firstinspires/ftc/teamcode/FirstTele.java:42-44 | The axis mapping loses nothing: the stick reading is recovered from (axial, lateral, yaw), and the motion is forward exactly when the left stick's y is negative (pushed forward). |
| Tele.Mix | robot/TeamCode/src/main/java/org/firstinspires/ftc/teamcode/FirstTele.java:46-49 | The four mixing equations lose nothing: (axial, lateral, yaw) can be recovered from the powers, and the powers always satisfy fl + fr = bl + br. |
| Tele.MixableIsMixed | robot/TeamCode/src/main/java/org/firstinspires/ftc/teamcode/FirstTele.java:46-49 | Conversely, every power set with fl + fr = bl + br is the mixing of some motion. |
| Tele.SticksAtRest | robot/TeamCode/src/main/java/org/firstinspires/ftc/teamcode/FirstTele.java:42-49 | All sticks at 0 give all four powers 0. |
| Tele.MaxMagnitude | robot/TeamCode/src/main/java/org/firstinspires/ftc/teamcode/FirstTele.java:52-54 | `max` is at least every power's magnitude and equals one of them, i.e. it is the largest magnitude. |
| Tele.DivideByMaxMagnitude | robot/TeamCode/src/main/java/org/firstinspires/ftc/teamcode/FirstTele.java:56-61 | Dividing the four powers by their largest magnitude puts them all in [−1, 1], with largest magnitude exactly 1. |
| Tele.DivideAllUndone | robot/TeamCode/src/main/java/org/firstinspires/ftc/teamcode/FirstTele.java:56-61 | Multiplying the divided powers back by max restores the originals. |
| Tele.Normalize | robot/TeamCode/src/main/java/org/firstinspires/ftc/teamcode/FirstTele.java:51-61 | Every result power has magnitude ≤ 1. When max ≤ 1 the input is returned unchanged. Otherwise the result times max is the input, and the result's largest magnitude is exactly 1. |
| Tele.NormalizeKeepsRatios | robot/TeamCode/src/main/java/org/firstinspires/ftc/teamcode/FirstTele.java:56-61 | Normalising preserves every pairwise ratio, stated as cross-products so zero powers are covered: q_i·p_j = q_j·p_i. |
| Tele.NormalizeKeepsSigns | robot/TeamCode/src/main/java/org/firstinspires/ftc/teamcode/FirstTele.java:56-61 | Normalising keeps each wheel's direction: positive stays positive, negative stays negative, zero stays zero. |
| Tele.NormalizeInRange | robot/TeamCode/src/main/java/org/firstinspires/ftc/teamcode/FirstTele.java:56 | Powers already within [−1, 1] pass through untouched. |
| Tele.NormalizeIdempotent | robot/TeamCode/src/main/java/org/firstinspires/ftc/teamcode/FirstTele.java:51-61 | Normalising a normalised power set changes nothing. |
| Tele.FullForward | robot/TeamCode/src/main/java/org/firstinspires/ftc/teamcode/FirstTele.java:42-61 | Left stick fully forward (y = −1, other axes 0) gives 1.0 on every wheel, which normalisation leaves unchanged. |
| Tele.WheelPowers | robot/TeamCode/src/main/java/org/firstinspires/ftc/teamcode/FirstTele.java:39-61 | The step-by-step loop body (axes, mixing, running max, in-place division) computes exactly Normalize(Mix(MotionOf(g))), so every power is in [−1, 1]. |
| Tele.FirstTele.Step | robot/TeamCode/src/main/java/org/firstinspires/ftc/teamcode/FirstTele.java:38-67 | One loop iteration leaves each motor with its normalised mixed power, in range, logged as one power command per motor. Modes, targets and busy flags are unchanged. |
| Tele.Oriented | robot/TeamCode/src/main/java/org/firstinspires/ftc/teamcode/FirstTele.java:27-30 | A motor set to REVERSE applies the negation of the power written to it; a direction never changes a power's magnitude, so the tele-op's directions never move a power set into or out of range. |
| Tele.ForwardMatchesDriveTable | robot/TeamCode/src/main/java/org/firstinspires/ftc/teamcode/FirstTele.java:27-49 | With the tele-op's reversed left motors, pure forward stick gives the motors the signs (−, +, −, +). That is the autonomous drive table (FirstAuto.java:61), whose motors keep their default direction. |
| Tele.LateralAndYawDifferFromMoveTables | robot/TeamCode/src/main/java/org/firstinspires/ftc/teamcode/FirstTele.java:27-49 | Seen the same way, pure sideways stick gives (−, −, +, +) and pure rotation gives (−, −, −, −). Neither matches the autonomous strafe table (+, −, +, −) or its turn table (−, +, +, −), nor their negations. |

## Left out

- Hardware-map lookup, `setZeroPowerBehavior`, `waitForStart` and the op-mode lifecycle are framework calls with no logic to model. Motors are passed to the constructors as four distinct objects.
- `setDirection` (FirstTele.java:27-30): `DcMotor` has no direction field. A direction reverses how the motor applies the power written to it; it enters the model only through `Tele.Oriented`, in the two cross-check lemmas about polarity.
- Telemetry (`addData`, `update`, `getCurrentPosition`, the run-time string) is output only and is left out.
- `ElapsedTime`, `opModeIsActive()` and `isBusy()` are not computed. A poll trace gives them, one `Poll` per evaluation of the loop condition, with elapsed time counted from `runtime.reset()` at FirstAuto.java:107.
- Auto.FirstAuto.MoveMotors requires that some poll in the trace ends the loop. On a robot this means the 2 s timeout is eventually read; a trace on which the loop never ends is not modelled.
- `runtime.reset()` right after `waitForStart` in both op-modes (FirstAuto.java:49-50, FirstTele.java:35-36), and the tele-op's outer `while (opModeIsActive())` loop, are not modelled. Step models one iteration.
- Arithmetic is over exact reals, not IEEE-754 doubles. Rounding errors, NaN and infinities are not modelled. `Math.PI` is its decimal literal 3.141592653589793.
- Ticks.IntCast: does not model the saturation of Java's `(int)` cast at the 32-bit bounds, nor NaN mapping to 0. The tick counts are unbounded integers.
- The move methods return nothing in the source. The model's ghost `polls` count exists only to state how the loop ended. There is no separate outcome value.
- Ticks are truncated toward zero by the `(int)` cast (FirstAuto.java:60, 66, 76), not rounded to the nearest integer; the model truncates.
- The doc comment at FirstAuto.java:84-87 gives forward as FL+ FR+ BL+ BR+. The code at FirstAuto.java:61 sends (−t, t, −t, t), and the model follows the code.
- FirstAuto.java:108 starts the front-left motor at power 0, not DRIVE_SPEED. The model keeps this as written: that wheel is commanded to its target but given no power.
- `FrontLeftTest.java` copies one stick axis to one motor and has no logic of its own.
