# Kart engine and tire forces, in Dafny

A model of the physics core of a Unity kart: the engine component
(`KartEngine`) and the per-wheel tire forces of the behaviour component
(`KartController`), over Dafny's `real` as an idealisation of the `float`
code.

- `unity_math.dfy` (`UnityMath`): the `Mathf` helpers the kart calls
  (`Abs`, `Sign` with `Sign(0) == 1`, `Max`, `Clamp`, `Clamp01`,
  `MoveTowards`), with their properties as lemmas.
- `settings.dfy` (`Settings`): the `KartSettings` asset as a record. The
  torque curve (`AnimationCurve.Evaluate`) is a field of type `real -> real`,
  so it stays an uninterpreted function of RPM.
- `arith.dfy` (`RealArith`): a few facts about products of reals.
- `engine.dfy` (`Engine`): one call of `Simulate` as the function `Step` on
  an `EngineState`. The class `KartEngine` has the component's properties as
  fields. Its `Simulate` method is proved to perform exactly `Step`. The
  engine's invariants are lemmas about `Step` and its iterate `Iterate`: RPM
  within [idle, max], throttle within [-1, 1], limiter factor within [0, 1].
- `tires.dfy` (`Tires`): the scalar force arithmetic of `ApplyWheelForces` as
  pure functions of `vLong` and `vLat`. These cover:
  - drive force, rolling resistance, lateral force and the handbrake terms
    (`RawWheelForce`);
  - the friction circle (`FrictionCircle`, `WheelForce`);
  - the slip ratio;
  - the static weight split.
- `controller.dfy` (`Controller`): the class `KartController`, with the
  normal forces, the per-wheel telemetry, the axle totals and a log of the
  forces and impulses handed to the rigid body.
  - `FixedUpdate` is proved to perform `Tick`. `Tick` is the four wheel
    passes in the source's order (front-left, front-right, rear-left,
    rear-right), followed by the handbrake impulses.
  - `TickFacts` states what a tick does to the engine, to the log and to
    the totals.

The rigid body is not simulated. At each wheel it supplies the point
velocity, split into `vLong` (along the kart's forward axis) and `vLat`
(along the wheel's right axis). It also supplies the speed along the kart,
the length of the body's velocity and `Time.fixedDeltaTime`. All of these
are inputs of a tick. Wheel `Transform`s are compared by identity, modelled as a `WheelId`. So a
Transform assigned to two slots updates both telemetry slots, as in the
source.

Quirks of the source that the model keeps:
- The engine is stepped once per driven wheel: twice per tick when both
  rear wheels are assigned and the handbrake is off (`TwoEngineStepsPerTick`).
- `Mathf.Sign(0) == 1`, so a handbraked wheel at rest gets `-handbrakeForce`.
- With the default tuning (multiplier 2, handbrake force 2000 N) the
  handbrake's lateral factor is `1 - 2 * 1 = -1`. The handbrake therefore
  reverses a rear wheel's lateral force rather than weakening it
  (`DefaultHandbrakeReversesLateralForce`).
- The drift-rotated `wheelForward` is never read, so the steering input
  does not enter any force. `WheelForce` and `Tick` have no steering
  argument at all.
- The 1.5 drift steer boost is applied after the rotation has been built,
  so it has no effect (`RotateFrontWheels`).

## Model

| member | source | states |
|---|---|---|
| UnityMath.Abs | Assets/KartEngine.cs:51 | Mathf.Abs: the value with its sign dropped |
| UnityMath.Sign | Assets/KartController.cs:180 | Mathf.Sign as Unity defines it: +1 for zero and positive values, -1 for negative ones |
| UnityMath.Max | Assets/KartEngine.cs:92 | Mathf.Max of two values: the larger one |
| UnityMath.Clamp | Assets/KartEngine.cs:40 | Mathf.Clamp: the lower bound if the value is below it, else the upper bound if above it, else the value |
| UnityMath.Clamp01 | Assets/KartController.cs:184 | Mathf.Clamp01: Clamp to [0, 1] |
| UnityMath.MoveTowards | Assets/KartEngine.cs:41 | Mathf.MoveTowards: the target when it is within maxDelta, otherwise one step of maxDelta towards it |
| UnityMath.SignFacts | Assets/KartController.cs:180 | Mathf.Sign is +1 or -1, it is +1 exactly for non-negative values (so +1 at zero), and sign times value is the magnitude |
| UnityMath.ClampFacts | Assets/KartEngine.cs:40 | Clamp lands in [min, max], leaves values inside alone and is idempotent |
| UnityMath.Clamp01Facts | Assets/KartController.cs:184 | Clamp01 lands in [0, 1], leaves values inside alone and equals Clamp to [0, 1] |
| UnityMath.MoveTowardsFacts | Assets/KartEngine.cs:41 | MoveTowards with a non-negative step moves by at most the step and never past the target; it returns the target exactly when the target is within the step, and otherwise moves by the whole step |
| UnityMath.MoveTowardsStaysInside | Assets/KartEngine.cs:41 | moving towards a target never leaves an interval holding both the start and the target |
| Settings.DefaultSettings | Assets/KartSettings.cs:7-24 | the asset's default values have a non-zero wheel radius and friction coefficient |
| Engine.InvInertiaFactor | Assets/KartEngine.cs:92 | 60 / (2 pi max(J, 0.0001)) is positive and at most 60 / (2 pi 0.0001), and for J >= 0.0001 it is the exact inverse of 2 pi J / 60 |
| Engine.RevLimiterFactor | Assets/KartEngine.cs:71-87 | the limiter factor lies in [0, 1], is 1 at or below the limiter RPM and 0 above the limiter RPM and at or above the maximum RPM |
| Engine.LimiterTimesSpan | Assets/KartEngine.cs:85-86 | scaled by the ramp's width, the factor is the distance to the maximum RPM clamped to [0, width], so the ramp 1 - (rpm - revLimiterRpm)/width meets both flat parts |
| Engine.RevLimiterMonotone | Assets/KartEngine.cs:71-87 | the limiter factor never increases with RPM |
| Engine.RevLimiterContinuous | Assets/KartEngine.cs:71-87 | the factor changes by at most the RPM change divided by the ramp's width |
| Engine.RevLimiterScenarios | Assets/KartEngine.cs:73-86 | the factor is 1 at the limiter RPM, 1/2 halfway up the ramp and 0 at the maximum RPM |
| Engine.ClampRpm | Assets/KartEngine.cs:58-59 | the clamped RPM is at most maxRpm, at least idleRpm when idleRpm <= maxRpm, and unchanged when already inside |
| Engine.Step | Assets/KartEngine.cs:38-69 | after one Simulate the RPM is at most maxRpm (and at least idleRpm when idleRpm <= maxRpm), the current torque equals the drive torque, the net torque is drive - friction - load, and the inertia factor is unchanged |
| Engine.Iterate | Assets/KartEngine.cs:38-69 | n calls of Simulate with the same throttle input, forward speed and time step |
| Engine.StepThrottle | Assets/KartEngine.cs:40-41 | the smoothed throttle stays in [-1, 1], moves by at most throttleResponse * dt and lies between its old value and the clamped input |
| Engine.DriveTorqueBounded | Assets/KartEngine.cs:47-48 | a throttle in [-1, 1] times a limiter factor in [0, 1] never asks for more than the curve's torque |
| Engine.StepDriveTorque | Assets/KartEngine.cs:43-50 | the limiter factor, the curve lookup and the friction torque use the RPM from before the step; the drive torque is curve(rpm) * (smoothed throttle * limiter factor) and its magnitude is at most the curve's torque at that RPM |
| Engine.StepIgnoresSpeedSign | Assets/KartEngine.cs:51-53 | the load torque is loadTorqueCoeff * abs(forwardSpeed), so a step is the same for +speed and -speed |
| Engine.ZeroThrottleDoesNotRaiseRpm | Assets/KartEngine.cs:47-59 | with zero smoothed throttle, non-negative loss coefficients and RPM inside [idle, max], a step does not raise the RPM |
| Engine.IterateThrottleBounded | Assets/KartEngine.cs:40-41 | any number of steps keeps the smoothed throttle in [-1, 1] |
| Engine.IterateRpmBounded | Assets/KartEngine.cs:56-59 | any number of steps keeps the RPM in [idleRpm, maxRpm] |
| Engine.CoastingRpmNonIncreasing | Assets/KartEngine.cs:47-59 | with the throttle released, the RPM never rises over any number of steps and stays at or above idle |
| Engine.KartEngine.constructor | Assets/KartEngine.cs:25-36 | a new component has every property at zero and the limiter factor at 1 |
| Engine.KartEngine.Start | Assets/KartEngine.cs:89-93 | Start sets the RPM to idle and a positive inverse-inertia factor |
| Engine.KartEngine.UpdateRevLimiterFactor | Assets/KartEngine.cs:71-87 | the stored factor is the limiter factor of the current RPM |
| Engine.KartEngine.Simulate | Assets/KartEngine.cs:38-69 | the new state is Step of the old one, the returned value is the drive torque (equal to CurrentTorque, not the net torque), and the RPM ends in [idle, max] |
| Tires.StaticWheelLoads | Assets/KartController.cs:245-258 | the weight m * g split between the axles by the front share, then halved between the two wheels of each axle |
| Tires.StaticWheelLoadsFacts | Assets/KartController.cs:245-258 | both wheels of an axle carry the same load, the front axle carries share * m * g and the rear (1 - share) * m * g, the four sum to m * g, and all are non-negative for a share in [0, 1] |
| Tires.DefaultWheelLoads | Assets/KartController.cs:245-258 | with the default mass, gravity and share every wheel carries 196.2 N |
| Tires.DriveForce | Assets/KartController.cs:157-159 | twice the drive force times the wheel radius is engineTorque * gearRatio * efficiency |
| Tires.DriveForceSign | Assets/KartController.cs:157-159 | with a positive ratio, efficiency and radius the drive force has the engine torque's sign, and is zero exactly when the torque is |
| Tires.RawWheelForce | Assets/KartController.cs:141-185 | steps 1, 2, 3 and 5 of a wheel force in the source's order: drive force only on a driven wheel with the handbrake off, rolling resistance, the axle's lateral force, and on a handbraked driven wheel the handbrake force and the lateral factor |
| Tires.HandbrakeLateralFactor | Assets/KartController.cs:184 | the lateral factor 1 - mult * Clamp01(abs(handbrakeForce) / 1000) |
| Tires.FrontWheelRawForce | Assets/KartController.cs:168-174 | a non-driven wheel gets only rolling resistance and the front lateral force, whatever the handbrake and the engine do, and no force at rest |
| Tires.DrivenWheelRawForce | Assets/KartController.cs:145-174 | a driven wheel with the handbrake off gets drive force minus rolling resistance, and the rear lateral force |
| Tires.EngineTorqueOnlyDrives | Assets/KartController.cs:145-159 | the engine torque affects the force only on a driven wheel with the handbrake off |
| Tires.HandbrakedWheelRawForce | Assets/KartController.cs:176-184 | a handbraked driven wheel gets no drive force, fx = -rolling - Sign(vLong) * handbrakeForce (so -handbrakeForce at vLong = 0), and its lateral force is multiplied by 1 - mult * clamp01(abs(force)/1000) |
| Tires.DefaultHandbrakeReversesLateralForce | Assets/KartController.cs:184 | with the default tuning the lateral factor is -1, so the handbraked rear lateral force is +C_rear * vLat |
| Tires.HandbrakeLateralFactorRange | Assets/KartController.cs:184 | for a non-negative multiplier the factor lies in [1 - mult, 1], and is 1 when the handbrake force is zero |
| Tires.FrictionCircle | Assets/KartController.cs:194-203 | a force longer than both mu * N and 1e-6 is scaled by mu * N / length; any other force is kept |
| Tires.WheelForce | Assets/KartController.cs:141-203 | the raw force passed through the friction circle of radius mu * N, its length taken with Mathf.Sqrt |
| Tires.FrictionCircleFacts | Assets/KartController.cs:194-203 | a force no longer than mu * N (or than 1e-6) is unchanged; a longer one is scaled by mu * N / length in both components, so that fx^2 + fy^2 = (mu * N)^2 |
| Tires.FrictionCircleBound | Assets/KartController.cs:194-203 | after the friction circle, fx^2 + fy^2 is at most max((mu * N)^2, 1e-12) |
| Tires.WheelForceWithinGrip | Assets/KartController.cs:141-203 | the whole per-wheel force lies within the friction circle (or is negligible), and a raw force already inside it is applied unchanged |
| Tires.SlipRatio | Assets/KartController.cs:533 | the slip ratio is non-negative, is abs(fx) / abs(N * mu) when N > 0.01 (stated multiplied out) and 0 otherwise |
| Tires.SlipAtMostOneWithinGrip | Assets/KartController.cs:533 | a longitudinal force within the grip mu * N gives a slip ratio of at most 1 |
| Tires.WheelSlipAtMostOne | Assets/KartController.cs:194-221 | the slip ratio stored for a wheel's applied force is at most 1 whenever mu * N is at least 1e-6 |
| Controller.StoreTelemetry | Assets/KartController.cs:512-558 | the telemetry after one wheel's readings: every slot holding this wheel gets (vLat, fx, fy, slip ratio); a driven wheel adds fx to the rear total and sets the rear slip ratio, any other adds fy to the front total |
| Controller.WheelPass | Assets/KartController.cs:125-222 | one ApplyWheelForces: nothing for an unassigned wheel or without a rigid body; otherwise one engine step for a driven wheel with the handbrake off, the wheel's force appended to the log and its telemetry stored |
| Controller.HandbrakeImpulse | Assets/KartController.cs:232-238 | the impulse at each rear wheel is zero when the body's speed is at most 1e-5 (the normalized velocity is then the zero vector), and otherwise half of handbrakeForce * dt |
| Controller.HandbrakeImpulses | Assets/KartController.cs:227-239 | with the handbrake on and the body attached, one impulse at each assigned rear wheel, left before right; nothing otherwise |
| Controller.Tick | Assets/KartController.cs:390-404 | one FixedUpdate: reset the totals, the wheel passes FL, FR, RL, RR, then the handbrake impulses |
| Controller.WheelPassFacts | Assets/KartController.cs:125-222 | one wheel pass steps the engine at most once (only for a driven wheel with the handbrake off), appends exactly one force at that wheel if it is assigned and the body is attached, and adds that force only to its own axle's total |
| Controller.TickRearSlipRatio | Assets/KartController.cs:396-400 | after a tick the rear slip ratio is the last driven wheel's: the rear-right one's when it is assigned, else the rear-left one's, and unchanged when neither ran; it is SlipRatio of that wheel's fx and load |
| Controller.UnassignedWheelNoEffect | Assets/KartController.cs:127 | a null wheel, or a missing rigid body, changes nothing: no force, no telemetry, no engine step |
| Controller.HandbrakeImpulsesFacts | Assets/KartController.cs:227-239 | the handbrake adds only impulses, one per assigned rear wheel and only while active, and nothing to the axle totals |
| Controller.PassesSummary | Assets/KartController.cs:396-403 | the four wheel passes and the handbrake impulses, one after the other, step the engine once per assigned rear wheel with the handbrake off, append the forces at the assigned wheels in order and then the rear impulses, and add to the totals exactly the appended driven fx and non-driven fy |
| Controller.TickFacts | Assets/KartController.cs:390-404 | a tick steps the engine once per assigned rear wheel (none with the handbrake on), only appends to the log, applies one force per assigned wheel in the order FL, FR, RL, RR, then the impulses at the assigned rear wheels, and leaves in the totals the sums of this tick's driven fx and non-driven fy |
| Controller.TwoEngineStepsPerTick | Assets/KartController.cs:396-400 | with both rear wheels present and the handbrake off, a tick advances the engine by exactly two Simulate steps |
| Controller.KartController.constructor | Assets/KartController.cs:44-122 | a new component has no rigid body, no input, zero loads and steer angles, empty telemetry and no applied forces |
| Controller.KartController.Start | Assets/KartController.cs:360-370 | Start attaches the rigid body, gives it the configured mass and sets the static loads for that mass |
| Controller.KartController.ComputeStaticWheelLoads | Assets/KartController.cs:245-258 | the normal forces are the static split of the body's weight, and they sum to m * g |
| Controller.KartController.RotateFrontWheels | Assets/KartController.cs:291-308 | each assigned front wheel gets the yaw maxSteerAngle * steerInput, whatever the handbrake and the speed; an unassigned one keeps its angle |
| Controller.KartController.StoreWheelTelemetryData | Assets/KartController.cs:512-558 | the telemetry becomes StoreTelemetry of the old: every slot holding this wheel gets (vLat, fx, fy, slip ratio), a driven wheel adds fx to the rear total and sets the rear slip ratio, any other adds fy to the front total |
| Controller.KartController.ApplyWheelForces | Assets/KartController.cs:125-222 | engine, log and telemetry become WheelPass of the old ones |
| Controller.KartController.ApplyHandbrakeForces | Assets/KartController.cs:227-239 | the log grows by exactly the handbrake impulses, only while the handbrake is on: at each assigned rear wheel, half of handbrakeForce * dt while the body moves faster than 1e-5, and a zero impulse at rest |
| Controller.KartController.FixedUpdate | Assets/KartController.cs:390-404 | engine, log and telemetry become Tick of the old ones; the engine advances by EngineStepsPerTick steps, the forces of this tick are at the assigned wheels in order, and the totals are the sums of this tick's driven fx and non-driven fy |

## Left out

- Unity geometry is left out: `Vector3.Dot`, `GetPointVelocity`, `InverseTransformDirection`, `Quaternion.Euler`, `normalized`. The velocities at the wheels and along the kart are inputs, held fixed during a tick. Unity holds them fixed too, because forces are integrated after `FixedUpdate`.
- `AddForceAtPosition` is recorded in a log, not integrated. A wheel force is logged in the wheel's frame (`kartForward * fx + wheelRight * fy` is not formed). A handbrake impulse is logged by its length: half of `handbrakeForce * dt`, or zero when the body's speed is at most 1e-5, where `normalized` returns the zero vector. Its direction, against the body's velocity, is left out.
- The slip angle `_lateralSlipAngle` is left out (Assets/KartController.cs:216-218, 552-553). It needs `Atan2`, `Rad2Deg` and the body's local velocity, and nothing modelled reads it.
- The rear slip ratio written at Assets/KartController.cs:214 is not modelled. The same call always overwrites it at line 556, which is modelled.
- `Mathf.Sqrt` is the class constant `sqrt`. The lemmas that need it assume it is a square root (`IsSqrt`).
- Single-precision rounding is left out. Float literals are taken as their decimal values, and `Mathf.PI` as the exact value of the float.
- `Tires.WheelForceWithinGrip`, `Tires.WheelSlipAtMostOne`: these hold only for an exact square root. Rounded float arithmetic can land just outside the circle.
- `ReadInput`, `OnEnable` and `OnDisable` are input-system plumbing and are left out. The input fields are read as they are.
- `OnGUI` and the telemetry style set up in `Start` (Assets/KartController.cs:373-380) are presentation and are left out.
- `Initialize` (Assets/KartController.cs:261-268) is left out. It stores quaternions; the steer angle is kept instead as the yaw on top of the initial rotation.
- The unused `ApplyDriveForceToRearWheels` (Assets/KartController.cs:310-335) is left out, as are the commented-out fields and the unused `ThrottleInput` property (Assets/KartEngine.cs:34).
- The drift-rotated `wheelForward` (Assets/KartController.cs:187-191) is never read, so it is left out. Computing it would also divide by `maxSteerAngle`.
- A null `_kartSettings` or `_engine` is left out. A missing rigid body in `ApplyHandbrakeForces` with the handbrake on raises an exception before any effect, so the model treats it as a no-op.
- `Controller.KartController.FixedUpdate`, `Controller.KartController.ApplyWheelForces`, `Controller.KartController.StoreWheelTelemetryData`: require a non-zero wheel radius and friction coefficient (`ValidSettings`). The source divides by both, and the infinities and NaNs of float division by zero are not modelled.
- `Controller.KartController.Start`: always applies the configured mass. The source skips this when no settings asset is assigned, a case the model excludes.
