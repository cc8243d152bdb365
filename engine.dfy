/** The kart engine (`KartEngine`): a persistent state machine stepped once
    per call of `Simulate`. It slews the throttle, scales it by a rev-limiter
    factor, looks up the torque curve, integrates the net torque into RPM and
    hands the drive torque (not the net torque) to the drivetrain. */
module Engine {
  import opened UnityMath
  import opened Settings
  import opened RealArith

  /** The component's own serialized fields. */
  datatype EngineTuning = EngineTuning(
    idleRpm: real,
    revLimiterRpm: real,
    throttleResponse: real,     // 1/s
    engineFrictionCoeff: real,  // N*m per rpm
    loadTorqueCoeff: real)      // N*m per m/s

  const DefaultTuning: EngineTuning := EngineTuning(1000.0, 7500.0, 5.0, 0.02, 5.0)

  /** Everything the engine keeps between calls. */
  datatype EngineState = EngineState(
    smoothedThrottle: real,
    currentRpm: real,
    currentTorque: real,
    revLimiterFactor: real,
    driveTorque: real,
    frictionTorque: real,
    loadTorque: real,
    netTorque: real,
    invInertiaFactor: real)

  /** Mathf.PI, the single-precision value of pi written out exactly. */
  const MathfPI: real := 3.1415927410125732421875

  /** The smallest engine inertia `Start` accepts before dividing by it. */
  const MinEngineInertia: real := 0.0001

  /** rpm per second gained per N*m of net torque: 60 / (2 pi J), with J
      raised to MinEngineInertia, so the factor is positive and bounded. */
  function InvInertiaFactor(engineInertia: real): (r: real)
    ensures 0.0 < r <= 60.0 / (2.0 * MathfPI * MinEngineInertia)
    ensures MinEngineInertia <= engineInertia ==> r * (2.0 * MathfPI * engineInertia) == 60.0
  {
    var j := Max(engineInertia, MinEngineInertia);
    assert 2.0 * MathfPI * MinEngineInertia <= 2.0 * MathfPI * j;
    60.0 / (2.0 * MathfPI * j)
  }

  /** The rev-limiter factor for a given RPM: full throttle up to the limiter
      RPM, none from the maximum RPM on, a linear ramp in between. */
  function RevLimiterFactor(rpm: real, revLimiterRpm: real, maxRpm: real): (r: real)
    ensures 0.0 <= r <= 1.0
    ensures rpm <= revLimiterRpm ==> r == 1.0
    ensures revLimiterRpm < rpm && maxRpm <= rpm ==> r == 0.0
  {
    if rpm <= revLimiterRpm then 1.0
    else if rpm >= maxRpm then 0.0
    else
      var span := maxRpm - revLimiterRpm;
      var t := (rpm - revLimiterRpm) / span;
      assert t * span == rpm - revLimiterRpm;
      1.0 - t
  }

  /** Scaled by the ramp's width, the factor is the distance to the maximum
      RPM clamped to [0, width]: the ramp meets both flat parts. */
  lemma LimiterTimesSpan(rpm: real, revLimiterRpm: real, maxRpm: real)
    requires revLimiterRpm < maxRpm
    ensures RevLimiterFactor(rpm, revLimiterRpm, maxRpm) * (maxRpm - revLimiterRpm)
         == Clamp(maxRpm - rpm, 0.0, maxRpm - revLimiterRpm)
  {
    var span := maxRpm - revLimiterRpm;
    if revLimiterRpm < rpm < maxRpm {
      var t := (rpm - revLimiterRpm) / span;
      assert t * span == rpm - revLimiterRpm;
      calc {
        RevLimiterFactor(rpm, revLimiterRpm, maxRpm) * span;
        (1.0 - t) * span;
        span - t * span;
        maxRpm - rpm;
      }
    }
  }

  /** The factor never increases with RPM. */
  lemma RevLimiterMonotone(rpm1: real, rpm2: real, revLimiterRpm: real, maxRpm: real)
    requires rpm1 <= rpm2
    ensures RevLimiterFactor(rpm2, revLimiterRpm, maxRpm) <= RevLimiterFactor(rpm1, revLimiterRpm, maxRpm)
  {
    if revLimiterRpm < rpm1 && rpm2 < maxRpm {
      var span := maxRpm - revLimiterRpm;
      var t1 := (rpm1 - revLimiterRpm) / span;
      var t2 := (rpm2 - revLimiterRpm) / span;
      assert t2 - t1 == (rpm2 - rpm1) / span;
      assert 0.0 <= (rpm2 - rpm1) / span;
    }
  }

  /** The factor is continuous: it changes by at most the RPM change divided
      by the ramp's width (stated multiplied out). */
  lemma RevLimiterContinuous(rpm1: real, rpm2: real, revLimiterRpm: real, maxRpm: real)
    requires revLimiterRpm < maxRpm
    ensures Abs(RevLimiterFactor(rpm1, revLimiterRpm, maxRpm) - RevLimiterFactor(rpm2, revLimiterRpm, maxRpm))
            * (maxRpm - revLimiterRpm) <= Abs(rpm1 - rpm2)
  {
    var span := maxRpm - revLimiterRpm;
    var f1 := RevLimiterFactor(rpm1, revLimiterRpm, maxRpm);
    var f2 := RevLimiterFactor(rpm2, revLimiterRpm, maxRpm);
    LimiterTimesSpan(rpm1, revLimiterRpm, maxRpm);
    LimiterTimesSpan(rpm2, revLimiterRpm, maxRpm);
    var g1 := Clamp(maxRpm - rpm1, 0.0, span);
    var g2 := Clamp(maxRpm - rpm2, 0.0, span);
    assert Abs(g1 - g2) <= Abs(rpm1 - rpm2);
    assert (f1 - f2) * span == g1 - g2;
    if f1 - f2 < 0.0 {
      assert Abs(f1 - f2) * span == -((f1 - f2) * span);
    }
  }

  /** Exactly at the limiter RPM the factor is 1; halfway up the ramp it is 1/2. */
  lemma RevLimiterScenarios(revLimiterRpm: real, maxRpm: real)
    requires revLimiterRpm < maxRpm
    ensures RevLimiterFactor(revLimiterRpm, revLimiterRpm, maxRpm) == 1.0
    ensures RevLimiterFactor((revLimiterRpm + maxRpm) / 2.0, revLimiterRpm, maxRpm) == 0.5
    ensures RevLimiterFactor(maxRpm, revLimiterRpm, maxRpm) == 0.0
  {
    var span := maxRpm - revLimiterRpm;
    assert (revLimiterRpm + maxRpm) / 2.0 - revLimiterRpm == 0.5 * span;
    assert (0.5 * span) / span == 0.5;
  }

  /** The most the smoothed throttle may move in one step. */
  function ThrottleStep(throttleResponse: real, deltaTime: real): real
  {
    throttleResponse * deltaTime
  }

  /** The torque sent to the drivetrain: the curve's full-throttle torque
      scaled by the smoothed throttle and the limiter factor. */
  function DriveTorque(maxTorqueAtRpm: real, smoothedThrottle: real, revLimiterFactor: real): real
  {
    maxTorqueAtRpm * (smoothedThrottle * revLimiterFactor)
  }

  /** Internal losses, proportional to RPM. */
  function FrictionTorque(engineFrictionCoeff: real, rpm: real): real
  {
    engineFrictionCoeff * rpm
  }

  /** The load of the kart on the engine, proportional to its speed, whatever
      the direction of travel. */
  function LoadTorque(loadTorqueCoeff: real, forwardSpeed: real): real
  {
    loadTorqueCoeff * Abs(forwardSpeed)
  }

  /** Explicit Euler integration of the net torque into RPM. */
  function IntegrateRpm(rpm: real, netTorque: real, invInertiaFactor: real, deltaTime: real): real
  {
    rpm + netTorque * invInertiaFactor * deltaTime
  }

  /** Raise to idle, then cap at the maximum (so the maximum wins if the two
      bounds are inverted). */
  function ClampRpm(rpm: real, idleRpm: real, maxRpm: real): (r: real)
    ensures r <= maxRpm
    ensures idleRpm <= maxRpm ==> idleRpm <= r
    ensures idleRpm <= rpm <= maxRpm ==> r == rpm
  {
    var aboveIdle := if rpm < idleRpm then idleRpm else rpm;
    if aboveIdle > maxRpm then maxRpm else aboveIdle
  }

  /** One call of `Simulate`, as a function of the state before it. The
      limiter factor, the torque-curve lookup and the friction torque all use
      the RPM from before this step's integration. */
  function Step(t: EngineTuning, k: KartSettings, s: EngineState,
                throttleInput: real, forwardSpeed: real, deltaTime: real): (n: EngineState)
    ensures n.currentRpm <= k.maxRpm
    ensures t.idleRpm <= k.maxRpm ==> t.idleRpm <= n.currentRpm
    ensures n.currentTorque == n.driveTorque
    ensures n.netTorque == n.driveTorque - n.frictionTorque - n.loadTorque
    ensures n.invInertiaFactor == s.invInertiaFactor
  {
    var targetThrottle := Clamp(throttleInput, -1.0, 1.0);
    var smoothed := MoveTowards(s.smoothedThrottle, targetThrottle, ThrottleStep(t.throttleResponse, deltaTime));
    var limiter := RevLimiterFactor(s.currentRpm, t.revLimiterRpm, k.maxRpm);
    var drive := DriveTorque(k.engineTorqueCurve(s.currentRpm), smoothed, limiter);
    var friction := FrictionTorque(t.engineFrictionCoeff, s.currentRpm);
    var load := LoadTorque(t.loadTorqueCoeff, forwardSpeed);
    var net := drive - friction - load;
    var rpm := ClampRpm(IntegrateRpm(s.currentRpm, net, s.invInertiaFactor, deltaTime), t.idleRpm, k.maxRpm);
    EngineState(smoothed, rpm, drive, limiter, drive, friction, load, net, s.invInertiaFactor)
  }

  /** `n` calls of `Simulate` with the same inputs. */
  function Iterate(t: EngineTuning, k: KartSettings, s: EngineState, n: nat,
                   throttleInput: real, forwardSpeed: real, deltaTime: real): EngineState
  {
    if n == 0 then s
    else Step(t, k, Iterate(t, k, s, n - 1, throttleInput, forwardSpeed, deltaTime),
              throttleInput, forwardSpeed, deltaTime)
  }

  /** The smoothed throttle stays in [-1, 1] and moves by at most
      throttleResponse * deltaTime, towards the clamped input. */
  lemma StepThrottle(t: EngineTuning, k: KartSettings, s: EngineState,
                     throttleInput: real, forwardSpeed: real, deltaTime: real)
    requires 0.0 <= t.throttleResponse * deltaTime
    requires -1.0 <= s.smoothedThrottle <= 1.0
    ensures var n := Step(t, k, s, throttleInput, forwardSpeed, deltaTime);
      && -1.0 <= n.smoothedThrottle <= 1.0
      && Abs(n.smoothedThrottle - s.smoothedThrottle) <= t.throttleResponse * deltaTime
      && Between(n.smoothedThrottle, s.smoothedThrottle, Clamp(throttleInput, -1.0, 1.0))
  {
    MoveTowardsStaysInside(s.smoothedThrottle, Clamp(throttleInput, -1.0, 1.0),
                           t.throttleResponse * deltaTime, -1.0, 1.0);
  }

  /** Scaling by a factor in [-1, 1] never increases a magnitude. */
  lemma ScaleByUnitFactor(x: real, factor: real)
    requires -1.0 <= factor <= 1.0
    ensures Abs(x * factor) <= Abs(x)
  {
    var m := Abs(x);
    var below, above := 1.0 - factor, 1.0 + factor;
    assert 0.0 <= m * below by { NonNegativeProduct(m, below); }
    assert 0.0 <= m * above by { NonNegativeProduct(m, above); }
    assert m * below == m - m * factor;
    assert m * above == m + m * factor;
    assert Abs(x * factor) == Abs(m * factor);
  }

  /** A throttle in [-1, 1] scaled by a factor in [0, 1] never asks for more
      than the curve's torque. */
  lemma DriveTorqueBounded(maxTorqueAtRpm: real, smoothedThrottle: real, revLimiterFactor: real)
    requires -1.0 <= smoothedThrottle <= 1.0 && 0.0 <= revLimiterFactor <= 1.0
    ensures Abs(DriveTorque(maxTorqueAtRpm, smoothedThrottle, revLimiterFactor)) <= Abs(maxTorqueAtRpm)
  {
    ScaleByUnitFactor(revLimiterFactor, smoothedThrottle);
    var e := smoothedThrottle * revLimiterFactor;
    assert e == revLimiterFactor * smoothedThrottle;
    ScaleByUnitFactor(maxTorqueAtRpm, e);
  }

  /** The limiter factor, the curve lookup and the friction torque of a step
      all use the RPM from before the step; the drive torque uses the newly
      smoothed throttle and is at most the curve's torque at that RPM. */
  lemma StepDriveTorque(t: EngineTuning, k: KartSettings, s: EngineState,
                        throttleInput: real, forwardSpeed: real, deltaTime: real)
    requires 0.0 <= t.throttleResponse * deltaTime
    requires -1.0 <= s.smoothedThrottle <= 1.0
    ensures var n := Step(t, k, s, throttleInput, forwardSpeed, deltaTime);
      && n.revLimiterFactor == RevLimiterFactor(s.currentRpm, t.revLimiterRpm, k.maxRpm)
      && n.driveTorque == k.engineTorqueCurve(s.currentRpm) * (n.smoothedThrottle * n.revLimiterFactor)
      && n.frictionTorque == t.engineFrictionCoeff * s.currentRpm
      && Abs(n.driveTorque) <= Abs(k.engineTorqueCurve(s.currentRpm))
  {
    StepThrottle(t, k, s, throttleInput, forwardSpeed, deltaTime);
    var n := Step(t, k, s, throttleInput, forwardSpeed, deltaTime);
    DriveTorqueBounded(k.engineTorqueCurve(s.currentRpm), n.smoothedThrottle, n.revLimiterFactor);
  }

  /** The load torque depends on the speed's magnitude only, so driving
      backwards at the same speed gives the same step. */
  lemma StepIgnoresSpeedSign(t: EngineTuning, k: KartSettings, s: EngineState,
                             throttleInput: real, forwardSpeed: real, deltaTime: real)
    ensures Step(t, k, s, throttleInput, forwardSpeed, deltaTime)
         == Step(t, k, s, throttleInput, -forwardSpeed, deltaTime)
    ensures Step(t, k, s, throttleInput, forwardSpeed, deltaTime).loadTorque
         == t.loadTorqueCoeff * Abs(forwardSpeed)
  {
  }

  /** With no throttle left after smoothing and non-negative losses, a step
      from a state inside [idleRpm, maxRpm] does not raise the RPM. */
  lemma ZeroThrottleDoesNotRaiseRpm(t: EngineTuning, k: KartSettings, s: EngineState,
                                       throttleInput: real, forwardSpeed: real, deltaTime: real)
    requires Step(t, k, s, throttleInput, forwardSpeed, deltaTime).smoothedThrottle == 0.0
    requires 0.0 <= t.engineFrictionCoeff && 0.0 <= t.loadTorqueCoeff
    requires 0.0 <= s.invInertiaFactor && 0.0 <= deltaTime
    requires 0.0 <= t.idleRpm <= s.currentRpm <= k.maxRpm
    ensures Step(t, k, s, throttleInput, forwardSpeed, deltaTime).currentRpm <= s.currentRpm
  {
    var n := Step(t, k, s, throttleInput, forwardSpeed, deltaTime);
    assert n.driveTorque == 0.0;
    assert 0.0 <= n.frictionTorque by {
      assert n.frictionTorque == t.engineFrictionCoeff * s.currentRpm;
    }
    assert 0.0 <= n.loadTorque;
    var net := n.netTorque;
    assert net <= 0.0;
    assert net * s.invInertiaFactor <= 0.0;
    assert net * s.invInertiaFactor * deltaTime <= 0.0;
  }

  /** Any number of steps keeps the smoothed throttle in [-1, 1]. */
  lemma {:induction false} IterateThrottleBounded(t: EngineTuning, k: KartSettings, s: EngineState, n: nat,
                                                  throttleInput: real, forwardSpeed: real, deltaTime: real)
    requires 0.0 <= t.throttleResponse * deltaTime
    requires -1.0 <= s.smoothedThrottle <= 1.0
    ensures -1.0 <= Iterate(t, k, s, n, throttleInput, forwardSpeed, deltaTime).smoothedThrottle <= 1.0
  {
    if n > 0 {
      IterateThrottleBounded(t, k, s, n - 1, throttleInput, forwardSpeed, deltaTime);
      StepThrottle(t, k, Iterate(t, k, s, n - 1, throttleInput, forwardSpeed, deltaTime),
                   throttleInput, forwardSpeed, deltaTime);
    }
  }

  /** Any number of steps keeps the RPM in [idleRpm, maxRpm]. */
  lemma {:induction false} IterateRpmBounded(t: EngineTuning, k: KartSettings, s: EngineState, n: nat,
                                             throttleInput: real, forwardSpeed: real, deltaTime: real)
    requires t.idleRpm <= s.currentRpm <= k.maxRpm
    ensures t.idleRpm <= Iterate(t, k, s, n, throttleInput, forwardSpeed, deltaTime).currentRpm <= k.maxRpm
  {
    if n > 0 {
      IterateRpmBounded(t, k, s, n - 1, throttleInput, forwardSpeed, deltaTime);
    }
  }

  /** Released throttle: from zero smoothed throttle and a zero input, the
      RPM never rises over any number of steps. */
  lemma {:induction false} CoastingRpmNonIncreasing(t: EngineTuning, k: KartSettings, s: EngineState, n: nat,
                                                    forwardSpeed: real, deltaTime: real)
    requires s.smoothedThrottle == 0.0
    requires 0.0 <= t.throttleResponse && 0.0 <= deltaTime
    requires 0.0 <= t.engineFrictionCoeff && 0.0 <= t.loadTorqueCoeff && 0.0 <= s.invInertiaFactor
    requires 0.0 <= t.idleRpm <= s.currentRpm <= k.maxRpm
    ensures var e := Iterate(t, k, s, n, 0.0, forwardSpeed, deltaTime);
      && e.smoothedThrottle == 0.0
      && t.idleRpm <= e.currentRpm <= s.currentRpm
      && e.invInertiaFactor == s.invInertiaFactor
  {
    if n > 0 {
      CoastingRpmNonIncreasing(t, k, s, n - 1, forwardSpeed, deltaTime);
      var p := Iterate(t, k, s, n - 1, 0.0, forwardSpeed, deltaTime);
      assert 0.0 <= ThrottleStep(t.throttleResponse, deltaTime) by {
        assert 0.0 <= t.throttleResponse * deltaTime;
      }
      assert Step(t, k, p, 0.0, forwardSpeed, deltaTime).smoothedThrottle == 0.0;
      ZeroThrottleDoesNotRaiseRpm(t, k, p, 0.0, forwardSpeed, deltaTime);
    }
  }

  /** The engine component. */
  class KartEngine {
    const tuning: EngineTuning
    const settings: KartSettings

    var smoothedThrottle: real
    var currentRpm: real
    var currentTorque: real
    var revLimiterFactor: real
    var driveTorque: real
    var frictionTorque: real
    var loadTorque: real
    var netTorque: real
    var invInertiaFactor: real

    ghost function State(): EngineState
      reads this
    {
      EngineState(smoothedThrottle, currentRpm, currentTorque, revLimiterFactor,
                  driveTorque, frictionTorque, loadTorque, netTorque, invInertiaFactor)
    }

    /** A newly added component: every property at its default, the limiter
        factor at 1. */
    constructor (tuning: EngineTuning, settings: KartSettings)
      ensures this.tuning == tuning && this.settings == settings
      ensures State() == EngineState(0.0, 0.0, 0.0, 1.0, 0.0, 0.0, 0.0, 0.0, 0.0)
    {
      this.tuning := tuning;
      this.settings := settings;
      smoothedThrottle, currentRpm, currentTorque := 0.0, 0.0, 0.0;
      revLimiterFactor := 1.0;
      driveTorque, frictionTorque, loadTorque, netTorque := 0.0, 0.0, 0.0, 0.0;
      invInertiaFactor := 0.0;
    }

    /** Unity's `Start`: the engine idles and the inertia factor is fixed. */
    method Start()
      modifies this`currentRpm, this`invInertiaFactor
      ensures currentRpm == tuning.idleRpm
      ensures invInertiaFactor == InvInertiaFactor(settings.engineInertia) && 0.0 < invInertiaFactor
    {
      currentRpm := tuning.idleRpm;
      invInertiaFactor := 60.0 / (2.0 * MathfPI * Max(settings.engineInertia, MinEngineInertia));
    }

    /** Recomputes the limiter factor from the current RPM. */
    method UpdateRevLimiterFactor()
      modifies this`revLimiterFactor
      ensures revLimiterFactor == RevLimiterFactor(currentRpm, tuning.revLimiterRpm, settings.maxRpm)
    {
      if currentRpm <= tuning.revLimiterRpm {
        revLimiterFactor := 1.0;
        return;
      }
      if currentRpm >= settings.maxRpm {
        revLimiterFactor := 0.0;
        return;
      }
      var t := (currentRpm - tuning.revLimiterRpm) / (settings.maxRpm - tuning.revLimiterRpm);
      revLimiterFactor := 1.0 - t;
    }

    /** Advances the engine by `deltaTime` and returns the drive torque. */
    method Simulate(throttleInput: real, forwardSpeed: real, deltaTime: real) returns (torque: real)
      modifies this
      ensures State() == Step(tuning, settings, old(State()), throttleInput, forwardSpeed, deltaTime)
      ensures torque == driveTorque == currentTorque
      ensures tuning.idleRpm <= settings.maxRpm ==> tuning.idleRpm <= currentRpm <= settings.maxRpm
    {
      var targetThrottle := Clamp(throttleInput, -1.0, 1.0);
      smoothedThrottle := MoveTowards(smoothedThrottle, targetThrottle, ThrottleStep(tuning.throttleResponse, deltaTime));

      UpdateRevLimiterFactor();

      var maxTorqueAtRpm := settings.engineTorqueCurve(currentRpm);
      var drive := DriveTorque(maxTorqueAtRpm, smoothedThrottle, revLimiterFactor);

      var friction := FrictionTorque(tuning.engineFrictionCoeff, currentRpm);
      var load := LoadTorque(tuning.loadTorqueCoeff, forwardSpeed);

      var net := drive - friction - load;

      currentRpm := IntegrateRpm(currentRpm, net, invInertiaFactor, deltaTime);

      if currentRpm < tuning.idleRpm { currentRpm := tuning.idleRpm; }
      if currentRpm > settings.maxRpm { currentRpm := settings.maxRpm; }

      driveTorque := drive;
      frictionTorque := friction;
      loadTorque := load;
      netTorque := net;
      currentTorque := drive;

      torque := currentTorque;
    }
  }
}
