/** The scalar tire model of `KartController.ApplyWheelForces`, as pure
    functions of the wheel's longitudinal and lateral speeds (`vLong`, the
    point velocity along the kart's forward axis, and `vLat`, along the
    wheel's right axis). Steps 1-5 of the source accumulate a longitudinal
    force `fx` and a lateral force `fy`, which the friction circle then
    rescales. The static weight split and the slip ratio live here too. */
module Tires {
  import opened UnityMath
  import opened Settings
  import opened RealArith

  /** The controller's own serialized fields. */
  datatype ControllerTuning = ControllerTuning(
    drivetrainEfficiency: real,
    gravity: real,                     // m/s^2
    frontAxleShare: real,              // share of the weight on the front axle
    handbrakeForce: real,              // N
    handbrakeLateralMultiplier: real,
    handbrakeDriftAngle: real)         // degrees

  const DefaultControllerTuning: ControllerTuning := ControllerTuning(0.9, 9.81, 0.5, 2000.0, 2.0, 30.0)

  /** A force in the wheel's frame: along the kart's forward axis and along
      the wheel's right axis (N). */
  datatype TireForce = TireForce(fx: real, fy: real)

  /** Normal forces of the four wheels (N). */
  datatype WheelLoads = WheelLoads(frontLeft: real, frontRight: real, rearLeft: real, rearRight: real)

  /** The forces below which the friction circle leaves a force alone, and
      above which a normal force yields a slip ratio. */
  const MinForceLength: real := 0.000001
  const MinNormalForceForSlip: real := 0.01

  // ---------------------------------------------------------------------
  // Static weight distribution (ComputeStaticWheelLoads)

  /** The weight m*g split between the axles by the front share, then
      halved between the two wheels of each axle. */
  function StaticWheelLoads(mass: real, gravity: real, frontAxleShare: real): WheelLoads
  {
    var totalWeight := mass * gravity;
    var frontWeight := totalWeight * frontAxleShare;
    var rearWeight := totalWeight * (1.0 - frontAxleShare);
    WheelLoads(frontWeight * 0.5, frontWeight * 0.5, rearWeight * 0.5, rearWeight * 0.5)
  }

  function TotalLoad(w: WheelLoads): real
  {
    w.frontLeft + w.frontRight + w.rearLeft + w.rearRight
  }

  /** Each axle carries its share of the weight, the two wheels of an axle
      carry the same load, all four add up to the whole weight, and no load
      is negative for a non-negative weight and a share in [0, 1]. */
  lemma StaticWheelLoadsFacts(mass: real, gravity: real, frontAxleShare: real)
    ensures var w := StaticWheelLoads(mass, gravity, frontAxleShare);
      && w.frontLeft == w.frontRight && w.rearLeft == w.rearRight
      && w.frontLeft + w.frontRight == frontAxleShare * (mass * gravity)
      && w.rearLeft + w.rearRight == (1.0 - frontAxleShare) * (mass * gravity)
      && TotalLoad(w) == mass * gravity
    ensures 0.0 <= mass * gravity && 0.0 <= frontAxleShare <= 1.0 ==>
      var w := StaticWheelLoads(mass, gravity, frontAxleShare);
      0.0 <= w.frontLeft && 0.0 <= w.rearLeft
  {
    var weight := mass * gravity;
    var w := StaticWheelLoads(mass, gravity, frontAxleShare);
    assert w.frontLeft + w.frontRight == weight * frontAxleShare;
    assert w.rearLeft + w.rearRight == weight * (1.0 - frontAxleShare);
    assert weight * frontAxleShare + weight * (1.0 - frontAxleShare) == weight;
    if 0.0 <= weight && 0.0 <= frontAxleShare <= 1.0 {
      assert 0.0 <= weight * frontAxleShare;
      assert 0.0 <= weight * (1.0 - frontAxleShare);
    }
  }

  /** The asset's defaults: an 80 kg kart at 9.81 m/s^2 split evenly puts
      196.2 N on every wheel. */
  lemma DefaultWheelLoads()
    ensures StaticWheelLoads(80.0, DefaultControllerTuning.gravity, DefaultControllerTuning.frontAxleShare)
         == WheelLoads(196.2, 196.2, 196.2, 196.2)
  {
  }

  // ---------------------------------------------------------------------
  // Steps 1-5 of ApplyWheelForces

  /** The torque reaching one driven wheel: the engine torque through the
      gearbox and the drivetrain, split between the two rear wheels. */
  function WheelTorque(engineTorque: real, gearRatio: real, drivetrainEfficiency: real): real
  {
    engineTorque * gearRatio * drivetrainEfficiency * 0.5
  }

  /** Step 1: the longitudinal force of one driven wheel. Together the two
      rear wheels, at the wheel radius, deliver the whole drivetrain torque. */
  function DriveForce(engineTorque: real, gearRatio: real, drivetrainEfficiency: real, wheelRadius: real): (f: real)
    requires wheelRadius != 0.0
    ensures 2.0 * (f * wheelRadius) == engineTorque * gearRatio * drivetrainEfficiency
  {
    WheelTorque(engineTorque, gearRatio, drivetrainEfficiency) / wheelRadius
  }

  /** With a positive gear ratio, efficiency and radius the drive force
      pushes the way the engine torque does, and is zero with it. */
  lemma DriveForceSign(engineTorque: real, gearRatio: real, drivetrainEfficiency: real, wheelRadius: real)
    requires 0.0 < gearRatio && 0.0 < drivetrainEfficiency && 0.0 < wheelRadius
    ensures var f := DriveForce(engineTorque, gearRatio, drivetrainEfficiency, wheelRadius);
      && (0.0 < engineTorque <==> 0.0 < f)
      && (engineTorque == 0.0 <==> f == 0.0)
  {
    var f := DriveForce(engineTorque, gearRatio, drivetrainEfficiency, wheelRadius);
    var g := gearRatio * drivetrainEfficiency;
    assert 0.0 < g;
    assert engineTorque * gearRatio * drivetrainEfficiency == engineTorque * g;
    assert 2.0 * (f * wheelRadius) == engineTorque * g;
    if 0.0 < engineTorque {
      assert 0.0 < engineTorque * g;
    } else if engineTorque < 0.0 {
      assert engineTorque * g < 0.0;
    }
    if 0.0 < f {
      assert 0.0 < f * wheelRadius;
    } else if f < 0.0 {
      assert f * wheelRadius < 0.0;
    }
  }

  /** Step 2: rolling resistance, opposing the longitudinal speed. */
  function RollingResistanceForce(rollingResistance: real, vLong: real): real
  {
    -rollingResistance * vLong
  }

  /** Step 3: the stiffness of the wheel's axle; driven wheels are the rear ones. */
  function LateralStiffness(k: KartSettings, isDriven: bool): real
  {
    if isDriven then k.rearLateralStiffness else k.frontLateralStiffness
  }

  /** Step 3: the linear lateral force, opposing the lateral speed. */
  function LateralForce(lateralStiffness: real, vLat: real): real
  {
    -lateralStiffness * vLat
  }

  /** Step 5: the handbrake's longitudinal force; a wheel at rest
      (Sign(0) == 1) is braked as if it rolled forward. */
  function HandbrakeForceFx(handbrakeForce: real, vLong: real): real
  {
    -Sign(vLong) * handbrakeForce
  }

  /** Step 5: the factor the handbrake applies to a driven wheel's lateral force. */
  function HandbrakeLateralFactor(c: ControllerTuning): real
  {
    1.0 - c.handbrakeLateralMultiplier * Clamp01(Abs(c.handbrakeForce) / 1000.0)
  }

  /** Steps 1, 2, 3 and 5, in the source's order, before the friction
      circle. `engineTorque` is what the engine returned for this wheel; it
      is read only on a driven wheel with the handbrake released, the only
      case in which the engine is stepped. */
  function RawWheelForce(k: KartSettings, c: ControllerTuning, isDriven: bool, handbrakeActive: bool,
                         engineTorque: real, vLong: real, vLat: real): TireForce
    requires k.wheelRadius != 0.0
  {
    var drive := if isDriven && !handbrakeActive
                 then DriveForce(engineTorque, k.gearRatio, c.drivetrainEfficiency, k.wheelRadius)
                 else 0.0;
    var fx := drive + RollingResistanceForce(k.rollingResistance, vLong);
    var fy := LateralForce(LateralStiffness(k, isDriven), vLat);
    if handbrakeActive && isDriven
    then TireForce(fx + HandbrakeForceFx(c.handbrakeForce, vLong), fy * HandbrakeLateralFactor(c))
    else TireForce(fx, fy)
  }

  /** A front (non-driven) wheel feels only rolling resistance and its
      linear lateral force: no engine torque and no handbrake reach it, and
      at rest it gets no force at all. */
  lemma FrontWheelRawForce(k: KartSettings, c: ControllerTuning, handbrakeActive: bool,
                           engineTorque: real, vLong: real, vLat: real)
    requires k.wheelRadius != 0.0
    ensures RawWheelForce(k, c, false, handbrakeActive, engineTorque, vLong, vLat)
         == TireForce(-k.rollingResistance * vLong, -k.frontLateralStiffness * vLat)
    ensures RawWheelForce(k, c, false, handbrakeActive, engineTorque, 0.0, 0.0) == TireForce(0.0, 0.0)
  {
  }

  /** A rear wheel with the handbrake released adds the drive force to the
      rolling resistance and uses the rear stiffness. */
  lemma DrivenWheelRawForce(k: KartSettings, c: ControllerTuning, engineTorque: real, vLong: real, vLat: real)
    requires k.wheelRadius != 0.0
    ensures RawWheelForce(k, c, true, false, engineTorque, vLong, vLat)
         == TireForce(DriveForce(engineTorque, k.gearRatio, c.drivetrainEfficiency, k.wheelRadius)
                      - k.rollingResistance * vLong,
                      -k.rearLateralStiffness * vLat)
  {
  }

  /** The engine torque matters only to a driven wheel with the handbrake
      released. */
  lemma EngineTorqueOnlyDrives(k: KartSettings, c: ControllerTuning, isDriven: bool, handbrakeActive: bool,
                               torque1: real, torque2: real, vLong: real, vLat: real)
    requires k.wheelRadius != 0.0
    requires !isDriven || handbrakeActive
    ensures RawWheelForce(k, c, isDriven, handbrakeActive, torque1, vLong, vLat)
         == RawWheelForce(k, c, isDriven, handbrakeActive, torque2, vLong, vLat)
  {
  }

  /** A rear wheel with the handbrake on: no drive force, a braking force of
      the full handbrake force against the direction of travel (against a
      forward roll when at rest), and the lateral force scaled by the
      handbrake factor. */
  lemma HandbrakedWheelRawForce(k: KartSettings, c: ControllerTuning, engineTorque: real, vLong: real, vLat: real)
    requires k.wheelRadius != 0.0
    ensures var f := RawWheelForce(k, c, true, true, engineTorque, vLong, vLat);
      && f.fx == -k.rollingResistance * vLong - Sign(vLong) * c.handbrakeForce
      && f.fy == -k.rearLateralStiffness * vLat * HandbrakeLateralFactor(c)
    ensures RawWheelForce(k, c, true, true, engineTorque, 0.0, vLat).fx == -c.handbrakeForce
    ensures vLong < 0.0 ==> RawWheelForce(k, c, true, true, engineTorque, vLong, vLat).fx
                            == c.handbrakeForce - k.rollingResistance * vLong
  {
    var f := RawWheelForce(k, c, true, true, engineTorque, vLong, vLat);
    assert f.fy == LateralForce(k.rearLateralStiffness, vLat) * HandbrakeLateralFactor(c);
  }

  /** With the default tuning (2000 N, multiplier 2) the handbrake factor is
      1 - 2 * Clamp01(2) = -1: the lateral force of a braked rear wheel is
      reversed rather than reduced, so it pushes along the lateral speed. */
  lemma DefaultHandbrakeReversesLateralForce(k: KartSettings, engineTorque: real, vLong: real, vLat: real)
    requires k.wheelRadius != 0.0
    ensures HandbrakeLateralFactor(DefaultControllerTuning) == -1.0
    ensures RawWheelForce(k, DefaultControllerTuning, true, true, engineTorque, vLong, vLat).fy
         == k.rearLateralStiffness * vLat
  {
    HandbrakedWheelRawForce(k, DefaultControllerTuning, engineTorque, vLong, vLat);
  }

  /** For any tuning the factor lies between 1 - multiplier and 1. */
  lemma HandbrakeLateralFactorRange(c: ControllerTuning)
    requires 0.0 <= c.handbrakeLateralMultiplier
    ensures 1.0 - c.handbrakeLateralMultiplier <= HandbrakeLateralFactor(c) <= 1.0
    ensures c.handbrakeForce == 0.0 ==> HandbrakeLateralFactor(c) == 1.0
  {
    var m := c.handbrakeLateralMultiplier;
    var s := Clamp01(Abs(c.handbrakeForce) / 1000.0);
    Clamp01Facts(Abs(c.handbrakeForce) / 1000.0);
    assert 0.0 <= m * s by { NonNegativeProduct(m, s); }
    assert 0.0 <= m * (1.0 - s) by { NonNegativeProduct(m, 1.0 - s); }
    assert m * (1.0 - s) == m - m * s;
  }

  // ---------------------------------------------------------------------
  // Step 4: the friction circle

  function SquaredLength(f: TireForce): real
  {
    f.fx * f.fx + f.fy * f.fy
  }

  function Scaled(f: TireForce, scale: real): TireForce
  {
    TireForce(f.fx * scale, f.fy * scale)
  }

  /** The friction limit mu * N of a wheel. */
  function FrictionLimit(frictionCoefficient: real, normalForce: real): real
  {
    frictionCoefficient * normalForce
  }

  /** Rescales a force whose length exceeds the friction limit (and is not
      negligible) onto the circle of that radius; `forceLength` is the
      force's length, computed by the caller. */
  function FrictionCircle(f: TireForce, frictionLimit: real, forceLength: real): TireForce
  {
    if forceLength > frictionLimit && forceLength > MinForceLength
    then Scaled(f, frictionLimit / forceLength)
    else f
  }

  lemma ScaledSquaredLength(f: TireForce, scale: real)
    ensures SquaredLength(Scaled(f, scale)) == SquaredLength(f) * (scale * scale)
  {
    var x, y := f.fx, f.fy;
    assert (x * scale) * (x * scale) == (x * x) * (scale * scale);
    assert (y * scale) * (y * scale) == (y * y) * (scale * scale);
  }

  /** The friction circle leaves a force inside the circle (or negligible)
      unchanged; otherwise it scales both components by the same positive
      factor so that the result lies exactly on the circle. */
  lemma FrictionCircleFacts(f: TireForce, frictionLimit: real, forceLength: real)
    requires 0.0 <= forceLength && forceLength * forceLength == SquaredLength(f)
    ensures forceLength <= frictionLimit || forceLength <= MinForceLength
            ==> FrictionCircle(f, frictionLimit, forceLength) == f
    ensures forceLength > frictionLimit && forceLength > MinForceLength
            ==> && FrictionCircle(f, frictionLimit, forceLength) == Scaled(f, frictionLimit / forceLength)
                && SquaredLength(FrictionCircle(f, frictionLimit, forceLength)) == frictionLimit * frictionLimit
  {
    if forceLength > frictionLimit && forceLength > MinForceLength {
      var scale := frictionLimit / forceLength;
      ScaledSquaredLength(f, scale);
      assert scale * forceLength == frictionLimit;
      calc {
        SquaredLength(f) * (scale * scale);
        (forceLength * forceLength) * (scale * scale);
        { assert (forceLength * forceLength) * (scale * scale) == (scale * forceLength) * (scale * forceLength); }
        frictionLimit * frictionLimit;
      }
    }
  }

  /** Whatever comes out of the friction circle with a non-negative limit
      lies inside the circle, or is no longer than the negligible length. */
  lemma FrictionCircleBound(f: TireForce, frictionLimit: real, forceLength: real)
    requires 0.0 <= forceLength && forceLength * forceLength == SquaredLength(f)
    requires 0.0 <= frictionLimit
    ensures SquaredLength(FrictionCircle(f, frictionLimit, forceLength))
            <= Max(frictionLimit * frictionLimit, MinForceLength * MinForceLength)
  {
    FrictionCircleFacts(f, frictionLimit, forceLength);
    if forceLength <= frictionLimit {
      SquareMonotone(forceLength, frictionLimit);
    } else if forceLength <= MinForceLength {
      SquareMonotone(forceLength, MinForceLength);
    }
  }

  /** `sqrt` is a square root on the non-negative reals, as Mathf.Sqrt is
      (up to rounding). */
  ghost predicate IsSqrt(sqrt: real -> real)
  {
    forall x :: 0.0 <= x ==> 0.0 <= sqrt(x) && sqrt(x) * sqrt(x) == x
  }

  /** The whole per-wheel force: steps 1-5, then the friction circle of
      radius mu * N, with `sqrt` standing for Mathf.Sqrt. */
  function WheelForce(k: KartSettings, c: ControllerTuning, sqrt: real -> real,
                      isDriven: bool, handbrakeActive: bool, engineTorque: real,
                      vLong: real, vLat: real, normalForce: real): TireForce
    requires k.wheelRadius != 0.0
  {
    var raw := RawWheelForce(k, c, isDriven, handbrakeActive, engineTorque, vLong, vLat);
    FrictionCircle(raw, FrictionLimit(k.frictionCoefficient, normalForce), sqrt(SquaredLength(raw)))
  }

  lemma SquaredLengthNonNegative(f: TireForce)
    ensures 0.0 <= SquaredLength(f)
  {
    assert 0.0 <= f.fx * f.fx && 0.0 <= f.fy * f.fy;
  }

  /** The force a wheel transmits never exceeds its grip mu * N (or the
      negligible length), and a force within the grip is passed on as the
      tire model computed it. */
  lemma WheelForceWithinGrip(k: KartSettings, c: ControllerTuning, sqrt: real -> real,
                             isDriven: bool, handbrakeActive: bool, engineTorque: real,
                             vLong: real, vLat: real, normalForce: real)
    requires k.wheelRadius != 0.0 && IsSqrt(sqrt)
    requires 0.0 <= FrictionLimit(k.frictionCoefficient, normalForce)
    ensures var limit := FrictionLimit(k.frictionCoefficient, normalForce);
      SquaredLength(WheelForce(k, c, sqrt, isDriven, handbrakeActive, engineTorque, vLong, vLat, normalForce))
      <= Max(limit * limit, MinForceLength * MinForceLength)
    ensures var raw := RawWheelForce(k, c, isDriven, handbrakeActive, engineTorque, vLong, vLat);
            var limit := FrictionLimit(k.frictionCoefficient, normalForce);
      SquaredLength(raw) <= limit * limit
      ==> WheelForce(k, c, sqrt, isDriven, handbrakeActive, engineTorque, vLong, vLat, normalForce) == raw
  {
    var raw := RawWheelForce(k, c, isDriven, handbrakeActive, engineTorque, vLong, vLat);
    var limit := FrictionLimit(k.frictionCoefficient, normalForce);
    SquaredLengthNonNegative(raw);
    var len := sqrt(SquaredLength(raw));
    assert 0.0 <= len && len * len == SquaredLength(raw);
    FrictionCircleBound(raw, limit, len);
    FrictionCircleFacts(raw, limit, len);
    if SquaredLength(raw) <= limit * limit {
      RootMonotone(len, limit);
    }
  }

  // ---------------------------------------------------------------------
  // Slip ratio (StoreWheelTelemetryData)

  /** |fx / (N * mu)| for a loaded wheel, 0 for a wheel carrying (almost) nothing. */
  function SlipRatio(fx: real, normalForce: real, frictionCoefficient: real): (r: real)
    requires frictionCoefficient != 0.0
    ensures 0.0 <= r
    ensures normalForce > MinNormalForceForSlip ==> r * Abs(normalForce * frictionCoefficient) == Abs(fx)
    ensures normalForce <= MinNormalForceForSlip ==> r == 0.0
  {
    if normalForce > MinNormalForceForSlip
    then
      var grip := normalForce * frictionCoefficient;
      assert grip != 0.0;
      var q := fx / grip;
      assert q * grip == fx;
      assert Abs(q) * Abs(grip) == Abs(fx) by {
        if q < 0.0 { assert Abs(q) == -q; }
        if grip < 0.0 { assert Abs(grip) == -grip; }
      }
      Abs(q)
    else 0.0
  }

  lemma AbsBoundFromSquare(x: real, limit: real)
    requires 0.0 <= limit && x * x <= limit * limit
    ensures Abs(x) <= limit
  {
    assert Abs(x) * Abs(x) == x * x;
    RootMonotone(Abs(x), limit);
  }

  /** A grip that covers |fx| gives a slip ratio of at most 1. */
  lemma SlipAtMostOneWithinGrip(fx: real, normalForce: real, frictionCoefficient: real)
    requires 0.0 < frictionCoefficient && normalForce > MinNormalForceForSlip
    requires Abs(fx) <= normalForce * frictionCoefficient
    ensures SlipRatio(fx, normalForce, frictionCoefficient) <= 1.0
  {
    var grip := normalForce * frictionCoefficient;
    assert 0.0 < grip by { PositiveProduct(normalForce, frictionCoefficient); }
    var r := SlipRatio(fx, normalForce, frictionCoefficient);
    assert r * Abs(grip) == Abs(fx);
    assert Abs(grip) == grip;
    assert r * grip == Abs(fx);
    assert Abs(fx) <= grip;
    assert r * grip <= 1.0 * grip;
    CancelPositiveFactor(r, 1.0, grip);
  }

  /** A force inside a circle that is not smaller than the negligible
      length has its longitudinal part within the circle's radius. */
  lemma LongitudinalWithinGrip(f: TireForce, limit: real)
    requires MinForceLength <= limit
    requires SquaredLength(f) <= Max(limit * limit, MinForceLength * MinForceLength)
    ensures Abs(f.fx) <= limit
  {
    SquareMonotone(MinForceLength, limit);
    assert f.fx * f.fx <= limit * limit by {
      assert 0.0 <= f.fy * f.fy;
    }
    AbsBoundFromSquare(f.fx, limit);
  }

  /** A loaded wheel whose grip mu * N is not negligible never reports a
      slip ratio above 1: the friction circle caps |fx| at mu * N. */
  lemma WheelSlipAtMostOne(k: KartSettings, c: ControllerTuning, sqrt: real -> real,
                           isDriven: bool, handbrakeActive: bool, engineTorque: real,
                           vLong: real, vLat: real, normalForce: real)
    requires k.wheelRadius != 0.0 && IsSqrt(sqrt)
    requires 0.0 < k.frictionCoefficient && normalForce > MinNormalForceForSlip
    requires MinForceLength <= FrictionLimit(k.frictionCoefficient, normalForce)
    ensures SlipRatio(WheelForce(k, c, sqrt, isDriven, handbrakeActive, engineTorque, vLong, vLat, normalForce).fx,
                      normalForce, k.frictionCoefficient) <= 1.0
  {
    var f := WheelForce(k, c, sqrt, isDriven, handbrakeActive, engineTorque, vLong, vLat, normalForce);
    WheelForceWithinGrip(k, c, sqrt, isDriven, handbrakeActive, engineTorque, vLong, vLat, normalForce);
    LongitudinalWithinGrip(f, FrictionLimit(k.frictionCoefficient, normalForce));
    SlipAtMostOneWithinGrip(f.fx, normalForce, k.frictionCoefficient);
  }
}
