/** The kart's configuration asset (`KartSettings`): a plain record read by
    both the engine and the controller, never changed at run time. */
module Settings {

  /** One field per public field of the asset. The torque curve is Unity's
      `AnimationCurve`, kept as an arbitrary function from RPM to the torque
      at full throttle (N*m). */
  datatype KartSettings = KartSettings(
    mass: real,
    frictionCoefficient: real,
    frontLateralStiffness: real,
    rearLateralStiffness: real,
    rollingResistance: real,
    maxSteerAngle: real,
    engineTorqueCurve: real -> real,
    engineInertia: real,
    maxRpm: real,
    gearRatio: real,
    wheelRadius: real)

  /** The asset's default values, for a given torque curve. */
  function DefaultSettings(engineTorqueCurve: real -> real): (s: KartSettings)
    ensures ValidSettings(s)
  {
    KartSettings(
      mass := 80.0,
      frictionCoefficient := 4.0,
      frontLateralStiffness := 1000.0,
      rearLateralStiffness := 1000.0,
      rollingResistance := 0.5,
      maxSteerAngle := 30.0,
      engineTorqueCurve := engineTorqueCurve,
      engineInertia := 0.2,
      maxRpm := 8000.0,
      gearRatio := 8.0,
      wheelRadius := 0.3)
  }

  /** The settings the controller divides by are non-zero: the wheel radius
      (drive force) and the friction coefficient (slip ratio). */
  predicate ValidSettings(s: KartSettings)
  {
    s.wheelRadius != 0.0 && s.frictionCoefficient != 0.0
  }
}
