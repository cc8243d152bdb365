/** The kart's behaviour component (`KartController`). Every fixed physics
    tick it resets the axle totals, applies the tire force of each of the
    four wheels in the order front-left, front-right, rear-left, rear-right
    (stepping the engine once per driven wheel), then applies the extra
    handbrake impulse. Forces handed to the rigid body are recorded in an
    append-only log instead of being integrated; the rigid body supplies the
    per-wheel speeds as inputs. */
module Controller {
  import opened UnityMath
  import opened Settings
  import opened Engine
  import opened Tires

  /** The identity of a wheel's Transform. */
  type WheelId = nat

  datatype Option<T> = None | Some(value: T)

  /** The four attachment points; any of them may be unassigned. */
  datatype WheelRig = WheelRig(frontLeft: Option<WheelId>, frontRight: Option<WheelId>,
                               rearLeft: Option<WheelId>, rearRight: Option<WheelId>)

  /** The rigid body's point velocity at a wheel, along the kart's forward
      axis and along the wheel's right axis. */
  datatype WheelVelocity = WheelVelocity(vLong: real, vLat: real)

  /** What the controller hands to the rigid body: a continuous force at a
      wheel, in the wheel's frame, or an impulse at a rear wheel, given by its
      length (zero when the body is at rest) and directed against the body's
      velocity. */
  datatype AppliedForce =
    | ForceAtWheel(wheel: WheelId, isDriven: bool, force: TireForce)
    | ImpulseAtWheel(wheel: WheelId, magnitude: real)

  datatype WheelTelemetry = WheelTelemetry(vLat: real, fx: real, fy: real, slipRatio: real)

  const NoTelemetry: WheelTelemetry := WheelTelemetry(0.0, 0.0, 0.0, 0.0)

  /** The controller's telemetry fields. */
  datatype Telemetry = Telemetry(
    frontLeft: WheelTelemetry, frontRight: WheelTelemetry,
    rearLeft: WheelTelemetry, rearRight: WheelTelemetry,
    rearSlipRatio: real, totalRearFx: real, totalFrontFy: real)

  /** Everything that stays fixed during one tick. */
  datatype TickContext = TickContext(
    settings: KartSettings, tuning: ControllerTuning, sqrt: real -> real,
    engineTuning: EngineTuning, engineSettings: KartSettings,
    rbAttached: bool, handbrakeActive: bool, throttleInput: real,
    forwardSpeed: real, bodySpeed: real, deltaTime: real)

  /** Everything a tick changes: the engine, the applied forces and the telemetry. */
  datatype Snapshot = Snapshot(engine: EngineState, log: seq<AppliedForce>, telemetry: Telemetry)

  // ---------------------------------------------------------------------
  // Specification of one tick

  /** StoreWheelTelemetryData: every slot whose Transform is this wheel gets
      its readings; a driven wheel adds its fx to the rear total and sets the
      rear slip ratio, any other adds its fy to the front total. */
  function StoreTelemetry(t: Telemetry, rig: WheelRig, wheel: WheelId, vLat: real, fx: real, fy: real,
                          normalForce: real, frictionCoefficient: real, isDriven: bool): Telemetry
    requires frictionCoefficient != 0.0
  {
    var slipRatio := SlipRatio(fx, normalForce, frictionCoefficient);
    var w := WheelTelemetry(vLat, fx, fy, slipRatio);
    Telemetry(
      if rig.frontLeft == Some(wheel) then w else t.frontLeft,
      if rig.frontRight == Some(wheel) then w else t.frontRight,
      if rig.rearLeft == Some(wheel) then w else t.rearLeft,
      if rig.rearRight == Some(wheel) then w else t.rearRight,
      if isDriven then slipRatio else t.rearSlipRatio,
      if isDriven then t.totalRearFx + fx else t.totalRearFx,
      if isDriven then t.totalFrontFy else t.totalFrontFy + fy)
  }

  /** Whether ApplyWheelForces steps the engine for this wheel. */
  predicate StepsEngine(x: TickContext, wheel: Option<WheelId>, isDriven: bool)
  {
    wheel.Some? && x.rbAttached && isDriven && !x.handbrakeActive
  }

  /** ApplyWheelForces for one wheel: nothing for an unassigned wheel or
      before the rigid body is known; otherwise the engine is stepped if the
      wheel is driven and the handbrake is released, the tire force is applied
      at the wheel and its telemetry is stored. */
  function WheelPass(x: TickContext, s: Snapshot, rig: WheelRig, wheel: Option<WheelId>,
                     normalForce: real, isDriven: bool, v: WheelVelocity): Snapshot
    requires ValidSettings(x.settings)
  {
    if wheel.None? || !x.rbAttached then s
    else
      var e := if StepsEngine(x, wheel, isDriven)
               then Step(x.engineTuning, x.engineSettings, s.engine, x.throttleInput, x.forwardSpeed, x.deltaTime)
               else s.engine;
      var torque := if StepsEngine(x, wheel, isDriven) then e.driveTorque else 0.0;
      var f := WheelForce(x.settings, x.tuning, x.sqrt, isDriven, x.handbrakeActive, torque,
                          v.vLong, v.vLat, normalForce);
      Snapshot(e, s.log + [ForceAtWheel(wheel.value, isDriven, f)],
               StoreTelemetry(s.telemetry, rig, wheel.value, v.vLat, f.fx, f.fy, normalForce,
                              x.settings.frictionCoefficient, isDriven))
  }

  /** The impulse at one rear wheel, if it is assigned. */
  function ImpulseAt(wheel: Option<WheelId>, magnitude: real): seq<AppliedForce>
  {
    if wheel.Some? then [ImpulseAtWheel(wheel.value, magnitude)] else []
  }

  /** ApplyHandbrakeForces: with the handbrake on, an impulse at each
      assigned rear wheel. Without a rigid body the source fails before
      applying anything. */
  function HandbrakeImpulses(c: ControllerTuning, rig: WheelRig, rbAttached: bool,
                             handbrakeActive: bool, bodySpeed: real, deltaTime: real): seq<AppliedForce>
  {
    if handbrakeActive && rbAttached
    then ImpulseAt(rig.rearLeft, HandbrakeImpulse(c, bodySpeed, deltaTime))
         + ImpulseAt(rig.rearRight, HandbrakeImpulse(c, bodySpeed, deltaTime))
    else []
  }

  /** Vector3.normalized returns the zero vector for a vector no longer than this. */
  const NormalizeEpsilon: real := 0.00001

  /** The length of `linearVelocity.normalized` for a body moving at `speed`. */
  function NormalizedLength(speed: real): real
  {
    if speed > NormalizeEpsilon then 1.0 else 0.0
  }

  /** The length of the impulse at each rear wheel: half of the handbrake
      force over one tick while the body moves, and nothing at rest, where
      the normalized velocity is the zero vector. */
  function HandbrakeImpulse(c: ControllerTuning, bodySpeed: real, deltaTime: real): (r: real)
    ensures bodySpeed <= NormalizeEpsilon ==> r == 0.0
    ensures bodySpeed > NormalizeEpsilon ==> 2.0 * r == c.handbrakeForce * deltaTime
  {
    NormalizedLength(bodySpeed) * c.handbrakeForce * deltaTime * 0.5
  }

  /** The totals are reset at the start of every tick. */
  function ResetTotals(t: Telemetry): Telemetry
  {
    t.(totalRearFx := 0.0, totalFrontFy := 0.0)
  }

  /** One FixedUpdate. */
  function Tick(x: TickContext, s: Snapshot, rig: WheelRig, loads: WheelLoads,
                fl: WheelVelocity, fr: WheelVelocity, rl: WheelVelocity, rr: WheelVelocity): Snapshot
    requires ValidSettings(x.settings)
  {
    var s0 := s.(telemetry := ResetTotals(s.telemetry));
    var s1 := WheelPass(x, s0, rig, rig.frontLeft, loads.frontLeft, false, fl);
    var s2 := WheelPass(x, s1, rig, rig.frontRight, loads.frontRight, false, fr);
    var s3 := WheelPass(x, s2, rig, rig.rearLeft, loads.rearLeft, true, rl);
    var s4 := WheelPass(x, s3, rig, rig.rearRight, loads.rearRight, true, rr);
    s4.(log := s4.log + HandbrakeImpulses(x.tuning, rig, x.rbAttached, x.handbrakeActive, x.bodySpeed, x.deltaTime))
  }

  // ---------------------------------------------------------------------
  // Reading the log

  function Total(log: seq<AppliedForce>, part: AppliedForce -> real): real
  {
    if log == [] then 0.0 else Total(log[..|log| - 1], part) + part(log[|log| - 1])
  }

  /** The wheels of the entries `pick` selects, in order. */
  function WheelsWhere(log: seq<AppliedForce>, pick: AppliedForce -> bool): seq<WheelId>
  {
    if log == [] then []
    else WheelsWhere(log[..|log| - 1], pick) + (if pick(log[|log| - 1]) then [log[|log| - 1].wheel] else [])
  }

  function DrivenFx(a: AppliedForce): real
  {
    if a.ForceAtWheel? && a.isDriven then a.force.fx else 0.0
  }

  function FrontFy(a: AppliedForce): real
  {
    if a.ForceAtWheel? && !a.isDriven then a.force.fy else 0.0
  }

  predicate IsForce(a: AppliedForce)
  {
    a.ForceAtWheel?
  }

  predicate IsImpulse(a: AppliedForce)
  {
    a.ImpulseAtWheel?
  }

  function Assigned(wheel: Option<WheelId>): seq<WheelId>
  {
    if wheel.Some? then [wheel.value] else []
  }

  /** The assigned wheels in the order FixedUpdate visits them. */
  function AssignedWheels(rig: WheelRig): seq<WheelId>
  {
    Assigned(rig.frontLeft) + Assigned(rig.frontRight) + Assigned(rig.rearLeft) + Assigned(rig.rearRight)
  }

  function AssignedRearWheels(rig: WheelRig): seq<WheelId>
  {
    Assigned(rig.rearLeft) + Assigned(rig.rearRight)
  }

  /** How often one tick steps the engine: once per assigned rear wheel,
      unless the handbrake is on. */
  function EngineStepsPerTick(rig: WheelRig, rbAttached: bool, handbrakeActive: bool): nat
  {
    if rbAttached && !handbrakeActive then |AssignedRearWheels(rig)| else 0
  }

  lemma {:induction false} TotalAppend(a: seq<AppliedForce>, b: seq<AppliedForce>, part: AppliedForce -> real)
    ensures Total(a + b, part) == Total(a, part) + Total(b, part)
    decreases |b|
  {
    if b == [] {
      assert a + b == a;
    } else {
      var b' := b[..|b| - 1];
      assert (a + b)[..|a + b| - 1] == a + b';
      assert (a + b)[|a + b| - 1] == b[|b| - 1];
      TotalAppend(a, b', part);
    }
  }

  lemma {:induction false} WheelsWhereAppend(a: seq<AppliedForce>, b: seq<AppliedForce>, pick: AppliedForce -> bool)
    ensures WheelsWhere(a + b, pick) == WheelsWhere(a, pick) + WheelsWhere(b, pick)
    decreases |b|
  {
    if b == [] {
      assert a + b == a;
    } else {
      var b' := b[..|b| - 1];
      assert (a + b)[..|a + b| - 1] == a + b';
      assert (a + b)[|a + b| - 1] == b[|b| - 1];
      WheelsWhereAppend(a, b', pick);
    }
  }

  lemma {:induction false} IterateAdd(t: EngineTuning, k: KartSettings, s: EngineState, m: nat, n: nat,
                                      throttleInput: real, forwardSpeed: real, deltaTime: real)
    ensures Iterate(t, k, Iterate(t, k, s, m, throttleInput, forwardSpeed, deltaTime), n, throttleInput, forwardSpeed, deltaTime)
         == Iterate(t, k, s, m + n, throttleInput, forwardSpeed, deltaTime)
  {
    if n > 0 {
      IterateAdd(t, k, s, m, n - 1, throttleInput, forwardSpeed, deltaTime);
    }
  }

  // ---------------------------------------------------------------------
  // Properties of one wheel and of one tick

  /** What a stretch of a tick did, from `s` to `n`: it stepped the engine
      `steps` times, only appended to the log (forces at `forces`, impulses
      at `impulses`, in order), and added to each axle total exactly the
      forces it appended for that axle. */
  ghost predicate Summary(x: TickContext, s: Snapshot, n: Snapshot, steps: nat,
                          forces: seq<WheelId>, impulses: seq<WheelId>)
  {
    && n.engine == Iterate(x.engineTuning, x.engineSettings, s.engine, steps,
                           x.throttleInput, x.forwardSpeed, x.deltaTime)
    && |s.log| <= |n.log| && n.log == s.log + n.log[|s.log|..]
    && WheelsWhere(n.log[|s.log|..], IsForce) == forces
    && WheelsWhere(n.log[|s.log|..], IsImpulse) == impulses
    && n.telemetry.totalRearFx == s.telemetry.totalRearFx + Total(n.log[|s.log|..], DrivenFx)
    && n.telemetry.totalFrontFy == s.telemetry.totalFrontFy + Total(n.log[|s.log|..], FrontFy)
  }

  /** Two stretches of a tick, one after the other, make one stretch. */
  lemma SummaryCompose(x: TickContext, a: Snapshot, b: Snapshot, c: Snapshot,
                       steps1: nat, forces1: seq<WheelId>, impulses1: seq<WheelId>,
                       steps2: nat, forces2: seq<WheelId>, impulses2: seq<WheelId>)
    requires Summary(x, a, b, steps1, forces1, impulses1)
    requires Summary(x, b, c, steps2, forces2, impulses2)
    ensures Summary(x, a, c, steps1 + steps2, forces1 + forces2, impulses1 + impulses2)
  {
    var d1, d2 := b.log[|a.log|..], c.log[|b.log|..];
    assert c.log == a.log + (d1 + d2);
    assert c.log[|a.log|..] == d1 + d2;
    IterateAdd(x.engineTuning, x.engineSettings, a.engine, steps1, steps2,
               x.throttleInput, x.forwardSpeed, x.deltaTime);
    WheelsWhereAppend(d1, d2, IsForce);
    WheelsWhereAppend(d1, d2, IsImpulse);
    TotalAppend(d1, d2, DrivenFx);
    TotalAppend(d1, d2, FrontFy);
  }

  /** One wheel pass appends at most one force, at that wheel, steps the
      engine at most once, and adds its force to its own axle's total. */
  lemma WheelPassFacts(x: TickContext, s: Snapshot, rig: WheelRig, wheel: Option<WheelId>,
                       normalForce: real, isDriven: bool, v: WheelVelocity)
    requires ValidSettings(x.settings)
    ensures Summary(x, s, WheelPass(x, s, rig, wheel, normalForce, isDriven, v),
                    if StepsEngine(x, wheel, isDriven) then 1 else 0,
                    if x.rbAttached then Assigned(wheel) else [], [])
  {
    var n := WheelPass(x, s, rig, wheel, normalForce, isDriven, v);
    if wheel.None? || !x.rbAttached {
      assert n.log[|s.log|..] == [];
    } else {
      var entry := n.log[|s.log|];
      assert n.log[|s.log|..] == [entry];
      assert [entry][..0] == [];
    }
  }

  /** The handbrake impulses: only impulses, one per assigned rear wheel,
      contributing nothing to the axle totals. */
  lemma HandbrakeImpulsesFacts(x: TickContext, s: Snapshot, rig: WheelRig)
    ensures Summary(x, s, s.(log := s.log + HandbrakeImpulses(x.tuning, rig, x.rbAttached, x.handbrakeActive, x.bodySpeed, x.deltaTime)),
                    0, [], if x.rbAttached && x.handbrakeActive then AssignedRearWheels(rig) else [])
  {
    var m := HandbrakeImpulse(x.tuning, x.bodySpeed, x.deltaTime);
    var h := HandbrakeImpulses(x.tuning, rig, x.rbAttached, x.handbrakeActive, x.bodySpeed, x.deltaTime);
    var n := s.(log := s.log + h);
    assert n.log[|s.log|..] == h;
    var a, b := ImpulseAt(rig.rearLeft, m), ImpulseAt(rig.rearRight, m);
    ImpulseAtFacts(rig.rearLeft, m);
    ImpulseAtFacts(rig.rearRight, m);
    if x.rbAttached && x.handbrakeActive {
      assert h == a + b;
      WheelsWhereAppend(a, b, IsForce);
      WheelsWhereAppend(a, b, IsImpulse);
      TotalAppend(a, b, DrivenFx);
      TotalAppend(a, b, FrontFy);
    } else {
      assert h == [];
    }
  }

  lemma ImpulseAtFacts(wheel: Option<WheelId>, magnitude: real)
    ensures var a := ImpulseAt(wheel, magnitude);
      && WheelsWhere(a, IsForce) == [] && WheelsWhere(a, IsImpulse) == Assigned(wheel)
      && Total(a, DrivenFx) == 0.0 && Total(a, FrontFy) == 0.0
  {
    var a := ImpulseAt(wheel, magnitude);
    if wheel.Some? {
      assert a[..|a| - 1] == [];
    }
  }

  /** The four wheel passes and the handbrake impulses of a tick, taken one
      after the other, make one stretch: the engine stepped once per assigned
      rear wheel (never with the handbrake on), the forces at the assigned
      wheels in order, then the impulses at the assigned rear wheels. */
  lemma PassesSummary(x: TickContext, rig: WheelRig, loads: WheelLoads,
                      fl: WheelVelocity, fr: WheelVelocity, rl: WheelVelocity, rr: WheelVelocity,
                      s0: Snapshot, s1: Snapshot, s2: Snapshot, s3: Snapshot, s4: Snapshot, t: Snapshot)
    requires ValidSettings(x.settings)
    requires s1 == WheelPass(x, s0, rig, rig.frontLeft, loads.frontLeft, false, fl)
    requires s2 == WheelPass(x, s1, rig, rig.frontRight, loads.frontRight, false, fr)
    requires s3 == WheelPass(x, s2, rig, rig.rearLeft, loads.rearLeft, true, rl)
    requires s4 == WheelPass(x, s3, rig, rig.rearRight, loads.rearRight, true, rr)
    requires t == s4.(log := s4.log + HandbrakeImpulses(x.tuning, rig, x.rbAttached, x.handbrakeActive, x.bodySpeed, x.deltaTime))
    ensures Summary(x, s0, t, EngineStepsPerTick(rig, x.rbAttached, x.handbrakeActive),
                    if x.rbAttached then AssignedWheels(rig) else [],
                    if x.rbAttached && x.handbrakeActive then AssignedRearWheels(rig) else [])
  {
    var rb := x.rbAttached;
    var n3, n4 := if StepsEngine(x, rig.rearLeft, true) then 1 else 0, if StepsEngine(x, rig.rearRight, true) then 1 else 0;
    var w1, w2 := if rb then Assigned(rig.frontLeft) else [], if rb then Assigned(rig.frontRight) else [];
    var w3, w4 := if rb then Assigned(rig.rearLeft) else [], if rb then Assigned(rig.rearRight) else [];
    var imp := if rb && x.handbrakeActive then AssignedRearWheels(rig) else [];
    WheelPassFacts(x, s0, rig, rig.frontLeft, loads.frontLeft, false, fl);
    WheelPassFacts(x, s1, rig, rig.frontRight, loads.frontRight, false, fr);
    WheelPassFacts(x, s2, rig, rig.rearLeft, loads.rearLeft, true, rl);
    WheelPassFacts(x, s3, rig, rig.rearRight, loads.rearRight, true, rr);
    HandbrakeImpulsesFacts(x, s4, rig);
    SummaryCompose(x, s0, s1, s2, 0, w1, [], 0, w2, []);
    SummaryCompose(x, s0, s2, s3, 0, w1 + w2, [], n3, w3, []);
    SummaryCompose(x, s0, s3, s4, n3, w1 + w2 + w3, [], n4, w4, []);
    SummaryCompose(x, s0, s4, t, n3 + n4, w1 + w2 + w3 + w4, [], 0, [], imp);
    assert n3 + n4 == EngineStepsPerTick(rig, x.rbAttached, x.handbrakeActive);
    assert w1 + w2 + w3 + w4 == (if rb then AssignedWheels(rig) else []);
  }

  /** One tick steps the engine once per assigned rear wheel (never with the
      handbrake on), applies one force per assigned wheel in the order
      front-left, front-right, rear-left, rear-right, then the handbrake
      impulses at the assigned rear wheels, and leaves in the axle totals the
      sums of this tick's driven fx and non-driven fy. */
  lemma TickFacts(x: TickContext, s: Snapshot, rig: WheelRig, loads: WheelLoads,
                  fl: WheelVelocity, fr: WheelVelocity, rl: WheelVelocity, rr: WheelVelocity)
    requires ValidSettings(x.settings)
    ensures var t := Tick(x, s, rig, loads, fl, fr, rl, rr);
      && t.engine == Iterate(x.engineTuning, x.engineSettings, s.engine,
                             EngineStepsPerTick(rig, x.rbAttached, x.handbrakeActive),
                             x.throttleInput, x.forwardSpeed, x.deltaTime)
      && t.log == s.log + t.log[|s.log|..]
      && WheelsWhere(t.log[|s.log|..], IsForce) == (if x.rbAttached then AssignedWheels(rig) else [])
      && WheelsWhere(t.log[|s.log|..], IsImpulse)
         == (if x.rbAttached && x.handbrakeActive then AssignedRearWheels(rig) else [])
      && t.telemetry.totalRearFx == Total(t.log[|s.log|..], DrivenFx)
      && t.telemetry.totalFrontFy == Total(t.log[|s.log|..], FrontFy)
  {
    var s0 := s.(telemetry := ResetTotals(s.telemetry));
    var s1 := WheelPass(x, s0, rig, rig.frontLeft, loads.frontLeft, false, fl);
    var s2 := WheelPass(x, s1, rig, rig.frontRight, loads.frontRight, false, fr);
    var s3 := WheelPass(x, s2, rig, rig.rearLeft, loads.rearLeft, true, rl);
    var s4 := WheelPass(x, s3, rig, rig.rearRight, loads.rearRight, true, rr);
    var t := s4.(log := s4.log + HandbrakeImpulses(x.tuning, rig, x.rbAttached, x.handbrakeActive, x.bodySpeed, x.deltaTime));
    TickSteps(x, s, rig, loads, fl, fr, rl, rr, s0, s1, s2, s3, s4, t);
    PassesSummary(x, rig, loads, fl, fr, rl, rr, s0, s1, s2, s3, s4, t);
  }

  /** A tick taken one wheel pass at a time is the tick. */
  lemma TickSteps(x: TickContext, s: Snapshot, rig: WheelRig, loads: WheelLoads,
                  fl: WheelVelocity, fr: WheelVelocity, rl: WheelVelocity, rr: WheelVelocity,
                  s0: Snapshot, s1: Snapshot, s2: Snapshot, s3: Snapshot, s4: Snapshot, t: Snapshot)
    requires ValidSettings(x.settings)
    requires s0 == s.(telemetry := ResetTotals(s.telemetry))
    requires s1 == WheelPass(x, s0, rig, rig.frontLeft, loads.frontLeft, false, fl)
    requires s2 == WheelPass(x, s1, rig, rig.frontRight, loads.frontRight, false, fr)
    requires s3 == WheelPass(x, s2, rig, rig.rearLeft, loads.rearLeft, true, rl)
    requires s4 == WheelPass(x, s3, rig, rig.rearRight, loads.rearRight, true, rr)
    requires t == s4.(log := s4.log + HandbrakeImpulses(x.tuning, rig, x.rbAttached, x.handbrakeActive, x.bodySpeed, x.deltaTime))
    ensures t == Tick(x, s, rig, loads, fl, fr, rl, rr)
  {
  }

  /** With both rear wheels assigned and the handbrake released, a tick
      steps the engine exactly twice. */
  lemma TwoEngineStepsPerTick(x: TickContext, s: Snapshot, rig: WheelRig, loads: WheelLoads,
                              fl: WheelVelocity, fr: WheelVelocity, rl: WheelVelocity, rr: WheelVelocity)
    requires ValidSettings(x.settings)
    requires rig.rearLeft.Some? && rig.rearRight.Some? && x.rbAttached && !x.handbrakeActive
    ensures var once := Step(x.engineTuning, x.engineSettings, s.engine, x.throttleInput, x.forwardSpeed, x.deltaTime);
      Tick(x, s, rig, loads, fl, fr, rl, rr).engine
      == Step(x.engineTuning, x.engineSettings, once, x.throttleInput, x.forwardSpeed, x.deltaTime)
  {
    TickFacts(x, s, rig, loads, fl, fr, rl, rr);
    assert EngineStepsPerTick(rig, x.rbAttached, x.handbrakeActive) == 2;
  }

  /** The rear slip ratio is written by every driven wheel pass, so after a
      tick it is the last driven wheel's: the rear-right one when assigned,
      else the rear-left one, and the old value when neither ran. */
  lemma TickRearSlipRatio(x: TickContext, s: Snapshot, rig: WheelRig, loads: WheelLoads,
                          fl: WheelVelocity, fr: WheelVelocity, rl: WheelVelocity, rr: WheelVelocity)
    requires ValidSettings(x.settings)
    ensures var t := Tick(x, s, rig, loads, fl, fr, rl, rr).telemetry;
      && t.rearSlipRatio
         == (if x.rbAttached && rig.rearRight.Some? then t.rearRight.slipRatio
             else if x.rbAttached && rig.rearLeft.Some? then t.rearLeft.slipRatio
             else s.telemetry.rearSlipRatio)
      && (x.rbAttached && rig.rearRight.Some? ==>
            t.rearSlipRatio == SlipRatio(t.rearRight.fx, loads.rearRight, x.settings.frictionCoefficient))
      && (x.rbAttached && rig.rearRight.None? && rig.rearLeft.Some? ==>
            t.rearSlipRatio == SlipRatio(t.rearLeft.fx, loads.rearLeft, x.settings.frictionCoefficient))
  {
    var s0 := s.(telemetry := ResetTotals(s.telemetry));
    var s1 := WheelPass(x, s0, rig, rig.frontLeft, loads.frontLeft, false, fl);
    var s2 := WheelPass(x, s1, rig, rig.frontRight, loads.frontRight, false, fr);
    var s3 := WheelPass(x, s2, rig, rig.rearLeft, loads.rearLeft, true, rl);
    var s4 := WheelPass(x, s3, rig, rig.rearRight, loads.rearRight, true, rr);
    var t := s4.(log := s4.log + HandbrakeImpulses(x.tuning, rig, x.rbAttached, x.handbrakeActive, x.bodySpeed, x.deltaTime));
    TickSteps(x, s, rig, loads, fl, fr, rl, rr, s0, s1, s2, s3, s4, t);
    assert s2.telemetry.rearSlipRatio == s.telemetry.rearSlipRatio;
  }

  /** An unassigned wheel, or a controller without its rigid body, changes
      nothing at all. */
  lemma UnassignedWheelNoEffect(x: TickContext, s: Snapshot, rig: WheelRig, wheel: Option<WheelId>,
                                normalForce: real, isDriven: bool, v: WheelVelocity)
    requires ValidSettings(x.settings)
    requires wheel.None? || !x.rbAttached
    ensures WheelPass(x, s, rig, wheel, normalForce, isDriven, v) == s
  {
  }

  // ---------------------------------------------------------------------
  // The component

  class KartController {
    const settings: KartSettings
    const tuning: ControllerTuning
    const rig: WheelRig
    const engine: KartEngine
    /** Mathf.Sqrt */
    const sqrt: real -> real

    /** Whether `Start` has fetched the rigid body. */
    var rbAttached: bool
    /** The rigid body's mass. */
    var bodyMass: real

    /** The driver's input, written every frame from the input system and
        only read by the operations modelled here. */
    var isHandbrakeActive: bool
    var throttleInput: real
    var steerInput: real

    var frontLeftNormalForce: real
    var frontRightNormalForce: real
    var rearLeftNormalForce: real
    var rearRightNormalForce: real

    /** The steering yaw (degrees) on top of each front wheel's initial rotation. */
    var frontLeftSteerAngle: real
    var frontRightSteerAngle: real

    var frontLeftTelemetry: WheelTelemetry
    var frontRightTelemetry: WheelTelemetry
    var rearLeftTelemetry: WheelTelemetry
    var rearRightTelemetry: WheelTelemetry
    var rearSlipRatio: real
    var totalRearFx: real
    var totalFrontFy: real

    /** Every force and impulse handed to the rigid body, oldest first. */
    var applied: seq<AppliedForce>

    ghost function Board(): Telemetry
      reads this
    {
      Telemetry(frontLeftTelemetry, frontRightTelemetry, rearLeftTelemetry, rearRightTelemetry,
                rearSlipRatio, totalRearFx, totalFrontFy)
    }

    ghost function Snap(): Snapshot
      reads this, engine
    {
      Snapshot(engine.State(), applied, Board())
    }

    ghost function Loads(): WheelLoads
      reads this
    {
      WheelLoads(frontLeftNormalForce, frontRightNormalForce, rearLeftNormalForce, rearRightNormalForce)
    }

    ghost function Context(forwardSpeed: real, bodySpeed: real, deltaTime: real): TickContext
      reads this`rbAttached, this`isHandbrakeActive, this`throttleInput
    {
      TickContext(settings, tuning, sqrt, engine.tuning, engine.settings,
                  rbAttached, isHandbrakeActive, throttleInput, forwardSpeed, bodySpeed, deltaTime)
    }

    /** A newly added component, before `Start`: no rigid body yet, no
        input, no loads, no forces. */
    constructor (settings: KartSettings, tuning: ControllerTuning, rig: WheelRig,
                 engine: KartEngine, sqrt: real -> real, bodyMass: real)
      ensures this.settings == settings && this.tuning == tuning && this.rig == rig
      ensures this.engine == engine && this.sqrt == sqrt && this.bodyMass == bodyMass
      ensures !rbAttached && !isHandbrakeActive && throttleInput == 0.0 && steerInput == 0.0
      ensures Loads() == WheelLoads(0.0, 0.0, 0.0, 0.0)
      ensures frontLeftSteerAngle == 0.0 && frontRightSteerAngle == 0.0
      ensures Board() == Telemetry(NoTelemetry, NoTelemetry, NoTelemetry, NoTelemetry, 0.0, 0.0, 0.0)
      ensures applied == []
    {
      this.settings := settings;
      this.tuning := tuning;
      this.rig := rig;
      this.engine := engine;
      this.sqrt := sqrt;
      this.bodyMass := bodyMass;
      rbAttached := false;
      isHandbrakeActive := false;
      throttleInput, steerInput := 0.0, 0.0;
      frontLeftNormalForce, frontRightNormalForce := 0.0, 0.0;
      rearLeftNormalForce, rearRightNormalForce := 0.0, 0.0;
      frontLeftSteerAngle, frontRightSteerAngle := 0.0, 0.0;
      frontLeftTelemetry, frontRightTelemetry := NoTelemetry, NoTelemetry;
      rearLeftTelemetry, rearRightTelemetry := NoTelemetry, NoTelemetry;
      rearSlipRatio, totalRearFx, totalFrontFy := 0.0, 0.0, 0.0;
      applied := [];
    }

    /** Unity's `Start`: fetch the rigid body, give it the configured mass
        and compute the static wheel loads from that mass. */
    method Start()
      modifies this`rbAttached, this`bodyMass
      modifies this`frontLeftNormalForce, this`frontRightNormalForce
      modifies this`rearLeftNormalForce, this`rearRightNormalForce
      ensures rbAttached && bodyMass == settings.mass
      ensures Loads() == StaticWheelLoads(settings.mass, tuning.gravity, tuning.frontAxleShare)
    {
      rbAttached := true;
      bodyMass := settings.mass;
      ComputeStaticWheelLoads();
    }

    /** The weight of the body split between the axles, then between the
        two wheels of each axle. */
    method ComputeStaticWheelLoads()
      modifies this`frontLeftNormalForce, this`frontRightNormalForce
      modifies this`rearLeftNormalForce, this`rearRightNormalForce
      ensures Loads() == StaticWheelLoads(bodyMass, tuning.gravity, tuning.frontAxleShare)
      ensures TotalLoad(Loads()) == bodyMass * tuning.gravity
    {
      var mass := bodyMass;
      var totalWeight := mass * tuning.gravity;

      var frontWeight := totalWeight * tuning.frontAxleShare;
      var rearWeight := totalWeight * (1.0 - tuning.frontAxleShare);

      frontLeftNormalForce := frontWeight * 0.5;
      frontRightNormalForce := frontWeight * 0.5;

      rearLeftNormalForce := rearWeight * 0.5;
      rearRightNormalForce := rearWeight * 0.5;

      StaticWheelLoadsFacts(bodyMass, tuning.gravity, tuning.frontAxleShare);
    }

    /** Turns each assigned front wheel by maxSteerAngle * steerInput. The
        drift boost multiplies the angle after the rotation has been built,
        so neither the handbrake nor the speed changes the result. */
    method RotateFrontWheels(speed: real)
      modifies this`frontLeftSteerAngle, this`frontRightSteerAngle
      ensures frontLeftSteerAngle
              == if rig.frontLeft.Some? then settings.maxSteerAngle * steerInput else old(frontLeftSteerAngle)
      ensures frontRightSteerAngle
              == if rig.frontRight.Some? then settings.maxSteerAngle * steerInput else old(frontRightSteerAngle)
    {
      var steerAngle := settings.maxSteerAngle * steerInput;
      var steerRotation := steerAngle;

      if isHandbrakeActive && Abs(speed) > 2.0 {
        steerAngle := steerAngle * 1.5;
      }

      if rig.frontLeft.Some? {
        frontLeftSteerAngle := steerRotation;
      }
      if rig.frontRight.Some? {
        frontRightSteerAngle := steerRotation;
      }
    }

    /** Records one wheel's readings and adds its force to its axle's total. */
    method StoreWheelTelemetryData(wheel: WheelId, vLat: real, fx: real, fy: real,
                                   normalForce: real, isDriven: bool)
      requires ValidSettings(settings)
      modifies this`frontLeftTelemetry, this`frontRightTelemetry
      modifies this`rearLeftTelemetry, this`rearRightTelemetry
      modifies this`rearSlipRatio, this`totalRearFx, this`totalFrontFy
      ensures Board() == StoreTelemetry(old(Board()), rig, wheel, vLat, fx, fy, normalForce,
                                        settings.frictionCoefficient, isDriven)
    {
      var isFrontLeft := rig.frontLeft == Some(wheel);
      var isFrontRight := rig.frontRight == Some(wheel);
      var isRearLeft := rig.rearLeft == Some(wheel);
      var isRearRight := rig.rearRight == Some(wheel);

      var slipRatio := SlipRatio(fx, normalForce, settings.frictionCoefficient);
      var readings := WheelTelemetry(vLat, fx, fy, slipRatio);
      if isFrontLeft { frontLeftTelemetry := readings; }
      if isFrontRight { frontRightTelemetry := readings; }
      if isRearLeft { rearLeftTelemetry := readings; }
      if isRearRight { rearRightTelemetry := readings; }

      if isDriven {
        totalRearFx := totalRearFx + fx;
      } else {
        totalFrontFy := totalFrontFy + fy;
      }

      if isDriven {
        rearSlipRatio := slipRatio;
      }
    }

    /** The tire force of one wheel, given the rigid body's velocity at it
        and along the kart. `x` names the tick's fixed context (the ghost
        argument only lets a caller refer to it). */
    method ApplyWheelForces(wheel: Option<WheelId>, normalForce: real, isDriven: bool,
                            v: WheelVelocity, forwardSpeed: real, deltaTime: real, ghost x: TickContext)
      requires ValidSettings(settings) && x == Context(forwardSpeed, x.bodySpeed, deltaTime)
      modifies this`applied, engine
      modifies this`frontLeftTelemetry, this`frontRightTelemetry
      modifies this`rearLeftTelemetry, this`rearRightTelemetry
      modifies this`rearSlipRatio, this`totalRearFx, this`totalFrontFy
      ensures Snap() == WheelPass(x, old(Snap()), rig, wheel, normalForce, isDriven, v)
    {
      if wheel.None? || !rbAttached {
        return;
      }

      var engineTorque := 0.0;
      if isDriven && !isHandbrakeActive {
        engineTorque := engine.Simulate(throttleInput, forwardSpeed, deltaTime);
      }

      var f := WheelForce(settings, tuning, sqrt, isDriven, isHandbrakeActive, engineTorque,
                          v.vLong, v.vLat, normalForce);
      applied := applied + [ForceAtWheel(wheel.value, isDriven, f)];

      StoreWheelTelemetryData(wheel.value, v.vLat, f.fx, f.fy, normalForce, isDriven);
    }

    /** The extra handbrake impulse at the assigned rear wheels, against
        the body's velocity; `bodySpeed` is the length of that velocity. */
    method ApplyHandbrakeForces(bodySpeed: real, deltaTime: real)
      modifies this`applied
      ensures applied == old(applied) + HandbrakeImpulses(tuning, rig, rbAttached, isHandbrakeActive, bodySpeed, deltaTime)
    {
      if !isHandbrakeActive || !rbAttached {
        return;
      }
      var brakeForce := NormalizedLength(bodySpeed) * tuning.handbrakeForce * deltaTime;
      assert brakeForce * 0.5 == HandbrakeImpulse(tuning, bodySpeed, deltaTime);
      if rig.rearLeft.Some? {
        applied := applied + [ImpulseAtWheel(rig.rearLeft.value, brakeForce * 0.5)];
      }
      if rig.rearRight.Some? {
        applied := applied + [ImpulseAtWheel(rig.rearRight.value, brakeForce * 0.5)];
      }
    }

    /** One fixed physics tick. `fl`, `fr`, `rl`, `rr` are the rigid body's
        velocities at the four wheels, `forwardSpeed` its speed along the
        kart's forward axis and `bodySpeed` the length of its velocity; they
        do not change during the tick. */
    method FixedUpdate(fl: WheelVelocity, fr: WheelVelocity, rl: WheelVelocity, rr: WheelVelocity,
                       forwardSpeed: real, bodySpeed: real, deltaTime: real)
      requires ValidSettings(settings)
      modifies this`applied, engine
      modifies this`frontLeftTelemetry, this`frontRightTelemetry
      modifies this`rearLeftTelemetry, this`rearRightTelemetry
      modifies this`rearSlipRatio, this`totalRearFx, this`totalFrontFy
      ensures Snap() == Tick(Context(forwardSpeed, bodySpeed, deltaTime), old(Snap()), rig, Loads(), fl, fr, rl, rr)
      ensures engine.State() == Iterate(engine.tuning, engine.settings, old(engine.State()),
                                        EngineStepsPerTick(rig, rbAttached, isHandbrakeActive),
                                        throttleInput, forwardSpeed, deltaTime)
      ensures WheelsWhere(applied[|old(applied)|..], IsForce) == if rbAttached then AssignedWheels(rig) else []
      ensures totalRearFx == Total(applied[|old(applied)|..], DrivenFx)
      ensures totalFrontFy == Total(applied[|old(applied)|..], FrontFy)
    {
      totalRearFx := 0.0;
      totalFrontFy := 0.0;
      ghost var x := Context(forwardSpeed, bodySpeed, deltaTime);
      ghost var s0 := Snap();

      ApplyWheelForces(rig.frontLeft, frontLeftNormalForce, false, fl, forwardSpeed, deltaTime, x);
      ghost var s1 := Snap();
      ApplyWheelForces(rig.frontRight, frontRightNormalForce, false, fr, forwardSpeed, deltaTime, x);
      ghost var s2 := Snap();

      ApplyWheelForces(rig.rearLeft, rearLeftNormalForce, true, rl, forwardSpeed, deltaTime, x);
      ghost var s3 := Snap();
      ApplyWheelForces(rig.rearRight, rearRightNormalForce, true, rr, forwardSpeed, deltaTime, x);
      ghost var s4 := Snap();

      ApplyHandbrakeForces(bodySpeed, deltaTime);

      ghost var loads := Loads();
      ghost var t := Snap();
      assert s0 == old(Snap()).(telemetry := ResetTotals(old(Snap()).telemetry));
      assert t == s4.(log := s4.log + HandbrakeImpulses(x.tuning, rig, x.rbAttached, x.handbrakeActive, x.bodySpeed, x.deltaTime));
      TickSteps(x, old(Snap()), rig, loads, fl, fr, rl, rr, s0, s1, s2, s3, s4, t);
      TickFacts(x, old(Snap()), rig, loads, fl, fr, rl, rr);
    }
  }
}
