/**
 * The arcade flight model of the newer engine (objects/game-engine.js): one
 * physics tick per active aircraft (`applyFlightPhysics`), world-boundary
 * enforcement (`applyBoundaries`), and the tick driver (`updatePlayers`).
 *
 * The aircraft's thrust factor is the profile's scalar `acceleration`, kept in
 * `Aircraft.accelerationFactor`; the per-tick force accumulator is the separate
 * vector `Aircraft.accumulator` (see `ThrustPower`).
 */
module FlightEngine {
  import opened Optional
  import opened Vectors
  import opened World
  import opened AirplaneModels
  import opened Controls

  /** The constants of `applyFlightPhysics`. */
  const DragCoefficient: real := 0.95
  const LiftCoefficient: real := 0.03
  const GravityForce: real := 400.0
  const PitchRate: real := 1.5
  const BankLimit: real := 0.8
  const PitchLimit: real := 0.8
  const ClimbLimit: real := 0.6

  function Min(a: real, b: real): real {
    if a < b then a else b
  }

  /** The profile data a tick reads from the aircraft. */
  datatype Handling = Handling(accelerationFactor: real, turnRate: real, weight: real, maxSpeed: real)

  function HandlingOf(a: Aircraft): Handling
    reads a
  {
    Handling(a.accelerationFactor, a.turnRate, a.weight, a.maxSpeed)
  }

  /** The load and health of an aircraft, which a frame never touches. */
  datatype Stores = Stores(fuel: real, ammo: int, bombs: int, health: int)

  function StoresOf(a: Aircraft): Stores
    reads a
  {
    Stores(a.fuel, a.ammo, a.bombs, a.health)
  }

  /**
   * `thrustPower = 1000 * airplane.acceleration`, with `acceleration` the profile's
   * scalar: a finite number, positive for every profile.
   */
  function ThrustPower(accelerationFactor: real): (p: real)
    ensures TimesNumber(1000.0, Num(accelerationFactor)) == Finite(p)
    ensures 0.0 < accelerationFactor ==> 0.0 < p
  {
    1000.0 * accelerationFactor
  }

  /** The throttle ramps up at 2 per second while held and down at 1.5 per second otherwise, staying in [0, 1]. */
  function ThrottleStep(throttlePower: real, held: bool, dt: real): (r: real)
    ensures 0.0 <= dt && 0.0 <= throttlePower <= 1.0 ==> 0.0 <= r <= 1.0
    ensures 0.0 <= dt && held ==> r == 1.0 || throttlePower <= r
    ensures 0.0 <= dt && !held ==> r == 0.0 || r <= throttlePower
  {
    if held then Min(throttlePower + dt * 2.0, 1.0) else Max(throttlePower - dt * 1.5, 0.0)
  }

  /**
   * Banking moves toward -0.8 while turning left (left wins over right), toward
   * 0.8 while turning right, and otherwise decays by 0.92 per tick whatever `dt` is.
   */
  function BankStep(banking: real, c: ControlFlags, turnRate: real, dt: real): (r: real)
    ensures 0.0 <= turnRate * dt && -BankLimit <= banking <= BankLimit ==> -BankLimit <= r <= BankLimit
    ensures c.turnLeft && 0.0 <= turnRate * dt && -BankLimit <= banking ==> r <= banking
    ensures !c.turnLeft && c.turnRight && 0.0 <= turnRate * dt && banking <= BankLimit ==> banking <= r
    ensures !c.turnLeft && !c.turnRight ==> r == banking * 0.92
  {
    if c.turnLeft then Max(banking - turnRate * dt, -BankLimit)
    else if c.turnRight then Min(banking + turnRate * dt, BankLimit)
    else banking * 0.92
  }

  /** The heading change of a tick: `-turnRate * dt` turning left, `turnRate * dt` turning right, none otherwise. */
  function TurnAngle(c: ControlFlags, turnRate: real, dt: real): Option<real> {
    if c.turnLeft then Some(-turnRate * dt)
    else if c.turnRight then Some(turnRate * dt)
    else None
  }

  function Turned(g: Geometry, direction: Vec3, c: ControlFlags, turnRate: real, dt: real): Vec3 {
    match TurnAngle(c, turnRate, dt)
    case Some(angle) => RotateY(g, direction, angle)
    case None => direction
  }

  /** Pitch moves toward -0.8 with the nose down (down wins over up), toward 0.8 with the nose up, and otherwise decays by 0.96. */
  function PitchStep(pitch: real, c: ControlFlags, dt: real): (r: real)
    ensures 0.0 <= dt && -PitchLimit <= pitch <= PitchLimit ==> -PitchLimit <= r <= PitchLimit
    ensures c.noseDown && 0.0 <= dt && -PitchLimit <= pitch ==> r <= pitch
    ensures !c.noseDown && c.noseUp && 0.0 <= dt && pitch <= PitchLimit ==> pitch <= r
    ensures !c.noseDown && !c.noseUp ==> r == pitch * 0.96
  {
    if c.noseDown then Max(pitch - PitchRate * dt, -PitchLimit)
    else if c.noseUp then Min(pitch + PitchRate * dt, PitchLimit)
    else pitch * 0.96
  }

  /** The direction's vertical component moves toward -0.6 or 0.6 at 0.6 per second, or decays by 0.98. */
  function ClimbStep(y: real, c: ControlFlags, dt: real): (r: real)
    ensures c.noseDown ==> -ClimbLimit <= r
    ensures !c.noseDown && c.noseUp ==> r <= ClimbLimit
    ensures c.noseDown && 0.0 <= dt && -ClimbLimit <= y ==> r <= y
    ensures !c.noseDown && c.noseUp && 0.0 <= dt && y <= ClimbLimit ==> y <= r
    ensures !c.noseDown && !c.noseUp ==> r == y * 0.98
  {
    if c.noseDown then Max(y - PitchRate * dt * 0.4, -ClimbLimit)
    else if c.noseUp then Min(y + PitchRate * dt * 0.4, ClimbLimit)
    else y * 0.98
  }

  /** The direction after this tick's turn and pitch updates, before normalisation. */
  function Steered(g: Geometry, direction: Vec3, c: ControlFlags, turnRate: real, dt: real): Vec3 {
    var d := Turned(g, direction, c, turnRate, dt);
    d.(y := ClimbStep(d.y, c, dt))
  }

  /** `if (|v| > maxSpeed) v.normalize().multiplyScalar(maxSpeed)`. */
  function CapSpeed(g: Geometry, v: Vec3, maxSpeed: real): Vec3 {
    if Length(g, v) > maxSpeed then Scale(Normalize(g, v), maxSpeed) else v
  }

  /** The thrust added this tick: along `direction`, scaled by throttle, thrust power and `dt`, divided by the weight. */
  function Thrust(direction: Vec3, throttle: real, h: Handling, dt: real): Vec3
    requires 0.0 < h.weight
  {
    Scale(direction, throttle * ThrustPower(h.accelerationFactor) * dt / h.weight)
  }

  function WithGravity(accumulator: Vec3, dt: real): Vec3 {
    accumulator.(y := accumulator.y - GravityForce * dt)
  }

  /** Lift proportional to the speed measured at the start of the tick. */
  function WithLift(accumulator: Vec3, currentSpeed: real, dt: real): Vec3 {
    accumulator.(y := accumulator.y + currentSpeed * LiftCoefficient * dt)
  }

  /** Linear drag against the velocity. */
  function Drag(velocity: Vec3, dt: real): Vec3 {
    Scale(velocity, -DragCoefficient * dt)
  }

  /** The velocity after thrust, gravity, lift and drag, before the speed cap. */
  function Accelerated(g: Geometry, s: FlightState, h: Handling, throttle: real, dt: real): Vec3
    requires 0.0 < h.weight
  {
    var forces := WithLift(WithGravity(Add(s.accumulator, Thrust(s.direction, throttle, h, dt)), dt), Length(g, s.velocity), dt);
    Add(s.velocity, Scale(Add(forces, Drag(s.velocity, dt)), dt))
  }

  /** `applyFlightPhysics(airplane, controls, dt)` on the aircraft's flight state. */
  function Tick(g: Geometry, s: FlightState, h: Handling, c: ControlFlags, dt: real): FlightState
    requires 0.0 < h.weight
  {
    var throttle := ThrottleStep(s.throttlePower, c.throttle, dt);
    var velocity := CapSpeed(g, Accelerated(g, s, h, throttle, dt), h.maxSpeed);
    FlightState(
      position := Add(s.position, Scale(velocity, dt)),
      velocity := velocity,
      accumulator := Zero,
      direction := Normalize(g, Steered(g, s.direction, c, h.turnRate, dt)),
      banking := BankStep(s.banking, c, h.turnRate, dt),
      pitch := PitchStep(s.pitch, c, dt),
      throttlePower := throttle,
      speed := Length(g, velocity))
  }

  /** After the cap the speed is at most `maxSpeed`; a velocity within the limit is kept; a faster one is scaled to exactly the limit. */
  lemma {:induction false} SpeedCap(g: Geometry, v: Vec3, maxSpeed: real)
    requires Sound(g) && 0.0 <= maxSpeed
    ensures Length(g, CapSpeed(g, v, maxSpeed)) <= maxSpeed
    ensures Length(g, v) <= maxSpeed ==> CapSpeed(g, v, maxSpeed) == v
    ensures Length(g, v) > maxSpeed ==> Length(g, CapSpeed(g, v, maxSpeed)) == maxSpeed
  {
    if Length(g, v) > maxSpeed {
      LengthFacts(g, v);
      assert v != Zero;
      NormalizeUnit(g, v);
      LengthOfScale(g, Normalize(g, v), maxSpeed);
    }
  }

  /** At the end of a tick the accumulator is zero, the speed is the velocity's length, and that is at most `maxSpeed`. */
  lemma {:induction false} EndOfTick(g: Geometry, s: FlightState, h: Handling, c: ControlFlags, dt: real)
    requires Sound(g) && 0.0 < h.weight && 0.0 <= h.maxSpeed
    ensures var r := Tick(g, s, h, c, dt);
      r.accumulator == Zero && r.speed == Length(g, r.velocity) && r.speed <= h.maxSpeed
  {
    var throttle := ThrottleStep(s.throttlePower, c.throttle, dt);
    SpeedCap(g, Accelerated(g, s, h, throttle, dt), h.maxSpeed);
  }

  /**
   * Thrust uses the direction as it was before this tick's turn and pitch: the
   * new velocity, position and throttle do not depend on the turn or pitch keys.
   */
  lemma ThrustUsesPreviousDirection(g: Geometry, s: FlightState, h: Handling, c1: ControlFlags, c2: ControlFlags, dt: real)
    requires 0.0 < h.weight && c1.throttle == c2.throttle
    ensures Tick(g, s, h, c1, dt).velocity == Tick(g, s, h, c2, dt).velocity
    ensures Tick(g, s, h, c1, dt).position == Tick(g, s, h, c2, dt).position
    ensures Tick(g, s, h, c1, dt).throttlePower == Tick(g, s, h, c2, dt).throttlePower
  {
  }

  /**
   * A direction with a non-zero horizontal part stays a unit vector with a
   * non-zero horizontal part: the turn keeps the horizontal length, the pitch
   * changes only the vertical component, and normalisation rescales.
   */
  lemma {:induction false} DirectionStaysUnit(g: Geometry, direction: Vec3, c: ControlFlags, turnRate: real, dt: real)
    requires Sound(g) && 0.0 < HorizontalSq(direction)
    ensures var d := Normalize(g, Steered(g, direction, c, turnRate, dt));
      Length(g, d) == 1.0 && 0.0 < HorizontalSq(d)
  {
    var steered := Steered(g, direction, c, turnRate, dt);
    SteeredKeepsHorizontal(g, direction, c, turnRate, dt);
    NormalizeKeepsHorizontal(g, steered);
  }

  lemma SteeredKeepsHorizontal(g: Geometry, direction: Vec3, c: ControlFlags, turnRate: real, dt: real)
    requires Sound(g)
    ensures HorizontalSq(Steered(g, direction, c, turnRate, dt)) == HorizontalSq(direction)
  {
    match TurnAngle(c, turnRate, dt) {
      case Some(angle) => RotateKeepsHorizontal(g, direction, angle);
      case None =>
    }
  }

  /** A vector with a horizontal part normalises to a unit vector that still has one. */
  lemma NormalizeKeepsHorizontal(g: Geometry, v: Vec3)
    requires Sound(g) && 0.0 < HorizontalSq(v)
    ensures Length(g, Normalize(g, v)) == 1.0 && 0.0 < HorizontalSq(Normalize(g, v))
  {
    assert v != Zero;
    NormalizeUnit(g, v);
    LengthFacts(g, v);
    var l := Length(g, v);
    HorizontalOfScale(v, 1.0 / l);
    PositiveSquare(1.0 / l);
    PositiveProduct((1.0 / l) * (1.0 / l), HorizontalSq(v));
  }

  lemma PositiveSquare(a: real)
    requires a != 0.0
    ensures 0.0 < a * a
  {
  }

  lemma PositiveProduct(a: real, b: real)
    requires 0.0 < a && 0.0 < b
    ensures 0.0 < a * b
  {
  }

  lemma ProductNonNegative(a: real, b: real)
    requires 0.0 <= a && 0.0 <= b
    ensures 0.0 <= a * b
  {
  }

  /** The state every aircraft keeps from tick to tick. */
  ghost predicate FlightInvariant(g: Geometry, s: FlightState, maxSpeed: real) {
    && 0.0 <= s.throttlePower <= 1.0
    && -BankLimit <= s.banking <= BankLimit
    && -PitchLimit <= s.pitch <= PitchLimit
    && s.accumulator == Zero
    && Length(g, s.velocity) <= maxSpeed
    && Length(g, s.direction) == 1.0
    && 0.0 < HorizontalSq(s.direction)
  }

  /** A tick with non-negative `dt` and turn rate preserves the flight invariant. */
  lemma {:induction false} TickPreservesInvariant(g: Geometry, s: FlightState, h: Handling, c: ControlFlags, dt: real)
    requires Sound(g) && 0.0 < h.weight && 0.0 <= h.maxSpeed && 0.0 <= h.turnRate && 0.0 <= dt
    requires FlightInvariant(g, s, h.maxSpeed)
    ensures FlightInvariant(g, Tick(g, s, h, c, dt), h.maxSpeed)
  {
    EndOfTick(g, s, h, c, dt);
    DirectionStaysUnit(g, s.direction, c, h.turnRate, dt);
    ControlStepsInRange(s, c, h.turnRate, dt);
    var r := Tick(g, s, h, c, dt);
    assert r.throttlePower == ThrottleStep(s.throttlePower, c.throttle, dt);
    assert r.banking == BankStep(s.banking, c, h.turnRate, dt);
    assert r.pitch == PitchStep(s.pitch, c, dt);
    assert r.direction == Normalize(g, Steered(g, s.direction, c, h.turnRate, dt));
  }

  /** Throttle, banking and pitch stay within their limits. */
  lemma ControlStepsInRange(s: FlightState, c: ControlFlags, turnRate: real, dt: real)
    requires 0.0 <= turnRate && 0.0 <= dt
    requires 0.0 <= s.throttlePower <= 1.0 && -BankLimit <= s.banking <= BankLimit && -PitchLimit <= s.pitch <= PitchLimit
    ensures 0.0 <= ThrottleStep(s.throttlePower, c.throttle, dt) <= 1.0
    ensures -BankLimit <= BankStep(s.banking, c, turnRate, dt) <= BankLimit
    ensures -PitchLimit <= PitchStep(s.pitch, c, dt) <= PitchLimit
  {
    ProductNonNegative(turnRate, dt);
  }

  /**
   * With all controls released and `dt = 0`, position and velocity (within the
   * speed limit) stay put.
   */
  lemma {:induction false} ZeroLengthTickKeepsKinematics(g: Geometry, s: FlightState, h: Handling)
    requires Sound(g) && 0.0 < h.weight && 0.0 <= h.maxSpeed
    requires s.accumulator == Zero && Length(g, s.velocity) <= h.maxSpeed
    ensures var r := Tick(g, s, h, Released, 0.0);
      r.position == s.position && r.velocity == s.velocity
  {
    var throttle := ThrottleStep(s.throttlePower, false, 0.0);
    var v := Accelerated(g, s, h, throttle, 0.0);
    assert v == s.velocity;
    SpeedCap(g, s.velocity, h.maxSpeed);
  }

  /**
   * With all controls released and `dt = 0` the nose still moves: the vertical
   * decay of the direction is not scaled by `dt`, so a climbing or diving
   * aircraft changes direction on a zero-length tick.
   */
  lemma {:induction false} ZeroLengthTickStillMovesNose(g: Geometry, s: FlightState, h: Handling)
    requires 0.0 < h.weight
    requires s.direction.y != 0.0 && s.direction.z != 0.0
    ensures Tick(g, s, h, Released, 0.0).direction != s.direction
  {
    var steered := Steered(g, s.direction, Released, h.turnRate, 0.0);
    assert steered == s.direction.(y := s.direction.y * 0.98);
    var l := Length(g, steered);
    RescaledDecayDiffers(s.direction, 1.0 / (if l == 0.0 then 1.0 else l));
  }

  /** Rescaling a vector whose vertical component was multiplied by 0.98 never gives back the vector. */
  lemma RescaledDecayDiffers(v: Vec3, k: real)
    requires v.y != 0.0 && v.z != 0.0
    ensures Scale(v.(y := v.y * 0.98), k) != v
  {
    var w := Scale(v.(y := v.y * 0.98), k);
    if v.z * k == v.z {
      assert v.z * (k - 1.0) == 0.0;
      ProductZero(v.z, k - 1.0);
      assert w.y == v.y * 0.98;
    } else {
      assert w == Vec3(v.x * k, v.y * 0.98 * k, v.z * k);
    }
  }

  /** A tick followed by `applyBoundaries`. */
  function Frame(g: Geometry, s: FlightState, h: Handling, b: Bounds, c: ControlFlags, dt: real): FlightState
    requires 0.0 < h.weight
  {
    var t := Tick(g, s, h, c, dt);
    var k := Enforce(b, Kinematics(t.position, t.velocity));
    t.(position := k.position, velocity := k.velocity)
  }

  /** What `updatePlayers` does to one aircraft: nothing unless it is active and has controls. */
  function FrameEffect(g: Geometry, s: FlightState, h: Handling, b: Bounds, active: bool, controls: Option<ControlFlags>, dt: real): FlightState
    requires 0.0 < h.weight
  {
    if active && controls.Some? then Frame(g, s, h, b, controls.value, dt) else s
  }

  /** Zeroing velocity components never lengthens the velocity. */
  lemma {:induction false} EnforceKeepsSpeedLimit(g: Geometry, b: Bounds, k: Kinematics)
    requires Sound(g) && WellFormed(b)
    ensures Length(g, Enforce(b, k).velocity) <= Length(g, k.velocity)
  {
    EnforceAxisDecoupled(b, k);
    var v, w := Enforce(b, k).velocity, k.velocity;
    assert v.x * v.x <= w.x * w.x && v.y * v.y <= w.y * w.y && v.z * v.z <= w.z * w.z;
    LengthMonotone(g, v, w);
  }

  /** A frame keeps the flight invariant and leaves the aircraft inside the world. */
  lemma {:induction false} FramePreservesInvariant(g: Geometry, s: FlightState, h: Handling, b: Bounds, c: ControlFlags, dt: real)
    requires Sound(g) && WellFormed(b) && 0.0 < h.weight && 0.0 <= h.maxSpeed && 0.0 <= h.turnRate && 0.0 <= dt
    requires FlightInvariant(g, s, h.maxSpeed)
    ensures FlightInvariant(g, Frame(g, s, h, b, c, dt), h.maxSpeed)
    ensures Inside(b, Frame(g, s, h, b, c, dt).position)
  {
    TickPreservesInvariant(g, s, h, c, dt);
    var t := Tick(g, s, h, c, dt);
    EnforceKeepsSpeedLimit(g, b, Kinematics(t.position, t.velocity));
    EnforceInside(b, Kinematics(t.position, t.velocity));
  }

  /** The record `createPlayer(id, color, position)` returns, without its mesh. */
  datatype PlayerRecord = PlayerRecord(
    id: int, state: FlightState, maxSpeed: real, weight: real, isActive: bool, controls: ControlFlags)

  function CreatePlayer(id: int, position: Vec3): PlayerRecord {
    PlayerRecord(id, RestingState(position), 800.0, 1.0, id == 0, Released)
  }

  /** A created player is at rest facing +z, satisfies the flight invariant, and is active exactly when its id is 0. */
  lemma {:induction false} CreatePlayerInitial(g: Geometry, id: int, position: Vec3)
    requires Sound(g)
    ensures var r := CreatePlayer(id, position);
      && FlightInvariant(g, r.state, r.maxSpeed)
      && r.state.position == position && r.state.velocity == Zero && r.state.speed == 0.0
      && (r.isActive <==> id == 0)
      && forall a :: !r.controls.Get(a)
  {
    RestingStateInvariant(g, position, 800.0);
    forall a: Action
      ensures !Released.Get(a)
    {
    }
  }

  /** An aircraft at rest facing +z satisfies the flight invariant for any non-negative speed limit. */
  lemma RestingStateInvariant(g: Geometry, position: Vec3, maxSpeed: real)
    requires Sound(g) && 0.0 <= maxSpeed
    ensures FlightInvariant(g, RestingState(position), maxSpeed)
  {
    LengthOfZero(g);
    LengthOfForward(g);
  }

  lemma LengthOfZero(g: Geometry)
    requires Sound(g)
    ensures Length(g, Zero) == 0.0
  {
    LengthFacts(g, Zero);
  }

  lemma LengthOfForward(g: Geometry)
    requires Sound(g)
    ensures Length(g, Vec3(0.0, 0.0, 1.0)) == 1.0
  {
    assert LengthSq(Vec3(0.0, 0.0, 1.0)) == 1.0;
    SqrtOfOne(g);
  }

  /** Aircraft types of `setupPlayers`. */
  const PlayerTypes: seq<string> := ["fighter", "fighter", "scout", "bomber"]

  /** The controls `updatePlayers` reads for slot `index`: none when there is no control system. */
  function ControlsFor(cs: ControlSystems?, index: nat): Option<ControlFlags>
    reads cs
  {
    if cs != null then cs.GetPlayerControls(index) else None
  }

  /** Slot `i` holds a fresh, consistent aircraft of the slot's type at its start position, active only in slot 0. */
  ghost predicate SlotReady(a: Aircraft, i: nat)
    requires i < 4
    reads a
  {
    && a.Valid()
    && a.aircraftType == PlayerTypes[i] && a.playerId == i
    && a.State() == RestingState(StartPositions[i])
    && (a.isActive <==> i == 0)
  }

  /** `class GameEngine` of the newer engine, reduced to the players and the world bounds. */
  class GameEngine {
    const worldBounds: Bounds
    var players: seq<Aircraft>

    /** The constructor with `setupPlayers`: four aircraft, only the first active, each registered with the control system. */
    constructor (cs: ControlSystems?)
      modifies cs
      ensures worldBounds == GameBounds
      ensures |players| == 4
      ensures forall i :: 0 <= i < 4 ==> fresh(players[i]) && SlotReady(players[i], i)
      ensures forall i, j :: 0 <= i < j < 4 ==> players[i] != players[j]
      ensures cs != null ==>
        4 <= |cs.players| && forall i :: 0 <= i < 4 ==> cs.players[i] == Some(PlayerInput(i, DefaultSchemeName(i), Released, Centred))
    {
      worldBounds := GameBounds;
      players := [];
      new;
      var ps: seq<Aircraft> := [];
      var i := 0;
      while i < 4
        invariant 0 <= i <= 4 && |ps| == i
        invariant forall j :: 0 <= j < i ==> fresh(ps[j]) && SlotReady(ps[j], j)
        invariant forall j, k :: 0 <= j < k < i ==> ps[j] != ps[k]
        invariant cs != null ==>
          i <= |cs.players| && forall j :: 0 <= j < i ==> cs.players[j] == Some(PlayerInput(j, DefaultSchemeName(j), Released, Centred))
      {
        var airplane := NewPlayer(i);
        if cs != null {
          var _ := cs.RegisterPlayer(i, None);
        }
        ps := ps + [airplane];
        i := i + 1;
      }
      players := ps;
    }

    /** The aircraft `setupPlayers` creates for slot `i`: its type, its start position, active only in slot 0. */
    static method NewPlayer(i: nat) returns (airplane: Aircraft)
      requires i < 4
      ensures fresh(airplane) && SlotReady(airplane, i)
    {
      airplane := new Aircraft.Create(PlayerTypes[i], i);
      airplane.position := StartPositions[i];
      airplane.isActive := i == 0;
    }

    /** `applyFlightPhysics(airplane, controls, deltaTime)`, step by step in the source's order. */
    method ApplyFlightPhysics(airplane: Aircraft, controls: ControlFlags, deltaTime: real, g: Geometry)
      requires 0.0 < airplane.weight
      modifies airplane`throttlePower, airplane`accumulator, airplane`banking, airplane`direction
      modifies airplane`pitch, airplane`velocity, airplane`position, airplane`speed
      ensures airplane.State() == Tick(g, old(airplane.State()), HandlingOf(airplane), controls, deltaTime)
    {
      ghost var s0 := airplane.State();
      var h := HandlingOf(airplane);
      var throttlePower := ThrottleStep(airplane.throttlePower, controls.throttle, deltaTime);
      var accumulator := Add(airplane.accumulator, Thrust(airplane.direction, throttlePower, h, deltaTime));
      var banking := BankStep(airplane.banking, controls, airplane.turnRate, deltaTime);
      var direction := Turned(g, airplane.direction, controls, airplane.turnRate, deltaTime);
      var pitch := PitchStep(airplane.pitch, controls, deltaTime);
      direction := direction.(y := ClimbStep(direction.y, controls, deltaTime));
      direction := Normalize(g, direction);
      accumulator := WithGravity(accumulator, deltaTime);
      var currentSpeed := Length(g, airplane.velocity);
      accumulator := WithLift(accumulator, currentSpeed, deltaTime);
      accumulator := Add(accumulator, Drag(airplane.velocity, deltaTime));
      var velocity := Add(airplane.velocity, Scale(accumulator, deltaTime));
      assert velocity == Accelerated(g, s0, h, throttlePower, deltaTime);
      assert direction == Normalize(g, Steered(g, s0.direction, controls, h.turnRate, deltaTime));
      if Length(g, velocity) > airplane.maxSpeed {
        velocity := Scale(Normalize(g, velocity), airplane.maxSpeed);
      }
      assert velocity == CapSpeed(g, Accelerated(g, s0, h, throttlePower, deltaTime), h.maxSpeed);
      var position := Add(airplane.position, Scale(velocity, deltaTime));
      ghost var t := Tick(g, s0, h, controls, deltaTime);
      assert t == FlightState(position, velocity, Zero, direction, banking, pitch, throttlePower, Length(g, velocity));
      airplane.throttlePower, airplane.banking, airplane.direction, airplane.pitch := throttlePower, banking, direction, pitch;
      airplane.velocity, airplane.position, airplane.accumulator := velocity, position, Zero;
      airplane.speed := Length(g, velocity);
    }

    /** `applyBoundaries(airplane)`: each axis clamped in turn, its velocity component zeroed when clamped. */
    method ApplyBoundaries(airplane: Aircraft)
      modifies airplane`position, airplane`velocity
      ensures Kinematics(airplane.position, airplane.velocity)
           == Enforce(worldBounds, Kinematics(old(airplane.position), old(airplane.velocity)))
    {
      var p, v := airplane.position, airplane.velocity;
      if p.x > worldBounds.x {
        p, v := p.(x := worldBounds.x), v.(x := 0.0);
      }
      if p.x < -worldBounds.x {
        p, v := p.(x := -worldBounds.x), v.(x := 0.0);
      }
      assert (p.x, v.x) == ClampAxis(airplane.position.x, airplane.velocity.x, -worldBounds.x, worldBounds.x);
      if p.z > worldBounds.z {
        p, v := p.(z := worldBounds.z), v.(z := 0.0);
      }
      if p.z < -worldBounds.z {
        p, v := p.(z := -worldBounds.z), v.(z := 0.0);
      }
      assert (p.z, v.z) == ClampAxis(airplane.position.z, airplane.velocity.z, -worldBounds.z, worldBounds.z);
      if p.y > worldBounds.y {
        p, v := p.(y := worldBounds.y), v.(y := 0.0);
      }
      if p.y < Ground {
        p, v := p.(y := Ground), v.(y := 0.0);
      }
      assert (p.y, v.y) == ClampAxis(airplane.position.y, airplane.velocity.y, Ground, worldBounds.y);
      airplane.position, airplane.velocity := p, v;
    }

    /**
     * `airplane` is where one frame of `updatePlayers` takes an aircraft that
     * was in state `s0` with handling `h`, activity `active` and stores `st`:
     * a frame if it is active and has controls, nothing otherwise; handling
     * (and so weight), activity and stores are never touched.
     */
    predicate FrameFrom(airplane: Aircraft, s0: FlightState, h: Handling, active: bool, st: Stores,
                        controls: Option<ControlFlags>, deltaTime: real, g: Geometry)
      reads airplane
    {
      && 0.0 < h.weight && HandlingOf(airplane) == h && airplane.isActive == active && StoresOf(airplane) == st
      && airplane.State() == FrameEffect(g, s0, h, worldBounds, active, controls, deltaTime)
    }

    /** What one frame of `updatePlayers` did to `airplane`, measured from its old state. */
    twostate predicate FrameApplied(airplane: Aircraft, controls: Option<ControlFlags>, deltaTime: real, g: Geometry)
      reads airplane
    {
      FrameFrom(airplane, old(airplane.State()), old(HandlingOf(airplane)), old(airplane.isActive), old(StoresOf(airplane)),
                controls, deltaTime, g)
    }

    /** One iteration of `updatePlayers`: a tick and the boundary check for an active aircraft with controls. */
    method UpdatePlayer(airplane: Aircraft, controls: Option<ControlFlags>, deltaTime: real, g: Geometry)
      requires 0.0 < airplane.weight
      modifies airplane`throttlePower, airplane`accumulator, airplane`banking, airplane`direction
      modifies airplane`pitch, airplane`velocity, airplane`position, airplane`speed
      ensures FrameApplied(airplane, controls, deltaTime, g)
    {
      ghost var s0, h := airplane.State(), HandlingOf(airplane);
      if airplane.isActive && controls.Some? {
        ApplyFlightPhysics(airplane, controls.value, deltaTime, g);
        ghost var t := airplane.State();
        ApplyBoundaries(airplane);
        ghost var k := Enforce(worldBounds, Kinematics(t.position, t.velocity));
        assert airplane.State() == t.(position := k.position, velocity := k.velocity);
        assert airplane.State() == Frame(g, s0, h, worldBounds, controls.value, deltaTime);
      }
      assert airplane.State() == FrameEffect(g, s0, h, worldBounds, airplane.isActive, controls, deltaTime);
    }

    /**
     * `updatePlayers(deltaTime)`: each active aircraft with controls gets a
     * physics tick and then the boundary check; the others are left as they were.
     * The visual update between the two touches only the mesh.
     */
    method UpdatePlayers(cs: ControlSystems?, deltaTime: real, g: Geometry)
      requires forall i :: 0 <= i < |players| ==> 0.0 < players[i].weight
      requires forall i, j :: 0 <= i < j < |players| ==> players[i] != players[j]
      modifies players
      ensures forall i :: 0 <= i < |players| ==> FrameApplied(players[i], ControlsFor(cs, i), deltaTime, g)
    {
      var index := 0;
      while index < |players|
        invariant index <= |players|
        invariant forall i :: 0 <= i < index ==>
          FrameFrom(players[i], old(players[i].State()), old(HandlingOf(players[i])), old(players[i].isActive),
                    old(StoresOf(players[i])), ControlsFor(cs, i), deltaTime, g)
        invariant forall i :: index <= i < |players| ==> unchanged(players[i])
      {
        var airplane := players[index];
        UpdatePlayer(airplane, ControlsFor(cs, index), deltaTime, g);
        assert FrameFrom(airplane, old(airplane.State()), old(HandlingOf(airplane)), old(airplane.isActive),
                         old(StoresOf(airplane)), ControlsFor(cs, index), deltaTime, g);
        index := index + 1;
      }
    }
  }
}
