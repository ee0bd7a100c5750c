/**
 * Aircraft profiles and resource/mass bookkeeping (main/airplane-models.js):
 * the closed table of three aircraft types with its `fighter` fallback, the
 * non-visual part of a freshly created aircraft, the weight formula, and the
 * three consume operations that clamp at 0 and keep the weight up to date.
 */
module AirplaneModels {
  import opened Optional
  import opened Vectors

  /** One row of the `getAirplaneSpecs` table. */
  datatype Profile = Profile(
    name: string,
    maxSpeed: real,
    acceleration: real,
    turnRate: real,
    weight: real,
    durability: int,
    fuelCapacity: real,
    ammoCapacity: int,
    bombCapacity: int)

  const FighterProfile := Profile("Fighter", 900.0, 1.2, 2.0, 1.0, 3, 8.0, 8, 4)
  const BomberProfile := Profile("Bomber", 600.0, 0.8, 1.2, 1.5, 5, 12.0, 4, 8)
  const ScoutProfile := Profile("Scout", 1100.0, 1.5, 2.5, 0.8, 2, 6.0, 6, 2)

  const SpecTable: map<string, Profile> :=
    map["fighter" := FighterProfile, "bomber" := BomberProfile, "scout" := ScoutProfile]

  predicate PositiveProfile(p: Profile) {
    && 0.0 < p.maxSpeed && 0.0 < p.acceleration && 0.0 < p.turnRate && 0.0 < p.weight
    && 0 < p.durability && 0.0 < p.fuelCapacity && 0 < p.ammoCapacity && 0 < p.bombCapacity
  }

  /** `getAirplaneSpecs(type)`: the table row, or the fighter row for any other type. */
  function Specs(aircraftType: string): (p: Profile)
    ensures aircraftType in SpecTable ==> p == SpecTable[aircraftType]
    ensures aircraftType !in SpecTable ==> p == FighterProfile
    ensures PositiveProfile(p)
  {
    if aircraftType in SpecTable then SpecTable[aircraftType] else SpecTable["fighter"]
  }

  /** The three table rows carry exactly the published constants. */
  lemma SpecsConstants()
    ensures var f := Specs("fighter"); f.maxSpeed == 900.0 && f.turnRate == 2.0 && f.weight == 1.0
    ensures var b := Specs("bomber"); b.maxSpeed == 600.0 && b.turnRate == 1.2 && b.weight == 1.5
    ensures var s := Specs("scout"); s.maxSpeed == 1100.0 && s.turnRate == 2.5 && s.weight == 0.8
    ensures forall t :: t != "fighter" && t != "bomber" && t != "scout" ==> Specs(t) == Specs("fighter")
  {
  }

  /** `updateWeight`'s formula: base weight plus the weighted current load. */
  function WeightOf(baseWeight: real, fuel: real, ammo: int, bombs: int): (w: real)
    ensures 0.0 <= fuel && 0 <= ammo && 0 <= bombs ==> baseWeight <= w
  {
    baseWeight + fuel * 0.1 + ammo as real * 0.05 + bombs as real * 0.15
  }

  /** `calculateWeight(specs)`: the weight of a fully loaded aircraft of that profile. */
  function CalculateWeight(p: Profile): (w: real)
    ensures w == WeightOf(p.weight, p.fuelCapacity, p.ammoCapacity, p.bombCapacity)
    ensures PositiveProfile(p) ==> p.weight < w
  {
    p.weight + p.fuelCapacity * 0.1 + p.ammoCapacity as real * 0.05 + p.bombCapacity as real * 0.15
  }

  /** Fully loaded weights: a fighter weighs 2.8, a bomber 4.1 and a scout 2.0. */
  lemma FullLoadWeights()
    ensures CalculateWeight(Specs("fighter")) == 2.8
    ensures CalculateWeight(Specs("bomber")) == 4.1
    ensures CalculateWeight(Specs("scout")) == 2.0
  {
  }

  /** Dropping load never makes the aircraft heavier. */
  lemma {:induction false} WeightMonotone(base: real, f1: real, a1: int, b1: int, f2: real, a2: int, b2: int)
    requires f2 <= f1 && a2 <= a1 && b2 <= b1
    ensures WeightOf(base, f2, a2, b2) <= WeightOf(base, f1, a1, b1)
  {
  }

  function Max(a: real, b: real): real {
    if a < b then b else a
  }

  function MaxInt(a: int, b: int): int {
    if a < b then b else a
  }

  /** The flight part of an aircraft's state. */
  datatype FlightState = FlightState(
    position: Vec3,
    velocity: Vec3,
    accumulator: Vec3,
    direction: Vec3,
    banking: real,
    pitch: real,
    throttlePower: real,
    speed: real)

  /** Flight state of a freshly created aircraft at `position`: at rest, facing +z. */
  function RestingState(position: Vec3): FlightState {
    FlightState(position, Zero, Zero, Vec3(0.0, 0.0, 1.0), 0.0, 0.0, 0.0, 0.0)
  }

  /**
   * The record built by `createAirplane`, without mesh and colour. The profile's
   * scalar acceleration is kept as `accelerationFactor` and the per-tick force
   * accumulator as the separate vector `accumulator`.
   */
  class Aircraft {
    const aircraftType: string
    const playerId: int
    const maxSpeed: real
    const accelerationFactor: real
    const turnRate: real
    const baseWeight: real
    const durability: int
    var fuel: real
    const maxFuel: real
    var ammo: int
    const maxAmmo: int
    var bombs: int
    const maxBombs: int
    var health: int
    var weight: real
    var position: Vec3
    var velocity: Vec3
    var accumulator: Vec3
    var direction: Vec3
    var banking: real
    var pitch: real
    var throttlePower: real
    var speed: real
    var isActive: bool

    /** Profile fields agree with the type's row; resources are in range; weight is never stale. */
    ghost predicate Valid()
      reads this
    {
      var p := Specs(aircraftType);
      && maxSpeed == p.maxSpeed && accelerationFactor == p.acceleration && turnRate == p.turnRate
      && baseWeight == p.weight && durability == p.durability
      && maxFuel == p.fuelCapacity && maxAmmo == p.ammoCapacity && maxBombs == p.bombCapacity
      && 0.0 <= fuel <= maxFuel && 0 <= ammo <= maxAmmo && 0 <= bombs <= maxBombs
      && weight == WeightOf(baseWeight, fuel, ammo, bombs)
    }

    function State(): FlightState
      reads this
    {
      FlightState(position, velocity, accumulator, direction, banking, pitch, throttlePower, speed)
    }

    /** `createAirplane(type, color, playerId)`. */
    constructor Create(aircraftType: string, playerId: int)
      ensures Valid()
      ensures this.aircraftType == aircraftType && this.playerId == playerId
      ensures fuel == maxFuel && ammo == maxAmmo && bombs == maxBombs && health == durability
      ensures weight == CalculateWeight(Specs(aircraftType))
      ensures State() == RestingState(Zero)
      ensures !isActive
    {
      var p := Specs(aircraftType);
      this.aircraftType := aircraftType;
      this.playerId := playerId;
      maxSpeed := p.maxSpeed;
      accelerationFactor := p.acceleration;
      turnRate := p.turnRate;
      baseWeight := p.weight;
      durability := p.durability;
      fuel, maxFuel := p.fuelCapacity, p.fuelCapacity;
      ammo, maxAmmo := p.ammoCapacity, p.ammoCapacity;
      bombs, maxBombs := p.bombCapacity, p.bombCapacity;
      health := p.durability;
      weight := CalculateWeight(p);
      position, velocity, accumulator := Zero, Zero, Zero;
      direction := Vec3(0.0, 0.0, 1.0);
      banking, pitch, throttlePower, speed := 0.0, 0.0, 0.0, 0.0;
      isActive := false;
    }

    /** `updateWeight`: recompute the weight from the type's base weight and the current load. */
    method UpdateWeight()
      modifies this`weight
      ensures weight == WeightOf(Specs(aircraftType).weight, fuel, ammo, bombs)
    {
      var p := Specs(aircraftType);
      weight := p.weight + fuel * 0.1 + ammo as real * 0.05 + bombs as real * 0.15;
    }

    /** `consumeFuel`: fuel drops by `amount` but not below 0; reports whether fuel remains. */
    method ConsumeFuel(amount: real) returns (stillHasFuel: bool)
      modifies this`fuel, this`weight
      ensures fuel == Max(0.0, old(fuel) - amount)
      ensures weight == WeightOf(Specs(aircraftType).weight, fuel, ammo, bombs)
      ensures stillHasFuel <==> 0.0 < fuel
      ensures old(Valid()) && 0.0 <= amount ==> Valid() && fuel <= old(fuel)
    {
      fuel := Max(0.0, fuel - amount);
      UpdateWeight();
      stillHasFuel := fuel > 0.0;
    }

    /** `consumeAmmo(amount = 1)`: a no-op reporting false when the gun is empty. */
    method ConsumeAmmo(amount: int := 1) returns (consumed: bool)
      modifies this`ammo, this`weight
      ensures consumed <==> 0 < old(ammo)
      ensures consumed ==> ammo == MaxInt(0, old(ammo) - amount)
      ensures consumed ==> weight == WeightOf(Specs(aircraftType).weight, fuel, ammo, bombs)
      ensures !consumed ==> ammo == old(ammo) && weight == old(weight)
      ensures old(Valid()) && 0 <= amount ==> Valid() && ammo <= old(ammo)
    {
      if ammo > 0 {
        ammo := MaxInt(0, ammo - amount);
        UpdateWeight();
        return true;
      }
      return false;
    }

    /** `consumeBomb`: drops exactly one bomb, or reports false when none is left. */
    method ConsumeBomb() returns (consumed: bool)
      modifies this`bombs, this`weight
      ensures consumed <==> 0 < old(bombs)
      ensures consumed ==> bombs == old(bombs) - 1
      ensures consumed ==> weight == WeightOf(Specs(aircraftType).weight, fuel, ammo, bombs)
      ensures !consumed ==> bombs == old(bombs) && weight == old(weight)
      ensures old(Valid()) ==> Valid()
    {
      if bombs > 0 {
        bombs := MaxInt(0, bombs - 1);
        UpdateWeight();
        return true;
      }
      return false;
    }
  }

  /*
   * The object literal of `createAirplane` as the source writes it. It has the key
   * `acceleration` twice: first the profile's scalar, then a zero vector. In an
   * object literal the later duplicate wins, so the created record's `acceleration`
   * is the vector, and the flight tick's `1000 * airplane.acceleration` is NaN.
   */

  /** A property value of the literal: a number, a vector or a string. */
  datatype JsValue = Num(n: real) | Vector(v: Vec3) | Text(s: string)

  /** A JavaScript number after arithmetic: finite, or NaN. */
  datatype JsNumber = Finite(r: real) | NaN

  /** The non-visual keys of `createAirplane`'s literal, in source order. */
  function CreateAirplaneLiteral(aircraftType: string, playerId: int): seq<(string, JsValue)> {
    var p := Specs(aircraftType);
    [ ("type", Text(aircraftType)), ("playerId", Num(playerId as real)),
      ("maxSpeed", Num(p.maxSpeed)), ("acceleration", Num(p.acceleration)),
      ("turnRate", Num(p.turnRate)), ("baseWeight", Num(p.weight)),
      ("durability", Num(p.durability as real)),
      ("fuel", Num(p.fuelCapacity)), ("maxFuel", Num(p.fuelCapacity)),
      ("ammo", Num(p.ammoCapacity as real)), ("maxAmmo", Num(p.ammoCapacity as real)),
      ("bombs", Num(p.bombCapacity as real)), ("maxBombs", Num(p.bombCapacity as real)),
      ("health", Num(p.durability as real)), ("weight", Num(CalculateWeight(p))),
      ("velocity", Vector(Zero)), ("acceleration", Vector(Zero)),
      ("direction", Vector(Vec3(0.0, 0.0, 1.0))),
      ("banking", Num(0.0)), ("pitch", Num(0.0)), ("throttlePower", Num(0.0)), ("speed", Num(0.0)) ]
  }

  /** The value of `key` in an object literal: the last entry with that key wins. */
  function Property(entries: seq<(string, JsValue)>, key: string): (r: Option<JsValue>)
    ensures r.None? <==> forall i :: 0 <= i < |entries| ==> entries[i].0 != key
    ensures r.Some? ==> exists i :: 0 <= i < |entries| && entries[i] == (key, r.value)
  {
    if |entries| == 0 then None
    else if entries[|entries| - 1].0 == key then Some(entries[|entries| - 1].1)
    else Property(entries[..|entries| - 1], key)
  }

  /** `k * v` for a number `k`: a vector object converts to NaN. */
  function TimesNumber(k: real, v: JsValue): JsNumber {
    match v
    case Num(n) => Finite(k * n)
    case _ => NaN
  }

  /** As written, the thrust power `1000 * airplane.acceleration` is NaN for every aircraft. */
  lemma AsWrittenThrustPowerIsNaN(aircraftType: string, playerId: int)
    ensures Property(CreateAirplaneLiteral(aircraftType, playerId), "acceleration") == Some(Vector(Zero))
    ensures TimesNumber(1000.0, Vector(Zero)) == NaN
  {
    var e := CreateAirplaneLiteral(aircraftType, playerId);
    PropertyIgnoresLaterKeys(e, "acceleration", 17);
  }

  /** Entries after position `n` that bind other keys do not affect the value of `key`. */
  lemma {:induction false} PropertyIgnoresLaterKeys(e: seq<(string, JsValue)>, key: string, n: nat)
    requires n <= |e|
    requires forall i :: n <= i < |e| ==> e[i].0 != key
    ensures Property(e, key) == Property(e[..n], key)
    decreases |e| - n
  {
    if n < |e| {
      var shorter := e[..|e| - 1];
      assert shorter[..n] == e[..n];
      PropertyIgnoresLaterKeys(shorter, key, n);
    } else {
      assert e[..n] == e;
    }
  }
}
