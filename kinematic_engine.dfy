/**
 * The earlier kinematic engine (main/game-engine.js): four box players, the
 * first one driven by six held keys; each held key pushes one velocity axis by
 * 300 per second, velocity then decays by a fixed factor 0.9 per frame, the
 * position is integrated and clamped to the world.
 */
module KinematicEngine {
  import opened Optional
  import opened Vectors
  import opened World

  datatype Movement = Forward | Backward | Left | Right | Up | Down

  /** A player's `controls` record. */
  datatype MoveControls = MoveControls(forward: bool, backward: bool, left: bool, right: bool, up: bool, down: bool)
  {
    function Get(m: Movement): bool {
      match m
      case Forward => forward
      case Backward => backward
      case Left => left
      case Right => right
      case Up => up
      case Down => down
    }

    function Set(m: Movement, v: bool): (r: MoveControls)
      ensures r.Get(m) == v
      ensures forall n :: n != m ==> r.Get(n) == Get(n)
    {
      match m
      case Forward => this.(forward := v)
      case Backward => this.(backward := v)
      case Left => this.(left := v)
      case Right => this.(right := v)
      case Up => this.(up := v)
      case Down => this.(down := v)
    }
  }

  const Idle := MoveControls(false, false, false, false, false, false)

  /** Units per second a held key adds to its axis. */
  const Speed: real := 300.0
  /** Per-frame velocity decay, not scaled by the frame time. */
  const Damping: real := 0.9

  /** What a pair of opposite keys adds to their axis: `d`, `-d`, or 0 when both or neither are held. */
  function Offset(plus: bool, minus: bool, d: real): real {
    (if plus then d else 0.0) - (if minus then d else 0.0)
  }

  /** The velocity change of the held keys: right/left on x, up/down on y, forward/backward on z. */
  function Impulse(c: MoveControls, moveDistance: real): Vec3 {
    Vec3(Offset(c.right, c.left, moveDistance), Offset(c.up, c.down, moveDistance),
         Offset(c.forward, c.backward, moveDistance))
  }

  /** Each held key adds exactly `moveDistance` on its own axis only; opposite keys cancel. */
  lemma {:induction false} ImpulsePerKey(c: MoveControls, moveDistance: real, m: Movement)
    ensures Impulse(Idle, moveDistance) == Zero
    ensures var i := Impulse(Idle.Set(m, true), moveDistance);
      && (m == Forward ==> i == Vec3(0.0, 0.0, moveDistance))
      && (m == Backward ==> i == Vec3(0.0, 0.0, -moveDistance))
      && (m == Left ==> i == Vec3(-moveDistance, 0.0, 0.0))
      && (m == Right ==> i == Vec3(moveDistance, 0.0, 0.0))
      && (m == Up ==> i == Vec3(0.0, moveDistance, 0.0))
      && (m == Down ==> i == Vec3(0.0, -moveDistance, 0.0))
    ensures c.forward == c.backward ==> Impulse(c, moveDistance).z == 0.0
    ensures c.left == c.right ==> Impulse(c, moveDistance).x == 0.0
    ensures c.up == c.down ==> Impulse(c, moveDistance).y == 0.0
  {
    var d := Idle.Set(m, true);
    assert d.Get(m);
    assert forall n :: n != m ==> !d.Get(n);
  }

  /** One frame of `updatePlayers` for an active player: keys, damping, integration, then the boundary check. */
  function MoveStep(b: Bounds, k: Kinematics, c: MoveControls, dt: real): Kinematics {
    var velocity := Scale(Add(k.velocity, Impulse(c, Speed * dt)), Damping);
    Enforce(b, Kinematics(Add(k.position, Scale(velocity, dt)), velocity))
  }

  /**
   * After a frame the player is inside a well-formed world; a coasting player
   * well inside keeps 0.9 of its velocity whatever the frame time.
   */
  lemma {:induction false} MoveStepFacts(b: Bounds, k: Kinematics, dt: real)
    requires WellFormed(b)
    ensures Inside(b, MoveStep(b, k, Idle, dt).position)
    ensures var v := Scale(k.velocity, Damping);
      Inside(b, Add(k.position, Scale(v, dt))) ==> MoveStep(b, k, Idle, dt).velocity == v
  {
    var v := Scale(Add(k.velocity, Impulse(Idle, Speed * dt)), Damping);
    assert Impulse(Idle, Speed * dt) == Zero;
    assert Add(k.velocity, Zero) == k.velocity;
    EnforceInside(b, Kinematics(Add(k.position, Scale(v, dt)), v));
    if Inside(b, Add(k.position, Scale(v, dt))) {
      EnforceInsideIsIdentity(b, Kinematics(Add(k.position, Scale(v, dt)), v));
    }
  }

  /*
   * Keys. Mousetrap's `shift` binding fires for either shift key, while the
   * key-up listener of the source clears `down` only for `ShiftLeft`.
   */

  /** The flag a key-down sets (the Mousetrap bindings `w`, `s`, `a`, `d`, `space`, `shift`), by physical key. */
  function PressBinding(code: string): Option<Movement> {
    if code == "KeyW" then Some(Forward)
    else if code == "KeyS" then Some(Backward)
    else if code == "KeyA" then Some(Left)
    else if code == "KeyD" then Some(Right)
    else if code == "Space" then Some(Up)
    else if code == "ShiftLeft" || code == "ShiftRight" then Some(Down)
    else None
  }

  /** The flag the key-up listener clears, as written: `ShiftRight` is missing. */
  function ReleaseBindingAsWritten(code: string): Option<Movement> {
    if code == "KeyW" then Some(Forward)
    else if code == "KeyS" then Some(Backward)
    else if code == "KeyA" then Some(Left)
    else if code == "KeyD" then Some(Right)
    else if code == "Space" then Some(Up)
    else if code == "ShiftLeft" then Some(Down)
    else None
  }

  /** The flag the key-up listener clears, with `ShiftRight` added. */
  function ReleaseBinding(code: string): Option<Movement> {
    if code == "KeyW" then Some(Forward)
    else if code == "KeyS" then Some(Backward)
    else if code == "KeyA" then Some(Left)
    else if code == "KeyD" then Some(Right)
    else if code == "Space" then Some(Up)
    else if code == "ShiftLeft" || code == "ShiftRight" then Some(Down)
    else None
  }

  /** Sets the bound flag, if any, to `v`. */
  function Apply(c: MoveControls, binding: Option<Movement>, v: bool): MoveControls {
    match binding
    case Some(m) => c.Set(m, v)
    case None => c
  }

  /** As written, pressing and releasing the right shift key leaves the player descending. */
  lemma RightShiftStaysDown(c: MoveControls)
    ensures Apply(Apply(c, PressBinding("ShiftRight"), true), ReleaseBindingAsWritten("ShiftRight"), false).down
  {
  }

  /**
   * With `ShiftRight` added, a key-up clears exactly the flag its key-down set,
   * and every other flag keeps the value it had before the press.
   */
  lemma {:induction false} ReleaseUndoesPress(c: MoveControls, code: string)
    ensures ReleaseBinding(code) == PressBinding(code)
    ensures PressBinding(code).Some? ==>
      var r := Apply(Apply(c, PressBinding(code), true), ReleaseBinding(code), false);
      !r.Get(PressBinding(code).value) && forall n :: n != PressBinding(code).value ==> r.Get(n) == c.Get(n)
  {
    match PressBinding(code)
    case None =>
    case Some(m) =>
      var pressed := c.Set(m, true);
      assert forall n :: n != m ==> pressed.Get(n) == c.Get(n);
  }

  /** A player record of `createPlayer`, without its mesh. */
  class Player {
    const id: int
    var position: Vec3
    var velocity: Vec3
    var isActive: bool
    var controls: MoveControls

    function State(): Kinematics
      reads this
    {
      Kinematics(position, velocity)
    }

    /** `createPlayer(id, color, position)`: at rest, no key held, active only for id 0. */
    constructor Create(id: int, position: Vec3)
      ensures this.id == id && this.position == position && velocity == Zero
      ensures controls == Idle
      ensures isActive <==> id == 0
    {
      this.id := id;
      this.position := position;
      velocity := Zero;
      isActive := id == 0;
      controls := Idle;
    }

    /** The six `if (player.controls.x) player.velocity.axis += / -= moveDistance` lines. */
    method ApplyControls(moveDistance: real)
      modifies this`velocity
      ensures velocity == Add(old(velocity), Impulse(controls, moveDistance))
    {
      var v := velocity;
      if controls.forward { v := v.(z := v.z + moveDistance); }
      if controls.backward { v := v.(z := v.z - moveDistance); }
      if controls.left { v := v.(x := v.x - moveDistance); }
      if controls.right { v := v.(x := v.x + moveDistance); }
      if controls.up { v := v.(y := v.y + moveDistance); }
      if controls.down { v := v.(y := v.y - moveDistance); }
      velocity := v;
    }
  }

  /** `class GameEngine` of the kinematic engine, reduced to the players, the world bounds and player 1's keys. */
  class GameEngine {
    const worldBounds: Bounds
    var players: seq<Player>

    /** The constructor with `setupPlayers`: four players at the start positions, only the first active. */
    constructor ()
      ensures worldBounds == GameBounds
      ensures |players| == 4
      ensures forall i :: 0 <= i < 4 ==>
        && fresh(players[i]) && players[i].id == i
        && players[i].State() == Kinematics(StartPositions[i], Zero)
        && players[i].controls == Idle && (players[i].isActive <==> i == 0)
      ensures forall i, j :: 0 <= i < j < 4 ==> players[i] != players[j]
    {
      worldBounds := GameBounds;
      players := [];
      new;
      var i := 0;
      while i < 4
        invariant 0 <= i <= 4 && |players| == i
        invariant forall j :: 0 <= j < i ==>
          && fresh(players[j]) && players[j].id == j
          && players[j].State() == Kinematics(StartPositions[j], Zero)
          && players[j].controls == Idle && (players[j].isActive <==> j == 0)
        invariant forall j, k :: 0 <= j < k < i ==> players[j] != players[k]
      {
        var player := new Player.Create(i, StartPositions[i]);
        players := players + [player];
        i := i + 1;
      }
    }

    /** A Mousetrap key-down: sets player 1's bound flag. */
    method KeyDown(code: string)
      requires 1 <= |players|
      modifies players[0]
      ensures players[0].controls == Apply(old(players[0].controls), PressBinding(code), true)
      ensures players[0].State() == old(players[0].State()) && players[0].isActive == old(players[0].isActive)
    {
      var player := players[0];
      match PressBinding(code) {
        case Some(m) => player.controls := player.controls.Set(m, true);
        case None =>
      }
    }

    /** The key-up listener, clearing `down` for either shift key. */
    method KeyUp(code: string)
      requires 1 <= |players|
      modifies players[0]
      ensures players[0].controls == Apply(old(players[0].controls), ReleaseBinding(code), false)
      ensures players[0].State() == old(players[0].State()) && players[0].isActive == old(players[0].isActive)
    {
      var player := players[0];
      if code == "KeyW" {
        player.controls := player.controls.(forward := false);
      } else if code == "KeyS" {
        player.controls := player.controls.(backward := false);
      } else if code == "KeyA" {
        player.controls := player.controls.(left := false);
      } else if code == "KeyD" {
        player.controls := player.controls.(right := false);
      } else if code == "Space" {
        player.controls := player.controls.(up := false);
      } else if code == "ShiftLeft" || code == "ShiftRight" {
        player.controls := player.controls.(down := false);
      }
    }

    /** `applyBoundaries(player)`. */
    method ApplyBoundaries(player: Player)
      modifies player`position, player`velocity
      ensures player.State() == Enforce(worldBounds, old(player.State()))
    {
      var p, v := player.position, player.velocity;
      if p.x > worldBounds.x {
        p, v := p.(x := worldBounds.x), v.(x := 0.0);
      }
      if p.x < -worldBounds.x {
        p, v := p.(x := -worldBounds.x), v.(x := 0.0);
      }
      assert (p.x, v.x) == ClampAxis(player.position.x, player.velocity.x, -worldBounds.x, worldBounds.x);
      if p.z > worldBounds.z {
        p, v := p.(z := worldBounds.z), v.(z := 0.0);
      }
      if p.z < -worldBounds.z {
        p, v := p.(z := -worldBounds.z), v.(z := 0.0);
      }
      assert (p.z, v.z) == ClampAxis(player.position.z, player.velocity.z, -worldBounds.z, worldBounds.z);
      if p.y > worldBounds.y {
        p, v := p.(y := worldBounds.y), v.(y := 0.0);
      }
      if p.y < Ground {
        p, v := p.(y := Ground), v.(y := 0.0);
      }
      assert (p.y, v.y) == ClampAxis(player.position.y, player.velocity.y, Ground, worldBounds.y);
      player.position, player.velocity := p, v;
    }

    /** `player` is where one frame of `updatePlayers` takes a player that was at `k0`: one `MoveStep` if active, nowhere otherwise. */
    predicate MovedFrom(player: Player, k0: Kinematics, deltaTime: real)
      reads player
    {
      player.State() == (if player.isActive then MoveStep(worldBounds, k0, player.controls, deltaTime) else k0)
    }

    /** One iteration of `updatePlayers`: an active player's keys, damping, integration and boundary check. */
    method UpdatePlayer(player: Player, deltaTime: real)
      modifies player`position, player`velocity
      ensures MovedFrom(player, old(player.State()), deltaTime)
    {
      if player.isActive {
        var moveDistance := Speed * deltaTime;
        player.ApplyControls(moveDistance);
        player.velocity := Scale(player.velocity, Damping);
        player.position := Add(player.position, Scale(player.velocity, deltaTime));
        ApplyBoundaries(player);
      }
    }

    /** `updatePlayers(deltaTime)`: every active player takes one `MoveStep`; inactive players are untouched. */
    method UpdatePlayers(deltaTime: real)
      requires forall i, j :: 0 <= i < j < |players| ==> players[i] != players[j]
      modifies players
      ensures forall i :: 0 <= i < |players| ==>
        && players[i].controls == old(players[i].controls) && players[i].isActive == old(players[i].isActive)
        && MovedFrom(players[i], old(players[i].State()), deltaTime)
    {
      var index := 0;
      while index < |players|
        invariant index <= |players|
        invariant forall i :: 0 <= i < |players| ==>
          players[i].controls == old(players[i].controls) && players[i].isActive == old(players[i].isActive)
        invariant forall i :: 0 <= i < index ==> MovedFrom(players[i], old(players[i].State()), deltaTime)
        invariant forall i :: index <= i < |players| ==> players[i].State() == old(players[i].State())
      {
        UpdatePlayer(players[index], deltaTime);
        index := index + 1;
      }
    }
  }
}
