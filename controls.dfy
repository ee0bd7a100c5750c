/**
 * Control-state mapping (objects/control-systems.js): a registry of players,
 * each with eight boolean control flags and three analog values; named key
 * maps (schemes); key-down and key-up dispatch to every keyboard player whose
 * scheme maps the key; gamepad buttons and axes with a dead zone; scheme
 * switching and key remapping.
 */
module Controls {
  import opened Optional

  /** The eight control flags a scheme can drive. */
  datatype Action = NoseDown | NoseUp | TurnLeft | TurnRight | Throttle | FireGun | DropBomb | Hangar

  /** A player's `controls` record. */
  datatype ControlFlags = ControlFlags(
    noseDown: bool, noseUp: bool, turnLeft: bool, turnRight: bool,
    throttle: bool, fireGun: bool, dropBomb: bool, hangar: bool)
  {
    /** `controls[action]`. */
    function Get(a: Action): bool {
      if a.NoseDown? then noseDown else if a.NoseUp? then noseUp
      else if a.TurnLeft? then turnLeft else if a.TurnRight? then turnRight
      else if a.Throttle? then throttle else if a.FireGun? then fireGun
      else if a.DropBomb? then dropBomb else hangar
    }

    /** `controls[action] = v`: that flag changes and no other. */
    function Set(a: Action, v: bool): (r: ControlFlags)
      ensures r.Get(a) == v
    {
      match a
      case NoseDown => this.(noseDown := v)
      case NoseUp => this.(noseUp := v)
      case TurnLeft => this.(turnLeft := v)
      case TurnRight => this.(turnRight := v)
      case Throttle => this.(throttle := v)
      case FireGun => this.(fireGun := v)
      case DropBomb => this.(dropBomb := v)
      case Hangar => this.(hangar := v)
    }
  }

  /** Setting one flag leaves every other flag as it was. */
  lemma SetKeepsOthers(c: ControlFlags, a: Action, v: bool, b: Action)
    requires b != a
    ensures c.Set(a, v).Get(b) == c.Get(b)
  {
  }

  const Released := ControlFlags(false, false, false, false, false, false, false, false)

  /** A player's `analog` record; `None` stands for a value that is not a number (undefined or NaN). */
  datatype Analog = Analog(turn: Option<real>, pitch: Option<real>, throttle: Option<real>)

  const Centred := Analog(Some(0.0), Some(0.0), Some(0.0))

  datatype AxisControl = TurnAxis | PitchAxis | ThrottleAxis

  /**
   * A control scheme. Gamepad buttons and axes are listed by index, in the order
   * the source's tables enumerate them.
   */
  datatype Scheme =
    | Keyboard(layout: string, keys: map<string, Action>)
    | Gamepad(gamepadIndex: nat, buttons: seq<Action>, axes: seq<AxisControl>)

  /** One entry of `this.players`. */
  datatype PlayerInput = PlayerInput(id: nat, scheme: string, controls: ControlFlags, analog: Analog)

  /** What the browser reports for one gamepad: the pressed state of each button and each axis value. */
  datatype GamepadState = GamepadState(buttons: seq<bool>, axes: seq<real>)

  const Player1Keys: map<string, Action> := map[
    "KeyW" := NoseDown, "KeyS" := NoseUp, "KeyA" := TurnLeft, "KeyD" := TurnRight,
    "KeyE" := Throttle, "KeyR" := FireGun, "KeyT" := DropBomb, "KeyQ" := Hangar]

  const Player2Keys: map<string, Action> := map[
    "ArrowUp" := NoseDown, "ArrowDown" := NoseUp, "ArrowLeft" := TurnLeft, "ArrowRight" := TurnRight,
    "Numpad0" := Throttle, "Numpad1" := FireGun, "Numpad2" := DropBomb, "Numpad3" := Hangar]

  const PadButtons: seq<Action> := [FireGun, DropBomb, Hangar, Throttle]
  const PadAxes: seq<AxisControl> := [TurnAxis, PitchAxis, ThrottleAxis]

  /** `setupControlSchemes`: two keyboard layouts and two gamepads. */
  const DefaultSchemes: map<string, Scheme> := map[
    "player1" := Keyboard("wasd", Player1Keys),
    "player2" := Keyboard("arrows", Player2Keys),
    "player3" := Gamepad(0, PadButtons, PadAxes),
    "player4" := Gamepad(1, PadButtons, PadAxes)]

  /** `keyOf` names the one key bound to each action: every action has a key, and no key is shared. */
  ghost predicate OneKeyPerAction(keys: map<string, Action>, keyOf: map<Action, string>) {
    EveryActionBound(keys, keyOf) && NoActionShared(keys, keyOf)
  }

  const Player1KeyOf: map<Action, string> := map[
    NoseDown := "KeyW", NoseUp := "KeyS", TurnLeft := "KeyA", TurnRight := "KeyD",
    Throttle := "KeyE", FireGun := "KeyR", DropBomb := "KeyT", Hangar := "KeyQ"]

  const Player2KeyOf: map<Action, string> := map[
    NoseDown := "ArrowUp", NoseUp := "ArrowDown", TurnLeft := "ArrowLeft", TurnRight := "ArrowRight",
    Throttle := "Numpad0", FireGun := "Numpad1", DropBomb := "Numpad2", Hangar := "Numpad3"]

  /** Each action has a key in `keys`, and `keyOf` names it. */
  ghost predicate EveryActionBound(keys: map<string, Action>, keyOf: map<Action, string>) {
    forall a: Action :: a in keyOf && keyOf[a] in keys && keys[keyOf[a]] == a
  }

  /** No two keys of `keys` share an action: each is the key `keyOf` names. */
  ghost predicate NoActionShared(keys: map<string, Action>, keyOf: map<Action, string>) {
    forall k :: k in keys ==> keys[k] in keyOf && keyOf[keys[k]] == k
  }

  lemma Player1ActionsBound()
    ensures EveryActionBound(Player1Keys, Player1KeyOf)
  {
    forall a: Action
      ensures a in Player1KeyOf && Player1KeyOf[a] in Player1Keys && Player1Keys[Player1KeyOf[a]] == a
    {
      match a
      case NoseDown => case NoseUp => case TurnLeft => case TurnRight =>
      case Throttle => case FireGun => case DropBomb => case Hangar =>
    }
  }

  lemma Player2ActionsBound()
    ensures EveryActionBound(Player2Keys, Player2KeyOf)
  {
    forall a: Action
      ensures a in Player2KeyOf && Player2KeyOf[a] in Player2Keys && Player2Keys[Player2KeyOf[a]] == a
    {
      match a
      case NoseDown => case NoseUp => case TurnLeft => case TurnRight =>
      case Throttle => case FireGun => case DropBomb => case Hangar =>
    }
  }

  lemma Player1KeysDistinct()
    ensures NoActionShared(Player1Keys, Player1KeyOf)
  {
  }

  lemma Player2KeysDistinct()
    ensures NoActionShared(Player2Keys, Player2KeyOf)
  {
  }

  /** The two keyboard layouts bind each of the eight actions to exactly one key. */
  lemma KeyboardSchemesBindEachActionOnce()
    ensures OneKeyPerAction(Player1Keys, Player1KeyOf)
    ensures OneKeyPerAction(Player2Keys, Player2KeyOf)
  {
    Player1ActionsBound();
    Player2ActionsBound();
    Player1KeysDistinct();
    Player2KeysDistinct();
  }

  /** Decimal notation of a natural number, as template strings print it. */
  function DecimalString(n: nat): (s: string)
    ensures 0 < |s|
    ensures forall i :: 0 <= i < |s| ==> '0' <= s[i] <= '9'
  {
    var digit := ['0' + (n % 10) as char];
    if n < 10 then digit else DecimalString(n / 10) + digit
  }

  /** The scheme `registerPlayer` picks when none is given: `player${playerId + 1}`. */
  function DefaultSchemeName(playerId: nat): string {
    "player" + DecimalString(playerId + 1)
  }

  /** Players 0 and 1 default to the keyboard layouts, players 2 and 3 to the gamepads. */
  lemma DefaultSchemeNamesExist()
    ensures DefaultSchemeName(0) == "player1" && DefaultSchemes[DefaultSchemeName(0)].Keyboard?
    ensures DefaultSchemeName(1) == "player2" && DefaultSchemes[DefaultSchemeName(1)].Keyboard?
    ensures DefaultSchemeName(2) == "player3" && DefaultSchemes[DefaultSchemeName(2)].Gamepad?
    ensures DefaultSchemeName(3) == "player4" && DefaultSchemes[DefaultSchemeName(3)].Gamepad?
  {
  }

  /** The scheme chosen by `controlScheme || \`player${playerId + 1}\``: a missing or empty name is replaced. */
  function ChosenScheme(playerId: nat, controlScheme: Option<string>): (name: string)
    ensures controlScheme.Some? && controlScheme.value != "" ==> name == controlScheme.value
    ensures controlScheme.None? || controlScheme.value == "" ==> name == DefaultSchemeName(playerId)
  {
    match controlScheme
    case Some(s) => if s != "" then s else DefaultSchemeName(playerId)
    case None => DefaultSchemeName(playerId)
  }

  /*
   * Key events.
   */

  /** The action a key triggers for `p`, if `p`'s scheme is a keyboard scheme that maps it. */
  function KeyAction(schemes: map<string, Scheme>, p: PlayerInput, code: string): Option<Action> {
    if p.scheme in schemes && schemes[p.scheme].Keyboard? && code in schemes[p.scheme].keys
    then Some(schemes[p.scheme].keys[code])
    else None
  }

  /** What one key event does to one slot of `this.players` (`down` for key-down, else key-up). */
  function KeyEffect(schemes: map<string, Scheme>, slot: Option<PlayerInput>, code: string, down: bool): Option<PlayerInput> {
    match slot
    case None => None
    case Some(p) =>
      match KeyAction(schemes, p, code)
      case None => slot
      case Some(a) => Some(p.(controls := p.controls.Set(a, down)))
  }

  /**
   * A key event sets the mapped flag of a keyboard player to the event's state
   * and changes nothing else; gamepad players, players whose map lacks the key
   * and empty slots are unchanged.
   */
  lemma {:induction false} KeyEffectChangesOnlyMappedFlag(schemes: map<string, Scheme>, slot: Option<PlayerInput>, code: string, down: bool)
    ensures var r := KeyEffect(schemes, slot, code, down);
      && (slot.None? ==> r.None?)
      && (slot.Some? ==> r.Some? && r.value.id == slot.value.id && r.value.scheme == slot.value.scheme
                         && r.value.analog == slot.value.analog)
      && (slot.Some? && KeyAction(schemes, slot.value, code).None? ==> r == slot)
      && (slot.Some? && KeyAction(schemes, slot.value, code).Some? ==>
            var a := KeyAction(schemes, slot.value, code).value;
            r.value.controls.Get(a) == down
            && forall b :: b != a ==> r.value.controls.Get(b) == slot.value.controls.Get(b))
  {
    match slot
    case None =>
    case Some(p) =>
      match KeyAction(schemes, p, code)
      case None =>
      case Some(a) =>
        forall b | b != a
          ensures p.controls.Set(a, down).Get(b) == p.controls.Get(b)
        {
          SetKeepsOthers(p.controls, a, down, b);
        }
  }

  /** A key-up after a key-down of the same key leaves the player as the key-up alone would. */
  lemma KeyUpUndoesKeyDown(schemes: map<string, Scheme>, slot: Option<PlayerInput>, code: string)
    ensures KeyEffect(schemes, KeyEffect(schemes, slot, code, true), code, false) == KeyEffect(schemes, slot, code, false)
  {
    match slot
    case None =>
    case Some(p) =>
      match KeyAction(schemes, p, code)
      case None =>
      case Some(a) =>
        var pressed := p.(controls := p.controls.Set(a, true));
        assert KeyAction(schemes, pressed, code) == Some(a);
        SetOverrides(p.controls, a, true, false);
  }

  /** A later write to the same flag overrides an earlier one. */
  lemma SetOverrides(c: ControlFlags, a: Action, v: bool, w: bool)
    ensures c.Set(a, v).Set(a, w) == c.Set(a, w)
  {
  }

  lemma SameFlagsEqual(c: ControlFlags, d: ControlFlags)
    requires forall a :: c.Get(a) == d.Get(a)
    ensures c == d
  {
    assert c.Get(NoseDown) == d.Get(NoseDown) && c.Get(NoseUp) == d.Get(NoseUp);
    assert c.Get(TurnLeft) == d.Get(TurnLeft) && c.Get(TurnRight) == d.Get(TurnRight);
    assert c.Get(Throttle) == d.Get(Throttle) && c.Get(FireGun) == d.Get(FireGun);
    assert c.Get(DropBomb) == d.Get(DropBomb) && c.Get(Hangar) == d.Get(Hangar);
  }

  /*
   * Gamepads.
   */

  predicate Below(v: Option<real>, limit: real) {
    v.Some? && v.value < limit
  }

  predicate Above(v: Option<real>, limit: real) {
    v.Some? && v.value > limit
  }

  /** `(value + 1) / 2`: the throttle axis mapped from [-1, 1] to [0, 1]. */
  function ThrottleLevel(v: Option<real>): (t: Option<real>)
    ensures t.Some? <==> v.Some?
    ensures v.Some? && -1.0 <= v.value <= 1.0 ==> 0.0 <= t.value <= 1.0
    ensures Above(t, 0.1) <==> Above(v, -0.8)
  {
    match v
    case Some(x) => Some((x + 1.0) / 2.0)
    case None => None
  }

  /** One axis of `updateGamepadInput`: the analog value, then the digital flags with a 0.3 dead zone. */
  function AxisApplied(p: PlayerInput, control: AxisControl, v: Option<real>): PlayerInput {
    match control
    case TurnAxis =>
      p.(analog := p.analog.(turn := v),
         controls := p.controls.(turnLeft := Below(v, -0.3), turnRight := Above(v, 0.3)))
    case PitchAxis =>
      p.(analog := p.analog.(pitch := v),
         controls := p.controls.(noseDown := Below(v, -0.3), noseUp := Above(v, 0.3)))
    case ThrottleAxis =>
      var t := ThrottleLevel(v);
      p.(analog := p.analog.(throttle := t), controls := p.controls.(throttle := Above(t, 0.1)))
  }

  /** Opposite flags driven by one axis are never both on, and the stick inside the dead zone sets neither. */
  lemma {:induction false} AxisDeadZone(p: PlayerInput, control: AxisControl, v: Option<real>)
    ensures var q := AxisApplied(p, control, v);
      && (control == TurnAxis ==>
            !(q.controls.turnLeft && q.controls.turnRight)
            && (v.Some? && -0.3 <= v.value <= 0.3 ==> !q.controls.turnLeft && !q.controls.turnRight))
      && (control == PitchAxis ==>
            !(q.controls.noseDown && q.controls.noseUp)
            && (v.Some? && -0.3 <= v.value <= 0.3 ==> !q.controls.noseDown && !q.controls.noseUp))
      && (control == ThrottleAxis ==> (q.controls.throttle <==> Above(v, -0.8)))
  {
    match control
    case TurnAxis =>
    case PitchAxis =>
    case ThrottleAxis =>
      var t := ThrottleLevel(v);
      assert Above(t, 0.1) <==> Above(v, -0.8);
  }

  /** The controls after the first `k` buttons of a scheme have been read. */
  function ButtonsApplied(c: ControlFlags, buttons: seq<Action>, pressed: seq<bool>, k: nat): ControlFlags
    requires k <= |buttons|
  {
    if k == 0 then c
    else
      var before := ButtonsApplied(c, buttons, pressed, k - 1);
      if k - 1 < |pressed| then before.Set(buttons[k - 1], pressed[k - 1]) else before
  }

  /** The value of axis `i`, or `None` when the gamepad has no such axis. */
  function AxisValue(values: seq<real>, i: nat): Option<real> {
    if i < |values| then Some(values[i]) else None
  }

  /** The player after the first `k` axes of a scheme have been read. */
  function AxesApplied(p: PlayerInput, axes: seq<AxisControl>, values: seq<real>, k: nat): PlayerInput
    requires k <= |axes|
  {
    if k == 0 then p
    else AxisApplied(AxesApplied(p, axes, values, k - 1), axes[k - 1], AxisValue(values, k - 1))
  }

  /** `updateGamepadInput`: all buttons first, then all axes. */
  function GamepadApplied(p: PlayerInput, gamepad: GamepadState, buttons: seq<Action>, axes: seq<AxisControl>): PlayerInput {
    AxesApplied(p.(controls := ButtonsApplied(p.controls, buttons, gamepad.buttons, |buttons|)),
                axes, gamepad.axes, |axes|)
  }

  /** The loops of `updateGamepadInput` over the scheme's buttons, then its axes. */
  method ReadGamepad(p: PlayerInput, gamepad: GamepadState, buttons: seq<Action>, axes: seq<AxisControl>)
    returns (q: PlayerInput)
    ensures q == GamepadApplied(p, gamepad, buttons, axes)
  {
    var controls := p.controls;
    var i := 0;
    while i < |buttons|
      invariant i <= |buttons|
      invariant controls == ButtonsApplied(p.controls, buttons, gamepad.buttons, i)
    {
      if i < |gamepad.buttons| {
        controls := controls.Set(buttons[i], gamepad.buttons[i]);
      }
      i := i + 1;
    }
    q := p.(controls := controls);
    var j := 0;
    while j < |axes|
      invariant j <= |axes|
      invariant q == AxesApplied(p.(controls := controls), axes, gamepad.axes, j)
    {
      q := AxisApplied(q, axes[j], AxisValue(gamepad.axes, j));
      j := j + 1;
    }
  }

  /**
   * For the built-in gamepad schemes on a gamepad with at least three axes,
   * the throttle axis overrides the throttle button, and the stick alone
   * decides all four turn and pitch flags and the analog values.
   */
  lemma {:induction false} DefaultGamepadAxesWin(p: PlayerInput, gamepad: GamepadState)
    requires 3 <= |gamepad.axes|
    ensures var q := GamepadApplied(p, gamepad, PadButtons, PadAxes);
      && (q.controls.throttle <==> (gamepad.axes[2] + 1.0) / 2.0 > 0.1)
      && q.analog.throttle == Some((gamepad.axes[2] + 1.0) / 2.0)
      && !(q.controls.turnLeft && q.controls.turnRight)
      && !(q.controls.noseDown && q.controls.noseUp)
      && (q.controls.turnLeft <==> gamepad.axes[0] < -0.3)
      && (q.controls.turnRight <==> gamepad.axes[0] > 0.3)
      && (q.controls.noseDown <==> gamepad.axes[1] < -0.3)
      && (q.controls.noseUp <==> gamepad.axes[1] > 0.3)
      && q.analog.turn == Some(gamepad.axes[0]) && q.analog.pitch == Some(gamepad.axes[1])
  {
    var b := p.(controls := ButtonsApplied(p.controls, PadButtons, gamepad.buttons, |PadButtons|));
    assert AxesApplied(b, PadAxes, gamepad.axes, 0) == b;
    assert PadAxes[0] == TurnAxis && PadAxes[1] == PitchAxis && PadAxes[2] == ThrottleAxis;
    assert AxisValue(gamepad.axes, 0) == Some(gamepad.axes[0]);
    assert AxisValue(gamepad.axes, 1) == Some(gamepad.axes[1]);
    assert AxisValue(gamepad.axes, 2) == Some(gamepad.axes[2]);
    var a1 := AxesApplied(b, PadAxes, gamepad.axes, 1);
    var a2 := AxesApplied(b, PadAxes, gamepad.axes, 2);
    var a3 := AxesApplied(b, PadAxes, gamepad.axes, 3);
    assert a1 == AxisApplied(b, TurnAxis, Some(gamepad.axes[0]));
    assert a2 == AxisApplied(a1, PitchAxis, Some(gamepad.axes[1]));
    assert a3 == AxisApplied(a2, ThrottleAxis, Some(gamepad.axes[2]));
  }

  /** The effect of `updateGamepads` on one slot of `this.players`. */
  function GamepadEffect(schemes: map<string, Scheme>, slot: Option<PlayerInput>, gamepads: seq<Option<GamepadState>>): Option<PlayerInput> {
    match slot
    case None => None
    case Some(p) =>
      if p.scheme in schemes && schemes[p.scheme].Gamepad? then
        var s := schemes[p.scheme];
        if s.gamepadIndex < |gamepads| && gamepads[s.gamepadIndex].Some? then
          Some(GamepadApplied(p, gamepads[s.gamepadIndex].value, s.buttons, s.axes))
        else slot
      else slot
  }

  /** `remapKey`'s map update: `delete keys[oldKey]; keys[newKey] = action`. */
  function RemapKeys(keys: map<string, Action>, oldKey: string, newKey: string): (r: map<string, Action>)
    requires oldKey in keys
    ensures newKey in r && r[newKey] == keys[oldKey]
    ensures oldKey != newKey ==> oldKey !in r
    ensures forall k :: k != oldKey && k != newKey ==> (k in r <==> k in keys)
    ensures forall k :: k in r && k != newKey ==> r[k] == keys[k]
  {
    (keys - {oldKey})[newKey := keys[oldKey]]
  }

  /** `class ControlSystems`. */
  class ControlSystems {
    var players: seq<Option<PlayerInput>>
    var controlSchemes: map<string, Scheme>
    var gamepadSupport: bool

    /** The constructor with `setupControlSchemes`; `gamepadApi` is what `checkGamepadSupport` finds. */
    constructor (gamepadApi: bool)
      ensures players == [] && controlSchemes == DefaultSchemes && gamepadSupport == gamepadApi
    {
      players := [];
      controlSchemes := DefaultSchemes;
      gamepadSupport := gamepadApi;
    }

    /** `registerPlayer`: a fresh record overwrites slot `playerId`, growing the array with holes if needed. */
    method RegisterPlayer(playerId: nat, controlScheme: Option<string>) returns (record: PlayerInput)
      modifies this`players
      ensures record == PlayerInput(playerId, ChosenScheme(playerId, controlScheme), Released, Centred)
      ensures |players| == if playerId < |old(players)| then |old(players)| else playerId + 1
      ensures players[playerId] == Some(record)
      ensures forall i :: 0 <= i < |old(players)| && i != playerId ==> players[i] == old(players)[i]
      ensures forall i :: |old(players)| <= i < |players| && i != playerId ==> players[i].None?
    {
      record := PlayerInput(playerId, ChosenScheme(playerId, controlScheme), Released, Centred);
      if playerId < |players| {
        players := players[playerId := Some(record)];
      } else {
        players := players + seq(playerId - |players|, _ => None) + [Some(record)];
      }
    }

    /** The `forEach` shared by `handleKeyDown` and `handleKeyUp`. */
    method DispatchKey(code: string, down: bool)
      modifies this`players
      ensures |players| == |old(players)|
      ensures forall i :: 0 <= i < |players| ==> players[i] == KeyEffect(controlSchemes, old(players)[i], code, down)
    {
      var i := 0;
      while i < |players|
        invariant i <= |players| == |old(players)|
        invariant forall j :: 0 <= j < i ==> players[j] == KeyEffect(controlSchemes, old(players)[j], code, down)
        invariant forall j :: i <= j < |players| ==> players[j] == old(players)[j]
      {
        players := players[i := KeyEffect(controlSchemes, players[i], code, down)];
        i := i + 1;
      }
    }

    /** `handleKeyDown`. */
    method HandleKeyDown(code: string)
      modifies this`players
      ensures |players| == |old(players)|
      ensures forall i :: 0 <= i < |players| ==> players[i] == KeyEffect(controlSchemes, old(players)[i], code, true)
    {
      DispatchKey(code, true);
    }

    /** `handleKeyUp`. */
    method HandleKeyUp(code: string)
      modifies this`players
      ensures |players| == |old(players)|
      ensures forall i :: 0 <= i < |players| ==> players[i] == KeyEffect(controlSchemes, old(players)[i], code, false)
    {
      DispatchKey(code, false);
    }

    /** `updateGamepads`, given what `navigator.getGamepads()` returned. */
    method UpdateGamepads(gamepads: seq<Option<GamepadState>>)
      modifies this`players
      ensures !gamepadSupport ==> players == old(players)
      ensures |players| == |old(players)|
      ensures gamepadSupport ==> forall i :: 0 <= i < |players| ==>
        players[i] == GamepadEffect(controlSchemes, old(players)[i], gamepads)
    {
      if !gamepadSupport {
        return;
      }
      var i := 0;
      while i < |players|
        invariant i <= |players| == |old(players)|
        invariant forall j :: 0 <= j < i ==> players[j] == GamepadEffect(controlSchemes, old(players)[j], gamepads)
        invariant forall j :: i <= j < |players| ==> players[j] == old(players)[j]
      {
        var slot := players[i];
        if slot.Some? && slot.value.scheme in controlSchemes && controlSchemes[slot.value.scheme].Gamepad? {
          var s := controlSchemes[slot.value.scheme];
          if s.gamepadIndex < |gamepads| && gamepads[s.gamepadIndex].Some? {
            UpdateGamepadInput(i, gamepads[s.gamepadIndex].value, s.buttons, s.axes);
          }
        }
        i := i + 1;
      }
    }

    /** `updateGamepadInput(player, gamepad, scheme)` on the player in slot `playerId`. */
    method UpdateGamepadInput(playerId: nat, gamepad: GamepadState, buttons: seq<Action>, axes: seq<AxisControl>)
      requires playerId < |players| && players[playerId].Some?
      modifies this`players
      ensures players == old(players)[playerId := Some(GamepadApplied(old(players)[playerId].value, gamepad, buttons, axes))]
    {
      var q := ReadGamepad(players[playerId].value, gamepad, buttons, axes);
      players := players[playerId := Some(q)];
    }

    /** `getPlayerControls`: `null` for a slot that holds no player. */
    function GetPlayerControls(playerId: nat): (r: Option<ControlFlags>)
      reads this
      ensures r.None? <==> playerId >= |players| || players[playerId].None?
      ensures r.Some? ==> r.value == players[playerId].value.controls
    {
      if playerId < |players| && players[playerId].Some? then Some(players[playerId].value.controls) else None
    }

    /** `setPlayerControlScheme`: succeeds only for a registered player and a known scheme. */
    method SetPlayerControlScheme(playerId: nat, schemeName: string) returns (ok: bool)
      modifies this`players
      ensures ok <==> playerId < |old(players)| && old(players)[playerId].Some? && schemeName in controlSchemes
      ensures ok ==> players == old(players)[playerId := Some(old(players)[playerId].value.(scheme := schemeName))]
      ensures !ok ==> players == old(players)
    {
      if playerId < |players| && players[playerId].Some? && schemeName in controlSchemes {
        players := players[playerId := Some(players[playerId].value.(scheme := schemeName))];
        return true;
      }
      return false;
    }

    /** `addControlScheme`: adds or replaces a named scheme. */
    method AddControlScheme(name: string, scheme: Scheme)
      modifies this`controlSchemes
      ensures controlSchemes == old(controlSchemes)[name := scheme]
    {
      controlSchemes := controlSchemes[name := scheme];
    }

    /**
     * `remapKey`: succeeds only when the player is registered, its scheme is a
     * keyboard scheme and `oldKey` is mapped in it; the (shared) scheme is then
     * updated, so every player using it sees the new key.
     */
    method RemapKey(playerId: nat, oldKey: string, newKey: string) returns (ok: bool)
      modifies this`controlSchemes
      ensures ok <==> (
        && playerId < |players| && players[playerId].Some?
        && players[playerId].value.scheme in old(controlSchemes)
        && old(controlSchemes)[players[playerId].value.scheme].Keyboard?
        && oldKey in old(controlSchemes)[players[playerId].value.scheme].keys)
      ensures ok ==>
        var name := players[playerId].value.scheme;
        var s := old(controlSchemes)[name];
        controlSchemes == old(controlSchemes)[name := Keyboard(s.layout, RemapKeys(s.keys, oldKey, newKey))]
      ensures !ok ==> controlSchemes == old(controlSchemes)
    {
      if !(playerId < |players| && players[playerId].Some?) {
        return false;
      }
      var name := players[playerId].value.scheme;
      if name in controlSchemes && controlSchemes[name].Keyboard? {
        var s := controlSchemes[name];
        if oldKey in s.keys {
          controlSchemes := controlSchemes[name := Keyboard(s.layout, RemapKeys(s.keys, oldKey, newKey))];
          return true;
        }
      }
      return false;
    }
  }
}
