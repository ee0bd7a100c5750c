# Triplane Turmoil 3000: verified model of the per-aircraft state and the menu state machines

This project models, in Dafny, the logic of the browser game Triplane Turmoil 3000 that does not depend on
rendering. It covers:

- **Aircraft profiles and mass bookkeeping** (`AirplaneModels`, from `main/airplane-models.js`):
  - the closed table of three aircraft types, which falls back to the fighter for any other type name (names of `Object.prototype` members aside);
  - the non-visual part of a freshly created aircraft;
  - the weight formula: base + 0.1·fuel + 0.05·ammo + 0.15·bombs;
  - the three consume operations, which clamp at 0, recompute the weight and report success.
- **The arcade flight model** (`FlightEngine`, from `objects/game-engine.js`):
  - `applyFlightPhysics`, step by step on an `Aircraft` object, covering throttle ramp, banking, pitch, heading,
    gravity, lift, drag, integration, speed cap, accumulator reset and speed;
  - `applyBoundaries`;
  - the tick driver `updatePlayers`;
  - `setupPlayers` and `createPlayer`.
  Every method is proved against pure specification functions (`Tick`, `Frame`, `FrameEffect`). The lemmas about
  those functions show that a frame keeps the *flight invariant*:
  - throttle in [0, 1];
  - banking and pitch in [−0.8, 0.8];
  - accumulator zero;
  - |velocity| ≤ maxSpeed;
  - a unit direction with a horizontal part;
  - the aircraft inside the world.
- **The earlier kinematic engine** (`KinematicEngine`, from `main/game-engine.js`): box players pushed by six held
  keys, velocity decay by 0.9 per frame, integration, boundary check, and the key bindings.
- **World bounds** (`World`): the axis-decoupled clamp shared by both engines, and the start positions.
- **Control-state mapping** (`Controls`, from `objects/control-systems.js`):
  - the player registry with eight control flags and three analog values;
  - the named key maps;
  - key-down and key-up dispatch;
  - gamepad buttons and axes with the 0.3 dead zone and the throttle mapping;
  - scheme switching, scheme addition and key remapping.
- **Menu focus state machines**:
  - the screen navigator (`Navigation`, from `main/navigation.js`), with its focus index, its navigation/editing
    mode, its element categories, its button groups and sliders, and its key dispatch;
  - the briefing-room controller (`Briefing`, from `main/briefing.js`), with its element list, focus index,
    activation and adjustments;
  - the widget arithmetic the two share (`Widgets`): wrap-around selection and slider steps of 5 clamped to
    [min, max].

How values are represented:

- All physics is over the reals.
- Square roots and trigonometry are not computed. The record `Vectors.Geometry` carries `sqrt`, `sin` and `cos`
  as function values. The only assumption about them is `Sound`: the root is exact and non-negative, and
  sin² + cos² = 1.
- Vector length, `normalize()` and the rotation `applyAxisAngle((0,1,0), angle)` are defined from that record.
- The DOM is reduced to values:
  - screens are lists of elements;
  - CSS classes are sets of element identities;
  - button groups are sequences of `Button(active, focusedActive)`;
  - sliders are integer triples (value, min, max);
  - `click()` is recorded in a log or a counter.

The newer engine takes the thrust factor from the profile's scalar `acceleration`, kept in
`Aircraft.accelerationFactor`. The per-tick force accumulator is the separate vector `Aircraft.accumulator`. The
source gives both the same key, `acceleration`; see Findings.

Two facts about a tick follow from the code and are easy to miss:

- A tick with all controls released and `deltaTime = 0` still moves a climbing or diving nose. The code multiplies
  `direction.y` by 0.98, banking by 0.92 and pitch by 0.96 whatever `deltaTime` is. Position and velocity do stay
  put (`FlightEngine.ZeroLengthTickKeepsKinematics`), but the direction changes
  (`FlightEngine.ZeroLengthTickStillMovesNose`).
- The accumulator is reset at the end of a tick (objects/game-engine.js:633), not at its start. The model's `Tick`
  adds to the accumulator as it stands, and the flight invariant keeps it zero between ticks.

## Model

| member | source | states |
|---|---|---|
| `AirplaneModels.Specs` | main/airplane-models.js:14-52 | a known type yields its own table row; any other type yields exactly the fighter row (names of `Object.prototype` members are not modelled); every row has positive speed, acceleration, turn rate, weight, durability and capacities |
| `AirplaneModels.SpecsConstants` | main/airplane-models.js:15-49 | fighter 900/2.0/1.0, bomber 600/1.2/1.5, scout 1100/2.5/0.8 (maxSpeed/turnRate/weight); every other type equals the fighter |
| `AirplaneModels.WeightOf` | main/airplane-models.js:289-292 | with non-negative fuel, ammo and bombs the weight is at least the base weight |
| `AirplaneModels.CalculateWeight` | main/airplane-models.js:99-106 | the full-load weight is the dynamic weight formula at full capacities, and exceeds the base weight of a positive profile |
| `AirplaneModels.FullLoadWeights` | main/airplane-models.js:99-106 | a full fighter weighs 2.8, a bomber 4.1, a scout 2.0 |
| `AirplaneModels.WeightMonotone` | main/airplane-models.js:285-293 | dropping fuel, ammo or bombs never makes the aircraft heavier |
| `AirplaneModels.Aircraft.Create` | main/airplane-models.js:58-97 | a new aircraft has its type's profile, full resources, health equal to durability, the full-load weight, zero motion facing +z, and is consistent (`Valid`) |
| `AirplaneModels.Aircraft.UpdateWeight` | main/airplane-models.js:285-293 | the weight becomes base + 0.1·fuel + 0.05·ammo + 0.15·bombs of the current load; nothing else changes |
| `AirplaneModels.Aircraft.ConsumeFuel` | main/airplane-models.js:295-299 | fuel becomes max(0, fuel − amount), weight is recomputed, the result is true iff fuel remains; a non-negative amount keeps the aircraft consistent and never adds fuel |
| `AirplaneModels.Aircraft.ConsumeAmmo` | main/airplane-models.js:301-308 | true iff ammo was positive; then ammo becomes max(0, ammo − amount) and weight is recomputed; otherwise ammo and weight are unchanged |
| `AirplaneModels.Aircraft.ConsumeBomb` | main/airplane-models.js:310-317 | true iff a bomb was left; then bombs drop by exactly one and weight is recomputed; otherwise nothing changes; consistency is kept |
| `AirplaneModels.AsWrittenThrustPowerIsNaN` | main/airplane-models.js:62-96 | in the literal as written the later `acceleration` key (the zero vector) wins, and 1000 times that vector is NaN |
| `FlightEngine.ThrustPower` | objects/game-engine.js:561 | with the profile's scalar factor the thrust power is a finite number, positive for a positive factor |
| `FlightEngine.ThrottleStep` | objects/game-engine.js:566-571 | throttle stays in [0, 1]; held, it rises (or reaches 1); released, it falls (or reaches 0) |
| `FlightEngine.BankStep` | objects/game-engine.js:579-591 | banking stays in [−0.8, 0.8]; left wins over right; left lowers it, right raises it; with neither it is multiplied by 0.92 regardless of dt |
| `FlightEngine.PitchStep` | objects/game-engine.js:593-604 | pitch stays in [−0.8, 0.8]; nose-down wins over nose-up; with neither it is multiplied by 0.96 |
| `FlightEngine.ClimbStep` | objects/game-engine.js:597-603 | the direction's vertical part is bounded below by −0.6 diving and above by 0.6 climbing, moves the right way, and decays by 0.98 with neither key |
| `FlightEngine.SpeedCap` | objects/game-engine.js:624-627 | after the cap the speed is at most maxSpeed; a velocity within the limit is kept; a faster one ends at exactly maxSpeed |
| `FlightEngine.EndOfTick` | objects/game-engine.js:632-636 | after a tick the accumulator is zero and the speed is the velocity's length, at most maxSpeed |
| `FlightEngine.ThrustUsesPreviousDirection` | objects/game-engine.js:573-607 | velocity, position and throttle after a tick do not depend on the turn and pitch keys, so thrust uses the pre-turn direction |
| `FlightEngine.DirectionStaysUnit` | objects/game-engine.js:579-607 | turning, pitching and normalising keep the direction a unit vector with a horizontal part |
| `FlightEngine.ControlStepsInRange` | objects/game-engine.js:566-604 | throttle, banking and pitch stay within their limits for non-negative dt and turn rate |
| `FlightEngine.TickPreservesInvariant` | objects/game-engine.js:559-637 | a tick preserves the flight invariant (throttle, banking, pitch ranges; zero accumulator; speed limit; unit direction) |
| `FlightEngine.ZeroLengthTickKeepsKinematics` | objects/game-engine.js:559-637 | with controls released and dt = 0, position and velocity are unchanged |
| `FlightEngine.ZeroLengthTickStillMovesNose` | objects/game-engine.js:601-607 | with controls released and dt = 0, a climbing or diving aircraft's direction still changes |
| `FlightEngine.EnforceKeepsSpeedLimit` | objects/game-engine.js:639-671 | the boundary check never lengthens the velocity |
| `FlightEngine.FramePreservesInvariant` | objects/game-engine.js:21-40 | a tick followed by the boundary check keeps the flight invariant and leaves the aircraft inside the world |
| `FlightEngine.CreatePlayerInitial` | objects/game-engine.js:317-353 | a created player is at rest at its position, satisfies the flight invariant, has every control flag false, and is active iff its id is 0 |
| `FlightEngine.RestingStateInvariant` | main/airplane-models.js:88-95 | an aircraft at rest facing +z satisfies the flight invariant |
| `FlightEngine.GameEngine.constructor` | objects/game-engine.js:278-315 | four distinct fresh aircraft of types fighter, fighter, scout, bomber at the four start positions, only the first active, each registered with the control system under its default scheme |
| `FlightEngine.GameEngine.NewPlayer` | objects/game-engine.js:288-308 | the aircraft of slot i has the slot's type and id, is consistent, rests at the slot's start position, and is active iff i = 0 |
| `FlightEngine.GameEngine.ApplyFlightPhysics` | objects/game-engine.js:559-637 | the aircraft's flight state becomes `Tick` of its old state, which the lemmas above characterise |
| `FlightEngine.GameEngine.ApplyBoundaries` | objects/game-engine.js:639-671 | position and velocity become `Enforce` of the old ones |
| `FlightEngine.GameEngine.UpdatePlayer` | objects/game-engine.js:22-39 | an active aircraft with controls gets a tick and the boundary check; any other is left as it was; handling (so weight), activity, fuel, ammo, bombs and health never change |
| `FlightEngine.GameEngine.UpdatePlayers` | objects/game-engine.js:21-40 | every aircraft ends in `FrameEffect` of its old state, with the controls the control system reports for its slot; fuel, ammo, bombs, health, handling (so weight) and activity are untouched |
| `World.StartPositionsStrictlyInside` | main/game-engine.js:193-198 | all four start positions lie strictly inside [−5000,5000]×[10,700]×[−5000,5000] |
| `World.ClampAxis` | objects/game-engine.js:642-650 | the clamped position lies in [lo, hi]; it is unchanged iff it was in range; the velocity component is kept iff the position was in range, else 0 |
| `World.EnforceInside` | main/game-engine.js:381-413 | after the boundary check the position lies inside the world |
| `World.EnforceAxisDecoupled` | objects/game-engine.js:639-671 | a component changes, and its velocity becomes 0, only on an axis that was out of range; other axes are untouched |
| `World.EnforceInsideIsIdentity` | main/game-engine.js:381-413 | a state already inside the world is left untouched |
| `World.EnforceIdempotent` | objects/game-engine.js:639-671 | applying the boundary check twice equals applying it once |
| `KinematicEngine.ImpulsePerKey` | main/game-engine.js:359-368 | each held key adds exactly moveDistance on its own axis only; opposite keys cancel; no key, no change |
| `KinematicEngine.MoveStepFacts` | main/game-engine.js:370-377 | after a frame the player is inside the world; a coasting player that stays inside keeps exactly 0.9 of its velocity whatever dt is |
| `KinematicEngine.RightShiftStaysDown` | main/game-engine.js:275-287 | as written, pressing and releasing the right shift key leaves `down` set |
| `KinematicEngine.ReleaseUndoesPress` | main/game-engine.js:270-288 | with `ShiftRight` handled, key-up clears exactly the flag key-down set and leaves every other flag as before the press |
| `KinematicEngine.Player.Create` | main/game-engine.js:209-232 | a new player is at its position with zero velocity, no key held, active iff id = 0 |
| `KinematicEngine.Player.ApplyControls` | main/game-engine.js:362-368 | the velocity gains exactly `Impulse` of the held keys |
| `KinematicEngine.GameEngine.constructor` | main/game-engine.js:191-207 | four distinct fresh players with ids 0..3 at the start positions, at rest, idle, only the first active |
| `KinematicEngine.GameEngine.KeyDown` | main/game-engine.js:270-275 | player 1's flag bound to the key is set; position, velocity and activity are unchanged |
| `KinematicEngine.GameEngine.KeyUp` | main/game-engine.js:278-288 | player 1's flag bound to the key is cleared, with the corrected release: either shift key clears `down`; nothing else changes |
| `KinematicEngine.GameEngine.ApplyBoundaries` | main/game-engine.js:381-413 | position and velocity become `Enforce` of the old ones |
| `KinematicEngine.GameEngine.UpdatePlayer` | main/game-engine.js:356-378 | an active player takes one `MoveStep`; an inactive one is untouched |
| `KinematicEngine.GameEngine.UpdatePlayers` | main/game-engine.js:355-379 | every active player takes one `MoveStep`, inactive players are completely unchanged, and no control flag or activity changes |
| `Controls.ControlFlags.Set` | objects/control-systems.js:163 | the named flag takes the new value |
| `Controls.SetKeepsOthers` | objects/control-systems.js:181 | setting one flag leaves every other flag as it was |
| `Controls.KeyboardSchemesBindEachActionOnce` | objects/control-systems.js:21-52 | in both keyboard layouts each of the eight actions is bound to exactly one key |
| `Controls.DefaultSchemeNamesExist` | objects/control-systems.js:95-98 | players 0..3 default to player1..player4, the first two keyboard schemes, the last two gamepad schemes |
| `Controls.ChosenScheme` | objects/control-systems.js:98 | a given non-empty scheme name is kept; a missing or empty one becomes `player${id+1}` |
| `Controls.KeyEffectChangesOnlyMappedFlag` | objects/control-systems.js:152-168 | a key sets the mapped flag of a keyboard player to the event's state and changes nothing else; gamepad players, unmapped keys and empty slots are unchanged |
| `Controls.KeyUpUndoesKeyDown` | objects/control-systems.js:170-185 | key-down then key-up of the same key equals key-up alone |
| `Controls.ThrottleLevel` | objects/control-systems.js:245-246 | (v+1)/2 lies in [0,1] for v in [−1,1]; the throttle flag is on iff v > −0.8 |
| `Controls.AxisDeadZone` | objects/control-systems.js:234-247 | turnLeft/turnRight and noseDown/noseUp are never both on, and neither is on inside the ±0.3 dead zone |
| `Controls.DefaultGamepadAxesWin` | objects/control-systems.js:218-248 | on the built-in gamepad schemes the throttle axis overrides the throttle button; turnLeft, turnRight, noseDown and noseUp are each on exactly when the stick is past −0.3 or 0.3 on its axis, and the analog values are the stick's |
| `Controls.RemapKeys` | objects/control-systems.js:297-300 | the new key maps to the old key's action, the old key is gone unless it is the new key, every other key keeps its binding |
| `Controls.ReadGamepad` | objects/control-systems.js:220-248 | the loops over buttons then axes yield `GamepadApplied` |
| `Controls.ControlSystems.constructor` | objects/control-systems.js:5-15 | no players, the four default schemes, gamepad support as detected |
| `Controls.ControlSystems.RegisterPlayer` | objects/control-systems.js:95-119 | slot playerId holds a fresh record (chosen scheme, all flags false, analog values 0), overwriting any previous one; other slots are unchanged, new gaps are empty |
| `Controls.ControlSystems.DispatchKey` | objects/control-systems.js:156-167 | every slot becomes `KeyEffect` of its old value |
| `Controls.ControlSystems.HandleKeyDown` | objects/control-systems.js:152-168 | every slot becomes `KeyEffect` of its old value with the state `true` |
| `Controls.ControlSystems.HandleKeyUp` | objects/control-systems.js:170-185 | every slot becomes `KeyEffect` of its old value with the state `false` |
| `Controls.ControlSystems.UpdateGamepads` | objects/control-systems.js:200-216 | without gamepad support nothing changes; otherwise every slot becomes `GamepadEffect` of its old value |
| `Controls.ControlSystems.UpdateGamepadInput` | objects/control-systems.js:218-249 | only the given slot changes, to `GamepadApplied` of its old record |
| `Controls.ControlSystems.GetPlayerControls` | objects/control-systems.js:256-258 | null exactly for an unregistered id; otherwise that player's controls |
| `Controls.ControlSystems.SetPlayerControlScheme` | objects/control-systems.js:275-282 | true iff the player and the scheme exist; then only that player's scheme changes; otherwise nothing changes |
| `Controls.ControlSystems.AddControlScheme` | objects/control-systems.js:285-288 | the scheme is added or replaced under its name; other schemes are unchanged |
| `Controls.ControlSystems.RemapKey` | objects/control-systems.js:291-306 | true iff the player exists and its keyboard scheme maps the old key; then that scheme's map becomes `RemapKeys`; otherwise the schemes are unchanged |
| `Widgets.WrapIndex` | main/navigation.js:237-242 | for a non-empty group the index is valid, and an in-range step is not wrapped |
| `Widgets.WrapIndexCycles` | main/briefing.js:86-88 | right from the last reaches the first, left from the first reaches the last, and a right step is undone by a left step and vice versa |
| `Widgets.Stepped` | main/navigation.js:251-260 | the new value lies in [min, max]; an in-range step of 5·direction is taken exactly; otherwise the value is clamped to the bound it passed |
| `Widgets.SteppedInverse` | main/briefing.js:97-106 | an unclamped step up is undone by a step down; at a bound a further step is a no-op |
| `Widgets.FocusMovesStayInRange` | main/briefing.js:112-122 | up and down keep a valid index valid, are no-ops exactly at the ends, and undo each other away from the ends |
| `Widgets.FirstActive` | main/navigation.js:233 | the first button with the `active` class, or none iff no button is active |
| `Widgets.ActiveIndex` | main/briefing.js:72-80 | the first active button's index, or 0 when none is active |
| `Widgets.ActiveButtonIndex` | main/briefing.js:72-80 | the loop returns `ActiveIndex` |
| `Widgets.Activated` | main/briefing.js:91-92 | exactly button k is active; highlights are unchanged |
| `Widgets.ActivatedAndMarked` | main/navigation.js:245-246 | exactly button k is active and highlighted |
| `Widgets.ActivatedIsFirstActive` | main/navigation.js:245-246 | after activating a valid index, it is the button `querySelector('.button.active')` finds |
| `Widgets.Unmarked` | main/navigation.js:143-146 | no button is highlighted; activity is unchanged |
| `Widgets.Marked` | main/navigation.js:131-136 | button k (if it exists) gains the highlight; nothing else changes |
| `Widgets.ClearMarks` | main/briefing.js:155-158 | the loop yields `Unmarked` |
| `Navigation.GetElementType` | main/navigation.js:84-92 | the category matches the element and no category tried earlier does; plain button is the default |
| `Navigation.FocusList` | main/navigation.js:63-82 | one entry per focusable element of the screen, in order, with its index and category; empty for a missing screen |
| `Navigation.AfterSetFocus` | main/navigation.js:110-125 | the new focused element is marked, and no element other than it gains a mark |
| `Navigation.SetFocusLeavesOneMark` | main/navigation.js:110-125 | if only the focused element was marked, afterwards only the newly focused element is |
| `Navigation.StaleFocusMarkAsWritten` | main/navigation.js:33-57 | as written, focusing the second main-menu item, opening a screen and returning leaves both main-menu items marked |
| `Navigation.SwitchLeavesOneMark` | main/navigation.js:33-57 | with the correction, a screen switch leaves exactly the first item of the new screen marked |
| `Navigation.UnmarkGroup` | main/navigation.js:139-147 | a focused-out button group loses every highlight; other groups are unchanged |
| `Navigation.MarkGroup` | main/navigation.js:127-137 | only the focused item's group can change |
| `Navigation.GroupsAfterSetFocus` | main/navigation.js:110-125 | only the groups of the old and the new focused item can change |
| `Navigation.GroupsAfterSwitch` | main/navigation.js:46-56 | the corrected switch keeps the set of groups |
| `Navigation.GroupAdjusted` | main/navigation.js:231-249 | only group g can change; the other groups keep their buttons |
| `Navigation.AdjustLeavesOneActive` | main/navigation.js:231-249 | with an active button, exactly the wrapped neighbour is active afterwards; without one, nothing changes |
| `Navigation.SliderAdjusted` | main/navigation.js:251-264 | only slider s changes, to its stepped value |
| `Navigation.EnterActionOf` | main/navigation.js:153-213 | Enter opens a screen iff the item is a start-game/configurations menu item or an exit button; edits iff a text input; clicks iff a group, slider, plain button or non-launch action button |
| `Navigation.ModeAfterKey` | main/navigation.js:293-346 | the mode afterwards is editing iff it was editing and an arrow was pressed, or it was navigation and Enter hit a text input |
| `Navigation.NavigationController.constructor` | main/navigation.js:5-27 | the main menu is active with its list built, navigation mode, focus 0, exactly the focused item marked, and the group highlights those `setFocus(0)` gives (`GroupsAfterSwitch` from an empty list) |
| `Navigation.NavigationController.BuildFocusableElements` | main/navigation.js:63-82 | the loop builds `FocusList` of the current screen |
| `Navigation.NavigationController.AddFocus` | main/navigation.js:127-137 | the item is marked and its group's active button highlighted |
| `Navigation.NavigationController.RemoveFocus` | main/navigation.js:139-147 | the item's mark goes and its group's highlights are cleared |
| `Navigation.NavigationController.SetFocus` | main/navigation.js:110-125 | the index becomes the argument, marks follow `AfterSetFocus`, and a single focus mark stays single |
| `Navigation.NavigationController.NavigateUp` | main/navigation.js:98-102 | at 0 nothing changes; otherwise the effect is `setFocus(index − 1)`: the index moves, the marks follow `AfterSetFocus`, the highlights follow `GroupsAfterSetFocus`, nothing else changes; a valid index stays valid and a single mark stays single |
| `Navigation.NavigationController.NavigateDown` | main/navigation.js:104-108 | at the last item nothing changes; otherwise the effect is `setFocus(index + 1)`: the index moves, the marks follow `AfterSetFocus`, the highlights follow `GroupsAfterSetFocus`, nothing else changes; a valid index stays valid and a single mark stays single |
| `Navigation.NavigationController.ActivateScreen` | main/navigation.js:33-57 | screens are hidden, the game hook runs for 'game', and an existing screen is shown with navigation mode, a fresh list and focus 0, with the corrected mark removal; a missing screen changes nothing else |
| `Navigation.NavigationController.ShowScreen` | main/navigation.js:46-56 | the screen is shown and current, mode is navigation, the list is rebuilt and focus is 0; marks and highlights follow the corrected switch (`SwitchMarks`, `GroupsAfterSwitch`), so a single mark ends on the first item |
| `Navigation.NavigationController.HandleExit` | main/navigation.js:197-200 | the main menu is activated, with the corrected mark removal |
| `Navigation.NavigationController.HandleMenuItemActivation` | main/navigation.js:182-195 | 'start-game' and 'configurations' activate that screen (with the corrected mark removal); any other action changes nothing |
| `Navigation.NavigationController.HandleActionButton` | main/navigation.js:202-213 | the 'launch-game' button does nothing; any other is clicked |
| `Navigation.NavigationController.EnterEditMode` | main/navigation.js:270-276 | mode becomes editing and the item gains `kb-editing` |
| `Navigation.NavigationController.ExitEditMode` | main/navigation.js:278-287 | mode becomes navigation and the focused item loses `kb-editing` |
| `Navigation.NavigationController.HandleEnter` | main/navigation.js:153-180 | with no focused item nothing changes; otherwise the effect is the one `EnterActionOf` names (open a screen, edit, click or nothing), and every other field is unchanged |
| `Navigation.NavigationController.AdjustButtonGroup` | main/navigation.js:231-249 | the groups become `GroupAdjusted` |
| `Navigation.NavigationController.AdjustSlider` | main/navigation.js:251-264 | the sliders become `SliderAdjusted` |
| `Navigation.NavigationController.HandleLeftRight` | main/navigation.js:215-229 | a focused group becomes `GroupAdjusted`, a focused slider `SliderAdjusted`; any other item changes nothing; no other field changes |
| `Navigation.NavigationController.HandleKey` | main/navigation.js:293-347 | the mode follows `ModeAfterKey`; in editing mode arrows do nothing and Enter/Escape only leave editing; in navigation mode Up/Down give the focus move of `navigateUp`/`navigateDown`, Left/Right the effect of `handleLeftRight(∓1)`, Enter that of `handleEnter`, and Escape off the main menu returns to it |
| `Briefing.ColorOf` | main/briefing.js:23-24 | quadrants 0..3 get yellow, red, green, blue; later quadrants get no colour |
| `Briefing.SliderItems` | main/briefing.js:39-47 | one slider entry per slider of the quadrant, in order, with the quadrant's colour |
| `Briefing.QuadrantsItemsBelong` | main/briefing.js:22-48 | every quadrant entry belongs to an existing quadrant, has its colour, and is a group iff of type 'buttons' |
| `Briefing.QuadrantsItemsOrdered` | main/briefing.js:22-48 | quadrant entries come in strictly increasing document order |
| `Briefing.ElementsListOrdered` | main/briefing.js:15-70 | the list is ordered quadrant by quadrant (group, then sliders), then lives, then fight; only the fight button has type 'button'; it comes last |
| `Briefing.ElementsListLength` | main/briefing.js:15-70 | every group, slider, the lives slider and the fight button get exactly one entry |
| `Briefing.ButtonsAdjusted` | main/briefing.js:82-95 | on a non-empty group exactly the wrapped neighbour of the reported index becomes active, and highlights are kept; an empty group throws |
| `Briefing.ButtonsAdjustedRoundTrip` | main/briefing.js:82-95 | on any non-empty group, a step right then left returns to the original reported active index |
| `Briefing.UnmarkItem` | main/briefing.js:152-159 | only the item's group can change |
| `Briefing.MarkItem` | main/briefing.js:140-150 | only the item's group can change |
| `Briefing.GroupsAfterFocus` | main/briefing.js:124-138 | only the groups of the old and the new focused item can change |
| `Briefing.UnmarkAll` | main/briefing.js:188 | the set of groups is kept |
| `Briefing.BriefingRoomController.constructor` | main/briefing.js:5-13 | inactive, focus 0, nothing marked, the list built from the page |
| `Briefing.BriefingRoomController.BuildElementsList` | main/briefing.js:15-70 | the nested loops build `ElementsList` of the page |
| `Briefing.BriefingRoomController.GetActiveButtonIndex` | main/briefing.js:72-80 | the group's `ActiveIndex` |
| `Briefing.BriefingRoomController.AdjustButtons` | main/briefing.js:82-95 | the group becomes `ButtonsAdjusted`; an empty group reports failure and changes nothing |
| `Briefing.BriefingRoomController.AdjustSlider` | main/briefing.js:97-110 | the slider takes its stepped value; other sliders are unchanged |
| `Briefing.BriefingRoomController.AddFocus` | main/briefing.js:140-150 | the item is marked and its group's reported active button highlighted |
| `Briefing.BriefingRoomController.RemoveFocus` | main/briefing.js:152-159 | the item's mark goes and its group's highlights are cleared |
| `Briefing.BriefingRoomController.SetFocus` | main/briefing.js:124-138 | the index becomes the argument, the marks move from the old to the new item, the highlights follow `GroupsAfterFocus`, and a valid controller keeps exactly the new item marked |
| `Briefing.BriefingRoomController.NavigateUp` | main/briefing.js:112-116 | at 0 nothing changes; otherwise the effect is `setFocus(index − 1)`, and a valid controller ends with exactly the new item marked |
| `Briefing.BriefingRoomController.NavigateDown` | main/briefing.js:118-122 | at the last item nothing changes; otherwise the effect is `setFocus(index + 1)`, and a valid controller ends with exactly the new item marked |
| `Briefing.BriefingRoomController.AdjustCurrentSetting` | main/briefing.js:161-167 | a focused group steps, a slider steps, the fight button is clicked; nothing happens without a focused item |
| `Briefing.BriefingRoomController.HandleEnter` | main/briefing.js:169-174 | the fight button is clicked iff it is the focused item; nothing else reacts |
| `Briefing.BriefingRoomController.Activate` | main/briefing.js:176-181 | active, the list rebuilt, focus 0; the mark at the old index of the new list is removed and the first item marked; highlights follow `GroupsAfterFocus`; a valid controller ends with exactly the first item marked |
| `Briefing.BriefingRoomController.Deactivate` | main/briefing.js:183-189 | inactive, every listed item loses its mark and highlights, so nothing stays marked |

## Left out

- Rendering and scene building are not modelled, because they are THREE.js calls with no behaviour to verify. This covers
  renderer, scene, lights, world meshes, cameras, split-screen render and resize.
- The visual aircraft models, the propeller animation, `updateOrientation` and `updateAirplaneVisuals` are not
  modelled. They change only the mesh, and `updatePlayers` is modelled without the visual call.
- Floating point is not modelled; all arithmetic is exact over the reals. `sqrt`, `sin` and `cos` are abstract
  functions constrained only by `Sound`.
- The game loop, `requestAnimationFrame`, `THREE.Clock`, the FPS counter and the HUD in `updateUI` are not modelled.
  `deltaTime` is a parameter.
- objects/game-engine.js:3-71 is a truncated fragment. Only its `updatePlayers` logic is modelled, with the control
  system passed as a parameter instead of `window.ControlSystems`.
- `FlightEngine.GameEngine.constructor` works on instances. `setupPlayers` (objects/game-engine.js:290, 304-305) calls
  `createAirplane` and `registerPlayer` on `window.AirplaneModels` and `window.ControlSystems`. Those hold the classes
  (main/airplane-models.js:321, objects/control-systems.js:333), so as written the calls throw. This wiring is not
  modelled.
- The Mousetrap library, DOM event listeners, `preventDefault`, console logging, `checkGamepadSupport` and
  `navigator.getGamepads()` are not modelled. Their results are parameters: the gamepad snapshot and the support flag.
- `Navigation.NavigationController.HandleKey` assumes every bound key callback fires. By default Mousetrap ignores
  events from text inputs, and `enterEditMode` focuses the text input (main/navigation.js:273), so in the running
  program Enter and Escape in editing mode may never arrive.
- `Briefing.BriefingRoomController`: the page is fixed for the controller's lifetime. `activate` rebuilds the list in
  case the page changed (main/briefing.js:179); in the model the rebuild always yields the same list.
- `getControlsDebugInfo`, `logControlSchemes`, `getPlayerAnalog` and `update()` are not modelled. They only log,
  read, or forward to `updateGamepads`.
- `Controls.ControlSystems.UpdateGamepadInput`: a button missing from the gamepad leaves its flag alone, as in the
  source. A missing axis is read as a non-number (`None`), which turns both of its flags off. The arithmetic
  of NaN is not modelled further.
- Actions are the eight named flags. A custom scheme given to `addControlScheme` (objects/control-systems.js:285-288)
  may bind a key to any other string, and `player.controls[action] = true` (objects/control-systems.js:163) would
  then add a new property; the model's `Action` type cannot express such a binding.
- Gamepad scheme tables are modelled as sequences indexed by position. JavaScript object-key order for numeric keys
  gives the same order.
- `remapKey` mutates the scheme object shared by every player using it. The model updates the scheme in the map,
  which has the same effect for all such players.
- Menu DOM side effects are not modelled: `scrollIntoView`, `dispatchEvent`, `focus`/`blur`, `setupStyles` and
  `setupClickHandlers`. A mouse click on a button group is left out with them.
- The 'launch-game' case of the navigator's `handleEnter` is not modelled. No element type has that name, so the
  case is unreachable.
- Sliders hold integers. `parseInt` of a non-numeric value, which gives NaN, is not modelled.
- `Briefing.ButtonsAdjusted`: the source's `adjustButtons` does not move the `kb-focused-active` highlight, and the
  model keeps that as written.
- `Briefing.BriefingRoomController.AdjustCurrentSetting`: the fight button's `adjust` ignores the direction, so
  left and right click it. The model keeps that as written.
- main/main.js is not part of this model. It holds the save-state service (localStorage, JSON, a debounce timer)
  and startup wiring.
- `AirplaneModels.Specs`: type names of `Object.prototype` members, such as "constructor", "toString" or
  "__proto__", are not modelled. For them `specs[type]` (main/airplane-models.js:51) yields the inherited member, not
  the fighter row that the model returns.
- `Navigation.NavigationController.ShowScreen` implements the corrected screen switch. It removes the old focus mark
  and group highlights before the list is rebuilt. main/navigation.js:46-56 rebuilds first, so as written the old
  mark stays; `Navigation.SwitchMarksAsWritten` models that behaviour (see Findings).
- `Navigation.NavigationController.ActivateScreen` has the corrected screen switch of `ShowScreen`.
- `Navigation.NavigationController.HandleExit` has the corrected screen switch of `ShowScreen`.
- `Navigation.NavigationController.HandleMenuItemActivation` has the corrected screen switch of `ShowScreen`.
- `Navigation.NavigationController.HandleEnter` has the corrected screen switch of `ShowScreen` when Enter opens a
  screen.
- `Navigation.NavigationController.HandleKey` has the corrected screen switch of `ShowScreen` for Enter and Escape.
- `KinematicEngine.GameEngine.KeyUp` implements the corrected release: it clears `down` for `ShiftRight` as well.
  main/game-engine.js:286 clears it only for `ShiftLeft`; `KinematicEngine.RightShiftStaysDown` models that behaviour
  (see Findings).
- Object identity of the DOM is not modelled. Two elements are the same when their screen and position agree.

## Findings

| source | as written | input that shows it | evidently intended | confidence | as-written member | corrected member |
|---|---|---|---|---|---|---|
| objects/game-engine.js:561 | `1000 * airplane.acceleration` reads the record's `acceleration`; main/airplane-models.js:90 redefines that key as a zero vector after the profile scalar at line 71 | any aircraft from `createAirplane` with the throttle held: thrust power is NaN, so thrust, velocity and position become NaN | thrust power is 1000 × the profile's scalar acceleration, with a separate force accumulator | not executed; high | `AirplaneModels.AsWrittenThrustPowerIsNaN` | `FlightEngine.ThrustPower` |
| main/navigation.js:33-57 | `activateScreen` rebuilds `focusableElements` before `setFocus(0)`, so `removeFocus` hits the old index of the new list | focus the second main-menu item, open 'configurations', press Escape: both main-menu items keep `kb-focused` | the previously focused element loses its mark when the screen changes | not executed; high | `Navigation.StaleFocusMarkAsWritten` | `Navigation.SwitchLeavesOneMark` |
| main/game-engine.js:275-287 | the `shift` binding sets `down` for either shift key, but the key-up switch clears it only for `ShiftLeft` | press and release the right shift key: player 1 keeps descending | releasing either shift key clears `down` | not executed; medium | `KinematicEngine.RightShiftStaysDown` | `KinematicEngine.ReleaseUndoesPress` |
