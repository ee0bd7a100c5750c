/**
 * The menu screen navigator (main/navigation.js): which screen is shown,
 * the ordered list of its `.focusable` elements, the focused index, the
 * navigation/editing mode, and what the arrow, Enter and Escape keys do.
 *
 * The DOM is reduced to values: each screen is the list of its focusable
 * elements, an element is identified by its screen and position (`Ref`),
 * the `kb-focused` and `kb-editing` classes are sets of `Ref`s, the buttons
 * of each button group and the value of each range slider are maps keyed by
 * `Ref`, and `element.click()` is recorded in a log.
 */
module Navigation {
  import opened Optional
  import opened Widgets

  datatype Mode = NavigationMode | EditingMode

  /** The categories `getElementType` assigns. */
  datatype ElementType = MenuItem | ExitButton | ActionButton | ButtonGroup | TextInput | SliderInput | PlainButton

  /** What `getElementType` reads of an element: its classes, tag name, input type, `data-action` and id. */
  datatype Element = Element(classes: set<string>, tagName: string, inputType: string, action: Option<string>, id: string)

  /** An element of the document: its screen and its position among that screen's `.focusable` elements. */
  datatype Ref = Ref(screen: string, position: nat)

  /** An entry of `focusableElements`. */
  datatype FocusItem = FocusItem(ref: Ref, element: Element, index: nat, kind: ElementType, screen: string)

  /** The four keys bound through Mousetrap, plus Enter and Escape. */
  datatype Key = Up | Down | Left | Right | Enter | Escape

  predicate IsArrow(key: Key) {
    key.Up? || key.Down? || key.Left? || key.Right?
  }

  const MainMenu: string := "main-menu"

  /** Whether an element has the features of a category; every element is at least a plain button. */
  predicate Matches(e: Element, t: ElementType) {
    match t
    case MenuItem => "menu-item" in e.classes
    case ExitButton => "button" in e.classes && e.action == Some("exit")
    case ActionButton => "launch-btn" in e.classes
    case ButtonGroup => "button-group" in e.classes
    case TextInput => e.tagName == "INPUT" && e.inputType == "text"
    case SliderInput => e.tagName == "INPUT" && e.inputType == "range"
    case PlainButton => true
  }

  /** The order in which `getElementType` tries the categories. */
  function Priority(t: ElementType): nat {
    match t
    case MenuItem => 0
    case ExitButton => 1
    case ActionButton => 2
    case ButtonGroup => 3
    case TextInput => 4
    case SliderInput => 5
    case PlainButton => 6
  }

  /** `getElementType`: the first category, in priority order, that the element matches. */
  function GetElementType(e: Element): (t: ElementType)
    ensures Matches(e, t)
    ensures forall u :: Priority(u) < Priority(t) ==> !Matches(e, u)
  {
    if "menu-item" in e.classes then MenuItem
    else if "button" in e.classes && e.action == Some("exit") then ExitButton
    else if "launch-btn" in e.classes then ActionButton
    else if "button-group" in e.classes then ButtonGroup
    else if e.tagName == "INPUT" && e.inputType == "text" then TextInput
    else if e.tagName == "INPUT" && e.inputType == "range" then SliderInput
    else PlainButton
  }

  /** The list `buildFocusableElements` builds for a screen; empty when the screen does not exist. */
  function FocusList(screens: map<string, seq<Element>>, screen: string): (items: seq<FocusItem>)
    ensures screen in screens ==> |items| == |screens[screen]|
    ensures screen !in screens ==> items == []
    ensures forall i :: 0 <= i < |items| ==>
      items[i] == FocusItem(Ref(screen, i), screens[screen][i], i, GetElementType(screens[screen][i]), screen)
  {
    if screen in screens then
      var es := screens[screen];
      seq(|es|, i requires 0 <= i < |es| => FocusItem(Ref(screen, i), es[i], i, GetElementType(es[i]), screen))
    else []
  }

  /** The element a focus index designates, as the set of at most one element carrying `kb-focused`. */
  function FocusedRef(items: seq<FocusItem>, index: int): (r: set<Ref>)
    ensures 0 <= index < |items| ==> r == {items[index].ref}
    ensures !(0 <= index < |items|) ==> r == {}
  {
    if 0 <= index < |items| then {items[index].ref} else {}
  }

  /** `setFocus`: the marks after removing the one at the old index and adding one at the new index of the same list. */
  function AfterSetFocus(marks: set<Ref>, items: seq<FocusItem>, oldIndex: int, newIndex: int): (r: set<Ref>)
    ensures FocusedRef(items, newIndex) <= r
    ensures r - FocusedRef(items, newIndex) <= marks
  {
    marks - FocusedRef(items, oldIndex) + FocusedRef(items, newIndex)
  }

  /** When only the focused item is marked, `setFocus` leaves only the newly focused item marked. */
  lemma {:induction false} SetFocusLeavesOneMark(marks: set<Ref>, items: seq<FocusItem>, oldIndex: int, newIndex: int)
    requires marks == FocusedRef(items, oldIndex)
    ensures AfterSetFocus(marks, items, oldIndex, newIndex) == FocusedRef(items, newIndex)
  {
    assert marks - FocusedRef(items, oldIndex) == {};
  }

  /**
   * `activateScreen` as written: the list is rebuilt for the new screen before
   * `setFocus(0)` runs, so the mark removed is the one at the old index of the
   * NEW list, and the previously focused element keeps its mark.
   */
  function SwitchMarksAsWritten(marks: set<Ref>, oldIndex: int, newItems: seq<FocusItem>): set<Ref> {
    AfterSetFocus(marks, newItems, oldIndex, 0)
  }

  /** The corrected screen switch: the focused element of the old list loses its mark before the list is rebuilt. */
  function SwitchMarks(marks: set<Ref>, oldItems: seq<FocusItem>, oldIndex: int, newItems: seq<FocusItem>): set<Ref> {
    AfterSetFocus(marks - FocusedRef(oldItems, oldIndex), newItems, oldIndex, 0)
  }

  /** A two-item main menu and a one-item configurations screen. */
  const SampleScreens: map<string, seq<Element>> := map[
    MainMenu := [
      Element({"menu-item", "focusable"}, "DIV", "", Some("start-game"), ""),
      Element({"menu-item", "focusable"}, "DIV", "", Some("configurations"), "")],
    "configurations" := [
      Element({"button", "focusable"}, "BUTTON", "", Some("exit"), "")]]

  /**
   * As written, focusing the second main-menu item, opening the configurations
   * screen and coming back leaves both main-menu items marked as focused.
   */
  lemma StaleFocusMarkAsWritten()
    ensures var mainItems, configItems := FocusList(SampleScreens, MainMenu), FocusList(SampleScreens, "configurations");
      var atSecond := FocusedRef(mainItems, 1);
      var inConfig := SwitchMarksAsWritten(atSecond, 1, configItems);
      var back := SwitchMarksAsWritten(inConfig, 0, mainItems);
      Ref(MainMenu, 0) in back && Ref(MainMenu, 1) in back
  {
    var mainItems, configItems := FocusList(SampleScreens, MainMenu), FocusList(SampleScreens, "configurations");
    assert |mainItems| == 2 && mainItems[1].ref == Ref(MainMenu, 1) && mainItems[0].ref == Ref(MainMenu, 0);
    assert |configItems| == 1;
  }

  /** With the correction, a screen switch leaves exactly the first item of the new screen marked. */
  lemma {:induction false} SwitchLeavesOneMark(marks: set<Ref>, oldItems: seq<FocusItem>, oldIndex: int, newItems: seq<FocusItem>)
    requires marks == FocusedRef(oldItems, oldIndex)
    ensures SwitchMarks(marks, oldItems, oldIndex, newItems) == FocusedRef(newItems, 0)
  {
    assert marks - FocusedRef(oldItems, oldIndex) == {};
    assert {} - FocusedRef(newItems, oldIndex) == {};
  }

  /** `removeFocus` on a button group: the highlight is cleared from all of its buttons. */
  function UnmarkGroup(groups: map<Ref, seq<Button>>, item: FocusItem): (r: map<Ref, seq<Button>>)
    ensures r.Keys == groups.Keys
    ensures forall g :: g in groups && g != item.ref ==> r[g] == groups[g]
    ensures item.ref in groups && item.kind == ButtonGroup ==> r[item.ref] == Unmarked(groups[item.ref])
  {
    if item.kind == ButtonGroup && item.ref in groups then groups[item.ref := Unmarked(groups[item.ref])] else groups
  }

  /** `addFocus` on a button group: its first active button gets the highlight. */
  function MarkGroup(groups: map<Ref, seq<Button>>, item: FocusItem): (r: map<Ref, seq<Button>>)
    ensures r.Keys == groups.Keys
    ensures forall g :: g in groups && g != item.ref ==> r[g] == groups[g]
  {
    if item.kind == ButtonGroup && item.ref in groups then
      match FirstActive(groups[item.ref])
      case Some(k) => groups[item.ref := Marked(groups[item.ref], k)]
      case None => groups
    else groups
  }

  /** The button groups after `setFocus` moved from `oldIndex` to `newIndex` of `items`. */
  function GroupsAfterSetFocus(groups: map<Ref, seq<Button>>, items: seq<FocusItem>, oldIndex: int, newIndex: int): (r: map<Ref, seq<Button>>)
    ensures r.Keys == groups.Keys
    ensures forall g :: g in groups && g !in FocusedRef(items, oldIndex) && g !in FocusedRef(items, newIndex) ==> r[g] == groups[g]
  {
    var cleared := if 0 <= oldIndex < |items| then UnmarkGroup(groups, items[oldIndex]) else groups;
    if 0 <= newIndex < |items| then MarkGroup(cleared, items[newIndex]) else cleared
  }

  /** The button groups after the corrected screen switch: the old focused group is unmarked, then `setFocus(0)` runs on the new list. */
  function GroupsAfterSwitch(groups: map<Ref, seq<Button>>, oldItems: seq<FocusItem>, oldIndex: int, newItems: seq<FocusItem>): (r: map<Ref, seq<Button>>)
    ensures r.Keys == groups.Keys
  {
    var cleared := if 0 <= oldIndex < |oldItems| then UnmarkGroup(groups, oldItems[oldIndex]) else groups;
    GroupsAfterSetFocus(cleared, newItems, oldIndex, 0)
  }

  /**
   * `adjustButtonGroup`: with an active button, the button `direction` steps
   * away (wrapping) becomes the only active and highlighted one; without one,
   * nothing changes.
   */
  function GroupAdjusted(groups: map<Ref, seq<Button>>, g: Ref, direction: int): (r: map<Ref, seq<Button>>)
    ensures r.Keys == groups.Keys
    ensures forall h :: h in groups && h != g ==> r[h] == groups[h]
  {
    if g in groups then
      var bs := groups[g];
      match FirstActive(bs)
      case Some(k) => groups[g := ActivatedAndMarked(bs, WrapIndex(k, direction, |bs|) as nat)]
      case None => groups
    else groups
  }

  /** After a left or right step on a group with an active button, exactly the wrapped neighbour is active. */
  lemma {:induction false} AdjustLeavesOneActive(groups: map<Ref, seq<Button>>, g: Ref, direction: int)
    requires g in groups
    ensures FirstActive(groups[g]).None? ==> GroupAdjusted(groups, g, direction) == groups
    ensures FirstActive(groups[g]).Some? ==>
      var bs := groups[g];
      var k := WrapIndex(FirstActive(bs).value, direction, |bs|);
      var r := GroupAdjusted(groups, g, direction)[g];
      0 <= k < |r| && FirstActive(r) == Some(k as nat) &&
      forall i :: 0 <= i < |r| ==> (r[i].active <==> i == k)
  {
    var bs := groups[g];
    if FirstActive(bs).Some? {
      var k := WrapIndex(FirstActive(bs).value, direction, |bs|);
      assert 0 <= k < |bs|;
      ActivatedIsFirstActive(bs, k as nat);
    }
  }

  /** The slider map after `adjustSlider` on `s`. */
  function SliderAdjusted(sliders: map<Ref, Slider>, s: Ref, direction: int): (r: map<Ref, Slider>)
    ensures r.Keys == sliders.Keys
    ensures s in sliders ==> r[s] == sliders[s].(value := Stepped(sliders[s], direction))
    ensures forall h :: h in sliders && h != s ==> r[h] == sliders[h]
  {
    if s in sliders then sliders[s := sliders[s].(value := Stepped(sliders[s], direction))] else sliders
  }

  /** What Enter does to the focused item. */
  datatype EnterAction = Open(screen: string) | Click(target: Ref) | Edit(target: Ref) | NoAction

  /** `handleEnter`'s dispatch, with `handleMenuItemActivation` and `handleActionButton` folded in. */
  function EnterActionOf(item: FocusItem): (a: EnterAction)
    ensures a.Open? <==>
      (item.kind == MenuItem && item.element.action in {Some("start-game"), Some("configurations")}) || item.kind == ExitButton
    ensures a.Open? && item.kind == MenuItem ==> item.element.action == Some(a.screen)
    ensures a.Open? && item.kind == ExitButton ==> a.screen == MainMenu
    ensures a.Edit? <==> item.kind == TextInput
    ensures a.Click? <==>
      item.kind in {ButtonGroup, SliderInput, PlainButton} || (item.kind == ActionButton && item.element.id != "launch-game")
    ensures a.Click? || a.Edit? ==> a.target == item.ref
  {
    match item.kind
    case MenuItem =>
      if item.element.action == Some("start-game") then Open("start-game")
      else if item.element.action == Some("configurations") then Open("configurations")
      else NoAction
    case ExitButton => Open(MainMenu)
    case ActionButton => if item.element.id == "launch-game" then NoAction else Click(item.ref)
    case TextInput => Edit(item.ref)
    case _ => Click(item.ref)
  }

  /** The mode after a key: arrows keep it, Enter and Escape leave editing, and Enter on a text input starts editing. */
  function ModeAfterKey(mode: Mode, key: Key, focusedKind: Option<ElementType>): (m: Mode)
    ensures m.EditingMode? <==>
      (mode.EditingMode? && IsArrow(key)) ||
      (mode.NavigationMode? && key.Enter? && focusedKind == Some(TextInput))
  {
    if mode.EditingMode? then
      (if key.Enter? || key.Escape? then NavigationMode else EditingMode)
    else if key.Enter? && focusedKind == Some(TextInput) then EditingMode
    else NavigationMode
  }

  class NavigationController {
    /** The screens that exist (`document.getElementById`) with their `.focusable` elements, in document order. */
    const screens: map<string, seq<Element>>
    /** Whether `window.initializeGame` is a function. */
    const hasGameHook: bool

    var currentScreen: string
    var currentMode: Mode
    var focusableElements: seq<FocusItem>
    var currentFocusIndex: nat
    /** The screen carrying the `active` class, if any. */
    var shownScreen: Option<string>
    /** How many times `window.initializeGame` was called. */
    var gameStarts: nat
    /** The elements carrying `kb-focused`. */
    var focused: set<Ref>
    /** The elements carrying `kb-editing`. */
    var editing: set<Ref>
    var groups: map<Ref, seq<Button>>
    var sliders: map<Ref, Slider>
    /** The elements `click()` was called on, in order. */
    var clicks: seq<Ref>

    /** Exactly the element at the focus index carries `kb-focused`. */
    ghost predicate FocusValid()
      reads this
    {
      focused == FocusedRef(focusableElements, currentFocusIndex)
    }

    function FocusedKind(): (k: Option<ElementType>)
      reads this
      ensures k.Some? <==> currentFocusIndex < |focusableElements|
      ensures k.Some? ==> k.value == focusableElements[currentFocusIndex].kind
    {
      if currentFocusIndex < |focusableElements| then Some(focusableElements[currentFocusIndex].kind) else None
    }

    /** What `activateScreen(screenId)` (corrected) does to the state. */
    twostate predicate ScreenActivated(screenId: string)
      reads this
    {
      shownScreen == (if screenId in screens then Some(screenId) else None) &&
      gameStarts == old(gameStarts) + (if screenId == "game" && hasGameHook then 1 else 0) &&
      (screenId in screens ==>
        currentScreen == screenId && currentMode == NavigationMode &&
        focusableElements == FocusList(screens, screenId) && currentFocusIndex == 0 &&
        focused == SwitchMarks(old(focused), old(focusableElements), old(currentFocusIndex), focusableElements) &&
        groups == GroupsAfterSwitch(old(groups), old(focusableElements), old(currentFocusIndex), focusableElements)) &&
      (screenId !in screens ==>
        currentScreen == old(currentScreen) && currentMode == old(currentMode) &&
        focusableElements == old(focusableElements) && currentFocusIndex == old(currentFocusIndex) &&
        focused == old(focused) && groups == old(groups)) &&
      unchanged(this`editing, this`sliders, this`clicks)
    }

    /** What `setFocus(index)` does: the index moves and the mark and group highlights follow it; nothing else changes. */
    twostate predicate FocusMovedTo(index: nat)
      reads this
    {
      currentFocusIndex == index &&
      focused == AfterSetFocus(old(focused), focusableElements, old(currentFocusIndex), index) &&
      groups == GroupsAfterSetFocus(old(groups), focusableElements, old(currentFocusIndex), index) &&
      unchanged(this`currentScreen, this`currentMode, this`focusableElements, this`shownScreen, this`gameStarts,
                this`editing, this`sliders, this`clicks)
    }

    /** What `handleLeftRight(direction)` does: a focused button group or slider is adjusted; nothing else changes. */
    twostate predicate LeftRightApplied(direction: int)
      reads this
    {
      unchanged(this`currentScreen, this`currentMode, this`focusableElements, this`currentFocusIndex, this`shownScreen,
                this`gameStarts, this`focused, this`editing, this`clicks) &&
      if currentFocusIndex < |focusableElements| && focusableElements[currentFocusIndex].kind == ButtonGroup then
        groups == GroupAdjusted(old(groups), focusableElements[currentFocusIndex].ref, direction) && sliders == old(sliders)
      else if currentFocusIndex < |focusableElements| && focusableElements[currentFocusIndex].kind == SliderInput then
        sliders == SliderAdjusted(old(sliders), focusableElements[currentFocusIndex].ref, direction) && groups == old(groups)
      else
        groups == old(groups) && sliders == old(sliders)
    }

    /** What `handleEnter` does: the effect `EnterActionOf` names for the focused item, or nothing without one. */
    twostate predicate EnterApplied()
      reads this
    {
      if old(currentFocusIndex) >= |old(focusableElements)| then unchanged(this)
      else
        match EnterActionOf(old(focusableElements)[old(currentFocusIndex)])
        case Open(s) => ScreenActivated(s)
        case Edit(r) =>
          currentMode == EditingMode && editing == old(editing) + {r} &&
          unchanged(this`currentScreen, this`focusableElements, this`currentFocusIndex, this`shownScreen, this`gameStarts,
                    this`focused, this`groups, this`sliders, this`clicks)
        case Click(r) =>
          clicks == old(clicks) + [r] &&
          unchanged(this`currentScreen, this`currentMode, this`focusableElements, this`currentFocusIndex, this`shownScreen,
                    this`gameStarts, this`focused, this`editing, this`groups, this`sliders)
        case NoAction => unchanged(this)
    }

    /** What `exitEditMode` does: back to navigation, the focused element loses `kb-editing`; nothing else changes. */
    twostate predicate EditingLeft()
      reads this
    {
      currentMode == NavigationMode && editing == old(editing) - FocusedRef(focusableElements, currentFocusIndex) &&
      unchanged(this`currentScreen, this`focusableElements, this`currentFocusIndex, this`shownScreen, this`gameStarts,
                this`focused, this`groups, this`sliders, this`clicks)
    }

    /** The controller as `setup` leaves it: the main menu shown, nothing edited or clicked. */
    constructor(screens: map<string, seq<Element>>, hasGameHook: bool, groups: map<Ref, seq<Button>>, sliders: map<Ref, Slider>)
      ensures this.screens == screens && this.hasGameHook == hasGameHook
      ensures currentScreen == MainMenu && currentMode == NavigationMode && currentFocusIndex == 0
      ensures focusableElements == FocusList(screens, MainMenu)
      ensures shownScreen == (if MainMenu in screens then Some(MainMenu) else None)
      ensures editing == {} && clicks == [] && gameStarts == 0 && this.sliders == sliders
      ensures this.groups == GroupsAfterSwitch(groups, [], 0, focusableElements)
      ensures FocusValid()
    {
      this.screens := screens;
      this.hasGameHook := hasGameHook;
      currentScreen := MainMenu;
      currentMode := NavigationMode;
      focusableElements := [];
      currentFocusIndex := 0;
      shownScreen := None;
      gameStarts := 0;
      focused := {};
      editing := {};
      this.groups := groups;
      this.sliders := sliders;
      clicks := [];
      new;
      ActivateScreen(MainMenu);
    }

    /** `buildFocusableElements`: the loop over the current screen's `.focusable` elements. */
    method BuildFocusableElements()
      modifies this`focusableElements
      ensures focusableElements == FocusList(screens, currentScreen)
    {
      focusableElements := [];
      if currentScreen !in screens {
        return;
      }
      var es := screens[currentScreen];
      var i := 0;
      while i < |es|
        invariant i <= |es|
        invariant |focusableElements| == i
        invariant forall j :: 0 <= j < i ==>
          focusableElements[j] == FocusItem(Ref(currentScreen, j), es[j], j, GetElementType(es[j]), currentScreen)
      {
        focusableElements := focusableElements + [FocusItem(Ref(currentScreen, i), es[i], i, GetElementType(es[i]), currentScreen)];
        i := i + 1;
      }
    }

    /** `addFocus`. */
    method AddFocus(item: FocusItem)
      modifies this`focused, this`groups
      ensures focused == old(focused) + {item.ref}
      ensures groups == MarkGroup(old(groups), item)
    {
      focused := focused + {item.ref};
      if item.kind == ButtonGroup && item.ref in groups {
        var k := FirstActive(groups[item.ref]);
        if k.Some? {
          groups := groups[item.ref := Marked(groups[item.ref], k.value)];
        }
      }
    }

    /** `removeFocus`: the mark goes, and for a button group every button loses its highlight. */
    method RemoveFocus(item: FocusItem)
      modifies this`focused, this`groups
      ensures focused == old(focused) - {item.ref}
      ensures groups == UnmarkGroup(old(groups), item)
    {
      focused := focused - {item.ref};
      if item.kind == ButtonGroup && item.ref in groups {
        var cleared := ClearMarks(groups[item.ref]);
        groups := groups[item.ref := cleared];
      }
    }

    /** `setFocus(index)`. */
    method SetFocus(index: nat)
      modifies this`focused, this`groups, this`currentFocusIndex
      ensures FocusMovedTo(index)
      ensures old(FocusValid()) ==> FocusValid()
    {
      ghost var marks, oldIndex := focused, currentFocusIndex;
      if currentFocusIndex < |focusableElements| {
        RemoveFocus(focusableElements[currentFocusIndex]);
      }
      currentFocusIndex := index;
      if currentFocusIndex < |focusableElements| {
        AddFocus(focusableElements[currentFocusIndex]);
      }
      if marks == FocusedRef(focusableElements, oldIndex) {
        SetFocusLeavesOneMark(marks, focusableElements, oldIndex, index);
      }
    }

    /** `navigateUp`: a no-op on the first item. */
    method NavigateUp()
      modifies this`focused, this`groups, this`currentFocusIndex
      ensures currentFocusIndex == FocusUp(old(currentFocusIndex))
      ensures old(currentFocusIndex) < |focusableElements| ==> currentFocusIndex < |focusableElements|
      ensures old(currentFocusIndex) == 0 ==> unchanged(this)
      ensures old(currentFocusIndex) > 0 ==> FocusMovedTo(old(currentFocusIndex) - 1)
      ensures old(FocusValid()) ==> FocusValid()
    {
      if currentFocusIndex > 0 {
        SetFocus(currentFocusIndex - 1);
      }
    }

    /** `navigateDown`: a no-op on the last item. */
    method NavigateDown()
      modifies this`focused, this`groups, this`currentFocusIndex
      ensures currentFocusIndex == FocusDown(old(currentFocusIndex), |focusableElements|)
      ensures old(currentFocusIndex) < |focusableElements| ==> currentFocusIndex < |focusableElements|
      ensures old(currentFocusIndex) + 1 >= |focusableElements| ==> unchanged(this)
      ensures old(currentFocusIndex) + 1 < |focusableElements| ==> FocusMovedTo(old(currentFocusIndex) + 1)
      ensures old(FocusValid()) ==> FocusValid()
    {
      if currentFocusIndex < |focusableElements| - 1 {
        SetFocus(currentFocusIndex + 1);
      }
    }

    /**
     * `activateScreen`, corrected: all screens are hidden, `initializeGame`
     * runs for the game screen, and an existing target is shown with a fresh
     * list focused on its first item. The previously focused element is
     * unmarked before the list is rebuilt.
     */
    method ActivateScreen(screenId: string)
      modifies this`shownScreen, this`gameStarts, this`currentScreen, this`currentMode
      modifies this`focusableElements, this`focused, this`groups, this`currentFocusIndex
      ensures ScreenActivated(screenId)
      ensures old(FocusValid()) ==> FocusValid()
    {
      shownScreen := None;
      if screenId == "game" && hasGameHook {
        gameStarts := gameStarts + 1;
      }
      if screenId in screens {
        ShowScreen(screenId);
      }
    }

    /** The part of `activateScreen` that runs when the target screen exists. */
    method ShowScreen(screenId: string)
      requires screenId in screens
      modifies this`shownScreen, this`currentScreen, this`currentMode
      modifies this`focusableElements, this`focused, this`groups, this`currentFocusIndex
      ensures shownScreen == Some(screenId) && currentScreen == screenId && currentMode == NavigationMode
      ensures focusableElements == FocusList(screens, screenId) && currentFocusIndex == 0
      ensures focused == SwitchMarks(old(focused), old(focusableElements), old(currentFocusIndex), focusableElements)
      ensures groups == GroupsAfterSwitch(old(groups), old(focusableElements), old(currentFocusIndex), focusableElements)
      ensures old(FocusValid()) ==> FocusValid()
    {
      ghost var marks, oldItems, oldIndex, oldGroups := focused, focusableElements, currentFocusIndex, groups;
      shownScreen := Some(screenId);
      currentScreen := screenId;
      currentMode := NavigationMode;
      if currentFocusIndex < |focusableElements| {
        RemoveFocus(focusableElements[currentFocusIndex]);
      }
      assert focused == marks - FocusedRef(oldItems, oldIndex);
      assert groups == if oldIndex < |oldItems| then UnmarkGroup(oldGroups, oldItems[oldIndex]) else oldGroups;
      BuildFocusableElements();
      SetFocus(0);
      if marks == FocusedRef(oldItems, oldIndex) {
        SwitchLeavesOneMark(marks, oldItems, oldIndex, focusableElements);
      }
    }

    /** `handleExit`: always back to the main menu. */
    method HandleExit()
      modifies this`shownScreen, this`gameStarts, this`currentScreen, this`currentMode
      modifies this`focusableElements, this`focused, this`groups, this`currentFocusIndex
      ensures ScreenActivated(MainMenu)
      ensures old(FocusValid()) ==> FocusValid()
    {
      ActivateScreen(MainMenu);
    }

    /** `handleMenuItemActivation`: 'start-game' and 'configurations' open that screen; other actions do nothing. */
    method HandleMenuItemActivation(element: Element)
      modifies this`shownScreen, this`gameStarts, this`currentScreen, this`currentMode
      modifies this`focusableElements, this`focused, this`groups, this`currentFocusIndex
      ensures element.action in {Some("start-game"), Some("configurations")} ==> ScreenActivated(element.action.value)
      ensures element.action !in {Some("start-game"), Some("configurations")} ==> unchanged(this)
      ensures old(FocusValid()) ==> FocusValid()
    {
      if element.action == Some("start-game") {
        ActivateScreen("start-game");
      } else if element.action == Some("configurations") {
        ActivateScreen("configurations");
      }
    }

    /** `handleActionButton`: the 'launch-game' button does nothing; any other is clicked. */
    method HandleActionButton(item: FocusItem)
      modifies this`clicks
      ensures item.element.id == "launch-game" ==> clicks == old(clicks)
      ensures item.element.id != "launch-game" ==> clicks == old(clicks) + [item.ref]
    {
      if item.element.id != "launch-game" {
        clicks := clicks + [item.ref];
      }
    }

    /** `enterEditMode`. */
    method EnterEditMode(item: FocusItem)
      modifies this`currentMode, this`editing
      ensures currentMode == EditingMode && editing == old(editing) + {item.ref}
    {
      currentMode := EditingMode;
      editing := editing + {item.ref};
    }

    /** `exitEditMode`: the focused element (if any) loses `kb-editing`; the mode returns to navigation. */
    method ExitEditMode()
      modifies this`currentMode, this`editing
      ensures EditingLeft()
    {
      if currentFocusIndex < |focusableElements| {
        editing := editing - {focusableElements[currentFocusIndex].ref};
      }
      currentMode := NavigationMode;
    }

    /** `handleEnter` on the focused item; nothing happens when no item is focused. */
    method HandleEnter()
      modifies this`shownScreen, this`gameStarts, this`currentScreen, this`currentMode
      modifies this`focusableElements, this`focused, this`groups, this`currentFocusIndex
      modifies this`editing, this`clicks
      ensures EnterApplied()
      ensures old(FocusValid()) ==> FocusValid()
    {
      if currentFocusIndex >= |focusableElements| {
        return;
      }
      var current := focusableElements[currentFocusIndex];
      match current.kind {
        case MenuItem => HandleMenuItemActivation(current.element);
        case ExitButton => HandleExit();
        case ActionButton => HandleActionButton(current);
        case TextInput => EnterEditMode(current);
        case _ => clicks := clicks + [current.ref];
      }
    }

    /** `adjustButtonGroup`. */
    method AdjustButtonGroup(g: Ref, direction: int)
      modifies this`groups
      ensures groups == GroupAdjusted(old(groups), g, direction)
    {
      if g !in groups {
        return;
      }
      var bs := groups[g];
      var active := FirstActive(bs);
      if active.None? || |bs| == 0 {
        return;
      }
      var newIndex := WrapIndex(active.value, direction, |bs|);
      groups := groups[g := ActivatedAndMarked(bs, newIndex as nat)];
    }

    /** `adjustSlider`. */
    method AdjustSlider(s: Ref, direction: int)
      modifies this`sliders
      ensures sliders == SliderAdjusted(old(sliders), s, direction)
    {
      if s in sliders {
        var slider := sliders[s];
        sliders := sliders[s := slider.(value := Stepped(slider, direction))];
      }
    }

    /** `handleLeftRight`: only button groups and sliders react. */
    method HandleLeftRight(direction: int)
      modifies this`groups, this`sliders
      ensures LeftRightApplied(direction)
    {
      if currentFocusIndex >= |focusableElements| {
        return;
      }
      var current := focusableElements[currentFocusIndex];
      if current.kind == ButtonGroup {
        AdjustButtonGroup(current.ref, direction);
      } else if current.kind == SliderInput {
        AdjustSlider(current.ref, direction);
      }
    }

    /**
     * The key bindings: arrows act only in navigation mode, Enter and Escape
     * leave editing mode, Enter otherwise acts on the focused item, and Escape
     * otherwise returns to the main menu from any other screen.
     */
    method HandleKey(key: Key)
      modifies this
      ensures currentMode == ModeAfterKey(old(currentMode), key, old(FocusedKind()))
      ensures old(currentMode).EditingMode? ==> if IsArrow(key) then unchanged(this) else EditingLeft()
      ensures old(currentMode).NavigationMode? ==>
        match key
        case Up => if old(currentFocusIndex) > 0 then FocusMovedTo(old(currentFocusIndex) - 1) else unchanged(this)
        case Down =>
          if old(currentFocusIndex) + 1 < |old(focusableElements)| then FocusMovedTo(old(currentFocusIndex) + 1)
          else unchanged(this)
        case Left => LeftRightApplied(-1)
        case Right => LeftRightApplied(1)
        case Enter => EnterApplied()
        case Escape => if old(currentScreen) != MainMenu then ScreenActivated(MainMenu) else unchanged(this)
      ensures old(FocusValid()) ==> FocusValid()
    {
      match key {
        case Up =>
          if currentMode == NavigationMode {
            NavigateUp();
          }
        case Down =>
          if currentMode == NavigationMode {
            NavigateDown();
          }
        case Left =>
          if currentMode == NavigationMode {
            HandleLeftRight(-1);
          }
        case Right =>
          if currentMode == NavigationMode {
            HandleLeftRight(1);
          }
        case Enter =>
          if currentMode == EditingMode {
            ExitEditMode();
          } else {
            HandleEnter();
          }
        case Escape =>
          if currentMode == EditingMode {
            ExitEditMode();
          } else if currentScreen != MainMenu {
            HandleExit();
          }
      }
    }
  }
}
