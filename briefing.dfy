/**
 * The briefing-room controller (main/briefing.js): the ordered list of the
 * room's adjustable settings (per player quadrant its aircraft button group
 * and sliders, then the lives slider, then the fight button), the focused
 * index, and the adjustments made to the focused setting.
 *
 * The page is reduced to its layout: which quadrants have a button group,
 * how many sliders each has, and whether the lives slider and the fight
 * button exist. The `kb-focused` class is a set of element identities, the
 * buttons of each group and the value of each slider are maps, and clicks
 * on the fight button are counted.
 */
module Briefing {
  import opened Optional
  import opened Widgets

  /** One `.player-quadrant`: whether it has a `.button-group`, and its number of range sliders. */
  datatype QuadrantLayout = QuadrantLayout(hasGroup: bool, sliderCount: nat)

  /** The parts of the page the controller queries. */
  datatype Page = Page(quadrants: seq<QuadrantLayout>, hasLives: bool, hasFight: bool)

  /** An element of the page: a quadrant's button group, a quadrant's slider, the lives slider or the fight button. */
  datatype Target = GroupOf(quadrant: nat) | SliderOf(quadrant: nat, slider: nat) | Lives | Fight

  /** The item types 'buttons', 'slider' and 'button'. */
  datatype ItemKind = ButtonsItem | SliderItem | FightItem

  /** An entry of `focusableElements`. */
  datatype Item = Item(target: Target, kind: ItemKind, color: Option<string>)

  const Colors: seq<string> := ["yellow", "red", "green", "blue"]

  /** `colors[index]`: undefined past the fourth quadrant. */
  function ColorOf(index: nat): (c: Option<string>)
    ensures index < 4 ==> c == Some(Colors[index])
    ensures index >= 4 ==> c == None
  {
    if index < |Colors| then Some(Colors[index]) else None
  }

  /** The sliders of quadrant `index`, in document order. */
  function SliderItems(index: nat, count: nat): (items: seq<Item>)
    ensures |items| == count
    ensures forall j :: 0 <= j < count ==> items[j] == Item(SliderOf(index, j), SliderItem, ColorOf(index))
  {
    seq(count, j requires 0 <= j < count => Item(SliderOf(index, j), SliderItem, ColorOf(index)))
  }

  /** The button group of quadrant `index`, if it has one. */
  function GroupItems(q: QuadrantLayout, index: nat): seq<Item> {
    if q.hasGroup then [Item(GroupOf(index), ButtonsItem, ColorOf(index))] else []
  }

  /** The items the quadrants contribute: for each quadrant in order, its button group and then its sliders. */
  function QuadrantsItems(qs: seq<QuadrantLayout>): seq<Item>
    decreases |qs|
  {
    if |qs| == 0 then []
    else
      var last := |qs| - 1;
      QuadrantsItems(qs[..last]) + GroupItems(qs[last], last) + SliderItems(last, qs[last].sliderCount)
  }

  lemma QuadrantsItemsStep(qs: seq<QuadrantLayout>, q: nat)
    requires q < |qs|
    ensures QuadrantsItems(qs[..q + 1]) == QuadrantsItems(qs[..q]) + GroupItems(qs[q], q) + SliderItems(q, qs[q].sliderCount)
  {
    assert qs[..q + 1][..q] == qs[..q];
  }

  lemma SliderItemsStep(index: nat, count: nat)
    ensures SliderItems(index, count + 1) == SliderItems(index, count) + [Item(SliderOf(index, count), SliderItem, ColorOf(index))]
  {
  }

  /** The list `buildElementsList` builds. */
  function ElementsList(page: Page): seq<Item> {
    QuadrantsItems(page.quadrants)
    + (if page.hasLives then [Item(Lives, SliderItem, None)] else [])
    + (if page.hasFight then [Item(Fight, FightItem, None)] else [])
  }

  function QuadrantOf(t: Target): nat
    requires t.GroupOf? || t.SliderOf?
  {
    if t.GroupOf? then t.quadrant else t.quadrant
  }

  /** Position within a quadrant: the group first, then the sliders in order. */
  function SlotOf(t: Target): nat
    requires t.GroupOf? || t.SliderOf?
  {
    if t.GroupOf? then 0 else t.slider + 1
  }

  /** The document order of the list: quadrant by quadrant, then the lives slider, then the fight button. */
  predicate Precedes(a: Target, b: Target) {
    if a.Fight? then false
    else if b.Fight? then true
    else if a.Lives? then false
    else if b.Lives? then true
    else QuadrantOf(a) < QuadrantOf(b) || (QuadrantOf(a) == QuadrantOf(b) && SlotOf(a) < SlotOf(b))
  }

  /** The items of the first `n` quadrants belong to those quadrants and carry their colours. */
  lemma {:induction false} QuadrantsItemsBelong(qs: seq<QuadrantLayout>)
    ensures forall i :: 0 <= i < |QuadrantsItems(qs)| ==>
      var it := QuadrantsItems(qs)[i];
      (it.target.GroupOf? || it.target.SliderOf?) && QuadrantOf(it.target) < |qs| &&
      it.color == ColorOf(QuadrantOf(it.target)) &&
      (it.kind == ButtonsItem <==> it.target.GroupOf?) && (it.kind == SliderItem <==> it.target.SliderOf?)
    decreases |qs|
  {
    if |qs| > 0 {
      var last := |qs| - 1;
      QuadrantsItemsBelong(qs[..last]);
      var prefix, group, sliders := QuadrantsItems(qs[..last]), GroupItems(qs[last], last), SliderItems(last, qs[last].sliderCount);
      assert QuadrantsItems(qs) == prefix + group + sliders;
      forall i | 0 <= i < |QuadrantsItems(qs)|
        ensures var it := QuadrantsItems(qs)[i];
          (it.target.GroupOf? || it.target.SliderOf?) && QuadrantOf(it.target) < |qs| &&
          it.color == ColorOf(QuadrantOf(it.target)) &&
          (it.kind == ButtonsItem <==> it.target.GroupOf?) && (it.kind == SliderItem <==> it.target.SliderOf?)
      {
        if i < |prefix| {
          assert QuadrantsItems(qs)[i] == prefix[i];
        } else if i < |prefix| + |group| {
          assert QuadrantsItems(qs)[i] == group[i - |prefix|];
        } else {
          assert QuadrantsItems(qs)[i] == sliders[i - |prefix| - |group|];
        }
      }
    }
  }

  /** The quadrant items come in strictly increasing document order, hence each element appears once. */
  lemma {:induction false} QuadrantsItemsOrdered(qs: seq<QuadrantLayout>)
    ensures forall i, j :: 0 <= i < j < |QuadrantsItems(qs)| ==>
      Precedes(QuadrantsItems(qs)[i].target, QuadrantsItems(qs)[j].target)
    decreases |qs|
  {
    if |qs| > 0 {
      var last := |qs| - 1;
      QuadrantsItemsOrdered(qs[..last]);
      QuadrantsItemsBelong(qs[..last]);
      var prefix, group, sliders := QuadrantsItems(qs[..last]), GroupItems(qs[last], last), SliderItems(last, qs[last].sliderCount);
      var all := QuadrantsItems(qs);
      assert all == prefix + group + sliders;
      forall i, j | 0 <= i < j < |all|
        ensures Precedes(all[i].target, all[j].target)
      {
        if j < |prefix| {
          assert all[i] == prefix[i] && all[j] == prefix[j];
        } else if i < |prefix| {
          assert all[i] == prefix[i];
          assert QuadrantOf(prefix[i].target) < last;
          if j < |prefix| + |group| {
            assert all[j] == group[j - |prefix|];
          } else {
            assert all[j] == sliders[j - |prefix| - |group|];
          }
        } else if i < |prefix| + |group| {
          assert all[i] == group[i - |prefix|];
          assert all[j] == sliders[j - |prefix| - |group|];
        } else {
          assert all[i] == sliders[i - |prefix| - |group|];
          assert all[j] == sliders[j - |prefix| - |group|];
        }
      }
    }
  }

  /**
   * The element list is in document order: each quadrant's button group and
   * then its sliders, quadrant by quadrant, then the lives slider, then the
   * fight button; the fight button is the only item of type 'button', and
   * every quadrant item carries its quadrant's colour.
   */
  lemma {:induction false} ElementsListOrdered(page: Page)
    ensures var items := ElementsList(page);
      forall i, j :: 0 <= i < j < |items| ==> Precedes(items[i].target, items[j].target)
    ensures var items := ElementsList(page);
      forall i :: 0 <= i < |items| ==> (items[i].kind == FightItem <==> items[i].target == Fight)
    ensures var items := ElementsList(page);
      forall i :: 0 <= i < |items| && (items[i].target.GroupOf? || items[i].target.SliderOf?) ==>
        QuadrantOf(items[i].target) < |page.quadrants| && items[i].color == ColorOf(QuadrantOf(items[i].target))
    ensures page.hasFight ==> ElementsList(page)[|ElementsList(page)| - 1] == Item(Fight, FightItem, None)
  {
    var quads := QuadrantsItems(page.quadrants);
    var lives := if page.hasLives then [Item(Lives, SliderItem, None)] else [];
    var fight := if page.hasFight then [Item(Fight, FightItem, None)] else [];
    var items := ElementsList(page);
    assert items == quads + lives + fight;
    QuadrantsItemsOrdered(page.quadrants);
    QuadrantsItemsBelong(page.quadrants);
    forall i | 0 <= i < |items|
      ensures (items[i].kind == FightItem <==> items[i].target == Fight)
      ensures (items[i].target.GroupOf? || items[i].target.SliderOf?) ==>
        QuadrantOf(items[i].target) < |page.quadrants| && items[i].color == ColorOf(QuadrantOf(items[i].target))
    {
      if i < |quads| {
        assert items[i] == quads[i];
      } else if i < |quads| + |lives| {
        assert items[i] == lives[i - |quads|];
      } else {
        assert items[i] == fight[i - |quads| - |lives|];
      }
    }
    forall i, j | 0 <= i < j < |items|
      ensures Precedes(items[i].target, items[j].target)
    {
      if j < |quads| {
        assert items[i] == quads[i] && items[j] == quads[j];
      } else if i < |quads| {
        assert items[i] == quads[i];
      } else if i < |quads| + |lives| {
        assert items[i] == lives[i - |quads|];
        assert items[j] == fight[j - |quads| - |lives|];
      } else {
        assert false;
      }
    }
  }

  /** The number of focusable items the page yields. */
  function ItemCount(page: Page): nat {
    QuadrantCount(page.quadrants) + (if page.hasLives then 1 else 0) + (if page.hasFight then 1 else 0)
  }

  function QuadrantCount(qs: seq<QuadrantLayout>): nat
    decreases |qs|
  {
    if |qs| == 0 then 0
    else QuadrantCount(qs[..|qs| - 1]) + (if qs[|qs| - 1].hasGroup then 1 else 0) + qs[|qs| - 1].sliderCount
  }

  /** Every group, every slider, the lives slider and the fight button of the page get exactly one entry. */
  lemma {:induction false} ElementsListLength(page: Page)
    ensures |ElementsList(page)| == ItemCount(page)
  {
    QuadrantsItemsLength(page.quadrants);
  }

  lemma {:induction false} QuadrantsItemsLength(qs: seq<QuadrantLayout>)
    ensures |QuadrantsItems(qs)| == QuadrantCount(qs)
    decreases |qs|
  {
    if |qs| > 0 {
      QuadrantsItemsLength(qs[..|qs| - 1]);
    }
  }

  /**
   * `adjustButtons`: the button `direction` steps away (wrapping) from the
   * one `getActiveButtonIndex` reports becomes the only active one; the
   * `kb-focused-active` highlight is not moved. An empty group has no button
   * at the computed index and the call throws (`None`).
   */
  function ButtonsAdjusted(bs: seq<Button>, direction: int): (r: Option<seq<Button>>)
    ensures r.Some? <==> |bs| > 0
    ensures r.Some? ==>
      var k := WrapIndex(ActiveIndex(bs), direction, |bs|);
      |r.value| == |bs| && 0 <= k < |bs| && FirstActive(r.value) == Some(k as nat) &&
      forall i :: 0 <= i < |bs| ==> r.value[i].active == (i == k) && r.value[i].focusedActive == bs[i].focusedActive
  {
    if |bs| == 0 then None
    else
      var k := WrapIndex(ActiveIndex(bs), direction, |bs|) as nat;
      ActivatedIsFirstActive(bs, k);
      Some(Activated(bs, k))
  }

  /** On a non-empty group, `adjustButtons` right then left brings the reported active index back to where it was. */
  lemma {:induction false} ButtonsAdjustedRoundTrip(bs: seq<Button>)
    requires |bs| > 0
    ensures var right := ButtonsAdjusted(bs, 1).value;
      ActiveIndex(ButtonsAdjusted(right, -1).value) == ActiveIndex(bs)
  {
    var k := ActiveIndex(bs);
    var right := ButtonsAdjusted(bs, 1).value;
    var k1 := WrapIndex(k, 1, |bs|);
    assert FirstActive(right) == Some(k1 as nat);
    assert ActiveIndex(right) == k1;
    var back := ButtonsAdjusted(right, -1).value;
    WrapIndexCycles(k, |bs|);
    assert FirstActive(back) == Some(k);
  }

  /** The group map after `removeFocus` on an item: a button group loses every highlight. */
  function UnmarkItem(groups: map<Target, seq<Button>>, item: Item): (r: map<Target, seq<Button>>)
    ensures r.Keys == groups.Keys
    ensures forall g :: g in groups && g != item.target ==> r[g] == groups[g]
  {
    if item.kind == ButtonsItem && item.target in groups then groups[item.target := Unmarked(groups[item.target])] else groups
  }

  /** The group map after `addFocus` on an item: a button group's reported active button gets the highlight. */
  function MarkItem(groups: map<Target, seq<Button>>, item: Item): (r: map<Target, seq<Button>>)
    ensures r.Keys == groups.Keys
    ensures forall g :: g in groups && g != item.target ==> r[g] == groups[g]
  {
    if item.kind == ButtonsItem && item.target in groups then
      groups[item.target := Marked(groups[item.target], ActiveIndex(groups[item.target]))]
    else groups
  }

  /** The group map after `removeFocus` on each of `items` in turn. */
  function UnmarkAll(groups: map<Target, seq<Button>>, items: seq<Item>): (r: map<Target, seq<Button>>)
    ensures r.Keys == groups.Keys
    decreases |items|
  {
    if |items| == 0 then groups else UnmarkItem(UnmarkAll(groups, items[..|items| - 1]), items[|items| - 1])
  }

  /** The elements of a list. */
  function Targets(items: seq<Item>): set<Target> {
    set i | 0 <= i < |items| :: items[i].target
  }

  /** The element at a focus index, as the set of at most one element carrying `kb-focused`. */
  function FocusedTarget(items: seq<Item>, index: nat): (r: set<Target>)
    ensures index < |items| ==> r == {items[index].target}
    ensures index >= |items| ==> r == {}
  {
    if index < |items| then {items[index].target} else {}
  }

  /**
   * The group map after `setFocus` moved from `oldIndex` to `newIndex` of
   * `items`: the old item's group loses its highlights, then the new item's
   * group highlights its reported active button; no other group changes.
   */
  function GroupsAfterFocus(groups: map<Target, seq<Button>>, items: seq<Item>, oldIndex: nat, newIndex: nat): (r: map<Target, seq<Button>>)
    ensures r.Keys == groups.Keys
    ensures forall g :: g in groups && g !in FocusedTarget(items, oldIndex) && g !in FocusedTarget(items, newIndex) ==> r[g] == groups[g]
  {
    var cleared := if oldIndex < |items| then UnmarkItem(groups, items[oldIndex]) else groups;
    if newIndex < |items| then MarkItem(cleared, items[newIndex]) else cleared
  }

  class BriefingRoomController {
    const page: Page
    var focusableElements: seq<Item>
    var currentFocusIndex: nat
    var isActive: bool
    /** The elements carrying `kb-focused`. */
    var focused: set<Target>
    /** The buttons of each quadrant's group, keyed by `GroupOf`. */
    var groups: map<Target, seq<Button>>
    var sliders: map<Target, Slider>
    /** How many times the fight button was clicked. */
    var fightClicks: nat

    /** The list matches the page, and at most the focused element carries the focus mark. */
    ghost predicate Valid()
      reads this
    {
      focusableElements == ElementsList(page) && focused <= FocusedTarget(focusableElements, currentFocusIndex)
    }

    /** What `setFocus(index)` does: the index moves, the mark and the group highlights follow it. */
    twostate predicate FocusMovedTo(index: nat)
      reads this
    {
      currentFocusIndex == index &&
      focused == old(focused) - FocusedTarget(focusableElements, old(currentFocusIndex)) + FocusedTarget(focusableElements, index) &&
      groups == GroupsAfterFocus(old(groups), focusableElements, old(currentFocusIndex), index)
    }

    /** The controller as its constructor leaves it: inactive, the list built, nothing focused. */
    constructor(page: Page, groups: map<Target, seq<Button>>, sliders: map<Target, Slider>)
      ensures this.page == page && this.groups == groups && this.sliders == sliders
      ensures !isActive && currentFocusIndex == 0 && focused == {} && fightClicks == 0
      ensures Valid()
    {
      this.page := page;
      this.groups := groups;
      this.sliders := sliders;
      focusableElements := [];
      currentFocusIndex := 0;
      isActive := false;
      focused := {};
      fightClicks := 0;
      new;
      BuildElementsList();
    }

    /** `buildElementsList`: the loop over the quadrants and, inside it, over each quadrant's sliders. */
    method BuildElementsList()
      modifies this`focusableElements
      ensures focusableElements == ElementsList(page)
    {
      var items: seq<Item> := [];
      var qs := page.quadrants;
      var q := 0;
      while q < |qs|
        invariant q <= |qs|
        invariant items == QuadrantsItems(qs[..q])
      {
        QuadrantsItemsStep(qs, q);
        if qs[q].hasGroup {
          items := items + [Item(GroupOf(q), ButtonsItem, ColorOf(q))];
        }
        ghost var head := items;
        var s := 0;
        while s < qs[q].sliderCount
          invariant s <= qs[q].sliderCount
          invariant items == head + SliderItems(q, s)
        {
          SliderItemsStep(q, s);
          items := items + [Item(SliderOf(q, s), SliderItem, ColorOf(q))];
          s := s + 1;
        }
        q := q + 1;
      }
      assert qs[..q] == qs;
      if page.hasLives {
        items := items + [Item(Lives, SliderItem, None)];
      }
      if page.hasFight {
        items := items + [Item(Fight, FightItem, None)];
      }
      focusableElements := items;
    }

    /** `getActiveButtonIndex` on a group; a missing group has no buttons. */
    method GetActiveButtonIndex(g: Target) returns (k: nat)
      ensures k == ActiveIndex(if g in groups then groups[g] else [])
    {
      var bs := if g in groups then groups[g] else [];
      k := ActiveButtonIndex(bs);
    }

    /** `adjustButtons`; `ok` is false when the group is empty and the call throws before changing anything. */
    method AdjustButtons(g: Target, direction: int) returns (ok: bool)
      modifies this`groups
      ensures var bs := if g in old(groups) then old(groups)[g] else [];
        ok == ButtonsAdjusted(bs, direction).Some? &&
        groups == (if ok then old(groups)[g := ButtonsAdjusted(bs, direction).value] else old(groups))
    {
      var bs := if g in groups then groups[g] else [];
      var currentIndex := GetActiveButtonIndex(g);
      var newIndex := currentIndex + direction;
      if newIndex < 0 {
        newIndex := |bs| - 1;
      }
      if newIndex >= |bs| {
        newIndex := 0;
      }
      if |bs| == 0 {
        return false;
      }
      groups := groups[g := Activated(bs, newIndex as nat)];
      return true;
    }

    /** `adjustSlider`. */
    method AdjustSlider(s: Target, direction: int)
      modifies this`sliders
      ensures s in old(sliders) ==> sliders == old(sliders)[s := old(sliders)[s].(value := Stepped(old(sliders)[s], direction))]
      ensures s !in old(sliders) ==> sliders == old(sliders)
    {
      if s in sliders {
        var slider := sliders[s];
        sliders := sliders[s := slider.(value := Stepped(slider, direction))];
      }
    }

    /** `addFocus`. */
    method AddFocus(item: Item)
      modifies this`focused, this`groups
      ensures focused == old(focused) + {item.target}
      ensures groups == MarkItem(old(groups), item)
    {
      focused := focused + {item.target};
      if item.kind == ButtonsItem && item.target in groups {
        var activeIndex := ActiveButtonIndex(groups[item.target]);
        groups := groups[item.target := Marked(groups[item.target], activeIndex)];
      }
    }

    /** `removeFocus`. */
    method RemoveFocus(item: Item)
      modifies this`focused, this`groups
      ensures focused == old(focused) - {item.target}
      ensures groups == UnmarkItem(old(groups), item)
    {
      focused := focused - {item.target};
      if item.kind == ButtonsItem && item.target in groups {
        var cleared := ClearMarks(groups[item.target]);
        groups := groups[item.target := cleared];
      }
    }

    /** `setFocus(index)`. */
    method SetFocus(index: nat)
      modifies this`focused, this`groups, this`currentFocusIndex
      ensures FocusMovedTo(index)
      ensures old(Valid()) ==> Valid() && focused == FocusedTarget(focusableElements, index)
    {
      if currentFocusIndex < |focusableElements| {
        RemoveFocus(focusableElements[currentFocusIndex]);
      }
      currentFocusIndex := index;
      if currentFocusIndex < |focusableElements| {
        AddFocus(focusableElements[currentFocusIndex]);
      }
    }

    /** `navigateUp`: a no-op on the first item. */
    method NavigateUp()
      modifies this`focused, this`groups, this`currentFocusIndex
      ensures currentFocusIndex == FocusUp(old(currentFocusIndex))
      ensures old(currentFocusIndex) == 0 ==> unchanged(this)
      ensures old(currentFocusIndex) > 0 ==> FocusMovedTo(old(currentFocusIndex) - 1)
      ensures old(Valid()) ==> Valid()
      ensures old(Valid()) && old(currentFocusIndex) > 0 ==> focused == FocusedTarget(focusableElements, currentFocusIndex)
    {
      if currentFocusIndex > 0 {
        SetFocus(currentFocusIndex - 1);
      }
    }

    /** `navigateDown`: a no-op on the last item. */
    method NavigateDown()
      modifies this`focused, this`groups, this`currentFocusIndex
      ensures currentFocusIndex == FocusDown(old(currentFocusIndex), |focusableElements|)
      ensures old(currentFocusIndex) + 1 >= |focusableElements| ==> unchanged(this)
      ensures old(currentFocusIndex) + 1 < |focusableElements| ==> FocusMovedTo(old(currentFocusIndex) + 1)
      ensures old(Valid()) ==> Valid()
      ensures old(Valid()) && old(currentFocusIndex) + 1 < |focusableElements| ==>
        focused == FocusedTarget(focusableElements, currentFocusIndex)
    {
      if currentFocusIndex < |focusableElements| - 1 {
        SetFocus(currentFocusIndex + 1);
      }
    }

    /**
     * `adjustCurrentSetting`: a button group steps its active button, a slider
     * steps its value, and the fight button is clicked whatever the direction.
     * `ok` is false when an empty button group made the call throw.
     */
    method AdjustCurrentSetting(direction: int) returns (ok: bool)
      modifies this`groups, this`sliders, this`fightClicks
      ensures currentFocusIndex >= |focusableElements| ==> ok && unchanged(this)
      ensures currentFocusIndex < |focusableElements| ==>
        var item := focusableElements[currentFocusIndex];
        match item.kind
        case ButtonsItem =>
          var bs := if item.target in old(groups) then old(groups)[item.target] else [];
          ok == ButtonsAdjusted(bs, direction).Some? &&
          groups == (if ok then old(groups)[item.target := ButtonsAdjusted(bs, direction).value] else old(groups)) &&
          unchanged(this`sliders, this`fightClicks)
        case SliderItem =>
          ok && groups == old(groups) && fightClicks == old(fightClicks) &&
          sliders == (if item.target in old(sliders)
                      then old(sliders)[item.target := old(sliders)[item.target].(value := Stepped(old(sliders)[item.target], direction))]
                      else old(sliders))
        case FightItem =>
          ok && fightClicks == old(fightClicks) + 1 && unchanged(this`groups, this`sliders)
    {
      ok := true;
      if currentFocusIndex >= |focusableElements| {
        return;
      }
      var current := focusableElements[currentFocusIndex];
      match current.kind {
        case ButtonsItem => ok := AdjustButtons(current.target, direction);
        case SliderItem => AdjustSlider(current.target, direction);
        case FightItem => fightClicks := fightClicks + 1;
      }
    }

    /** `handleEnter`: only the fight button reacts, by being clicked. */
    method HandleEnter()
      modifies this`fightClicks
      ensures fightClicks == old(fightClicks) +
        (if currentFocusIndex < |focusableElements| && focusableElements[currentFocusIndex].kind == FightItem then 1 else 0)
    {
      if currentFocusIndex < |focusableElements| && focusableElements[currentFocusIndex].kind == FightItem {
        fightClicks := fightClicks + 1;
      }
    }

    /** `activate`: the list is rebuilt and the first item focused. */
    method Activate()
      modifies this`isActive, this`focusableElements, this`focused, this`groups, this`currentFocusIndex
      ensures isActive && currentFocusIndex == 0
      ensures focusableElements == ElementsList(page)
      ensures focused == old(focused) - FocusedTarget(focusableElements, old(currentFocusIndex)) + FocusedTarget(focusableElements, 0)
      ensures groups == GroupsAfterFocus(old(groups), focusableElements, old(currentFocusIndex), 0)
      ensures old(Valid()) ==> Valid() && focused == FocusedTarget(focusableElements, 0)
    {
      isActive := true;
      BuildElementsList();
      SetFocus(0);
    }

    /** `deactivate`: every item of the list loses its focus mark and, for a group, its highlights. */
    method Deactivate()
      modifies this`isActive, this`focused, this`groups
      ensures !isActive
      ensures focused == old(focused) - Targets(focusableElements)
      ensures groups == UnmarkAll(old(groups), focusableElements)
      ensures old(Valid()) ==> Valid() && focused == {}
    {
      isActive := false;
      var i := 0;
      while i < |focusableElements|
        invariant i <= |focusableElements|
        invariant !isActive
        invariant focused == old(focused) - Targets(focusableElements[..i])
        invariant groups == UnmarkAll(old(groups), focusableElements[..i])
      {
        TargetsOfPrefix(focusableElements, i);
        assert focusableElements[..i + 1][..i] == focusableElements[..i];
        RemoveFocus(focusableElements[i]);
        i := i + 1;
      }
      assert focusableElements[..i] == focusableElements;
      if currentFocusIndex < |focusableElements| {
        assert focusableElements[currentFocusIndex].target in Targets(focusableElements);
      }
    }
  }

  lemma TargetsOfPrefix(items: seq<Item>, i: nat)
    requires i < |items|
    ensures Targets(items[..i + 1]) == Targets(items[..i]) + {items[i].target}
  {
    var a, b := items[..i + 1], items[..i];
    assert a[i] == items[i];
    forall t | t in Targets(a)
      ensures t in Targets(b) + {items[i].target}
    {
      var j :| 0 <= j < |a| && a[j].target == t;
      if j < i {
        assert b[j] == a[j];
        assert b[j].target in Targets(b);
      }
    }
    forall t | t in Targets(b)
      ensures t in Targets(a)
    {
      var j :| 0 <= j < |b| && b[j].target == t;
      assert a[j] == b[j];
      assert a[j].target in Targets(a);
    }
  }
}
