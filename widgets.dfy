/**
 * The two kinds of adjustable menu widgets shared by the screen navigator
 * (main/navigation.js) and the briefing room (main/briefing.js): a group of
 * buttons of which one carries the `active` class, and a range slider stepped
 * by 5 and clamped to its bounds. The DOM is reduced to these values.
 */
module Widgets {
  import opened Optional

  /** A `.button` of a group: its `active` class and its `kb-focused-active` highlight. */
  datatype Button = Button(active: bool, focusedActive: bool)

  /** An `input[type="range"]`, with the integers `parseInt` reads from it. */
  datatype Slider = Slider(value: int, min: int, max: int)

  const SliderStep: int := 5

  /**
   * `newIndex = current + direction`, then below 0 wraps to the last index and
   * past the end wraps to 0: for a non-empty group the result is always a valid index.
   */
  function WrapIndex(current: int, direction: int, n: nat): (k: int)
    ensures 0 < n ==> 0 <= k < n
    ensures 0 <= current + direction < n ==> k == current + direction
  {
    var k := current + direction;
    var k1 := if k < 0 then n - 1 else k;
    if k1 >= n then 0 else k1
  }

  /** Stepping right from the last button reaches the first, stepping left from the first reaches the last, and a right step is undone by a left step. */
  lemma {:induction false} WrapIndexCycles(i: int, n: nat)
    requires 0 <= i < n
    ensures WrapIndex(n - 1, 1, n) == 0 && WrapIndex(0, -1, n) == n - 1
    ensures WrapIndex(WrapIndex(i, 1, n), -1, n) == i
    ensures WrapIndex(WrapIndex(i, -1, n), 1, n) == i
  {
    if i == n - 1 {
      assert WrapIndex(i, 1, n) == 0;
    }
    if i == 0 {
      assert WrapIndex(i, -1, n) == n - 1;
    }
  }

  /** `Math.max(min, Math.min(max, value + direction * 5))`. */
  function Stepped(s: Slider, direction: int): (v: int)
    ensures s.min <= s.max ==> s.min <= v <= s.max
    ensures s.min <= s.value + direction * SliderStep <= s.max ==> v == s.value + direction * SliderStep
    ensures s.max < s.value + direction * SliderStep && s.min <= s.max ==> v == s.max
    ensures s.value + direction * SliderStep < s.min ==> v == s.min
  {
    var next := s.value + direction * SliderStep;
    if s.max < next then (if s.min < s.max then s.max else s.min)
    else if next < s.min then s.min
    else next
  }

  /** A step up that was not clamped is undone by a step down; at a bound, stepping further is a no-op. */
  lemma {:induction false} SteppedInverse(s: Slider)
    requires s.min <= s.value <= s.max
    ensures s.value + SliderStep <= s.max ==> Stepped(s.(value := Stepped(s, 1)), -1) == s.value
    ensures s.value == s.max ==> Stepped(s, 1) == s.max
    ensures s.value == s.min ==> Stepped(s, -1) == s.min
  {
    if s.value + SliderStep <= s.max {
      assert Stepped(s, 1) == s.value + SliderStep;
    }
  }

  /** `navigateUp`: one item up, unless the focus is already on the first item. */
  function FocusUp(i: nat): (j: nat)
    ensures j <= i
  {
    if i > 0 then i - 1 else i
  }

  /** `navigateDown`: one item down, unless the focus is already on the last of `n` items. */
  function FocusDown(i: nat, n: nat): (j: nat)
    ensures i <= j
  {
    if i < n - 1 then i + 1 else i
  }

  /** Up and down keep a valid focus index valid, stop at the two ends, and undo each other away from the ends. */
  lemma FocusMovesStayInRange(i: nat, n: nat)
    requires i < n
    ensures FocusUp(i) < n && FocusDown(i, n) < n
    ensures i == 0 <==> FocusUp(i) == i
    ensures i == n - 1 <==> FocusDown(i, n) == i
    ensures 0 < i ==> FocusDown(FocusUp(i), n) == i
    ensures i < n - 1 ==> FocusUp(FocusDown(i, n)) == i
  {
  }

  /** The index `querySelector('.button.active')` finds: the first active button. */
  function FirstActive(bs: seq<Button>): (r: Option<nat>)
    ensures r.Some? ==> r.value < |bs| && bs[r.value].active && forall j :: 0 <= j < r.value ==> !bs[j].active
    ensures r.None? ==> forall j :: 0 <= j < |bs| ==> !bs[j].active
  {
    if |bs| == 0 then None
    else if bs[0].active then Some(0)
    else match FirstActive(bs[1..])
      case None => None
      case Some(k) => Some(k + 1)
  }

  /** The index `getActiveButtonIndex` reports: the first active button, or 0 when none is active. */
  function ActiveIndex(bs: seq<Button>): (k: nat)
    ensures (exists j :: 0 <= j < |bs| && bs[j].active) ==> k < |bs| && bs[k].active && forall j :: 0 <= j < k ==> !bs[j].active
    ensures (forall j :: 0 <= j < |bs| ==> !bs[j].active) ==> k == 0
  {
    match FirstActive(bs)
    case Some(k) => k
    case None => 0
  }

  /** `getActiveButtonIndex`: the loop over the buttons. */
  method ActiveButtonIndex(bs: seq<Button>) returns (k: nat)
    ensures k == ActiveIndex(bs)
  {
    var i := 0;
    while i < |bs|
      invariant i <= |bs|
      invariant forall j :: 0 <= j < i ==> !bs[j].active
    {
      if bs[i].active {
        return i;
      }
      i := i + 1;
    }
    return 0;
  }

  /** The group after `forEach(remove 'active')` and `buttons[k].add('active')`: only button `k` is active. */
  function Activated(bs: seq<Button>, k: nat): (r: seq<Button>)
    ensures |r| == |bs|
    ensures forall i :: 0 <= i < |r| ==> r[i].active == (i == k) && r[i].focusedActive == bs[i].focusedActive
  {
    seq(|bs|, i requires 0 <= i < |bs| => bs[i].(active := i == k))
  }

  /** As `Activated`, with the `kb-focused-active` highlight moved along with `active`. */
  function ActivatedAndMarked(bs: seq<Button>, k: nat): (r: seq<Button>)
    ensures |r| == |bs|
    ensures forall i :: 0 <= i < |r| ==> r[i].active == (i == k) && r[i].focusedActive == (i == k)
  {
    seq(|bs|, i requires 0 <= i < |bs| => Button(i == k, i == k))
  }

  /** After activating a valid index, exactly that button is active and it is the one `querySelector` finds. */
  lemma {:induction false} ActivatedIsFirstActive(bs: seq<Button>, k: nat)
    requires k < |bs|
    ensures FirstActive(Activated(bs, k)) == Some(k)
    ensures FirstActive(ActivatedAndMarked(bs, k)) == Some(k)
  {
    var a, m := Activated(bs, k), ActivatedAndMarked(bs, k);
    assert a[k].active && m[k].active;
    var fa, fm := FirstActive(a), FirstActive(m);
    assert fa.Some? && fm.Some?;
  }

  /** The group after `forEach(remove 'kb-focused-active')`. */
  function Unmarked(bs: seq<Button>): (r: seq<Button>)
    ensures |r| == |bs|
    ensures forall i :: 0 <= i < |r| ==> r[i].active == bs[i].active && !r[i].focusedActive
  {
    seq(|bs|, i requires 0 <= i < |bs| => bs[i].(focusedActive := false))
  }

  /** The group with the highlight added to button `k` (if it exists). */
  function Marked(bs: seq<Button>, k: nat): (r: seq<Button>)
    ensures |r| == |bs|
    ensures forall i :: 0 <= i < |r| ==> r[i].active == bs[i].active
    ensures forall i :: 0 <= i < |r| ==> r[i].focusedActive == (bs[i].focusedActive || i == k)
  {
    if k < |bs| then bs[k := bs[k].(focusedActive := true)] else bs
  }

  /** The loop that removes the highlight from every button of a group. */
  method ClearMarks(bs: seq<Button>) returns (r: seq<Button>)
    ensures r == Unmarked(bs)
  {
    r := bs;
    var i := 0;
    while i < |r|
      invariant i <= |r| == |bs|
      invariant forall j :: 0 <= j < i ==> r[j] == bs[j].(focusedActive := false)
      invariant forall j :: i <= j < |r| ==> r[j] == bs[j]
    {
      r := r[i := r[i].(focusedActive := false)];
      i := i + 1;
    }
  }
}
