/** A tab set: N content panels of which the manager shows one at a time,
    N' tab buttons that select them, and an indicator that sits on the
    button of the tab last shown (Assets/Scripts/TabManager.cs). */
module Tabs {

  /** The abstract state of a tab manager.
      - panels: each content panel's active flag, in panel order;
      - buttons: how many tab buttons there are;
      - active: the tab the manager last showed, -1 while none was shown;
      - indicator: the button the indicator sits on, -1 while it still
        sits where the scene placed it. */
  datatype TabSet = TabSet(panels: seq<bool>, buttons: nat, active: int, indicator: int)

  /** The recorded tab is "none" or one of the panels. */
  predicate RecordedInRange(t: TabSet)
  {
    -1 <= t.active < |t.panels|
  }

  /** The bounds check ShowTab performs before touching anything. */
  predicate InBounds(t: TabSet, index: int)
  {
    0 <= index < |t.panels|
  }

  /** Once the bounds check passed, ShowTab reads the button at the same
      index without checking it, so a valid index must name a button too. */
  predicate CanShow(t: TabSet, index: int)
  {
    InBounds(t, index) ==> index < t.buttons
  }

  /** Every active panel is the recorded tab: no panel is shown that the
      manager does not know about. */
  predicate Consistent(t: TabSet)
  {
    forall k | 0 <= k < |t.panels| :: t.panels[k] ==> k == t.active
  }

  /** The state a freshly loaded manager is in: no tab recorded. */
  function Initial(panels: seq<bool>, buttons: nat): TabSet
  {
    TabSet(panels, buttons, -1, -1)
  }

  /** The state after ShowTab(index): an out-of-range index changes nothing;
      otherwise the recorded panel is hidden, the requested one is shown,
      the indicator moves to its button and the index is recorded. */
  function Select(t: TabSet, index: int): (r: TabSet)
    requires RecordedInRange(t) && CanShow(t, index)
    ensures RecordedInRange(r) && |r.panels| == |t.panels| && r.buttons == t.buttons
    ensures Consistent(t) ==> Consistent(r)
  {
    if !InBounds(t, index) then t
    else
      var hidden := if t.active >= 0 then t.panels[t.active := false] else t.panels;
      t.(panels := hidden[index := true], active := index, indicator := index)
  }

  /** The state after ShowTab is called with each of `indices` in turn. */
  function SelectAll(t: TabSet, indices: seq<int>): (r: TabSet)
    requires RecordedInRange(t)
    requires forall k | 0 <= k < |indices| :: CanShow(t, indices[k])
    ensures RecordedInRange(r) && |r.panels| == |t.panels| && r.buttons == t.buttons
    ensures Consistent(t) ==> Consistent(r)
    decreases |indices|
  {
    if indices == [] then t
    else
      var next := Select(t, indices[0]);
      assert forall k | 0 <= k < |indices| - 1 :: CanShow(next, indices[1..][k]) by {
        forall k | 0 <= k < |indices| - 1 ensures CanShow(next, indices[1..][k]) {
          assert CanShow(t, indices[k + 1]);
        }
      }
      SelectAll(next, indices[1..])
  }

  /** An index outside the panels leaves the recorded tab, the indicator
      and every panel's flag as they were. */
  lemma RejectsOutOfRange(t: TabSet, index: int)
    requires RecordedInRange(t) && !InBounds(t, index)
    ensures Select(t, index) == t
  {
  }

  /** A valid index is shown, recorded, and the indicator sits on its button. */
  lemma ShowsRequested(t: TabSet, index: int)
    requires RecordedInRange(t) && CanShow(t, index) && InBounds(t, index)
    ensures Select(t, index).panels[index]
    ensures Select(t, index).active == index
    ensures Select(t, index).indicator == index && index < t.buttons
  {
  }

  /** The previously recorded panel, when it is another one, is hidden. */
  lemma HidesPrevious(t: TabSet, index: int)
    requires RecordedInRange(t) && CanShow(t, index) && InBounds(t, index)
    requires t.active >= 0 && t.active != index
    ensures !Select(t, index).panels[t.active]
  {
  }

  /** No panel other than the previously recorded one and the requested
      one changes. */
  lemma OnlyTwoPanelsChange(t: TabSet, index: int)
    requires RecordedInRange(t) && CanShow(t, index)
    ensures forall k | 0 <= k < |t.panels| && k != index && k != t.active ::
              Select(t, index).panels[k] == t.panels[k]
  {
  }

  /** When every shown panel was the recorded one, a valid ShowTab leaves
      exactly the requested panel shown. */
  lemma ExactlyOneShown(t: TabSet, index: int)
    requires RecordedInRange(t) && CanShow(t, index) && InBounds(t, index) && Consistent(t)
    ensures forall k | 0 <= k < |t.panels| :: Select(t, index).panels[k] <==> k == index
  {
  }

  /** The precondition of ExactlyOneShown is needed: a panel the scene left
      active, and that the manager never recorded, stays active beside the
      requested one. */
  lemma StrayPanelStaysShown()
    ensures Select(Initial([false, true], 2), 0).panels == [true, true]
  {
  }

  /** Showing the same tab twice gives the same state as showing it once. */
  lemma Idempotent(t: TabSet, index: int)
    requires RecordedInRange(t) && CanShow(t, index)
    ensures Select(Select(t, index), index) == Select(t, index)
  {
  }

  /** Starting from "no tab recorded", the recorded tab stays within
      [-1, number of panels) whatever sequence of indices is requested, and
      a manager that starts with every panel hidden never shows two panels. */
  lemma RunStaysInRange(panels: seq<bool>, buttons: nat, indices: seq<int>)
    requires forall k | 0 <= k < |indices| :: CanShow(Initial(panels, buttons), indices[k])
    ensures -1 <= SelectAll(Initial(panels, buttons), indices).active < |panels|
    ensures (forall k | 0 <= k < |panels| :: !panels[k]) ==>
              Consistent(SelectAll(Initial(panels, buttons), indices))
  {
  }

  /** A tab manager as the engine holds it: the panels' active flags are
      updated in place, the recorded index and indicator are fields. */
  class TabManager {
    /** Each content panel's active flag (tabContentPanels[k].activeSelf). */
    const panels: array<bool>
    /** The number of tab buttons (tabButtons.Length). */
    const buttonCount: nat
    /** The tab Start shows first. */
    const defaultTab: int
    /** The tab last shown, -1 while none was. */
    var activeTabIndex: int
    /** The button the indicator sits on, -1 while none. */
    var indicator: int
    /** bindings[b] is the index the click listener of button b passes to ShowTab. */
    var bindings: seq<int>

    ghost predicate Valid()
      reads this, panels
    {
      RecordedInRange(State())
    }

    /** The abstract value of the manager. */
    function State(): TabSet
      reads this, panels
    {
      TabSet(panels[..], buttonCount, activeTabIndex, indicator)
    }

    constructor (initial: seq<bool>, buttonCount: nat, defaultTab: int)
      ensures Valid() && fresh(panels)
      ensures State() == Initial(initial, buttonCount)
      ensures this.defaultTab == defaultTab && bindings == []
    {
      panels := new bool[|initial|](k requires 0 <= k < |initial| => initial[k]);
      this.buttonCount := buttonCount;
      this.defaultTab := defaultTab;
      activeTabIndex := -1;
      indicator := -1;
      bindings := [];
    }

    method ShowTab(index: int)
      requires Valid() && CanShow(State(), index)
      modifies this, panels
      ensures Valid()
      ensures State() == Select(old(State()), index)
      ensures bindings == old(bindings)
    {
      if index < 0 || index >= panels.Length {
        return;
      }
      if activeTabIndex >= 0 {
        panels[activeTabIndex] := false;
      }
      panels[index] := true;
      indicator := index;
      activeTabIndex := index;
    }

    /** Shows the default tab, then binds button i to ShowTab(i) for every
        button; the engine calls this once. */
    method Start()
      requires Valid() && CanShow(State(), defaultTab)
      modifies this, panels
      ensures Valid()
      ensures State() == Select(old(State()), defaultTab)
      ensures |bindings| == buttonCount
      ensures forall b | 0 <= b < buttonCount :: bindings[b] == b
    {
      ShowTab(defaultTab);
      var bound := [];
      for i := 0 to buttonCount
        invariant |bound| == i
        invariant forall b | 0 <= b < i :: bound[b] == b
      {
        bound := bound + [i];
      }
      bindings := bound;
    }

    /** A click on button b runs the listener Start bound to it. */
    method Click(b: int)
      requires Valid() && 0 <= b < |bindings|
      requires CanShow(State(), bindings[b])
      modifies this, panels
      ensures Valid()
      ensures State() == Select(old(State()), old(bindings)[b])
      ensures bindings == old(bindings)
    {
      ShowTab(bindings[b]);
    }
  }
}
