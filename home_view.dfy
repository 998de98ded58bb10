/** The root tab screen (MVVM/Views/HomeView.swift). */
module HomeView {
  import opened Wrappers
  import opened Seqs
  import opened Tab

  /**
   * The tabs `showEachTab` makes active, in order, when it starts at
   * position `start`: the one after it, and so on round the bar.
   */
  function Cycle(start: nat): (r: seq<Tab>)
    ensures |r| == |AllCases|
  {
    seq(|AllCases|, k requires 0 <= k < |AllCases| => AllCases[(start + k + 1) % |AllCases|])
  }

  /** The cycle shows every tab exactly once. */
  lemma CycleShowsEachTabOnce(start: nat)
    requires start < |AllCases|
    ensures forall t: Tab :: multiset(Cycle(start))[t] == 1
  {
    CycleIsRotation(start);
    AllCasesListEachTabOnce();
  }

  /** The cycle is a rotation of `AllCases`. */
  lemma CycleIsRotation(start: nat)
    requires start < |AllCases|
    ensures multiset(Cycle(start)) == multiset(AllCases)
  {
    var c := Cycle(start);
    if start == 0 {
      assert c == AllCases[1..] + AllCases[..1];
    } else if start == 1 {
      assert c == AllCases[2..] + AllCases[..2];
      assert AllCases == AllCases[..2] + AllCases[2..];
    } else {
      assert c == AllCases;
    }
  }

  /** The cycle ends on the tab it started from. */
  lemma CycleEndsAtStart(start: nat)
    requires start < |AllCases|
    ensures Cycle(start)[|AllCases| - 1] == AllCases[start]
  {
    assert (start + (|AllCases| - 1) + 1) % |AllCases| == start;
  }

  class HomeView {
    var activeTab: Tab
    var allTabs: seq<AnimatedTab>

    /** The initial state: the list tab, and one bar entry per case in order. */
    constructor(ids: seq<string>)
      requires |ids| == |AllCases|
      ensures activeTab == List
      ensures |allTabs| == |AllCases|
      ensures forall i :: 0 <= i < |allTabs| ==> allTabs[i] == NewAnimatedTab(ids[i], AllCases[i])
    {
      activeTab := List;
      allTabs := seq(|AllCases|, i requires 0 <= i < |AllCases| => NewAnimatedTab(ids[i], AllCases[i]));
    }

    /**
     * `showEachTab`: for each offset 1..count the tab at
     * `(start + offset) % count` becomes active; `shown` lists them.
     */
    method ShowEachTab() returns (shown: seq<Tab>)
      modifies this
      ensures shown == Cycle(IndexOf(old(activeTab)))
      ensures activeTab == old(activeTab) && allTabs == old(allTabs)
    {
      var tabs := AllCases;
      var found := FirstIndex(tabs, IsTab(activeTab));
      // The guard's early return cannot happen: every case is in `allCases`.
      FirstIndexFindsEveryTab(activeTab);
      var startIndex := found.value;
      CycleEndsAtStart(startIndex);
      shown := [];
      for offset := 1 to |tabs| + 1
        invariant |shown| == offset - 1
        invariant forall k :: 0 <= k < |shown| ==> shown[k] == tabs[(startIndex + k + 1) % |tabs|]
        invariant offset == 1 ==> activeTab == old(activeTab)
        invariant offset > 1 ==> activeTab == shown[|shown| - 1]
        invariant allTabs == old(allTabs)
      {
        var next := tabs[(startIndex + offset) % |tabs|];
        activeTab := next;
        shown := shown + [next];
      }
    }

    /** A tap on a bar entry: its tab becomes active and its bounce starts. */
    method TapTab(i: nat)
      requires i < |allTabs|
      modifies this
      ensures activeTab == old(allTabs[i].tab)
      ensures allTabs == old(allTabs)[i := old(allTabs[i]).(isAnimation := Some(true))]
    {
      activeTab := allTabs[i].tab;
      allTabs := allTabs[i := allTabs[i].(isAnimation := Some(true))];
    }

    /** The tap animation's completion: the bounce flag is cleared. */
    method AnimationCompleted(i: nat)
      requires i < |allTabs|
      modifies this
      ensures activeTab == old(activeTab)
      ensures allTabs == old(allTabs)[i := old(allTabs[i]).(isAnimation := Some(false))]
    {
      allTabs := allTabs[i := allTabs[i].(isAnimation := Some(false))];
    }
  }
}
