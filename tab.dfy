/** The tab bar's tabs (MVVM/Models/Tab.swift). */
module Tab {
  import opened Wrappers
  import opened Seqs

  datatype Tab = List | Map | Settings

  /** `Tab.allCases`: the cases in declaration order. */
  const AllCases: seq<Tab> := [List, Map, Settings]

  /** The enum's `String` raw value. */
  function RawValue(t: Tab): string
  {
    match t
    case List => "list"
    case Map => "map"
    case Settings => "settings"
  }

  function Title(t: Tab): string
  {
    match t
    case List => "List"
    case Map => "Map"
    case Settings => "Settings"
  }

  /** The SF Symbol drawn for the tab. */
  function IconName(t: Tab): string
  {
    match t
    case List => "list.bullet"
    case Map => "map"
    case Settings => "gearshape"
  }

  /** The position of a tab in `AllCases`. */
  function IndexOf(t: Tab): (i: nat)
    ensures i < |AllCases| && AllCases[i] == t
  {
    match t
    case List => 0
    case Map => 1
    case Settings => 2
  }

  /** Every tab is listed exactly once. */
  lemma AllCasesListEachTabOnce()
    ensures forall t: Tab :: multiset(AllCases)[t] == 1
  {
    forall t: Tab ensures multiset(AllCases)[t] == 1 {
      match t
      case List =>
      case Map =>
      case Settings =>
    }
  }

  /** No two tabs share a title, an icon or a raw value. */
  lemma LabelsIdentifyTab(a: Tab, b: Tab)
    ensures Title(a) == Title(b) ==> a == b
    ensures IconName(a) == IconName(b) ==> a == b
    ensures RawValue(a) == RawValue(b) ==> a == b
  {
  }

  /** The test `firstIndex(of:)` applies. */
  function IsTab(t: Tab): Tab -> bool
  {
    x => x == t
  }

  /** `firstIndex(of:)` on `allCases` always finds the tab, at `IndexOf`. */
  lemma FirstIndexFindsEveryTab(t: Tab)
    ensures FirstIndex(AllCases, IsTab(t)) == Some(IndexOf(t))
  {
    assert AllCases[1..] == [Map, Settings];
    assert AllCases[1..][1..] == [Settings];
  }

  /** A tab bar entry with its bounce animation flag. */
  datatype AnimatedTab = AnimatedTab(id: string, tab: Tab, isAnimation: Option<bool>)

  /** `AnimatedTab.init(tab:)`, with the generated UUID as `id`. */
  function NewAnimatedTab(id: string, tab: Tab): (r: AnimatedTab)
    ensures r.tab == tab && r.id == id && r.isAnimation.None?
  {
    AnimatedTab(id, tab, None)
  }
}
