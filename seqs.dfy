/**
 * The Swift `Array` operations the views rely on, on sequences:
 * `firstIndex(where:)`, `remove(at:)`, `insert(_:at:)` and
 * `move(fromOffsets:toOffset:)` for a single offset.
 */
module Seqs {
  import opened Wrappers

  /** `firstIndex(where:)`: the first position whose element satisfies `p`. */
  function FirstIndex<T>(s: seq<T>, p: T -> bool): (r: Option<nat>)
    ensures r.Some? ==> r.value < |s| && p(s[r.value]) && forall j :: 0 <= j < r.value ==> !p(s[j])
    ensures r.None? ==> forall j :: 0 <= j < |s| ==> !p(s[j])
  {
    if |s| == 0 then None
    else if p(s[0]) then Some(0)
    else
      match FirstIndex(s[1..], p)
      case None => None
      case Some(i) => Some(i + 1)
  }

  predicate Distinct<T(==)>(s: seq<T>)
  {
    forall i, j :: 0 <= i < j < |s| ==> s[i] != s[j]
  }

  function RemoveAt<T>(s: seq<T>, i: nat): (r: seq<T>)
    requires i < |s|
    ensures |r| == |s| - 1
    ensures forall j :: 0 <= j < i ==> r[j] == s[j]
    ensures forall j :: i <= j < |r| ==> r[j] == s[j + 1]
  {
    s[..i] + s[i + 1..]
  }

  function InsertAt<T>(s: seq<T>, i: nat, x: T): (r: seq<T>)
    requires i <= |s|
    ensures |r| == |s| + 1 && r[i] == x
    ensures forall j :: 0 <= j < i ==> r[j] == s[j]
    ensures forall j :: i < j < |r| ==> r[j] == s[j - 1]
  {
    s[..i] + [x] + s[i..]
  }

  /**
   * `move(fromOffsets: [from], toOffset: toOffset)`: the element at `from`
   * is taken out and put back in front of what was at offset `toOffset`
   * (at the end when `toOffset == |s|`).
   */
  function Move<T>(s: seq<T>, from: nat, toOffset: nat): (r: seq<T>)
    requires from < |s| && toOffset <= |s|
    ensures |r| == |s|
  {
    var rest := RemoveAt(s, from);
    if toOffset > from then InsertAt(rest, toOffset - 1, s[from]) else InsertAt(rest, toOffset, s[from])
  }

  /** The offset that makes `move` put the element at `from` at position `to`. */
  function OffsetToLandAt(from: nat, to: nat): nat
  {
    if to > from then to + 1 else to
  }

  /** With that offset, the moved element ends up exactly at `to`. */
  lemma MoveLandsAt<T>(s: seq<T>, from: nat, to: nat)
    requires from < |s| && to < |s|
    ensures Move(s, from, OffsetToLandAt(from, to))[to] == s[from]
  {
  }

  /**
   * Everything else keeps its relative order: removing the landed element
   * from the result gives what removing it from the original gives.
   */
  lemma MoveKeepsOthersInOrder<T>(s: seq<T>, from: nat, to: nat)
    requires from < |s| && to < |s|
    ensures RemoveAt(Move(s, from, OffsetToLandAt(from, to)), to) == RemoveAt(s, from)
  {
    var r := Move(s, from, OffsetToLandAt(from, to));
    var rest := RemoveAt(s, from);
    assert r == InsertAt(rest, to, s[from]);
    assert RemoveAt(r, to) == rest;
  }

  lemma RemoveInsert<T>(s: seq<T>, i: nat, x: T)
    requires i <= |s|
    ensures RemoveAt(InsertAt(s, i, x), i) == s
  {
  }

  /** Moving rearranges: the result has the same elements, each as often. */
  lemma MovePermutes<T>(s: seq<T>, from: nat, toOffset: nat)
    requires from < |s| && toOffset <= |s|
    ensures multiset(Move(s, from, toOffset)) == multiset(s)
  {
    var rest := RemoveAt(s, from);
    var at := if toOffset > from then toOffset - 1 else toOffset;
    assert s == s[..from] + [s[from]] + s[from + 1..];
    assert rest == s[..from] + s[from + 1..];
    assert multiset(s) == multiset(rest) + multiset{s[from]};
    assert rest == rest[..at] + rest[at..];
    assert Move(s, from, toOffset) == rest[..at] + [s[from]] + rest[at..];
  }

  /** Moving keeps a sequence of distinct elements distinct. */
  lemma MoveKeepsDistinct<T>(s: seq<T>, from: nat, toOffset: nat)
    requires from < |s| && toOffset <= |s|
    requires Distinct(s)
    ensures Distinct(Move(s, from, toOffset))
  {
    var rest := RemoveAt(s, from);
    var at := if toOffset > from then toOffset - 1 else toOffset;
    var r := Move(s, from, toOffset);
    assert r == InsertAt(rest, at, s[from]);
    forall j | 0 <= j < |rest| ensures rest[j] != s[from] {
      if j < from {
      } else {
        assert rest[j] == s[j + 1];
      }
    }
    forall i, j | 0 <= i < j < |r| ensures r[i] != r[j] {
      if i == at {
        assert r[j] == rest[j - 1];
      } else if j == at {
        assert r[i] == rest[i];
      } else {
        var i' := if i < at then i else i - 1;
        var j' := if j < at then j else j - 1;
        assert r[i] == rest[i'] && r[j] == rest[j'];
        var si := if i' < from then i' else i' + 1;
        var sj := if j' < from then j' else j' + 1;
        assert rest[i'] == s[si] && rest[j'] == s[sj];
      }
    }
  }
}
