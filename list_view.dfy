/**
 * The editable pin grid of the list screen (`ListView.GridView`,
 * MVVM/Views/ListView.swift): deleting a pin and reordering pins by drag
 * and drop, both of which renumber the stored `index` attributes.
 */
module ListView {
  import opened Wrappers
  import opened Seqs
  import opened Storage

  /**
   * The indices after a delete: every index above the deleted one moves
   * down by one, every other stays.
   */
  function RenumberedAfterDelete(xs: seq<int>, deletedIndex: int): seq<int>
  {
    seq(|xs|, j requires 0 <= j < |xs| => if xs[j] > deletedIndex then xs[j] - 1 else xs[j])
  }

  /** Pins numbered 1..n, one of them deleted: the others are numbered 1..n-1. */
  lemma DeleteKeepsNumbering(xs: seq<int>, k: nat)
    requires NumberedFromOne(xs) && k < |xs|
    ensures NumberedFromOne(RemoveAt(RenumberedAfterDelete(xs, xs[k]), k))
  {
    var r := RemoveAt(RenumberedAfterDelete(xs, xs[k]), k);
    forall j | 0 <= j < |r| ensures r[j] == j + 1 {
      if j < k {
        assert r[j] == RenumberedAfterDelete(xs, xs[k])[j];
      } else {
        assert r[j] == RenumberedAfterDelete(xs, xs[k])[j + 1];
      }
    }
  }

  /**
   * Renumbering does not reorder: among the pins other than the deleted
   * one, the order by index is the same before and after.
   */
  lemma DeleteKeepsOrder(xs: seq<int>, deletedIndex: int, i: nat, j: nat)
    requires i < |xs| && j < |xs| && xs[i] != deletedIndex && xs[j] != deletedIndex
    ensures var r := RenumberedAfterDelete(xs, deletedIndex);
            xs[i] < xs[j] <==> r[i] < r[j]
  {
  }

  /** A drop that passed the guard: the dragged pin's position and the target's. */
  datatype Drop = Drop(from: nat, to: nat)

  /**
   * The guard of `handleDrop`: the position of the first pin carrying the
   * first dropped id and the position of the target pin, when both exist
   * and differ.
   */
  function DropPlan(locs: seq<StorageLocation>, droppedIds: seq<string>, target: StorageLocation): (r: Option<Drop>)
    ensures r.Some? ==>
              |droppedIds| > 0 && r.value.from < |locs| && r.value.to < |locs| && r.value.from != r.value.to
              && locs[r.value.from].id == droppedIds[0] && locs[r.value.to] == target
  {
    if |droppedIds| == 0 then None
    else
      var droppedId := droppedIds[0];
      match FirstIndex(locs, (l: StorageLocation) => l.id == droppedId)
      case None => None
      case Some(from) =>
        match FirstIndex(locs, (l: StorageLocation) => l == target)
        case None => None
        case Some(to) => if from != to then Some(Drop(from, to)) else None
  }

  /**
   * With unique ids, a drop is accepted exactly when there is a dropped id,
   * some pin carries it, the target is shown, and the target is not the
   * dragged pin itself.
   */
  lemma DropAcceptedIff(locs: seq<StorageLocation>, droppedIds: seq<string>, target: StorageLocation)
    requires UniqueIds(locs)
    ensures DropPlan(locs, droppedIds, target).Some? <==>
              |droppedIds| > 0 && target in locs && target.id != droppedIds[0]
              && exists i :: 0 <= i < |locs| && locs[i].id == droppedIds[0]
  {
    if |droppedIds| > 0 && target in locs && target.id != droppedIds[0]
       && exists i :: 0 <= i < |locs| && locs[i].id == droppedIds[0]
    {
      var droppedId := droppedIds[0];
      var i :| 0 <= i < |locs| && locs[i].id == droppedId;
      var t :| 0 <= t < |locs| && locs[t] == target;
      var isDragged := (l: StorageLocation) => l.id == droppedId;
      var isTarget := (l: StorageLocation) => l == target;
      assert isDragged(locs[i]) && isTarget(locs[t]);
      var f := FirstIndex(locs, isDragged);
      var g := FirstIndex(locs, isTarget);
      assert f.Some? && g.Some?;
    }
  }

  /** Only the first dropped id matters. */
  lemma DropUsesFirstIdOnly(locs: seq<StorageLocation>, droppedId: string, more: seq<string>, target: StorageLocation)
    ensures DropPlan(locs, [droppedId] + more, target) == DropPlan(locs, [droppedId], target)
  {
    assert ([droppedId] + more)[0] == droppedId;
  }

  /** The pin order a successful drop produces. */
  function DroppedOrder(locs: seq<StorageLocation>, from: nat, to: nat): (r: seq<StorageLocation>)
    requires from < |locs| && to < |locs|
    ensures |r| == |locs| && r[to] == locs[from]
    ensures forall x :: x in r ==> x in locs
    ensures Distinct(locs) ==> Distinct(r)
  {
    MoveLandsAt(locs, from, to);
    var r := Move(locs, from, OffsetToLandAt(from, to));
    assert Distinct(locs) ==> Distinct(r) by {
      if Distinct(locs) {
        MoveKeepsDistinct(locs, from, OffsetToLandAt(from, to));
      }
    }
    assert forall x :: x in r ==> x in locs by {
      forall x | x in r ensures x in locs {
        assert x in multiset(r);
      }
    }
    MovePermutes(locs, from, OffsetToLandAt(from, to));
    r
  }

  /**
   * A drop only rearranges: the same pins, each once, and every pin but the
   * dragged one keeps its order relative to the others.
   */
  lemma DropRearranges(locs: seq<StorageLocation>, from: nat, to: nat)
    requires from < |locs| && to < |locs|
    ensures multiset(DroppedOrder(locs, from, to)) == multiset(locs)
    ensures RemoveAt(DroppedOrder(locs, from, to), to) == RemoveAt(locs, from)
  {
    MovePermutes(locs, from, OffsetToLandAt(from, to));
    MoveKeepsOthersInOrder(locs, from, to);
  }

  lemma UniqueIdsDistinct(locs: seq<StorageLocation>)
    requires UniqueIds(locs)
    ensures Distinct(locs)
  {
    forall i, j | 0 <= i < j < |locs| ensures locs[i] != locs[j] {
      assert locs[i].id != locs[j].id;
    }
  }

  /** The loop of `deleteLocation`: every pin above `deletedIndex` moves down by one. */
  method DecrementAbove(locs: seq<StorageLocation>, deletedIndex: int)
    requires Distinct(locs)
    modifies locs
    ensures Indices(locs) == RenumberedAfterDelete(old(Indices(locs)), deletedIndex)
  {
    ghost var before := Indices(locs);
    var i := 0;
    while i < |locs|
      invariant 0 <= i <= |locs|
      invariant forall j :: 0 <= j < i ==> locs[j].index == RenumberedAfterDelete(before, deletedIndex)[j]
      invariant forall j :: i <= j < |locs| ==> locs[j].index == before[j]
    {
      var loc := locs[i];
      if loc.index > deletedIndex {
        loc.index := loc.index - 1;
      }
      i := i + 1;
    }
  }

  /** The loop of `handleDrop`: the pins are numbered 1..n in sequence order. */
  method NumberInOrder(copy: seq<StorageLocation>)
    requires Distinct(copy)
    modifies copy
    ensures NumberedFromOne(Indices(copy))
  {
    var i := 0;
    while i < |copy|
      invariant 0 <= i <= |copy|
      invariant forall j :: 0 <= j < i ==> copy[j].index == j + 1
    {
      copy[i].index := i + 1;
      i := i + 1;
    }
  }

  class GridView {
    const modelContext: ModelContext
    /** The query result, sorted by index as the query asks. */
    var locations: seq<StorageLocation>
    var targetedId: Option<string>
    var isShowingAlert: bool
    var alertMessage: string

    ghost predicate Valid()
      reads this
    {
      UniqueIds(locations)
    }

    constructor(modelContext: ModelContext, locations: seq<StorageLocation>)
      requires UniqueIds(locations)
      ensures Valid()
      ensures this.modelContext == modelContext && this.locations == locations
      ensures targetedId == None && !isShowingAlert && alertMessage == ""
    {
      this.modelContext := modelContext;
      this.locations := locations;
      targetedId := None;
      isShowingAlert := false;
      alertMessage := "";
    }

    /** The drop destination's `isTargeted` handler. */
    method SetTargeted(location: StorageLocation, isOver: bool)
      modifies this
      ensures targetedId == (if isOver then Some(location.id) else None)
      ensures locations == old(locations) && isShowingAlert == old(isShowingAlert) && alertMessage == old(alertMessage)
    {
      targetedId := if isOver then Some(location.id) else None;
    }

    method ShowErrorAlert(message: string)
      modifies this
      ensures alertMessage == message && isShowingAlert
      ensures locations == old(locations) && targetedId == old(targetedId)
    {
      alertMessage := message;
      isShowingAlert := true;
    }

    /** The OK button of the error alert. */
    method TapAlertOk()
      modifies this
      ensures !isShowingAlert
      ensures locations == old(locations) && targetedId == old(targetedId) && alertMessage == old(alertMessage)
    {
      isShowingAlert := false;
    }

    /**
     * `deleteLocation`: the pin leaves the store, every shown pin above its
     * index moves down by one, and a failed save (`saveError`) raises the
     * alert with its message.
     */
    method DeleteLocation(location: StorageLocation, saveError: Option<string>)
      requires Valid()
      modifies modelContext, locations, this
      ensures Valid() && locations == old(locations) && targetedId == old(targetedId)
      ensures modelContext.objects == old(modelContext.objects) - {location}
      ensures Indices(locations) == RenumberedAfterDelete(old(Indices(locations)), old(location.index))
      ensures location.index == old(location.index)
      ensures saveError.Some? ==> isShowingAlert && alertMessage == saveError.value
      ensures saveError.None? ==> isShowingAlert == old(isShowingAlert) && alertMessage == old(alertMessage)
    {
      modelContext.Delete(location);
      var deletedIndex := location.index;
      ghost var before := Indices(locations);
      UniqueIdsDistinct(locations);
      DecrementAbove(locations, deletedIndex);
      assert location.index == deletedIndex by {
        if location in locations {
          var k :| 0 <= k < |locations| && locations[k] == location;
          assert before[k] == deletedIndex;
          assert Indices(locations)[k] == RenumberedAfterDelete(before, deletedIndex)[k];
        }
      }
      if saveError.Some? {
        ShowErrorAlert(saveError.value);
      }
    }

    /**
     * The accepted branch of `handleDrop`: the pins are numbered 1..n in the
     * order with the dragged pin at the target's position, and a failed save
     * raises the alert.
     */
    method ApplyDrop(from: nat, to: nat, saveError: Option<string>)
      requires Valid() && from < |locations| && to < |locations|
      modifies this, locations
      ensures Valid() && locations == old(locations) && targetedId == old(targetedId)
      ensures var order := DroppedOrder(locations, from, to);
              forall j :: 0 <= j < |order| ==> order[j].index == j + 1
      ensures saveError.Some? ==> isShowingAlert && alertMessage == saveError.value
      ensures saveError.None? ==> isShowingAlert == old(isShowingAlert) && alertMessage == old(alertMessage)
    {
      var copy := DroppedOrder(locations, from, to);
      UniqueIdsDistinct(locations);
      NumberInOrder(copy);
      ghost var numbered := Indices(copy);
      assert NumberedFromOne(numbered);
      if saveError.Some? {
        ShowErrorAlert(saveError.value);
      }
      assert forall j :: 0 <= j < |copy| ==> copy[j].index == numbered[j];
    }

    /**
     * `handleDrop`: when the guard holds, the dragged pin is moved to the
     * target's position, all pins are renumbered 1..n in the new order and
     * the drop is accepted; otherwise nothing but `targetedId` changes.
     * Either way the drop highlight is cleared.
     */
    method HandleDrop(droppedIds: seq<string>, location: StorageLocation, saveError: Option<string>) returns (accepted: bool)
      requires Valid()
      modifies this, locations
      ensures Valid() && locations == old(locations) && targetedId == None
      ensures accepted <==> DropPlan(locations, droppedIds, location).Some?
      ensures !accepted ==> Indices(locations) == old(Indices(locations))
                            && isShowingAlert == old(isShowingAlert) && alertMessage == old(alertMessage)
      ensures accepted ==> var drop := DropPlan(locations, droppedIds, location).value;
                           var order := DroppedOrder(locations, drop.from, drop.to);
                           forall j :: 0 <= j < |order| ==> order[j].index == j + 1
      ensures accepted && saveError.Some? ==> isShowingAlert && alertMessage == saveError.value
      ensures accepted && saveError.None? ==> isShowingAlert == old(isShowingAlert) && alertMessage == old(alertMessage)
    {
      var plan := DropPlan(locations, droppedIds, location);
      if plan.None? {
        targetedId := None;
        return false;
      }
      ApplyDrop(plan.value.from, plan.value.to, saveError);
      targetedId := None;
      return true;
    }
  }
}
