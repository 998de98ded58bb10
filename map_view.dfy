/**
 * The map screen (MVVM/Views/MapView.swift): the pins drawn, one per
 * coordinate; adding a pin from a long press; selecting a pin; and the
 * alert flags. The pure parts are shared with the later map screen.
 */
module MapView {
  import opened Wrappers
  import opened Seqs
  import opened Storage
  import opened LocationAsStorageModel

  /** A map coordinate, compared for equality only. */
  datatype Coordinate = Coordinate(latitude: real, longitude: real)

  /** The grouping key of a pin: its latitude and longitude. */
  function Key(l: StorageLocation): Coordinate
  {
    Coordinate(l.latitude, l.longitude)
  }

  /** The pins of `s` whose key is `k`, in their order in `s`. */
  function Group(s: seq<StorageLocation>, k: Coordinate): (g: seq<StorageLocation>)
    ensures forall i :: 0 <= i < |g| ==> g[i] in s && Key(g[i]) == k
    ensures forall y :: y in s && Key(y) == k ==> y in g
  {
    if |s| == 0 then []
    else (if Key(s[0]) == k then [s[0]] else []) + Group(s[1..], k)
  }

  /**
   * `max { $0.index < $1.index }` on a non-empty group, as a position: the
   * first element whose index no other element exceeds.
   */
  function MaxPosition(s: seq<StorageLocation>): (i: nat)
    requires |s| > 0
    reads s
    ensures i < |s|
    ensures forall j :: 0 <= j < |s| ==> s[j].index <= s[i].index
    ensures forall j :: 0 <= j < i ==> s[j].index < s[i].index
  {
    if |s| == 1 then 0
    else
      var m := MaxPosition(s[..|s| - 1]);
      assert forall j :: 0 <= j < |s| - 1 ==> s[..|s| - 1][j] == s[j];
      if s[m].index < s[|s| - 1].index then |s| - 1 else m
  }

  /** The pin drawn for the key of `l`: the maximum of its group. */
  function Elected(all: seq<StorageLocation>, l: StorageLocation): (e: StorageLocation)
    requires l in all
    reads all
    ensures e in all && Key(e) == Key(l)
    ensures forall y :: y in all && Key(y) == Key(l) ==> y.index <= e.index
  {
    var g := Group(all, Key(l));
    assert l in g;
    assert forall y :: y in g ==> y in all;
    var e := g[MaxPosition(g)];
    assert e in g;
    assert forall y :: y in g ==> y.index <= e.index by {
      forall y | y in g ensures y.index <= e.index {
        var j :| 0 <= j < |g| && g[j] == y;
      }
    }
    e
  }

  /** The pins of `s` that are elected for their own key, in their order in `s`. */
  function ElectedIn(all: seq<StorageLocation>, s: seq<StorageLocation>): (r: seq<StorageLocation>)
    requires forall y :: y in s ==> y in all
    reads all
    ensures forall i :: 0 <= i < |r| ==> r[i] in s && Elected(all, r[i]) == r[i]
    ensures forall y :: y in s && Elected(all, y) == y ==> y in r
  {
    if |s| == 0 then []
    else if Elected(all, s[0]) == s[0] then [s[0]] + ElectedIn(all, s[1..])
    else ElectedIn(all, s[1..])
  }

  lemma {:induction false} ElectedInDistinct(all: seq<StorageLocation>, s: seq<StorageLocation>)
    requires forall y :: y in s ==> y in all
    requires Distinct(s)
    ensures Distinct(ElectedIn(all, s))
  {
    if |s| > 0 {
      ElectedInDistinct(all, s[1..]);
      var rest := ElectedIn(all, s[1..]);
      assert s[0] !in rest;
    }
  }

  predicate SortedByIndex(s: seq<StorageLocation>)
    reads s
  {
    forall i, j :: 0 <= i < j < |s| ==> s[i].index <= s[j].index
  }

  /** Inserts `x` in front of the first element with a larger-or-equal index. */
  function InsertByIndex(x: StorageLocation, s: seq<StorageLocation>): (r: seq<StorageLocation>)
    requires SortedByIndex(s)
    reads x, s
    ensures forall i :: 0 <= i < |r| ==> r[i] == x || r[i] in s
    ensures x in r && forall y :: y in s ==> y in r
    ensures |r| == |s| + 1 && SortedByIndex(r)
  {
    if |s| == 0 || x.index <= s[0].index then [x] + s
    else
      var rest := InsertByIndex(x, s[1..]);
      assert forall y :: y in rest ==> s[0].index <= y.index by {
        forall y | y in rest ensures s[0].index <= y.index {
          if y != x {
            var k :| 0 <= k < |s[1..]| && s[1..][k] == y;
            assert s[k + 1] == y;
          }
        }
      }
      var r := [s[0]] + rest;
      assert forall j :: 0 < j < |r| ==> r[j] in rest;
      r
  }

  lemma {:induction false} InsertByIndexDistinct(x: StorageLocation, s: seq<StorageLocation>)
    requires SortedByIndex(s) && Distinct(s) && x !in s
    ensures Distinct(InsertByIndex(x, s))
  {
    if |s| > 0 && x.index > s[0].index {
      InsertByIndexDistinct(x, s[1..]);
      var rest := InsertByIndex(x, s[1..]);
      assert s[0] !in rest;
    }
  }

  /** `sorted { $0.index < $1.index }`. */
  function SortByIndex(s: seq<StorageLocation>): (r: seq<StorageLocation>)
    reads s
    ensures forall i :: 0 <= i < |r| ==> r[i] in s
    ensures forall y :: y in s ==> y in r
    ensures |r| == |s| && SortedByIndex(r)
  {
    if |s| == 0 then []
    else
      var rest := SortByIndex(s[1..]);
      assert forall y :: y in rest ==> y in s;
      InsertByIndex(s[0], rest)
  }

  lemma {:induction false} SortByIndexDistinct(s: seq<StorageLocation>)
    requires Distinct(s)
    ensures Distinct(SortByIndex(s))
  {
    if |s| > 0 {
      SortByIndexDistinct(s[1..]);
      assert s[0] !in SortByIndex(s[1..]);
      InsertByIndexDistinct(s[0], SortByIndex(s[1..]));
    }
  }

  /** `uniqueLocations`: one pin per coordinate, the one with the highest index, ordered by index. */
  function UniqueLocations(locations: seq<StorageLocation>): (r: seq<StorageLocation>)
    reads locations
  {
    var elected := ElectedIn(locations, locations);
    assert forall y :: y in elected ==> y in locations;
    SortByIndex(elected)
  }

  /** Every pin drawn is a stored pin, and the pins drawn come in index order. */
  lemma UniqueLocationsAreSortedInputs(locations: seq<StorageLocation>)
    ensures SortedByIndex(UniqueLocations(locations))
    ensures forall y :: y in UniqueLocations(locations) ==> y in locations
  {
  }

  /** No two pins drawn share a coordinate. */
  lemma UniqueLocationsOnePerKey(locations: seq<StorageLocation>)
    requires UniqueIds(locations)
    ensures var r := UniqueLocations(locations);
            forall i, j :: 0 <= i < j < |r| ==> Key(r[i]) != Key(r[j])
  {
    assert Distinct(locations) by {
      forall i, j | 0 <= i < j < |locations| ensures locations[i] != locations[j] {
        assert locations[i].id != locations[j].id;
      }
    }
    ElectedInDistinct(locations, locations);
    SortByIndexDistinct(ElectedIn(locations, locations));
    var r := UniqueLocations(locations);
    forall i, j | 0 <= i < j < |r| ensures Key(r[i]) != Key(r[j]) {
      assert r[i] in r && r[j] in r;
      assert Elected(locations, r[i]) == r[i] && Elected(locations, r[j]) == r[j];
    }
  }

  /** Each pin drawn has the highest index among the stored pins at its coordinate. */
  lemma UniqueLocationsKeepMaximum(locations: seq<StorageLocation>)
    ensures forall y, l :: y in UniqueLocations(locations) && l in locations && Key(l) == Key(y) ==> l.index <= y.index
  {
    forall y, l | y in UniqueLocations(locations) && l in locations && Key(l) == Key(y) ensures l.index <= y.index {
      assert Elected(locations, y) == y;
    }
  }

  /** Every coordinate that has a stored pin has a pin drawn. */
  lemma UniqueLocationsCoverEveryKey(locations: seq<StorageLocation>)
    ensures forall l :: l in locations ==> exists y :: y in UniqueLocations(locations) && Key(y) == Key(l)
  {
    forall l | l in locations ensures exists y :: y in UniqueLocations(locations) && Key(y) == Key(l) {
      var e := Elected(locations, l);
      assert Group(locations, Key(e)) == Group(locations, Key(l));
      assert Elected(locations, e) == e;
      assert e in UniqueLocations(locations);
    }
  }

  /** The selection after tapping the pin `id`: cleared if it was selected, otherwise that pin. */
  function Toggled(selectedLocationId: Option<string>, id: string): Option<string>
  {
    if selectedLocationId == Some(id) then None else Some(id)
  }

  /** After a tap the tapped pin is selected exactly when it was not before, and no other pin is. */
  lemma TapSelects(selectedLocationId: Option<string>, id: string, other: string)
    requires other != id
    ensures Toggled(selectedLocationId, id) == Some(id) <==> selectedLocationId != Some(id)
    ensures Toggled(selectedLocationId, id) != Some(other)
  {
  }

  /** A second tap on the same pin undoes the first, unless another pin was selected before. */
  lemma TapTwice(selectedLocationId: Option<string>, id: string)
    ensures Toggled(Toggled(selectedLocationId, id), id) == selectedLocationId
            <==> selectedLocationId.None? || selectedLocationId == Some(id)
  {
  }

  /** `isShortText`: a title under 30 characters. */
  predicate IsShortText(title: string)
  {
    |title| < 30
  }

  /** The bubble's frame: how wide it may grow (None: unbounded) and whether it keeps its ideal width. */
  datatype BubbleFrame = BubbleFrame(maxWidth: Option<real>, fixedHorizontal: bool)

  const BubbleMaxWidth: real := 160.0

  function BubbleFrameOf(title: string): BubbleFrame
  {
    BubbleFrame(if IsShortText(title) then None else Some(BubbleMaxWidth), IsShortText(title))
  }

  /** A short title keeps its own width; a long one wraps within 160 points; never both. */
  lemma BubbleFrameRule(title: string)
    ensures BubbleFrameOf(title).fixedHorizontal <==> |title| < 30
    ensures BubbleFrameOf(title).maxWidth.None? <==> BubbleFrameOf(title).fixedHorizontal
    ensures BubbleFrameOf(title).maxWidth.Some? ==> BubbleFrameOf(title).maxWidth.value == 160.0
  {
  }

  const AlertPrefixTitleName: string := "Do you want to add location"
  const AlertSuffixTitleName: string := "?"
  const StorageConversionErrorMessage: string := "Error: Failed to convert location to storage model"
  const LoadLocationErrorMessage: string := "Could not load location"

  /** The confirmation text for a geocoded place: prefix, a space, the name, then "?". */
  function ConfirmPrompt(name: string): (m: string)
    ensures m == "Do you want to add location " + name + "?"
  {
    AlertPrefixTitleName + " " + name + AlertSuffixTitleName
  }

  /** The name can be read back from the prompt, so distinct places get distinct prompts. */
  lemma ConfirmPromptNamesPlace(name: string, other: string)
    requires ConfirmPrompt(name) == ConfirmPrompt(other)
    ensures name == other
  {
    var n := |AlertPrefixTitleName| + 1;
    assert |name| == |other|;
    assert name == ConfirmPrompt(name)[n..n + |name|];
    assert other == ConfirmPrompt(other)[n..n + |other|];
  }

  /** Adding a pin with index count + 1 after pins numbered 1..n keeps them numbered 1..n+1. */
  lemma AppendKeepsNumbering(xs: seq<int>)
    requires NumberedFromOne(xs)
    ensures NumberedFromOne(xs + [|xs| + 1])
  {
  }

  /** The first map screen. */
  class MapScreen {
    const modelContext: ModelContext
    /** The query result, sorted by index. */
    var locations: seq<StorageLocation>
    var cameraCenter: Coordinate
    var hasCenteredOnUserLocation: bool
    var isShowingAlert: bool
    var isLoading: bool
    var isSingleButtonAlert: bool
    var userCoordinate: Option<Coordinate>
    var alertMessage: string
    var newLocation: Option<Location>
    var selectedLocationId: Option<string>

    constructor(modelContext: ModelContext, locations: seq<StorageLocation>)
      ensures this.modelContext == modelContext && this.locations == locations
      ensures cameraCenter == Coordinate(50.4501, 30.5234) && !hasCenteredOnUserLocation
      ensures !isShowingAlert && !isLoading && !isSingleButtonAlert && alertMessage == ""
      ensures userCoordinate.None? && newLocation.None? && selectedLocationId.None?
    {
      this.modelContext := modelContext;
      this.locations := locations;
      cameraCenter := Coordinate(50.4501, 30.5234);
      hasCenteredOnUserLocation := false;
      isShowingAlert := false;
      isLoading := false;
      isSingleButtonAlert := false;
      userCoordinate := None;
      alertMessage := "";
      newLocation := None;
      selectedLocationId := None;
    }

    /** The pins drawn. */
    function Pins(): seq<StorageLocation>
      reads this, locations
    {
      UniqueLocations(locations)
    }

    method ShowErrorAlert(message: string)
      modifies this
      ensures alertMessage == message && isSingleButtonAlert && isShowingAlert
      ensures locations == old(locations) && newLocation == old(newLocation) && selectedLocationId == old(selectedLocationId)
      ensures isLoading == old(isLoading) && hasCenteredOnUserLocation == old(hasCenteredOnUserLocation)
      ensures cameraCenter == old(cameraCenter) && userCoordinate == old(userCoordinate)
    {
      alertMessage := message;
      isSingleButtonAlert := true;
      isShowingAlert := true;
    }

    /**
     * `handleAddLocation`, with the new pin's generated id and the save
     * outcome as parameters: with no pending place, the conversion error is
     * shown; otherwise one new pin, numbered one past the pins shown, with
     * the place's name and coordinates is stored, and the pending place is
     * cleared only if the save succeeds, the save error being shown if not.
     */
    method HandleAddLocation(newId: string, saveError: Option<string>)
      modifies this, modelContext
      ensures locations == old(locations) && selectedLocationId == old(selectedLocationId)
      ensures isLoading == old(isLoading) && hasCenteredOnUserLocation == old(hasCenteredOnUserLocation)
      ensures cameraCenter == old(cameraCenter) && userCoordinate == old(userCoordinate)
      ensures old(newLocation).None? ==>
                modelContext.objects == old(modelContext.objects) && newLocation.None?
                && isShowingAlert && isSingleButtonAlert && alertMessage == StorageConversionErrorMessage
      ensures old(newLocation).Some? ==>
                exists s: StorageLocation :: fresh(s) && modelContext.objects == old(modelContext.objects) + {s}
                  && s.id == newId && s.index == |locations| + 1 && s.name == old(newLocation).value.name
                  && s.latitude == old(newLocation).value.lat && s.longitude == old(newLocation).value.lon
      ensures old(newLocation).Some? && saveError.None? ==>
                newLocation.None? && isShowingAlert == old(isShowingAlert)
                && isSingleButtonAlert == old(isSingleButtonAlert) && alertMessage == old(alertMessage)
      ensures old(newLocation).Some? && saveError.Some? ==>
                newLocation == old(newLocation) && isShowingAlert && isSingleButtonAlert && alertMessage == saveError.value
    {
      if newLocation.None? {
        ShowErrorAlert(StorageConversionErrorMessage);
        return;
      }
      var storageLocation := AsStorageModel(newLocation.value);
      var newStorageLocation := new StorageLocation(newId, |locations| + 1, storageLocation.name,
                                                    storageLocation.longitude, storageLocation.latitude);
      modelContext.Insert(newStorageLocation);
      if saveError.None? {
        newLocation := None;
      } else {
        ShowErrorAlert(saveError.value);
      }
    }

    /**
     * `handlePress` once the geocoder has answered with `loaded`: with
     * auto-add on, the place is added at once; otherwise a two-button
     * confirmation naming it is raised and the place is kept pending; when
     * nothing was found, the load error is shown. The spinner is off again
     * at the end.
     */
    method HandlePress(isAutoAdding: bool, loaded: Option<Location>, newId: string, saveError: Option<string>)
      modifies this, modelContext
      ensures !isLoading && locations == old(locations) && selectedLocationId == old(selectedLocationId)
      ensures hasCenteredOnUserLocation == old(hasCenteredOnUserLocation) && cameraCenter == old(cameraCenter)
      ensures loaded.None? ==>
                modelContext.objects == old(modelContext.objects) && newLocation == old(newLocation)
                && isShowingAlert && isSingleButtonAlert && alertMessage == LoadLocationErrorMessage
      ensures loaded.Some? && !isAutoAdding ==>
                modelContext.objects == old(modelContext.objects) && newLocation == loaded
                && isShowingAlert && !isSingleButtonAlert && alertMessage == ConfirmPrompt(loaded.value.name)
      ensures loaded.Some? && isAutoAdding ==>
                exists s: StorageLocation :: fresh(s) && modelContext.objects == old(modelContext.objects) + {s}
                  && s.id == newId && s.index == |locations| + 1 && s.name == loaded.value.name
                  && s.latitude == loaded.value.lat && s.longitude == loaded.value.lon
      ensures loaded.Some? && isAutoAdding && saveError.None? ==>
                newLocation.None? && isShowingAlert == old(isShowingAlert)
                && isSingleButtonAlert == old(isSingleButtonAlert) && alertMessage == old(alertMessage)
      ensures loaded.Some? && isAutoAdding && saveError.Some? ==>
                newLocation == loaded && isShowingAlert && isSingleButtonAlert && alertMessage == saveError.value
    {
      isLoading := true;
      if loaded.Some? {
        if isAutoAdding {
          newLocation := loaded;
          HandleAddLocation(newId, saveError);
        } else {
          alertMessage := ConfirmPrompt(loaded.value.name);
          newLocation := loaded;
          isSingleButtonAlert := false;
          isShowingAlert := true;
        }
      } else {
        ShowErrorAlert(LoadLocationErrorMessage);
      }
      isLoading := false;
    }

    /** The tap handler of the pin `id`. */
    method TapPin(id: string)
      modifies this
      ensures selectedLocationId == Toggled(old(selectedLocationId), id)
      ensures newLocation == old(newLocation) && isShowingAlert == old(isShowingAlert) && locations == old(locations)
      ensures alertMessage == old(alertMessage) && isSingleButtonAlert == old(isSingleButtonAlert) && isLoading == old(isLoading)
      ensures cameraCenter == old(cameraCenter) && userCoordinate == old(userCoordinate)
              && hasCenteredOnUserLocation == old(hasCenteredOnUserLocation)
    {
      selectedLocationId := if selectedLocationId == Some(id) then None else Some(id);
    }

    /** The `.task` once the location service has answered: runs only until it has centered once. */
    method CenterOnUser(coordinate: Coordinate)
      modifies this
      ensures old(hasCenteredOnUserLocation) ==> cameraCenter == old(cameraCenter) && userCoordinate == old(userCoordinate)
      ensures !old(hasCenteredOnUserLocation) ==> cameraCenter == coordinate && userCoordinate == Some(coordinate)
      ensures hasCenteredOnUserLocation
      ensures newLocation == old(newLocation) && isShowingAlert == old(isShowingAlert) && selectedLocationId == old(selectedLocationId)
    {
      if hasCenteredOnUserLocation {
        return;
      }
      cameraCenter := coordinate;
      userCoordinate := Some(coordinate);
      hasCenteredOnUserLocation := true;
    }

    /** The camera follows the pin the view model selects, when there is one. */
    method SelectedLocationChanged(selected: Option<StorageLocation>)
      modifies this
      ensures selected.Some? ==> cameraCenter == Coordinate(selected.value.latitude, selected.value.longitude)
      ensures selected.None? ==> cameraCenter == old(cameraCenter)
      ensures newLocation == old(newLocation) && selectedLocationId == old(selectedLocationId) && isShowingAlert == old(isShowingAlert)
    {
      if selected.Some? {
        cameraCenter := Coordinate(selected.value.latitude, selected.value.longitude);
      }
    }

    /** `onDisappear`: the alert, its kind, the pending place and the selection are cleared. */
    method OnDisappear()
      modifies this
      ensures !isShowingAlert && !isSingleButtonAlert && newLocation.None? && selectedLocationId.None?
      ensures locations == old(locations) && alertMessage == old(alertMessage) && cameraCenter == old(cameraCenter)
      ensures hasCenteredOnUserLocation == old(hasCenteredOnUserLocation) && userCoordinate == old(userCoordinate)
    {
      isShowingAlert := false;
      isSingleButtonAlert := false;
      newLocation := None;
      selectedLocationId := None;
    }

    /** OK on the single-button alert. */
    method TapAlertOk()
      modifies this
      ensures !isShowingAlert && !isSingleButtonAlert
      ensures newLocation == old(newLocation) && alertMessage == old(alertMessage) && locations == old(locations)
    {
      isShowingAlert := false;
      isSingleButtonAlert := false;
    }

    /**
     * Confirm on the two-button alert: the alert is hidden first, then the
     * pending place is added, so a save error raised by the add stays shown.
     */
    method TapAlertConfirm(newId: string, saveError: Option<string>)
      modifies this, modelContext
      ensures locations == old(locations) && selectedLocationId == old(selectedLocationId)
      ensures isLoading == old(isLoading) && hasCenteredOnUserLocation == old(hasCenteredOnUserLocation)
      ensures cameraCenter == old(cameraCenter) && userCoordinate == old(userCoordinate)
      ensures old(newLocation).None? ==>
                modelContext.objects == old(modelContext.objects) && newLocation.None?
                && isShowingAlert && isSingleButtonAlert && alertMessage == StorageConversionErrorMessage
      ensures old(newLocation).Some? ==>
                exists s: StorageLocation :: fresh(s) && modelContext.objects == old(modelContext.objects) + {s}
                  && s.id == newId && s.index == |locations| + 1 && s.name == old(newLocation).value.name
                  && s.latitude == old(newLocation).value.lat && s.longitude == old(newLocation).value.lon
      ensures old(newLocation).Some? && saveError.None? ==>
                !isShowingAlert && newLocation.None?
                && isSingleButtonAlert == old(isSingleButtonAlert) && alertMessage == old(alertMessage)
      ensures old(newLocation).Some? && saveError.Some? ==>
                newLocation == old(newLocation) && isShowingAlert && isSingleButtonAlert && alertMessage == saveError.value
    {
      isShowingAlert := false;
      HandleAddLocation(newId, saveError);
    }

    /** Cancel on the two-button alert: only the alert is hidden; the pending place stays. */
    method TapAlertCancel()
      modifies this
      ensures !isShowingAlert
      ensures newLocation == old(newLocation) && isSingleButtonAlert == old(isSingleButtonAlert)
      ensures alertMessage == old(alertMessage) && locations == old(locations)
      ensures selectedLocationId == old(selectedLocationId) && isLoading == old(isLoading)
      ensures cameraCenter == old(cameraCenter) && userCoordinate == old(userCoordinate)
              && hasCenteredOnUserLocation == old(hasCenteredOnUserLocation)
    {
      isShowingAlert := false;
    }
  }
}
