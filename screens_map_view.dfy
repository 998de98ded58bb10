/**
 * The later map screen (MVVM/Views/Screens/MapView.swift): the same pins
 * and selection as the first one, with alerts raised through the shared
 * `AlertManager` and a one-time hint on an empty map.
 */
module ScreensMapView {
  import opened Wrappers
  import opened Storage
  import opened LocationAsStorageModel
  import opened AlertManager
  import MapView

  /** The closures this screen hands to the alert manager, by what they do. */
  datatype MapCallback =
    | Nothing                        // the default `onOK: {}`
    | AddLocation(location: Location) // `newLocation = location; handleAddLocation()`
    | DiscardLocation                // `newLocation = nil`
    | AcknowledgeInfo                // `isShownInfoAlert = true`

  const InfoAlertMessage: string := "Long press on map to add new location"

  /** The two flags that decide whether the empty-map hint is scheduled. */
  datatype HintFlags = HintFlags(isShownInfoAlert: bool, isFirstScreenBoot: bool)

  const InitialHintFlags := HintFlags(false, false)

  /**
   * `onAppear`'s hint step: the hint is scheduled when it has never been
   * acknowledged, there are no pins and this is not the first appearance;
   * afterwards the screen counts as booted.
   */
  function Appear(f: HintFlags, isEmpty: bool): (r: (HintFlags, bool))
    ensures r.0.isFirstScreenBoot && r.0.isShownInfoAlert == f.isShownInfoAlert
    ensures r.1 <==> !f.isShownInfoAlert && isEmpty && f.isFirstScreenBoot
  {
    (f.(isFirstScreenBoot := true), !f.isShownInfoAlert && isEmpty && f.isFirstScreenBoot)
  }

  /** What can happen to the hint flags: an appearance (with or without pins) or the hint's OK. */
  datatype HintEvent = Appeared(isEmpty: bool) | Acknowledged

  /** For each event of a run, whether it scheduled the hint. */
  function Schedules(f: HintFlags, events: seq<HintEvent>): (r: seq<bool>)
    ensures |r| == |events|
    decreases |events|
  {
    if |events| == 0 then []
    else
      match events[0]
      case Appeared(isEmpty) => [Appear(f, isEmpty).1] + Schedules(Appear(f, isEmpty).0, events[1..])
      case Acknowledged => [false] + Schedules(f.(isShownInfoAlert := true), events[1..])
  }

  /** The hint is never scheduled on the screen's first appearance. */
  lemma FirstAppearanceNeverSchedules(events: seq<HintEvent>)
    requires |events| > 0 && events[0].Appeared?
    ensures !Schedules(InitialHintFlags, events)[0]
  {
  }

  /** Once acknowledged, the hint is never scheduled again, whatever follows. */
  lemma {:induction false} AcknowledgedNeverSchedules(f: HintFlags, events: seq<HintEvent>)
    requires f.isShownInfoAlert
    ensures forall i :: 0 <= i < |events| ==> !Schedules(f, events)[i]
    decreases |events|
  {
    if |events| > 0 {
      match events[0]
      case Appeared(isEmpty) =>
        AcknowledgedNeverSchedules(Appear(f, isEmpty).0, events[1..]);
      case Acknowledged =>
        AcknowledgedNeverSchedules(f.(isShownInfoAlert := true), events[1..]);
    }
  }

  /**
   * Until it is acknowledged, every appearance after the first schedules the
   * hint exactly when the map has no pins.
   */
  lemma {:induction false} LaterAppearancesScheduleWhenEmpty(f: HintFlags, events: seq<HintEvent>)
    requires !f.isShownInfoAlert && f.isFirstScreenBoot
    requires forall i :: 0 <= i < |events| ==> events[i].Appeared?
    ensures forall i :: 0 <= i < |events| ==> (Schedules(f, events)[i] <==> events[i].isEmpty)
    decreases |events|
  {
    if |events| > 0 {
      LaterAppearancesScheduleWhenEmpty(Appear(f, events[0].isEmpty).0, events[1..]);
      assert Appear(f, events[0].isEmpty).0 == f;
      forall i | 1 <= i < |events| ensures Schedules(f, events)[i] == Schedules(f, events[1..])[i - 1] {
      }
    }
  }

  class MapScreen {
    const modelContext: ModelContext
    const alertManager: AlertManager<MapCallback>
    /** The query result, sorted by index. */
    var locations: seq<StorageLocation>
    var cameraCenter: MapView.Coordinate
    var hasCenteredOnUserLocation: bool
    var isLoading: bool
    var userCoordinate: Option<MapView.Coordinate>
    var newLocation: Option<Location>
    var selectedLocationId: Option<string>
    var isShownInfoAlert: bool
    var isFirstScreenBoot: bool

    constructor(modelContext: ModelContext, alertManager: AlertManager<MapCallback>, locations: seq<StorageLocation>)
      ensures this.modelContext == modelContext && this.alertManager == alertManager && this.locations == locations
      ensures cameraCenter == MapView.Coordinate(50.4501, 30.5234) && !hasCenteredOnUserLocation && !isLoading
      ensures userCoordinate.None? && newLocation.None? && selectedLocationId.None?
      ensures Flags() == InitialHintFlags
    {
      this.modelContext := modelContext;
      this.alertManager := alertManager;
      this.locations := locations;
      cameraCenter := MapView.Coordinate(50.4501, 30.5234);
      hasCenteredOnUserLocation := false;
      isLoading := false;
      userCoordinate := None;
      newLocation := None;
      selectedLocationId := None;
      isShownInfoAlert := false;
      isFirstScreenBoot := false;
    }

    function Flags(): HintFlags
      reads this
    {
      HintFlags(isShownInfoAlert, isFirstScreenBoot)
    }

    /** The pins drawn: the same rule as the first map screen. */
    function Pins(): seq<StorageLocation>
      reads this, locations
    {
      MapView.UniqueLocations(locations)
    }

    /**
     * `handleAddLocation`: as on the first map screen, except that errors go
     * to the alert manager as informational alerts.
     */
    method HandleAddLocation(newId: string, saveError: Option<string>)
      modifies this, modelContext, alertManager
      ensures locations == old(locations) && selectedLocationId == old(selectedLocationId) && Flags() == old(Flags())
      ensures isLoading == old(isLoading) && hasCenteredOnUserLocation == old(hasCenteredOnUserLocation)
      ensures cameraCenter == old(cameraCenter) && userCoordinate == old(userCoordinate)
      ensures old(newLocation).None? ==>
                modelContext.objects == old(modelContext.objects) && newLocation.None?
                && alertManager.State() == ShowInfo(old(alertManager.State()), MapView.StorageConversionErrorMessage, Nothing)
      ensures old(newLocation).Some? ==>
                exists s: StorageLocation :: fresh(s) && modelContext.objects == old(modelContext.objects) + {s}
                  && s.id == newId && s.index == |locations| + 1 && s.name == old(newLocation).value.name
                  && s.latitude == old(newLocation).value.lat && s.longitude == old(newLocation).value.lon
      ensures old(newLocation).Some? && saveError.None? ==>
                newLocation.None? && alertManager.State() == old(alertManager.State())
      ensures old(newLocation).Some? && saveError.Some? ==>
                newLocation == old(newLocation)
                && alertManager.State() == ShowInfo(old(alertManager.State()), saveError.value, Nothing)
    {
      if newLocation.None? {
        alertManager.ShowInfoWith(MapView.StorageConversionErrorMessage, Nothing);
        return;
      }
      var storageLocation := AsStorageModel(newLocation.value);
      var newStorageLocation := new StorageLocation(newId, |locations| + 1, storageLocation.name,
                                                    storageLocation.longitude, storageLocation.latitude);
      modelContext.Insert(newStorageLocation);
      if saveError.None? {
        newLocation := None;
      } else {
        alertManager.ShowInfoWith(saveError.value, Nothing);
      }
    }

    /**
     * `handlePress` once the geocoder has answered: with auto-add on, the
     * place is added with no confirmation; otherwise a confirmation naming
     * it is raised whose buttons add it or discard it; when nothing was
     * found, the load error is shown.
     */
    method HandlePress(isAutoAdding: bool, loaded: Option<Location>, newId: string, saveError: Option<string>)
      modifies this, modelContext, alertManager
      ensures !isLoading && locations == old(locations) && selectedLocationId == old(selectedLocationId)
      ensures Flags() == old(Flags()) && hasCenteredOnUserLocation == old(hasCenteredOnUserLocation)
      ensures loaded.None? ==>
                modelContext.objects == old(modelContext.objects) && newLocation == old(newLocation)
                && alertManager.State() == ShowInfo(old(alertManager.State()), MapView.LoadLocationErrorMessage, Nothing)
      ensures loaded.Some? && !isAutoAdding ==>
                modelContext.objects == old(modelContext.objects) && newLocation == old(newLocation)
                && alertManager.State() == ShowConfirm(old(alertManager.State()), MapView.ConfirmPrompt(loaded.value.name),
                                                       AddLocation(loaded.value), DiscardLocation)
      ensures loaded.Some? && isAutoAdding ==>
                exists s: StorageLocation :: fresh(s) && modelContext.objects == old(modelContext.objects) + {s}
                  && s.id == newId && s.index == |locations| + 1 && s.name == loaded.value.name
                  && s.latitude == loaded.value.lat && s.longitude == loaded.value.lon
      ensures loaded.Some? && isAutoAdding && saveError.None? ==>
                newLocation.None? && alertManager.State() == old(alertManager.State())
      ensures loaded.Some? && isAutoAdding && saveError.Some? ==>
                newLocation == loaded
                && alertManager.State() == ShowInfo(old(alertManager.State()), saveError.value, Nothing)
    {
      isLoading := true;
      if loaded.Some? {
        var location := loaded.value;
        if isAutoAdding {
          newLocation := loaded;
          HandleAddLocation(newId, saveError);
        } else {
          alertManager.ShowConfirmWith(MapView.ConfirmPrompt(location.name), AddLocation(location), DiscardLocation);
        }
      } else {
        alertManager.ShowInfoWith(MapView.LoadLocationErrorMessage, Nothing);
      }
      isLoading := false;
    }

    /** Runs one of this screen's callbacks. */
    method Perform(callback: MapCallback, newId: string, saveError: Option<string>)
      modifies this, modelContext, alertManager
      ensures locations == old(locations) && selectedLocationId == old(selectedLocationId)
      ensures !callback.AddLocation? ==> modelContext.objects == old(modelContext.objects)
      ensures callback.Nothing? ==> newLocation == old(newLocation) && Flags() == old(Flags())
                                    && alertManager.State() == old(alertManager.State())
      ensures callback.DiscardLocation? ==> newLocation.None? && Flags() == old(Flags())
                                            && alertManager.State() == old(alertManager.State())
      ensures callback.AcknowledgeInfo? ==> newLocation == old(newLocation) && isShownInfoAlert
                                            && isFirstScreenBoot == old(isFirstScreenBoot)
                                            && alertManager.State() == old(alertManager.State())
      ensures callback.AddLocation? ==>
                Flags() == old(Flags())
                && (exists s: StorageLocation :: fresh(s) && modelContext.objects == old(modelContext.objects) + {s}
                      && s.id == newId && s.index == |locations| + 1 && s.name == callback.location.name
                      && s.latitude == callback.location.lat && s.longitude == callback.location.lon)
                && (saveError.None? ==> newLocation.None? && alertManager.State() == old(alertManager.State()))
                && (saveError.Some? ==>
                      newLocation == Some(callback.location)
                      && alertManager.State() == ShowInfo(old(alertManager.State()), saveError.value, Nothing))
    {
      match callback
      case Nothing =>
      case AddLocation(location) =>
        newLocation := Some(location);
        HandleAddLocation(newId, saveError);
      case DiscardLocation =>
        newLocation := None;
      case AcknowledgeInfo =>
        isShownInfoAlert := true;
    }

    /**
     * A stored closure as the manager builds it: the callback, then
     * `isPresented = false`. An error alert the callback raises is hidden
     * at once.
     */
    method RunStoredAsWritten(action: Stored<MapCallback>, newId: string, saveError: Option<string>)
      modifies this, modelContext, alertManager
      ensures action == RunThenHide(AcknowledgeInfo) ==>
                isShownInfoAlert && isFirstScreenBoot == old(isFirstScreenBoot) && newLocation == old(newLocation)
      ensures action != RunThenHide(AcknowledgeInfo) ==> Flags() == old(Flags())
      ensures locations == old(locations) && selectedLocationId == old(selectedLocationId)
      ensures !(action.RunThenHide? && action.callback.AddLocation?) ==> modelContext.objects == old(modelContext.objects)
      ensures action.RunThenHide? && action.callback.AddLocation? ==>
                (exists s: StorageLocation :: fresh(s) && modelContext.objects == old(modelContext.objects) + {s}
                   && s.id == newId && s.index == |locations| + 1 && s.name == action.callback.location.name
                   && s.latitude == action.callback.location.lat && s.longitude == action.callback.location.lon)
                && (saveError.None? ==> newLocation.None?)
                && (saveError.Some? ==> newLocation == Some(action.callback.location))
      ensures action.DoNothing? ==> newLocation == old(newLocation)
      ensures action.RunThenHide? && action.callback.AddLocation? && saveError.Some? ==>
                alertManager.State() == Hidden(ShowInfo(old(alertManager.State()), saveError.value, Nothing))
      ensures action.RunThenHide? && !(action.callback.AddLocation? && saveError.Some?) ==>
                alertManager.State() == Hidden(old(alertManager.State()))
      ensures action.RunThenHide? ==> !alertManager.isPresented
      ensures action.DoNothing? ==> alertManager.State() == old(alertManager.State())
      ensures action == RunThenHide(DiscardLocation) ==>
                newLocation.None? && modelContext.objects == old(modelContext.objects)
    {
      if action.RunThenHide? {
        Perform(action.callback, newId, saveError);
        alertManager.Hide();
      }
    }

    /**
     * The closure with the intended order, hide first and then the
     * callback, as the first map screen's alert does: an alert the callback
     * raises stays presented.
     */
    method RunStored(action: Stored<MapCallback>, newId: string, saveError: Option<string>)
      modifies this, modelContext, alertManager
      ensures action == RunThenHide(AcknowledgeInfo) ==>
                isShownInfoAlert && isFirstScreenBoot == old(isFirstScreenBoot) && newLocation == old(newLocation)
      ensures action != RunThenHide(AcknowledgeInfo) ==> Flags() == old(Flags())
      ensures locations == old(locations) && selectedLocationId == old(selectedLocationId)
      ensures !(action.RunThenHide? && action.callback.AddLocation?) ==> modelContext.objects == old(modelContext.objects)
      ensures action.RunThenHide? && action.callback.AddLocation? ==>
                (exists s: StorageLocation :: fresh(s) && modelContext.objects == old(modelContext.objects) + {s}
                   && s.id == newId && s.index == |locations| + 1 && s.name == action.callback.location.name
                   && s.latitude == action.callback.location.lat && s.longitude == action.callback.location.lon)
                && (saveError.None? ==> newLocation.None?)
                && (saveError.Some? ==> newLocation == Some(action.callback.location))
      ensures action.DoNothing? ==> newLocation == old(newLocation)
      ensures action.RunThenHide? && action.callback.AddLocation? && saveError.Some? ==>
                alertManager.State() == ShowInfo(Hidden(old(alertManager.State())), saveError.value, Nothing)
      ensures action.RunThenHide? && action.callback.AddLocation? && saveError.Some? ==>
                alertManager.isPresented && alertManager.message == saveError.value
      ensures action.RunThenHide? && !(action.callback.AddLocation? && saveError.Some?) ==>
                alertManager.State() == Hidden(old(alertManager.State()))
      ensures action.DoNothing? ==> alertManager.State() == old(alertManager.State())
      ensures action == RunThenHide(DiscardLocation) ==>
                newLocation.None? && modelContext.objects == old(modelContext.objects)
    {
      if action.RunThenHide? {
        alertManager.Hide();
        Perform(action.callback, newId, saveError);
      }
    }

    /**
     * The confirm button of the presented alert, as the app has it: the
     * stored closure runs the callback and then hides, so a failed add ends
     * with its error alert unpresented.
     */
    method TapAlertConfirmAsWritten(newId: string, saveError: Option<string>)
      modifies this, modelContext, alertManager
      ensures old(alertManager.onConfirm) == RunThenHide(AcknowledgeInfo) ==>
                isShownInfoAlert && isFirstScreenBoot == old(isFirstScreenBoot) && newLocation == old(newLocation)
      ensures old(alertManager.onConfirm) != RunThenHide(AcknowledgeInfo) ==> Flags() == old(Flags())
      ensures locations == old(locations) && selectedLocationId == old(selectedLocationId)
      ensures var a := old(alertManager.onConfirm);
              !(a.RunThenHide? && a.callback.AddLocation?) ==> modelContext.objects == old(modelContext.objects)
      ensures var a := old(alertManager.onConfirm);
              a.RunThenHide? && a.callback.AddLocation? ==>
                (exists s: StorageLocation :: fresh(s) && modelContext.objects == old(modelContext.objects) + {s}
                   && s.id == newId && s.index == |locations| + 1 && s.name == a.callback.location.name
                   && s.latitude == a.callback.location.lat && s.longitude == a.callback.location.lon)
                && (saveError.None? ==> newLocation.None?)
                && (saveError.Some? ==> newLocation == Some(a.callback.location))
      ensures var a := old(alertManager.onConfirm);
              a.RunThenHide? && a.callback.AddLocation? && saveError.Some? ==>
                alertManager.State() == Hidden(ShowInfo(old(alertManager.State()), saveError.value, Nothing))
      ensures var a := old(alertManager.onConfirm);
              a.RunThenHide? && !(a.callback.AddLocation? && saveError.Some?) ==>
                alertManager.State() == Hidden(old(alertManager.State()))
      ensures old(alertManager.onConfirm).RunThenHide? ==> !alertManager.isPresented
      ensures old(alertManager.onConfirm).DoNothing? ==> alertManager.State() == old(alertManager.State())
    {
      RunStoredAsWritten(alertManager.onConfirm, newId, saveError);
    }

    /**
     * The confirm button with the corrected closure (hide, then the
     * callback): unlike the app's button, a failed add leaves its error
     * alert presented.
     */
    method TapAlertConfirm(newId: string, saveError: Option<string>)
      modifies this, modelContext, alertManager
      ensures old(alertManager.onConfirm) == RunThenHide(AcknowledgeInfo) ==>
                isShownInfoAlert && isFirstScreenBoot == old(isFirstScreenBoot) && newLocation == old(newLocation)
      ensures old(alertManager.onConfirm) != RunThenHide(AcknowledgeInfo) ==> Flags() == old(Flags())
      ensures locations == old(locations) && selectedLocationId == old(selectedLocationId)
      ensures var a := old(alertManager.onConfirm);
              !(a.RunThenHide? && a.callback.AddLocation?) ==> modelContext.objects == old(modelContext.objects)
      ensures var a := old(alertManager.onConfirm);
              a.RunThenHide? && a.callback.AddLocation? ==>
                (exists s: StorageLocation :: fresh(s) && modelContext.objects == old(modelContext.objects) + {s}
                   && s.id == newId && s.index == |locations| + 1 && s.name == a.callback.location.name
                   && s.latitude == a.callback.location.lat && s.longitude == a.callback.location.lon)
                && (saveError.None? ==> newLocation.None?)
                && (saveError.Some? ==> newLocation == Some(a.callback.location))
      ensures var a := old(alertManager.onConfirm);
              a.RunThenHide? && a.callback.AddLocation? && saveError.Some? ==>
                alertManager.isPresented && alertManager.layout.Informational? && alertManager.message == saveError.value
      ensures var a := old(alertManager.onConfirm);
              a.RunThenHide? && !(a.callback.AddLocation? && saveError.Some?) ==> !alertManager.isPresented
    {
      RunStored(alertManager.onConfirm, newId, saveError);
    }

    /**
     * The cancel button of the presented alert, when it has one, with the
     * closure as written. Discarding raises no alert, so the order of the
     * callback and the hide does not matter here.
     */
    method TapAlertCancel(newId: string, saveError: Option<string>)
      modifies this, modelContext, alertManager
      ensures old(alertManager.onCancel) == Some(RunThenHide(DiscardLocation)) ==>
                newLocation.None? && !alertManager.isPresented && modelContext.objects == old(modelContext.objects)
      ensures old(alertManager.onCancel).None? ==>
                unchanged(this) && alertManager.State() == old(alertManager.State())
                && modelContext.objects == old(modelContext.objects)
      ensures locations == old(locations) && selectedLocationId == old(selectedLocationId)
      ensures old(alertManager.onCancel) != Some(RunThenHide(AcknowledgeInfo)) ==> Flags() == old(Flags())
    {
      if alertManager.onCancel.Some? {
        RunStoredAsWritten(alertManager.onCancel.value, newId, saveError);
      }
    }

    /** The pin tap, as on the first map screen. */
    method TapPin(id: string)
      modifies this
      ensures selectedLocationId == MapView.Toggled(old(selectedLocationId), id)
      ensures newLocation == old(newLocation) && Flags() == old(Flags()) && locations == old(locations)
    {
      selectedLocationId := if selectedLocationId == Some(id) then None else Some(id);
    }

    /**
     * `onAppear`: whether centering on the user starts (only while not yet
     * centered) and whether the hint is scheduled, by `Appear`.
     */
    method OnAppear() returns (startsCentering: bool, schedulesHint: bool)
      modifies this
      ensures startsCentering == !hasCenteredOnUserLocation
      ensures (Flags(), schedulesHint) == Appear(old(Flags()), |locations| == 0)
      ensures locations == old(locations) && newLocation == old(newLocation) && hasCenteredOnUserLocation == old(hasCenteredOnUserLocation)
    {
      startsCentering := !hasCenteredOnUserLocation;
      schedulesHint := !isShownInfoAlert && |locations| == 0 && isFirstScreenBoot;
      isFirstScreenBoot := true;
    }

    /** The centering task once the location service has answered. */
    method FinishCentering(coordinate: MapView.Coordinate)
      modifies this
      ensures cameraCenter == coordinate && userCoordinate == Some(coordinate) && hasCenteredOnUserLocation
      ensures Flags() == old(Flags()) && newLocation == old(newLocation) && locations == old(locations)
    {
      cameraCenter := coordinate;
      userCoordinate := Some(coordinate);
      hasCenteredOnUserLocation := true;
    }

    /** The scheduled hint: an informational alert whose OK acknowledges it. */
    method ShowHint()
      modifies alertManager
      ensures alertManager.State() == ShowInfo(old(alertManager.State()), InfoAlertMessage, AcknowledgeInfo)
    {
      alertManager.ShowError(InfoAlertMessage, AcknowledgeInfo);
    }

    /** The camera follows the pin the view model selects, when there is one. */
    method SelectedLocationChanged(selected: Option<StorageLocation>)
      modifies this
      ensures selected.Some? ==> cameraCenter == MapView.Coordinate(selected.value.latitude, selected.value.longitude)
      ensures selected.None? ==> cameraCenter == old(cameraCenter)
      ensures Flags() == old(Flags()) && newLocation == old(newLocation) && selectedLocationId == old(selectedLocationId)
    {
      if selected.Some? {
        cameraCenter := MapView.Coordinate(selected.value.latitude, selected.value.longitude);
      }
    }

    /** `onDisappear`: the pending place and the selection are cleared. */
    method OnDisappear()
      modifies this
      ensures newLocation.None? && selectedLocationId.None?
      ensures Flags() == old(Flags()) && locations == old(locations) && hasCenteredOnUserLocation == old(hasCenteredOnUserLocation)
    {
      newLocation := None;
      selectedLocationId := None;
    }
  }
}
