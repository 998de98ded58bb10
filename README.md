# PinBoard core, modelled in Dafny

PinBoard is an iOS app that keeps a numbered board of map pins behind a
passcode and biometric lock. This project models the app logic you can state
precisely, and proves what that code promises:

- **The pin list.** Deleting a pin renumbers the ones after it. Drag and drop
  moves a pin and renumbers the whole list 1..n.
- **The map.** One pin is drawn per coordinate: the highest-numbered one, in
  index order. The model also covers adding a pin from a long press, toggling
  pin selection, and the flags of the first-use hint.
- **Alerts.** The shared alert manager and the alert card's button titles.
- **The tab bar.** The tabs, and the start-up loop that shows each tab once.
- **Passcode entry.** The four-digit buffer, the completion trigger and the
  indicator dots.
- **The two authenticator versions.** This covers the failed-attempt counter,
  the biometric lock and the stored encrypted passcode.
- **The encryption service.** How it derives its key: truncate, then pad with
  zeros.

Each Swift file of the core is a module:

| Swift file | Module |
|---|---|
| `MVVM/Views/ListView.swift` | `ListView` |
| `MVVM/Views/MapView.swift` | `MapView` |
| `MVVM/Views/Screens/MapView.swift` | `ScreensMapView` |
| `MVVM/Views/HomeView.swift` | `HomeView` |
| `MVVM/Models/Tab.swift` | `Tab` |
| `MVVM/ViewModel/PinBoardViewModel.swift` | `PinBoardViewModel` |
| `MVVM/Views/PasscodeTemplateView.swift` | `PasscodeTemplateView` |
| `MVVM/Views/Components/PasscodeIndicatorView.swift` | `PasscodeIndicatorView` |
| `Services/AuthenticatorService.swift` | `AuthenticatorService` |
| `Service/Authenticator.swift` | `Authenticator` |
| `Managers/AlertManager.swift` | `AlertManager` |
| `MVVM/Views/Components/AlertView.swift` | `AlertView` |
| `Services/AESEncryptionService.swift` | `AESEncryptionService` |
| `Extensions/Data+padWithZeros.swift` | `DataPadWithZeros` |
| `Extensions/Location+asStorageModel.swift` | `LocationAsStorageModel` |

Supporting modules:

- `Storage`: the SwiftData model object and its context.
- `Seqs`: the Swift `Array` operations the views use.
- `Utf8`: a concrete UTF-8 codec.
- `Crypto`: AES-GCM and base64 as parameters.
- `Interpolation`: `"\(n)"` for an `Int`.
- `GlobalConstants` and `Wrappers`: constants and `Option`.

Where the source mutates state, the model does too:

- SwiftUI views that update `@State` are classes whose methods change those
  fields. The pin objects are objects whose `index` the list renumbers in
  place.
- Pure computed properties are functions, and what they promise is proved in
  lemmas.

What the app gets from outside becomes an input of the method that uses it:

- the geocoder's answer;
- whether a SwiftData save fails, and with what message;
- LocalAuthentication's answers;
- the generated UUIDs and nonces.

The preference store (`UserDefaults`) is a map from key to string. AES-GCM,
base64 and the older version's cipher are parameters. Each comes with a
predicate stating what the model assumes of it: `Crypto.Lawful` and
`Authenticator.RoundTrips`. `Crypto.LawfulPrimitivesExist` shows that
`Crypto.Lawful` can be met. `Crypto.Lawful` assumes four things:

- opening a sealed box with the sealing key gives the plain text back;
- opening it with any other key fails. Real AES-GCM only makes this
  overwhelmingly likely, since a forged tag can verify by chance;
- base64 decoding inverts base64 encoding;
- `Data(base64Encoded:)` rejects a text with a character outside the
  base64 alphabet.

The first and third give the round trips (`AESEncryptionService.DecryptEncrypt`
and the examples). `AESEncryptionService.DecryptWithOtherKey` and
`CorrectAndWrongKeyDiffer` rest on the second. `DecryptRejectsNonBase64` and
`NotBase64Example` rest on the fourth.

## Model

Source paths are relative to the repository root.

| member | source | states |
|---|---|---|
| Storage.StorageLocation.constructor | PinBoard/PinBoard/MVVM/Models/StorageLocation.swift:23-28 | A new pin carries the id, index, name and coordinates it was given. |
| Storage.Indices | PinBoard/PinBoard/MVVM/Views/ListView.swift:54 | The list of indices has one entry per pin, in sequence order. |
| Storage.ModelContext.constructor | PinBoard/PinBoard/MVVM/Views/ListView.swift:53 | A new context stores nothing. |
| Storage.ModelContext.Insert | PinBoard/PinBoard/MVVM/Views/MapView.swift:341 | `insert` adds exactly that pin to the store. |
| Storage.ModelContext.Delete | PinBoard/PinBoard/MVVM/Views/ListView.swift:378 | `delete` removes exactly that pin from the store. |
| Seqs.FirstIndex | PinBoard/PinBoard/MVVM/Views/ListView.swift:398-399 | `firstIndex` returns a position whose element passes the test, with no earlier position passing. It returns nil only when no position passes. |
| Seqs.RemoveAt | PinBoard/PinBoard/MVVM/Views/ListView.swift:406 | One element fewer. The elements before the position stay, and those after it shift down by one. |
| Seqs.InsertAt | PinBoard/PinBoard/MVVM/Views/ListView.swift:406 | One element more, with the new element at the position. The elements before it stay, and those after it shift up by one. |
| Seqs.Move | PinBoard/PinBoard/MVVM/Views/ListView.swift:406 | Swift's `move(fromOffsets:toOffset:)` for one element keeps the length. The lemmas below state where the element lands, the permutation and the order of the rest. |
| Seqs.MoveLandsAt | PinBoard/PinBoard/MVVM/Views/ListView.swift:406 | With offset `to > from ? to + 1 : to`, `move` puts the dragged element at position `to`. |
| Seqs.MoveKeepsOthersInOrder | PinBoard/PinBoard/MVVM/Views/ListView.swift:406 | Removing the moved element from the result gives the original with that element removed, so the rest keep their order. |
| Seqs.RemoveInsert | PinBoard/PinBoard/MVVM/Views/ListView.swift:406 | Removing at a position undoes inserting at it. |
| Seqs.MovePermutes | PinBoard/PinBoard/MVVM/Views/ListView.swift:406 | A move keeps the same multiset of elements. |
| Seqs.MoveKeepsDistinct | PinBoard/PinBoard/MVVM/Views/ListView.swift:406 | A move never duplicates an element. |
| ListView.RenumberedAfterDelete | PinBoard/PinBoard/MVVM/Views/ListView.swift:380-384 | The indices after the delete loop. It has no contract of its own. `DeleteKeepsNumbering` and `DeleteKeepsOrder` state what it keeps, and `GridView.DeleteLocation` is proved equal to it. |
| ListView.DeleteKeepsNumbering | PinBoard/PinBoard/MVVM/Views/ListView.swift:376-384 | Take pins numbered 1..n and delete one. Once it is gone, the renumbered rest are numbered 1..n-1. |
| ListView.DeleteKeepsOrder | PinBoard/PinBoard/MVVM/Views/ListView.swift:382-384 | Renumbering keeps the order by index among the pins other than the deleted one. |
| ListView.DropPlan | PinBoard/PinBoard/MVVM/Views/ListView.swift:396-404 | An accepted drop has a dropped id, its pin at `from` and the target at `to`, with `from != to`. |
| ListView.DropAcceptedIff | PinBoard/PinBoard/MVVM/Views/ListView.swift:396-404 | With unique ids, a drop is accepted iff all of these hold: there is a first id, some pin carries it, the target is listed, and the target is not the dragged pin. |
| ListView.DropUsesFirstIdOnly | PinBoard/PinBoard/MVVM/Views/ListView.swift:397 | The ids after the first never change the outcome. |
| ListView.DroppedOrder | PinBoard/PinBoard/MVVM/Views/ListView.swift:405-406 | The moved copy keeps the length, has the dragged pin at the target's position, adds no pin and keeps distinct pins distinct. |
| ListView.DropRearranges | PinBoard/PinBoard/MVVM/Views/ListView.swift:405-406 | A drop is a permutation, and every pin other than the dragged one keeps its relative order. |
| ListView.UniqueIdsDistinct | PinBoard/PinBoard/MVVM/Models/StorageLocation.swift:16 | Pins with unique ids are distinct objects. |
| ListView.DecrementAbove | PinBoard/PinBoard/MVVM/Views/ListView.swift:380-384 | The delete loop lowers by one every pin indexed above the deleted index. It leaves every other index as it was. |
| ListView.NumberInOrder | PinBoard/PinBoard/MVVM/Views/ListView.swift:408-410 | The renumbering loop numbers the pins 1..n in sequence order. |
| ListView.GridView.constructor | PinBoard/PinBoard/MVVM/Views/ListView.swift:54-60 | The grid starts with no highlight and no alert, over the query's pins. |
| ListView.GridView.SetTargeted | PinBoard/PinBoard/MVVM/Views/ListView.swift:192-194 | Hovering over a pin highlights it, and leaving clears the highlight. |
| ListView.GridView.ShowErrorAlert | PinBoard/PinBoard/MVVM/Views/ListView.swift:423-428 | The alert is raised with the given message. |
| ListView.GridView.TapAlertOk | PinBoard/PinBoard/MVVM/Views/ListView.swift:451-456 | OK hides the alert. |
| ListView.GridView.DeleteLocation | PinBoard/PinBoard/MVVM/Views/ListView.swift:376-393 | The pin leaves the store, and every listed pin above its index moves down by one. A failed save raises its message. |
| ListView.GridView.ApplyDrop | PinBoard/PinBoard/MVVM/Views/ListView.swift:405-416 | The pins are numbered 1..n in the order that puts the dragged pin at the target's position. A failed save raises its message, and the shown list is unchanged. |
| ListView.GridView.HandleDrop | PinBoard/PinBoard/MVVM/Views/ListView.swift:395-421 | Returns true iff the guard holds, and clears the highlight either way. A refused drop changes no index. An accepted one numbers the moved order 1..n, and a failed save raises its message. |
| LocationAsStorageModel.AsStorageModel | PinBoard/PinBoard/Extensions/Location+asStorageModel.swift:10-19 | The copy has index 0 and the same name. Its longitude comes from `lon` and its latitude from `lat`. |
| LocationAsStorageModel.AsStorageModelKeepsPlace | PinBoard/PinBoard/Extensions/Location+asStorageModel.swift:11-16 | The place can be read back from the copy unchanged, so no coordinate is swapped. |
| MapView.Key | PinBoard/PinBoard/MVVM/Views/MapView.swift:50-53 | The grouping key: a pin's latitude and longitude. It has no contract of its own. `Group` and the `UniqueLocations…` lemmas state what grouping by it gives. |
| MapView.Group | PinBoard/PinBoard/MVVM/Views/MapView.swift:50-53 | A group holds exactly the pins at one coordinate. |
| MapView.MaxPosition | PinBoard/PinBoard/MVVM/Views/MapView.swift:55 | `max(by:)` returns an element whose index no other exceeds. It is the first such element. |
| MapView.Elected | PinBoard/PinBoard/MVVM/Views/MapView.swift:54-56 | The pin kept for a coordinate is stored, sits at that coordinate and has the highest index there. |
| MapView.ElectedIn | PinBoard/PinBoard/MVVM/Views/MapView.swift:54-56 | Exactly the pins elected for their own coordinate survive `compactMap`. |
| MapView.ElectedInDistinct | PinBoard/PinBoard/MVVM/Views/MapView.swift:54-56 | Electing from distinct pins keeps them distinct. |
| MapView.InsertByIndex | PinBoard/PinBoard/MVVM/Views/MapView.swift:57 | One insertion step of the sort keeps the result sorted by index and adds exactly the one element. |
| MapView.InsertByIndexDistinct | PinBoard/PinBoard/MVVM/Views/MapView.swift:57 | Inserting a new pin keeps the pins distinct. |
| MapView.SortByIndex | PinBoard/PinBoard/MVVM/Views/MapView.swift:57 | `sorted` keeps the same length and elements, and orders them by index. |
| MapView.SortByIndexDistinct | PinBoard/PinBoard/MVVM/Views/MapView.swift:57 | Sorting never duplicates a pin. |
| MapView.UniqueLocations | PinBoard/PinBoard/MVVM/Views/MapView.swift:49-58 | The drawn pins: the highest-indexed pin per coordinate, sorted by index. It has no contract of its own. Its properties are the lemmas `UniqueLocationsAreSortedInputs`, `UniqueLocationsOnePerKey`, `UniqueLocationsKeepMaximum` and `UniqueLocationsCoverEveryKey`. |
| MapView.UniqueLocationsAreSortedInputs | PinBoard/PinBoard/MVVM/Views/MapView.swift:49-58 | Every pin drawn is a stored pin, and the drawn pins come in index order. |
| MapView.UniqueLocationsOnePerKey | PinBoard/PinBoard/MVVM/Views/MapView.swift:49-58 | No two pins drawn share a coordinate. |
| MapView.UniqueLocationsKeepMaximum | PinBoard/PinBoard/MVVM/Views/MapView.swift:55 | Each pin drawn has the highest index among the stored pins at its coordinate. |
| MapView.UniqueLocationsCoverEveryKey | PinBoard/PinBoard/MVVM/Views/MapView.swift:49-58 | Every coordinate with a stored pin gets a pin drawn. |
| MapView.Toggled | PinBoard/PinBoard/MVVM/Views/MapView.swift:212-216 | The selection after tapping a pin. It has no contract of its own. `TapSelects` and `TapTwice` state its meaning. |
| MapView.TapSelects | PinBoard/PinBoard/MVVM/Views/MapView.swift:212-216 | After a tap, the tapped pin is selected iff it was not selected before. No other pin is selected. |
| MapView.TapTwice | PinBoard/PinBoard/MVVM/Views/MapView.swift:214 | Two taps on a pin restore the selection iff nothing, or that pin, was selected before. |
| MapView.BubbleFrameOf | PinBoard/PinBoard/MVVM/Views/MapView.swift:258-286 | The bubble's width cap and fixed-width flag for a title. It has no contract of its own. `BubbleFrameRule` states the rule. |
| MapView.BubbleFrameRule | PinBoard/PinBoard/MVVM/Views/MapView.swift:258-286 | A title under 30 characters keeps its own width. A longer one wraps within 160 points. Never both. |
| MapView.ConfirmPrompt | PinBoard/PinBoard/MVVM/Views/MapView.swift:303-315 | The prompt reads "Do you want to add location ", then the place's name, then "?". |
| MapView.ConfirmPromptNamesPlace | PinBoard/PinBoard/MVVM/Views/MapView.swift:303-315 | Different place names give different prompts. |
| MapView.AppendKeepsNumbering | PinBoard/PinBoard/MVVM/Views/MapView.swift:334-335 | A new pin at count + 1 after pins numbered 1..n keeps the numbering 1..n+1. |
| MapView.MapScreen.constructor | PinBoard/PinBoard/MVVM/Views/MapView.swift:26-43 | The camera starts at 50.4501, 30.5234, with no alert, pending place or selection. |
| MapView.MapScreen.ShowErrorAlert | PinBoard/PinBoard/MVVM/Views/MapView.swift:352-358 | Raises a single-button alert with the message and changes nothing else. |
| MapView.MapScreen.HandleAddLocation | PinBoard/PinBoard/MVVM/Views/MapView.swift:327-350 | With no pending place, the conversion error is shown and nothing is stored. Otherwise exactly one new pin is stored, at count + 1 with the place's name and coordinates. The place clears only on a successful save; a failed save shows its error. |
| MapView.MapScreen.HandlePress | PinBoard/PinBoard/MVVM/Views/MapView.swift:292-325 | Auto-add stores the found place at once. Otherwise a two-button confirmation naming the place is raised, and the place is kept pending. With no result, the load error is shown. The spinner ends off. |
| MapView.MapScreen.TapPin | PinBoard/PinBoard/MVVM/Views/MapView.swift:212-216 | The selection becomes `Toggled` of the old one, and every other field of the screen (the pins, the pending place, the alert, its message and kind, the spinner, the camera, the user position and the centered flag) is unchanged. |
| MapView.MapScreen.CenterOnUser | PinBoard/PinBoard/MVVM/Views/MapView.swift:376-392 | The camera and user coordinate are set only if it had not centered before. Afterwards it counts as centered. |
| MapView.MapScreen.SelectedLocationChanged | PinBoard/PinBoard/MVVM/Views/MapView.swift:399-410 | The camera moves to the selected pin when there is one, and stays put otherwise. |
| MapView.MapScreen.OnDisappear | PinBoard/PinBoard/MVVM/Views/MapView.swift:393-398 | Leaving clears the alert, its kind, the pending place and the selection. |
| MapView.MapScreen.TapAlertOk | PinBoard/PinBoard/MVVM/Views/MapView.swift:425-431 | OK hides the single-button alert and clears its kind. |
| MapView.MapScreen.TapAlertConfirm | PinBoard/PinBoard/MVVM/Views/MapView.swift:433-438 | Confirm hides the alert, then runs the add that the alert modifier wires to it (lines 127-131 of the same file). The pins, the selection, the loading flag, the camera and the user position are unchanged. With nothing pending, no pin is stored and the conversion error is shown with a single button. With a pending place, exactly one fresh pin is stored, with the given id, the next index and the place's name and coordinates. A successful save clears the pending place and leaves the alert hidden. A failed save keeps the place pending and the save error stays shown, with a single button. |
| MapView.MapScreen.TapAlertCancel | PinBoard/PinBoard/MVVM/Views/MapView.swift:439-441 | Cancel only hides the alert: the pending place, the message and kind, the pins, the selection, the spinner, the camera, the user position and the centered flag are unchanged. |
| AlertView.Init | PinBoard/PinBoard/MVVM/Views/Components/AlertView.swift:22-40 | Message, layout and actions are kept. An informational alert is titled "OK" with no cancel title; a confirmation is titled "Add" with cancel title "Cancel". |
| AlertView.Buttons | PinBoard/PinBoard/MVVM/Views/Components/AlertView.swift:57-83 | The buttons drawn for each layout. It has no contract of its own. `InformationalButtons`, `ConfirmationButtons`, `CancelLabelFallback` and `ConfirmIsLast` state them. |
| AlertView.InformationalButtons | PinBoard/PinBoard/MVVM/Views/Components/AlertView.swift:57-63 | An informational alert draws one "OK" button, running the confirm action. |
| AlertView.ConfirmationButtons | PinBoard/PinBoard/MVVM/Views/Components/AlertView.swift:65-82 | A confirmation draws "Cancel", running the optional cancel action, then "Add", running the confirm action. |
| AlertView.CancelLabelFallback | PinBoard/PinBoard/MVVM/Views/Components/AlertView.swift:67 | The cancel label is the stored title, or "Cancel" when none is stored. |
| AlertView.ConfirmIsLast | PinBoard/PinBoard/MVVM/Views/Components/AlertView.swift:57-83 | The last button of every alert is its confirm button. |
| AlertManager.Initial | PinBoard/PinBoard/Managers/AlertManager.swift:16-20 | A new manager presents nothing, is informational and has no cancel action. |
| AlertManager.ShowInfo | PinBoard/PinBoard/Managers/AlertManager.swift:24-35 | The alert is presented, informational, with the message. Confirm runs `onOK` and then hides; there is no cancel. |
| AlertManager.ShowConfirm | PinBoard/PinBoard/Managers/AlertManager.swift:50-63 | The alert is presented as a confirmation with the message. Each button runs its callback and then hides. |
| AlertManager.Hidden | PinBoard/PinBoard/Managers/AlertManager.swift:65-67 | `hide` changes only `isPresented`. |
| AlertManager.ShowForgetsPrevious | PinBoard/PinBoard/Managers/AlertManager.swift:27-34 | A show overwrites every field, so the old state leaves no trace. |
| AlertManager.ShowAfterHide | PinBoard/PinBoard/MVVM/Views/MapView.swift:435-437 | Hiding and then showing leaves the new alert presented. |
| AlertManager.HideAfterShow | PinBoard/PinBoard/Managers/AlertManager.swift:55-58 | Showing and then hiding leaves the new message unpresented. |
| AlertManager.AlertManager.constructor | PinBoard/PinBoard/Managers/AlertManager.swift:16-20 | The fields start as `Initial`. |
| AlertManager.AlertManager.ShowInfoWith | PinBoard/PinBoard/Managers/AlertManager.swift:24-35 | The new state is `ShowInfo` of the old one. |
| AlertManager.AlertManager.ShowError | PinBoard/PinBoard/Managers/AlertManager.swift:37-48 | Has the same effect as `showInfoWith`. |
| AlertManager.AlertManager.ShowConfirmWith | PinBoard/PinBoard/Managers/AlertManager.swift:50-63 | The new state is `ShowConfirm` of the old one. |
| AlertManager.AlertManager.Hide | PinBoard/PinBoard/Managers/AlertManager.swift:65-67 | The new state is `Hidden` of the old one. |
| ScreensMapView.Appear | PinBoard/PinBoard/MVVM/Views/Screens/MapView.swift:401-409 | The hint is scheduled iff it was never acknowledged, the map has no pins, and this is not the first appearance. Afterwards the screen counts as booted. |
| ScreensMapView.Schedules | PinBoard/PinBoard/MVVM/Views/Screens/MapView.swift:401-409 | A run of appearances and acknowledgements yields one decision per event. |
| ScreensMapView.FirstAppearanceNeverSchedules | PinBoard/PinBoard/MVVM/Views/Screens/MapView.swift:401-409 | The first appearance never schedules the hint. |
| ScreensMapView.AcknowledgedNeverSchedules | PinBoard/PinBoard/MVVM/Views/Screens/MapView.swift:401-405 | Once the hint is acknowledged, no later event schedules it. |
| ScreensMapView.LaterAppearancesScheduleWhenEmpty | PinBoard/PinBoard/MVVM/Views/Screens/MapView.swift:401-409 | Until acknowledged, each appearance after the first schedules the hint iff the map has no pins. |
| ScreensMapView.MapScreen.constructor | PinBoard/PinBoard/MVVM/Views/Screens/MapView.swift:27-44 | The camera starts at 50.4501, 30.5234. Nothing is pending, and both hint flags are off. |
| ScreensMapView.MapScreen.HandleAddLocation | PinBoard/PinBoard/MVVM/Views/Screens/MapView.swift:340-363 | As on the first map screen, but errors become informational alerts with a do-nothing OK. |
| ScreensMapView.MapScreen.HandlePress | PinBoard/PinBoard/MVVM/Views/Screens/MapView.swift:301-338 | Auto-add stores the place with no prompt; without it, a confirmation naming the place is raised. Its confirm adds the place and its cancel discards it. With no result, the load error is shown. |
| ScreensMapView.MapScreen.Perform | PinBoard/PinBoard/MVVM/Views/Screens/MapView.swift:326-331 | The add callback stores the place, the discard callback clears it, and the hint's OK sets `isShownInfoAlert`. |
| ScreensMapView.MapScreen.RunStoredAsWritten | PinBoard/PinBoard/Managers/AlertManager.swift:55-58 | This is the stored closure as written: callback first, then hide. A failed add's error alert ends up hidden. The pins and the selection are unchanged. A stored add stores exactly one fresh pin with the given id, the next index and the place's name and coordinates; the place is cleared on success and stays pending on failure. No other closure stores anything, and discarding clears the pending place. A stored hint acknowledgement sets `isShownInfoAlert` and keeps the boot flag and the pending place; every other closure leaves both hint flags unchanged. |
| ScreensMapView.MapScreen.RunStored | PinBoard/PinBoard/Managers/AlertManager.swift:55-61 | This is the closure in the intended order: hide first, then the callback. A failed add's error alert then stays presented. The pins, the selection and the stored pin are as for `RunStoredAsWritten`. A stored hint acknowledgement sets `isShownInfoAlert` and keeps the boot flag and the pending place; every other closure leaves both hint flags unchanged. |
| ScreensMapView.MapScreen.TapAlertConfirmAsWritten | PinBoard/PinBoard/MVVM/Views/Components/AlertView.swift:77-79 | This is the app's confirm button: it runs the stored closure as written. A failed add ends with its error alert hidden (`Hidden(ShowInfo(..))`). Every other confirm ends with the old alert hidden, and no alert is ever left presented. The pins and the selection are unchanged. A stored add stores exactly one fresh pin with the given id, the next index and the place's name and coordinates, clearing the place on success and keeping it pending on failure; any other closure stores nothing. The hint's OK (a stored acknowledgement) sets `isShownInfoAlert` and keeps the boot flag and the pending place; every other confirm leaves both hint flags unchanged. |
| ScreensMapView.MapScreen.TapAlertConfirm | PinBoard/PinBoard/MVVM/Views/Components/AlertView.swift:77-79 | This is the corrected confirm button, not the app's: it runs the hide-first closure. It ends with the save error presented when the add fails, and with nothing presented otherwise. The pins, the selection and the stored pin are as for `TapAlertConfirmAsWritten`. The hint's OK (a stored acknowledgement) sets `isShownInfoAlert` and keeps the boot flag and the pending place; every other confirm leaves both hint flags unchanged. |
| ScreensMapView.MapScreen.TapAlertCancel | PinBoard/PinBoard/MVVM/Views/Components/AlertView.swift:67-69 | Cancel runs the stored closure as written. On the add prompt it discards the place, stores nothing and hides the alert. With no cancel action, nothing changes: the screen's fields, the alert state and the store are all as before. In every case the pins and the selection are unchanged, and so are the hint flags unless the cancel action is an acknowledgement. |
| ScreensMapView.MapScreen.TapPin | PinBoard/PinBoard/MVVM/Views/Screens/MapView.swift:221-225 | The selection toggles, as on the first map screen. |
| ScreensMapView.MapScreen.OnAppear | PinBoard/PinBoard/MVVM/Views/Screens/MapView.swift:383-410 | Centering starts iff the camera has not centered yet. The hint decision and the new flags are exactly `Appear`'s. |
| ScreensMapView.MapScreen.FinishCentering | PinBoard/PinBoard/MVVM/Views/Screens/MapView.swift:385-399 | Once the location arrives, the camera and the user's coordinate are set, and the screen counts as centered. |
| ScreensMapView.MapScreen.ShowHint | PinBoard/PinBoard/MVVM/Views/Screens/MapView.swift:402-406 | The hint is an informational alert whose OK acknowledges it. |
| ScreensMapView.MapScreen.SelectedLocationChanged | PinBoard/PinBoard/MVVM/Views/Screens/MapView.swift:415-426 | The camera moves to the selected pin when there is one. |
| ScreensMapView.MapScreen.OnDisappear | PinBoard/PinBoard/MVVM/Views/Screens/MapView.swift:411-414 | Leaving clears the pending place and the selection. |
| Tab.IndexOf | PinBoard/PinBoard/MVVM/Models/Tab.swift:10-13 | Each tab sits at its declaration position in `allCases`. |
| Tab.AllCasesListEachTabOnce | PinBoard/PinBoard/MVVM/Models/Tab.swift:10-13 | `allCases` lists every tab exactly once. |
| Tab.LabelsIdentifyTab | PinBoard/PinBoard/MVVM/Models/Tab.swift:10-35 | No two tabs share a title, an icon name or a raw value. |
| Tab.FirstIndexFindsEveryTab | PinBoard/PinBoard/MVVM/Views/HomeView.swift:35-39 | `firstIndex(of:)` on `allCases` always finds the tab, at its position, so the guard never returns early. |
| Tab.NewAnimatedTab | PinBoard/PinBoard/MVVM/Models/Tab.swift:43-46 | `init(tab:)` keeps the tab and the generated id, and leaves `isAnimation` nil. |
| HomeView.Cycle | PinBoard/PinBoard/MVVM/Views/HomeView.swift:41-45 | One active tab per offset 1..count, so as many as there are tabs. `CycleShowsEachTabOnce`, `CycleIsRotation` and `CycleEndsAtStart` state which. |
| HomeView.CycleShowsEachTabOnce | PinBoard/PinBoard/MVVM/Views/HomeView.swift:41-45 | Over offsets 1..count, every tab becomes active exactly once. |
| HomeView.CycleIsRotation | PinBoard/PinBoard/MVVM/Views/HomeView.swift:43 | The tabs visited are `allCases`, rotated. |
| HomeView.CycleEndsAtStart | PinBoard/PinBoard/MVVM/Views/HomeView.swift:41-45 | The last tab made active is the one the loop started from. |
| HomeView.HomeView.constructor | PinBoard/PinBoard/MVVM/Views/HomeView.swift:14-15 | The list tab is active, and the bar has one entry per case in declaration order. |
| HomeView.HomeView.ShowEachTab | PinBoard/PinBoard/MVVM/Views/HomeView.swift:34-46 | Makes `allCases[(start + offset) % count]` active for offsets 1..count, ending on the starting tab. The bar is untouched. |
| HomeView.HomeView.TapTab | PinBoard/PinBoard/MVVM/Views/HomeView.swift:92-95 | A tap makes the entry's tab active and starts that entry's bounce. |
| HomeView.HomeView.AnimationCompleted | PinBoard/PinBoard/MVVM/Views/HomeView.swift:96-101 | The completion clears that entry's bounce flag and nothing else. |
| Interpolation.NatDescription | PinBoard/PinBoard/MVVM/ViewModel/PinBoardViewModel.swift:56 | The text is non-empty and all digits. It is one character long iff the number is below ten. |
| Interpolation.Description | PinBoard/PinBoard/MVVM/ViewModel/PinBoardViewModel.swift:56 | Every `Int` is described by a non-empty text. |
| Interpolation.ParseNatDescription | PinBoard/PinBoard/MVVM/ViewModel/PinBoardViewModel.swift:56 | The decimal text of a number reads back as that number. |
| Interpolation.ParseIntDescription | PinBoard/PinBoard/MVVM/ViewModel/PinBoardViewModel.swift:56 | A description starts with '-' exactly for negative numbers, is otherwise digits, and reads back as its number. |
| Interpolation.DescriptionInjective | PinBoard/PinBoard/MVVM/Views/PasscodeTemplateView.swift:43 | Different numbers have different texts. |
| Interpolation.DigitDescription | PinBoard/PinBoard/MVVM/Views/Components/NumberPadView.swift:18-21 | A pad value from 0 to 9 is described by one character. |
| PinBoardViewModel.AfterAdd | PinBoard/PinBoard/MVVM/ViewModel/PinBoardViewModel.swift:54-58 | The buffer after `onAddValue`. It has no contract of its own. `AddKeepsPadBuffer`, `AddThenRemove` and `WideValueOvershoots` state its meaning. |
| PinBoardViewModel.AfterRemove | PinBoard/PinBoard/MVVM/ViewModel/PinBoardViewModel.swift:60-64 | The buffer after `onRemoveValue`. It has no contract of its own. `RemoveKeepsPadBuffer` and `AddThenRemove` state its meaning. |
| PinBoardViewModel.AddKeepsPadBuffer | PinBoard/PinBoard/MVVM/ViewModel/PinBoardViewModel.swift:54-58 | With pad keys 0-9, the buffer stays at most four digits. Below four it grows by exactly that digit; at four it is unchanged. |
| PinBoardViewModel.RemoveKeepsPadBuffer | PinBoard/PinBoard/MVVM/ViewModel/PinBoardViewModel.swift:60-64 | Remove keeps a pad buffer a pad buffer, dropping one character when there is one. |
| PinBoardViewModel.AddThenRemove | PinBoard/PinBoard/MVVM/ViewModel/PinBoardViewModel.swift:54-64 | Below four digits, adding a pad digit and removing one restores the buffer. |
| PinBoardViewModel.WideValueOvershoots | PinBoard/PinBoard/MVVM/ViewModel/PinBoardViewModel.swift:55-56 | The guard runs before appending, so adding the value 10 to "123" gives five characters. The four-digit bound rests on the pad. |
| PinBoardViewModel.PinBoardViewModel.constructor | PinBoard/PinBoard/MVVM/ViewModel/PinBoardViewModel.swift:15-34 | The buffer starts empty and the pad hidden. |
| PinBoardViewModel.PinBoardViewModel.IsAuthenticated | PinBoard/PinBoard/MVVM/ViewModel/PinBoardViewModel.swift:16-19 | The computed property reads the authenticator's sign-in flag. It has no contract of its own. |
| PinBoardViewModel.PinBoardViewModel.IsBiometricLocked | PinBoard/PinBoard/MVVM/ViewModel/PinBoardViewModel.swift:20-22 | The computed property reads the authenticator's lock flag. It has no contract of its own. |
| PinBoardViewModel.PinBoardViewModel.BiometryType | PinBoard/PinBoard/MVVM/ViewModel/PinBoardViewModel.swift:23-25 | The computed property forwards to the authenticator's `biometryType`, that is `AuthenticatorService.BiometryTypeOf`. It has no contract of its own. |
| PinBoardViewModel.PinBoardViewModel.RegisterPasscode | PinBoard/PinBoard/MVVM/ViewModel/PinBoardViewModel.swift:38-42 | The passcode is stored only when the buffer holds four characters (and biometrics are available). Otherwise the store and the sign-in are untouched. |
| PinBoardViewModel.PinBoardViewModel.VerifyPasscode | PinBoard/PinBoard/MVVM/ViewModel/PinBoardViewModel.swift:44-52 | Returns false without touching the authenticator unless four characters are entered. Otherwise it returns whether the stored passcode equals the buffer, and sign-in follows the result. With four characters entered, the lock is reset to unlocked whenever the stored passcode decrypts to something, and is unchanged when nothing decrypts. Whether a passcode is set is unchanged. |
| PinBoardViewModel.PinBoardViewModel.OnAddValue | PinBoard/PinBoard/MVVM/ViewModel/PinBoardViewModel.swift:54-58 | The buffer becomes `AfterAdd` of the old one; the pad is unchanged. |
| PinBoardViewModel.PinBoardViewModel.OnRemoveValue | PinBoard/PinBoard/MVVM/ViewModel/PinBoardViewModel.swift:60-64 | The buffer becomes `AfterRemove` of the old one. |
| PinBoardViewModel.PinBoardViewModel.OnDismiss | PinBoard/PinBoard/MVVM/ViewModel/PinBoardViewModel.swift:66-68 | Hides the pad (`onDissmis`) and keeps the buffer. |
| PinBoardViewModel.PinBoardViewModel.ShowNumPad | PinBoard/PinBoard/MVVM/ViewModel/PinBoardViewModel.swift:70-72 | Shows the pad and keeps the buffer. |
| PinBoardViewModel.PinBoardViewModel.UnlockWithFaceId | PinBoard/PinBoard/MVVM/ViewModel/PinBoardViewModel.swift:74-76 | Forwards the unlock; the store and `isPassCodeSet` never change. Without biometrics, when they cannot be evaluated, or while locked, neither the lock nor sign-in changes. A successful evaluation signs in iff the stored passcode decrypts. A failed evaluation counts as `AttemptFailed` and leaves sign-in as it was. |
| PinBoardViewModel.PinBoardViewModel.ResetAuthenticationState | PinBoard/PinBoard/MVVM/ViewModel/PinBoardViewModel.swift:78-82 | Empties the buffer, hides the pad and signs out. The counter and the store are unchanged. |
| PasscodeTemplateView.FiresOnComplete | PinBoard/PinBoard/MVVM/Views/PasscodeTemplateView.swift:24-29 | The `onChange` guard. It has no contract of its own. `CompletesOnFourthDigit` and `RemovalNeverCompletes` state when it fires. |
| PasscodeTemplateView.CompletesOnFourthDigit | PinBoard/PinBoard/MVVM/Views/PasscodeTemplateView.swift:24-29 | Adding a pad digit fires `onComplete` iff it was the fourth, and a shorter buffer never fires. |
| PasscodeTemplateView.RemovalNeverCompletes | PinBoard/PinBoard/MVVM/Views/PasscodeTemplateView.swift:24-29 | Removing a digit never fires `onComplete`. |
| PasscodeTemplateView.Title | PinBoard/PinBoard/MVVM/Views/PasscodeTemplateView.swift:39 | The title is the given title followed by " Passcode". |
| PasscodeTemplateView.Subtitle | PinBoard/PinBoard/MVVM/Views/PasscodeTemplateView.swift:43 | The subtitle's length is the sum of its parts' lengths. |
| PasscodeTemplateView.SubtitleForPasscodeLength | PinBoard/PinBoard/MVVM/Views/PasscodeTemplateView.swift:43 | With the app's length, the subtitle reads "Please enter 4-digit PIN " followed by the text. |
| PasscodeTemplateView.LabelsDetermineArguments | PinBoard/PinBoard/MVVM/Views/PasscodeTemplateView.swift:39-43 | Equal titles have equal titles passed in. Equal subtitles have the same digit count. |
| PasscodeIndicatorView.StrokeColorOf | PinBoard/PinBoard/MVVM/Views/Components/PasscodeIndicatorView.swift:15-19 | The outline is red iff the entry is wrong. Otherwise it is white in dark mode and black in light mode. |
| PasscodeIndicatorView.Dots | PinBoard/PinBoard/MVVM/Views/Components/PasscodeIndicatorView.swift:23-39 | There are four dots. Dot i is filled iff the entry is not wrong and more than i digits are entered. The red fill is opaque iff the entry is wrong. |
| PasscodeIndicatorView.FilledBelow | PinBoard/PinBoard/MVVM/Views/Components/PasscodeIndicatorView.swift:30 | When exactly the dots below c are filled, min(c, count) dots are filled. |
| PasscodeIndicatorView.FilledCountIsEntered | PinBoard/PinBoard/MVVM/Views/Components/PasscodeIndicatorView.swift:23-33 | The filled dots number the entered digits, up to four, and none on a wrong entry. |
| Utf8.DecodeEncode | PinBoard/PinBoard/Services/AESEncryptionService.swift:37 | `String(data:encoding: .utf8)` inverts `data(using: .utf8)`. |
| Utf8.EncodeInjective | PinBoard/PinBoard/Services/AESEncryptionService.swift:16 | Different strings have different UTF-8 bytes. |
| Utf8.EncodeAscii | PinBoard/PinBoard/Services/AuthenticatorService.swift:83 | An ASCII key, such as a UUID string, takes one byte per character. |
| Crypto.LawfulPrimitivesExist | PinBoard/PinBoard/Services/AESEncryptionService.swift:19-36 | Some seal, open and base64 functions satisfy every assumed law. |
| DataPadWithZeros.ZeroPadded | PinBoard/PinBoard/Extensions/Data+padWithZeros.swift:12-31 | The result has length max(count, targetSize). The data is a prefix, and every added byte is zero. Data already that long comes back unchanged. |
| DataPadWithZeros.PadWithZeros | PinBoard/PinBoard/Extensions/Data+padWithZeros.swift:12-31 | The extension returns `ZeroPadded` of its input. |
| DataPadWithZeros.PadIdempotent | PinBoard/PinBoard/Extensions/Data+padWithZeros.swift:19-29 | Padding twice to one size is padding once. |
| DataPadWithZeros.PadAbsorbsTrailingZero | PinBoard/PinBoard/Extensions/Data+padWithZeros.swift:19-29 | Below the target size, one more trailing zero byte does not change the result. |
| AESEncryptionService.Prefix | PinBoard/PinBoard/Services/AESEncryptionService.swift:16 | `prefix(keySize)` keeps the first min(count, keySize) bytes. |
| AESEncryptionService.SymmetricKeyData | PinBoard/PinBoard/Services/AESEncryptionService.swift:16-19 | The key bytes are exactly keySize long: the key's UTF-8 bytes, zero beyond its end. |
| AESEncryptionService.Encrypt | PinBoard/PinBoard/Services/AESEncryptionService.swift:15-27 | Returns a text iff keySize is an AES key size (16, 24 or 32); otherwise nil. |
| AESEncryptionService.Decrypt | PinBoard/PinBoard/Services/AESEncryptionService.swift:29-42 | Returns nil for a text that is not base64, and for a non-AES key size. A result is the UTF-8 decoding of what the open returned. |
| AESEncryptionService.DecryptEncrypt | PinBoard/PinBoard/Services/AESEncryptionService.swift:15-42 | Decrypting with the encryption key gives the text back, for every text and every key, short or long. |
| AESEncryptionService.DecryptWithOtherKey | PinBoard/PinBoard/Services/AESEncryptionService.swift:33-41 | A key deriving different key bytes does not decrypt. |
| AESEncryptionService.KeyDecidedByPrefix | PinBoard/PinBoard/Services/AESEncryptionService.swift:16 | Keys at least keySize bytes long derive the same key iff their first keySize bytes agree. |
| AESEncryptionService.DecryptRejectsNonBase64 | PinBoard/PinBoard/Services/AESEncryptionService.swift:30-32 | A text with a character outside base64 decrypts to nil under any key. |
| AESEncryptionService.DefaultKeySizeIsAes | PinBoard/PinBoard/Services/AESEncryptionService.swift:15 | The default size, 32, is an AES key size. |
| AESEncryptionService.CorrectAndWrongKeyDiffer | PinBoard/PinBoardUnitTests/AESEncryptionServiceTests/AESEncryptionServiceTests.swift:28-40 | "Top secret" encrypted under "correct-key" does not decrypt under "wrong-key". |
| AESEncryptionService.HelloWorldRoundTrip | PinBoard/PinBoardUnitTests/AESEncryptionServiceTests/AESEncryptionServiceTests.swift:16-25 | "Hello world" encrypted under "my-secret-key" decrypts back to "Hello world". |
| AESEncryptionService.EmptyTextRoundTrip | PinBoard/PinBoardUnitTests/AESEncryptionServiceTests/AESEncryptionServiceTests.swift:43-54 | The empty text encrypted under "any-key" decrypts back to the empty text. |
| AESEncryptionService.ShortKeyRoundTrip | PinBoard/PinBoardUnitTests/AESEncryptionServiceTests/AESEncryptionServiceTests.swift:67-78 | "Short key test" round-trips under the three-character key "abc". |
| AESEncryptionService.LongKeyRoundTrip | PinBoard/PinBoardUnitTests/AESEncryptionServiceTests/AESEncryptionServiceTests.swift:81-92 | "Long key test" round-trips under a key of 100 'x' characters. |
| AESEncryptionService.NotBase64Example | PinBoard/PinBoardUnitTests/AESEncryptionServiceTests/AESEncryptionServiceTests.swift:57-64 | "***not-base64***" decrypts to nil. |
| AuthenticatorService.BiometryTypeOf | PinBoard/PinBoard/Services/AuthenticatorService.swift:42-53 | Touch ID, Face ID and Optic ID map to themselves; every other kind maps to none. |
| AuthenticatorService.ErrorMessage | PinBoard/PinBoard/Services/AuthenticatorService.swift:176-187 | `handleLaError`'s message per code. It has no contract of its own. `ErrorMessageIdentifiesCode` states it. |
| AuthenticatorService.ErrorMessageIdentifiesCode | PinBoard/PinBoard/Services/AuthenticatorService.swift:176-187 | The three known codes have distinct messages, and only other codes give "Unidentified error". |
| AuthenticatorService.ReportedFailure | PinBoard/PinBoard/Services/AuthenticatorService.swift:174-190 | A message is reported iff the error is an `LAError`, and it is that code's message. |
| AuthenticatorService.SetValue | PinBoard/PinBoard/Services/AuthenticatorService.swift:86-87 | Setting a value stores it and setting nil removes the key. Every other key is unchanged. |
| AuthenticatorService.DecryptUserPasscode | PinBoard/PinBoard/Services/AuthenticatorService.swift:156-167 | Returns nil when either stored entry is missing. |
| AuthenticatorService.StorePasscode | PinBoard/PinBoard/Services/AuthenticatorService.swift:84-88 | The store after `setPasscodeWith` holds the drawn key under the secret key and a ciphertext under the passcode key. Every other entry is unchanged. |
| AuthenticatorService.DecryptStoredPasscode | PinBoard/PinBoard/Services/AuthenticatorService.swift:79-90 | A passcode just stored decrypts back to itself, whatever key was drawn. |
| AuthenticatorService.NothingStoredAfterRemoval | PinBoard/PinBoard/Services/AuthenticatorService.swift:109-111 | Once both entries are removed, nothing decrypts. |
| AuthenticatorService.Failed | PinBoard/PinBoard/Services/AuthenticatorService.swift:135-138 | A failure adds one attempt and leaves the lock set iff the count reached 3. |
| AuthenticatorService.FailuresFromUnlocked | PinBoard/PinBoard/Services/AuthenticatorService.swift:135-138 | From the reset state, n failures leave the count at n, locked iff n >= 3. |
| AuthenticatorService.LockStaysOn | PinBoard/PinBoard/Services/AuthenticatorService.swift:135-138 | Once locked, further failures keep the lock and keep counting. |
| AuthenticatorService.Authenticator.BiometryType | PinBoard/PinBoard/Services/AuthenticatorService.swift:42-53 | The computed property is `BiometryTypeOf` of the context's biometry kind. It has no contract of its own. |
| AuthenticatorService.Authenticator.constructor | PinBoard/PinBoard/Services/AuthenticatorService.swift:65-70 | It starts signed out and unlocked. `isPassCodeSet` is the negation of the context's answer. |
| AuthenticatorService.Authenticator.ResetFailCount | PinBoard/PinBoard/Services/AuthenticatorService.swift:149-154 | Clears the counter and the lock and replaces the context. |
| AuthenticatorService.Authenticator.LogOut | PinBoard/PinBoard/Services/AuthenticatorService.swift:74-77 | Signs out and clears the counter and the lock. |
| AuthenticatorService.Authenticator.SetPasscodeWith | PinBoard/PinBoard/Services/AuthenticatorService.swift:79-90 | Without biometrics, nothing changes. Otherwise it stores the ciphertext and the key and signs in. |
| AuthenticatorService.Authenticator.VerifyPin | PinBoard/PinBoard/Services/AuthenticatorService.swift:96-107 | Returns true iff the stored passcode decrypts to the pin, and signs in iff so. The counter resets only when something decrypted. |
| AuthenticatorService.Authenticator.OnResetPin | PinBoard/PinBoard/Services/AuthenticatorService.swift:109-114 | Removes both entries and resets the counter, so nothing decrypts afterwards. |
| AuthenticatorService.Authenticator.UnlockBiometry | PinBoard/PinBoard/Services/AuthenticatorService.swift:92-147 | Without biometrics, nothing happens. A refused evaluation only reports the error's message. A success signs in iff a passcode decrypts. A failure is `Failed`. |
| AuthenticatorService.SetThenVerify | PinBoard/PinBoardUnitTests/AuthenticatorServiceTests/AuthenticatorServiceTests.swift:13-20 | After storing a passcode, verifying the same digits succeeds and unlocks. |
| AuthenticatorService.ResetThenVerify | PinBoard/PinBoard/Services/AuthenticatorService.swift:109-114 | After `onResetPin`, no pin verifies. |
| Authenticator.ServiceCipherRoundTrips | PinBoard/PinBoard/Service/Authenticator.swift:83 | The encryption service with a fixed nonce is a cipher of the kind this version relies on. |
| Authenticator.DecryptUserPasscode | PinBoard/PinBoard/Service/Authenticator.swift:148-159 | Returns nil when either entry is missing. |
| Authenticator.StorePasscode | PinBoard/PinBoard/Service/Authenticator.swift:83-87 | The store after `setPasscodeWith` holds the drawn key under the secret key. It holds an entry under the passcode key iff the cipher produced a ciphertext. Every other entry is unchanged. |
| Authenticator.DecryptStoredPasscode | PinBoard/PinBoard/Service/Authenticator.swift:78-89 | A stored passcode decrypts back to itself. |
| Authenticator.AttemptFailed | PinBoard/PinBoard/Service/Authenticator.swift:117-137 | A failed evaluation keeps the lock consistent with the count. While locked, none is attempted. |
| Authenticator.AttemptsFailed | PinBoard/PinBoard/Service/Authenticator.swift:117-137 | Any number of failures keeps the lock consistent with the count. |
| Authenticator.AttemptsSaturate | PinBoard/PinBoard/Service/Authenticator.swift:117-137 | From the reset state, n failures count min(n, 3), locked iff n >= 3. |
| Authenticator.AttemptFailedStaysBounded | PinBoard/PinBoard/Service/Authenticator.swift:58-59 | The count never passes 3. |
| Authenticator.Authenticator.constructor | PinBoard/PinBoard/Service/Authenticator.swift:64-69 | It starts signed out and unlocked, at count 0. |
| Authenticator.Authenticator.ResetFailCount | PinBoard/PinBoard/Service/Authenticator.swift:161-164 | Clears the counter and the lock. |
| Authenticator.Authenticator.LogOut | PinBoard/PinBoard/Service/Authenticator.swift:73-76 | Signs out and clears the counter and the lock. |
| Authenticator.Authenticator.SetPasscodeWith | PinBoard/PinBoard/Service/Authenticator.swift:78-89 | Without biometrics, nothing changes. Otherwise it stores the ciphertext and the key and signs in. |
| Authenticator.Authenticator.VerifyPin | PinBoard/PinBoard/Service/Authenticator.swift:95-106 | Returns true iff the stored passcode decrypts to the pin, and signs in iff so. The counter resets when something decrypted. |
| Authenticator.Authenticator.OnResetPin | PinBoard/PinBoard/Service/Authenticator.swift:108-113 | Removes both entries and resets the counter. |
| Authenticator.Authenticator.UnlockWithFaceId | PinBoard/PinBoard/Service/Authenticator.swift:91-146 | Nothing happens without biometrics or once locked, and the invariant "count <= 3, locked iff 3" is kept. Otherwise it behaves as the later version, and a refused evaluation's message is logged. |

## Left out

- **Asynchrony.** The `Task`, `asyncAfter` and `Task.sleep` calls, and the LocalAuthentication callbacks, become sequential steps. Their outcomes are inputs.
- **Persistence.** SwiftData `save` and `@Query` refresh are not modelled. A save's outcome is the `saveError` input. `locations` is the query result taken when the handler runs, sorted by index; inserts and deletes do not refresh it.
- **Unique ids.** The `@Attribute(.unique)` upsert is not modelled. Unique ids are an invariant of the list (`ListView.GridView.Valid`) and a precondition where needed.
- **Coordinate keys.** The grouping key `"\(latitude)-\(longitude)"` is modelled as equality of the two numbers. The formatting of `Double` (such as -0.0 against 0.0, or NaN) is not modelled.
- **Order among equal indices.** `Dictionary` iteration order and `sorted` stability are not specified by Swift. The drawn pins are proved sorted by index, but their order among pins with equal indices is not claimed.
- **Character counts.** Swift counts grapheme clusters and the model counts characters. For the digit buffers and titles concerned, the two agree.
- **Presenting the manager's alert.** The view that draws `AlertManager`'s alert is not part of this model. Its buttons are taken to behave as `AlertView`'s do: confirm runs `onConfirm`, and cancel runs `onCancel` when one is set. The app's buttons are `ScreensMapView.MapScreen.TapAlertConfirmAsWritten` and `TapAlertCancel`, which run the closures as written. `TapAlertConfirm` is the corrected button from "## Findings".
- **Text styling.** Fonts, gradients and animations are not modelled. A composed `Text` is its plain string.
- **AESEncryptionManager.** It is not part of this model. The older authenticator takes its cipher as a parameter (`Authenticator.Cipher`), assuming `RoundTrips`.
- **Platform primitives.** AES-GCM, base64, UUID generation and nonces are foreign. They are parameters or inputs.
- **String-only store.** `UserDefaults` holds strings only. A non-string value reaching `as? String` is not modelled.
- **LAContext settings.** The reuse duration and fallback title are not modelled. `isPassCodeSet` is computed once, as in the source.
- AuthenticatorService.Authenticator.UnlockBiometry: the two `canEvaluatePolicy` calls take independent answers, a superset of the platform's behaviour.
- AuthenticatorService.Authenticator.UnlockBiometry: whether a delegate is attached is not modelled; the message it would receive is returned.
- Authenticator.Authenticator.UnlockWithFaceId: the `print` of the error message becomes the returned `logged` value.
- **Outside the core.** These are not modelled:
  - `NetworkSerivce.swift`, `LocationService.swift` and the geocoding call: their results are inputs;
  - the settings, sign-in and sign-up views;
  - `MainView.swift`, toasts, colour palettes and the `View+` extensions;
  - the list's tap-to-select with its toast timer;
  - the long-press gesture's coordinate conversion.
- **Version drift.** The model does not reconcile these mismatches:
  - The shown `StorageLocation` has no `index` and no `index` initializer parameter, but every caller uses one; the model has both.
  - `PinBoardViewModel` as shown has no `selectedLocation` or `passcodeLength`. The selection handlers take the selected pin as an input, and the template takes the length from `GlobalConstants`.
  - The first map screen calls `AlertView` initializers that `AlertView.swift` does not declare, so its alerts are modelled by its own flags.
  - `PinBoardApp.swift` passes a `networkService` to an initializer that does not take one.
- Tab.Title, Tab.IconName and Tab.RawValue carry no contract of their own. What they promise (distinct labels) is `Tab.LabelsIdentifyTab`.
- HomeView.HomeView.ShowEachTab: "nothing changes when the active tab is not in `allCases`" holds vacuously. `Tab.FirstIndexFindsEveryTab` shows the early return cannot happen.
- PinBoardViewModel.PinBoardViewModel.OnAddValue: the four-digit bound needs pad values 0-9 (`AddKeepsPadBuffer`). The method accepts any `Int`, as the source does.

## Findings

| source | as written | input that shows it | evidently intended | confidence | as-written member | corrected member |
|---|---|---|---|---|---|---|
| PinBoard/PinBoard/Managers/AlertManager.swift:55-58 | The stored confirm closure runs the caller's callback and then sets `isPresented = false`. The later map screen's confirm callback adds the place, and a failed save raises the error alert from inside that callback (Screens/MapView.swift:326-328, 356-362). | Long-press a place with auto-add off, tap "Add", and let the save fail with message e. The manager ends with message e and `isPresented == false`, so the error is never seen. | Hide first, then run the callback, as the first map screen's alert does (MVVM/Views/MapView.swift:435-438), so that an alert raised by the callback stays presented. | not executed | ScreensMapView.MapScreen.RunStoredAsWritten, ScreensMapView.MapScreen.TapAlertConfirmAsWritten | ScreensMapView.MapScreen.RunStored, ScreensMapView.MapScreen.TapAlertConfirm |
