# Map interaction state machine and Dashboard controls

This project models the two components of the water-data map page that hold logic:

- **Map** (`app/src/components/Map.jsx`). It owns a rectangle-drawing tool, a rectangle-editing tool, a
  drawn layer holding the user's rectangle, a water layer holding the fetched geometries, and a popup.
  Every time its properties change, `componentWillReceiveProps` compares the old and new `mode`,
  `action`, `selectedArea` and `data`. It then drives those handles and calls the owner back through
  `setSelectedArea`, `setMode`, `setAction` and `fetchData`.
- **Dashboard** (`app/src/components/Dashboard.jsx`). It decides whether the year selector is shown and
  which panel is rendered (intro or tools). It fixes the second button's label ("Save" or "Edit") and
  the callbacks each button invokes.

How the model is built:

- `intents.dfy` holds the shared values: modes, actions, the bounds tuple
  `[swLat, swLng, neLat, neLng]`, and the callbacks, recorded as `Effect` values.
- `map_model.dfy` writes each Map operation as a function from one `MapView` (all the state the
  component drives, plus the log of callbacks it made so far) to the next.
  - Where the JavaScript would throw a TypeError, the function returns `Threw` with the state reached
    at the throw. This happens in three places: `applyEditing` on an empty drawn layer, and
    `undoEditing` or `showPopup` when `rectangleBounds` was never set.
  - `componentWillReceiveProps` stops at such a throw, and the model then keeps the old properties.
- `map_component.dfy` is the component as a class. Its fields stand in for the Leaflet handles, for
  `this.rectangleBounds` and for `this.popupAdditionalClass`; `effects` is an append-only log of the
  callbacks. Each method is proved to change the fields exactly as the matching `MapView` function
  says. The `eachLayer` loop of `applyEditing` and the `forEach` loop of `renderWaterGeos` are
  written as loops.
- `map_properties.dfy` proves what one update does to tools, layers, popup and callbacks. It also
  proves what a run of updates does to the water layer and to the log.
- `dashboard.dfy` models the Dashboard. `showYearSelector` is a loop with a `noData` flag and an
  early exit, proved equal to a predicate.
- `scenarios.dfy` ties the Dashboard's clicks to the Map's reaction, through a minimal model of the
  owner's store: each `setX` callback sets property `x`.

Three details the model follows from the code:

- Inside `componentWillReceiveProps`, `this.props` is still the old properties. So every
  `fetchData` the handlers emit uses the year of the properties being replaced, not the new one.
- `data` is compared by reference. A `GeoData` value carries a `tag` that stands for the array's
  identity.
- The layers of a Leaflet feature group are visited in the order they were added. So the
  "rectangle" that `applyEditing` reads is the last one added.

Where the documentation and the code differ, the model follows the code:

- The doc comment of `renderWaterGeos` (Map.jsx:237-240) says it removes the previous geometries,
  and the system description says the water layer is replaced wholesale. The code only adds: it
  calls `addData` for every new geometry and never clears the layer.
- `RenderKeepsPreviousWater` shows that the layer afterwards differs from the new geometries
  whenever it was not empty before.
- `NewDataAccumulatesWater` shows that successive `data` arrays pile up on the layer. Only a change
  into editing mode or a cleared selection empties it.

## Model

| member | source | states |
|---|---|---|
| `MapModel.RectangleOf` | app/src/components/Map.jsx:138-141 | The rectangle built from bounds `b` has `(b[0], b[1])` as its south-west corner and `(b[2], b[3])` as its north-east corner. |
| `MapModel.Coordinates` | app/src/components/Map.jsx:166-167 | A corner reads out as exactly two numbers, latitude then longitude. |
| `MapModel.GetRectangleBounds` | app/src/components/Map.jsx:162-168 | The four numbers read from a rectangle, split again by `createRectangle`, give back the same rectangle. |
| `MapModel.BoundsRoundTrip` | app/src/components/Map.jsx:130-168 | Splitting 4-number bounds into a rectangle and reading them back returns the same tuple, in `[swLat, swLng, neLat, neLng]` order. |
| `MapModel.MapView.CreateRectangle` | app/src/components/Map.jsx:135-145 | Stores `b`. Appends exactly one rectangle, which reads back as `b`, and keeps the earlier layers. Emits exactly `fetchData(b, year)`. Nothing else changes. |
| `MapModel.MapView.HidePopup` | app/src/components/Map.jsx:233-235 | The popup is closed; its content and extra class are kept; nothing else changes. |
| `MapModel.MapView.DeleteDrawing` | app/src/components/Map.jsx:151-154 | The drawn layer is empty and the popup closed; nothing else changes. |
| `MapModel.MapView.SaveRectangle` | app/src/components/Map.jsx:175-181 | Stores bounds that split back into the given rectangle and adds that rectangle to the drawn layer. Emits `setSelectedArea(bounds)`, `setMode(null)`, `fetchData(bounds, year)`, in that order. |
| `MapModel.MapView.ApplyEditing` | app/src/components/Map.jsx:187-197 | Throws, changing nothing, exactly when the drawn layer is empty. Otherwise stores the bounds of the last rectangle and emits `setSelectedArea`, `setMode(null)`, `fetchData` with them, in that order. Nothing else changes. |
| `MapModel.MapView.UndoEditing` | app/src/components/Map.jsx:202-206 | Throws after deleting the drawing exactly when no bounds are stored. Otherwise leaves one rectangle built from the unchanged stored bounds, with the popup closed. Emits `fetchData` with those bounds, then `setMode(null)`. |
| `MapModel.MapView.ShowPopup` | app/src/components/Map.jsx:213-228 | Throws, changing nothing, exactly when no bounds are stored. Otherwise opens the popup with the content, at the stored south-west latitude. Its extra class is then exactly the given class if truthy, else none. |
| `MapModel.MapView.RenderWaterGeos` | app/src/components/Map.jsx:241-243 | The water layer keeps all it held as a prefix, followed by the new geometries in order. Nothing else changes. |
| `MapModel.MapView.DeleteWaterGeos` | app/src/components/Map.jsx:258-260 | The water layer is empty; nothing else changes. |
| `MapModel.MapView.ModeStep` | app/src/components/Map.jsx:36-52 | Unchanged mode: nothing changes. 'drawing' enables only the drawing tool. 'editing' enables the editing tool, closes the popup and empties the water layer. Any other mode disables the drawing tool only when leaving 'drawing', and the editing tool only when leaving 'editing'. |
| `MapModel.MapView.ActionStep` | app/src/components/Map.jsx:54-65 | Unchanged action: nothing happens. Otherwise runs `applyEditing` for 'save' and `undoEditing` for 'cancel', then appends one `setAction(null)`; a throwing handler stops the step. |
| `MapModel.MapView.SelectionStep` | app/src/components/Map.jsx:67-70 | Selection going from present to absent: drawn layer and water layer emptied, popup closed. Otherwise nothing changes. |
| `MapModel.MapView.DataStep` | app/src/components/Map.jsx:72-74 | A different `data` array is appended to the water layer; the same array changes nothing. |
| `MapModel.MapView.ReceiveProps` | app/src/components/Map.jsx:35-75 | The callback log only grows. Identical properties change nothing. An update with an unchanged action never throws and emits no callback. |
| `MapModel.Mounted` | app/src/components/Map.jsx:112-115 | After mounting: tools disabled, water layer empty, popup closed. An area already in the properties is painted as the one rectangle, stored, and fetched; otherwise nothing is drawn or emitted. |
| `MapComponent.EachLayerLast` | app/src/components/Map.jsx:189-190 | The `eachLayer` loop leaves the last layer of a non-empty drawn layer, and nothing on an empty one. |
| `MapComponent.Map.constructor` | app/src/components/Map.jsx:112-115 | The new object's state is `Mounted` of its properties. |
| `MapComponent.Map.CreateRectangle` | app/src/components/Map.jsx:135-145 | Changes the fields exactly as `MapView.CreateRectangle` with the current year. |
| `MapComponent.Map.HidePopup` | app/src/components/Map.jsx:233-235 | Changes the fields exactly as `MapView.HidePopup`. |
| `MapComponent.Map.DeleteDrawing` | app/src/components/Map.jsx:151-154 | Changes the fields exactly as `MapView.DeleteDrawing`. |
| `MapComponent.Map.SaveRectangle` | app/src/components/Map.jsx:175-181 | Changes the fields exactly as `MapView.SaveRectangle` with the current year. |
| `MapComponent.Map.ApplyEditing` | app/src/components/Map.jsx:187-197 | Changes the fields as `MapView.ApplyEditing`; returns false exactly where it throws. |
| `MapComponent.Map.UndoEditing` | app/src/components/Map.jsx:202-206 | Changes the fields as `MapView.UndoEditing`; returns false exactly where it throws. |
| `MapComponent.Map.ShowPopup` | app/src/components/Map.jsx:213-228 | Changes the fields as `MapView.ShowPopup`; returns false exactly where it throws. |
| `MapComponent.Map.RenderWaterGeos` | app/src/components/Map.jsx:241-243 | The `forEach` loop changes the fields exactly as `MapView.RenderWaterGeos`. |
| `MapComponent.Map.DeleteWaterGeos` | app/src/components/Map.jsx:258-260 | Changes the fields exactly as `MapView.DeleteWaterGeos`. |
| `MapComponent.Map.ModeStep` | app/src/components/Map.jsx:36-52 | Changes the fields exactly as `MapView.ModeStep` from the stored mode. |
| `MapComponent.Map.ActionStep` | app/src/components/Map.jsx:54-65 | Changes the fields as `MapView.ActionStep` from the stored action and year; returns false where it throws. |
| `MapComponent.Map.SelectionStep` | app/src/components/Map.jsx:67-70 | Changes the fields exactly as `MapView.SelectionStep` from the stored selection. |
| `MapComponent.Map.DataStep` | app/src/components/Map.jsx:72-74 | Changes the fields exactly as `MapView.DataStep` from the stored data. |
| `MapComponent.Map.ReceiveProps` | app/src/components/Map.jsx:35-75 | Changes the fields as `MapView.ReceiveProps` from the stored properties. Afterwards the stored properties are the new ones, unless a handler threw. |
| `MapProperties.ModeUnchangedKeepsTools` | app/src/components/Map.jsx:36 | With `mode` unchanged, no update enables or disables either tool. |
| `MapProperties.ModeUnchangedKeepsPopupAndWater` | app/src/components/Map.jsx:36-74 | With `mode` and `action` unchanged, the same `data` and no selection cleared, an update changes nothing at all. |
| `MapProperties.EnteringDrawing` | app/src/components/Map.jsx:38-40 | A change to 'drawing' enables the drawing tool and leaves the editing tool as it was. |
| `MapProperties.EnteringEditing` | app/src/components/Map.jsx:42-46 | A change to 'editing', from any mode, enables the editing tool and closes the popup, and leaves the drawing tool as it was. The water layer ends empty, or holding only the new data when the same update brings some. |
| `MapProperties.LeavingMode` | app/src/components/Map.jsx:48-50 | A change to another mode disables the drawing tool iff leaving 'drawing' and the editing tool iff leaving 'editing'. |
| `MapProperties.HandlersEmitNoSetAction` | app/src/components/Map.jsx:187-206 | Neither `applyEditing` nor `undoEditing` calls `setAction` itself. |
| `MapProperties.ActionStepResetOnce` | app/src/components/Map.jsx:54-65 | In the action block alone, a changed action ends with exactly one `setAction(null)`, after the handler's effects. |
| `MapProperties.ActionResetOnce` | app/src/components/Map.jsx:54-65 | A changed action emits exactly one `setAction(null)`, after all the handler's effects; a throwing handler emits nothing. |
| `MapProperties.SaveCommitsLastRectangle` | app/src/components/Map.jsx:56-64 | With a rectangle drawn, 'save' stores the last rectangle's bounds. It emits `setSelectedArea`, `setMode(null)`, `fetchData` for the old year, then `setAction(null)`. |
| `MapProperties.CancelRestoresStoredRectangle` | app/src/components/Map.jsx:60-64 | With bounds stored, 'cancel' keeps them and closes the popup. It emits `fetchData` with them, `setMode(null)`, `setAction(null)`, and leaves one rectangle built from them. |
| `MapProperties.SelectionClearedRemovesOverlays` | app/src/components/Map.jsx:67-70 | A selection going from present to absent empties the drawn layer and closes the popup. The water layer is emptied, keeping only new data from the same update. |
| `MapProperties.RenderKeepsPreviousWater` | app/src/components/Map.jsx:237-243 | Rendering does not replace a non-empty water layer: the result differs from the new geometries. |
| `MapProperties.MountedHasBoundsBehindDrawing` | app/src/components/Map.jsx:112-115 | After mounting, bounds are stored whenever a rectangle is drawn. |
| `MapProperties.SaveRectangleKeepsBoundsBehindDrawing` | app/src/components/Map.jsx:175-181 | After `saveRectangle`, bounds are stored whenever a rectangle is drawn. |
| `MapProperties.ReceivePropsKeepsBoundsBehindDrawing` | app/src/components/Map.jsx:35-75 | Every update, throwing or not, keeps bounds stored whenever a rectangle is drawn. |
| `MapProperties.CancelThrowsOnlyWithoutDrawing` | app/src/components/Map.jsx:202-206 | While that invariant holds and a rectangle is drawn, `undoEditing` does not throw. |
| `MapProperties.MountedHasAtMostOneRectangle` | app/src/components/Map.jsx:112-115 | After mounting, at most one rectangle is drawn. |
| `MapProperties.SaveRectangleOnEmptyLayer` | app/src/components/Map.jsx:175-181 | A rectangle drawn on an empty drawn layer becomes its only rectangle. |
| `MapProperties.ReceivePropsKeepsAtMostOneRectangle` | app/src/components/Map.jsx:35-75 | No update, throwing or not, leaves more than one rectangle drawn when there was at most one before. |
| `MapProperties.ApplyEditingCommitsTheRectangle` | app/src/components/Map.jsx:187-197 | With exactly one rectangle drawn, as the comment at Map.jsx:188 assumes, 'save' does not throw and stores that rectangle's bounds. |
| `MapProperties.UpdatesOnlyAppendEffects` | app/src/components/Map.jsx:35-75 | Over any run of updates, the callback log keeps every earlier callback as a prefix. |
| `MapProperties.NewDataAccumulatesWater` | app/src/components/Map.jsx:72-74 | Over updates that bring only new `data` arrays, the water layer ends as its old content followed by every delivered geometry, in order. Nothing else changes. |
| `Dashboard.ShowYearSelector` | app/src/components/Dashboard.jsx:11-22 | True iff a series is present, some entry has a positive percentage, and the mode is not 'editing'. |
| `Dashboard.FirstButtonClick` | app/src/components/Dashboard.jsx:24-31 | In editing mode: `setAction('cancel')` then `setMode(null)`. Otherwise only `setSelectedArea(null)`. |
| `Dashboard.SecondButtonClick` | app/src/components/Dashboard.jsx:33-40 | In editing mode: `setAction('save')` then `setMode(null)`. Otherwise only `setMode('editing')`. |
| `Dashboard.SecondButtonLabel` | app/src/components/Dashboard.jsx:62 | "Save" iff the mode is 'editing', "Edit" otherwise. |
| `Dashboard.IntroButtonClick` | app/src/components/Dashboard.jsx:44 | Exactly one callback, `setMode('drawing')`. |
| `Dashboard.Render` | app/src/components/Dashboard.jsx:50-77 | The tools panel iff an area is selected, else the intro panel. In the tools panel, the label follows the mode and the year selector shows iff `showYearSelector` holds. |
| `Dashboard.NoSeriesNoSelector` | app/src/components/Dashboard.jsx:12 | An absent series never shows the year selector. |
| `Dashboard.AllZeroNoSelector` | app/src/components/Dashboard.jsx:14-21 | A series of zeros, the empty one included, never shows the selector, whatever the mode. |
| `Dashboard.EditingNoSelector` | app/src/components/Dashboard.jsx:21 | Editing mode hides the selector whatever the percentages. |
| `Dashboard.SelectorOnlyWithArea` | app/src/components/Dashboard.jsx:65-77 | The year selector appears only in the tools panel, hence only with an area selected; without one the intro panel is rendered. |
| `Scenarios.EditClickScenario` | app/src/components/Dashboard.jsx:33-40 | Bounds [10,10,20,20], year 2020 and series {2019: 0, 2020: 5}: tools panel labelled "Edit", with the year selector. Clicking it sets 'editing'; the Map then enables editing, closes the popup, empties the water layer and emits nothing. |
| `Scenarios.SaveClickScenario` | app/src/components/Map.jsx:54-65 | "Save" while editing a drawn rectangle: the Map disables editing and publishes the edited bounds. It clears the mode, fetches and resets the action, in that order. The store then holds no action, no mode and those bounds. |
| `Scenarios.CancelClickScenario` | app/src/components/Map.jsx:60-64 | "Cancel" while editing: the Map disables editing and restores the stored rectangle. It fetches those same bounds, clears the mode and resets the action. |
| `Scenarios.CloseClickScenario` | app/src/components/Map.jsx:67-70 | "Cancel" outside editing deselects the area. The Map removes the rectangle and the water and closes the popup; the Dashboard shows the intro panel. |
| `Scenarios.IntroClickScenario` | app/src/components/Map.jsx:38-40 | The intro button makes the Map enable the drawing tool and change nothing else. |

## Left out

- MapModel.MapView.ShowPopup: does not model the popup's longitude. The source computes it as the floating-point midpoint of the two stored longitudes; the model keeps only the latitude `rectangleBounds[0]`.
- Leaflet itself is not modelled: `L.map`, the tile layer and its URL, `L.Control.Draw`, `L.Draw.Rectangle`, `L.EditToolbar.Edit`, GeoJSON parsing and styling (`setStyle`). The tools are booleans and the layers are sequences.
- `L.LatLngBounds` orders its corners (minimum and maximum). The model keeps the corners as given, so the bounds round trip holds for any four numbers. In Leaflet it holds for bounds whose south-west corner is really south-west.
- Leaflet Draw's rectangle handler disables itself once a rectangle is completed. That is library behaviour and is not modelled; the later `setMode(null)` disables the tool in the model too.
- Leaflet Draw's editing of the rectangle's geometry, and the walk of a GeoJSON collection into several layers, are not modelled. Each geometry passed to `addData` is one entry of the water layer.
- The map event listeners (Map.jsx:102-106) are not modelled. So `setLatLng` and `setZoom` are not modelled, and `draw:created` is modelled by calling `SaveRectangle` directly.
- The commented-out popup branch of `renderWaterGeos` (Map.jsx:245-252) is disabled code and is not modelled. So `showPopup` has no caller in the live code.
- React rendering, the JSX markup, the styles and the cross-fade transition (Dashboard.jsx:68-80) are UI and are not modelled. Panels are described only by the choices they embody.
- `fetchData` is recorded only as an emitted effect. Its asynchronous answer, and the race in which a stale answer lands after the selection changed, are outside this layer.
- What React does after a handler throws is not modelled beyond stopping the update. The model keeps the old properties.
- An absent `data` property is not modelled (`forEach` on `undefined` would throw). Neither are `mode` or `action` strings other than the three the components use.
- `draw:created` on a drawn layer that already holds a rectangle would add a second one (`saveRectangle` never clears the layer). The model proves the one-rectangle invariant only for a save onto an empty layer; that the draw button is offered only on the intro panel, with no area selected, is what rules the other case out, and that link through the rendered UI is not modelled.
- JavaScript `undefined` and `null` are both modelled as `NoMode`/`NoAction`. The source compares with `!==`, so an `action` going from `undefined` to `null` still runs the action block and calls `setAction(null)`; the model treats an absent mode or action as equal to `null` and does not run the block.
- Numbers are real numbers, not IEEE doubles.
- The owner's store is not part of this repository. `Scenarios` models it only as "each `setX` sets `x`, and one click's callbacks arrive as one update".
- app/src/components/MapPage.jsx only forwards properties and renders overlays, and is not modelled. webpack.config.js is build configuration.
