/**
 * What one update of the Map's properties does to the tools, the layers, the popup and the
 * callbacks, and what a run of updates does to the water layer and the callback log.
 */
module MapProperties {
  import opened Intents
  import opened MapModel

  /** When `mode` is unchanged, no update enables or disables a tool. */
  lemma ModeUnchangedKeepsTools(v: MapView, prev: Props, next: Props)
    requires prev.mode == next.mode
    ensures v.ReceiveProps(prev, next).view.drawingEnabled == v.drawingEnabled
    ensures v.ReceiveProps(prev, next).view.editingEnabled == v.editingEnabled
  {
  }

  /**
   * When `mode` is unchanged and the update neither handles an action, clears the selection nor
   * brings new data, the popup and the water layer stay as they were too.
   */
  lemma ModeUnchangedKeepsPopupAndWater(v: MapView, prev: Props, next: Props)
    requires prev.mode == next.mode && prev.action == next.action && prev.data == next.data
    requires !(prev.selectedArea.Some? && next.selectedArea.None?)
    ensures v.ReceiveProps(prev, next) == Completed(v)
  {
  }

  /** A change to 'drawing' enables the drawing tool and leaves the editing tool alone. */
  lemma EnteringDrawing(v: MapView, prev: Props, next: Props)
    requires prev.mode != next.mode && next.mode == Drawing
    ensures v.ReceiveProps(prev, next).view.drawingEnabled
    ensures v.ReceiveProps(prev, next).view.editingEnabled == v.editingEnabled
  {
  }

  /**
   * A change to 'editing', from whatever mode, enables the editing tool, closes the popup and
   * empties the water layer; only new data in the same update puts geometries back. The drawing
   * tool is left as it was, so going from drawing to editing does not disable it.
   */
  lemma EnteringEditing(v: MapView, prev: Props, next: Props)
    requires prev.mode != next.mode && next.mode == Editing
    ensures var o := v.ReceiveProps(prev, next);
      o.view.editingEnabled && o.view.drawingEnabled == v.drawingEnabled && !o.view.popup.open &&
      o.view.waterLayer == (if o.Completed? && prev.data != next.data then next.data.geometries else [])
  {
    var moded := v.ModeStep(prev.mode, next.mode);
    assert moded.waterLayer == [] && !moded.popup.open && moded.editingEnabled;
    match moded.ActionStep(prev.action, next.action, prev.year)
    case Threw(w) =>
    case Completed(w) =>
      assert w.waterLayer == [] && !w.popup.open;
  }

  /**
   * A change to any other mode disables the drawing tool only when leaving 'drawing' and the
   * editing tool only when leaving 'editing'.
   */
  lemma LeavingMode(v: MapView, prev: Props, next: Props)
    requires prev.mode != next.mode && next.mode == NoMode
    ensures v.ReceiveProps(prev, next).view.drawingEnabled == (v.drawingEnabled && prev.mode != Drawing)
    ensures v.ReceiveProps(prev, next).view.editingEnabled == (v.editingEnabled && prev.mode != Editing)
  {
  }

  /** No callback in `s` is a setAction. */
  predicate FreeOfSetAction(s: seq<Effect>) {
    forall i :: 0 <= i < |s| ==> !s[i].SetAction?
  }

  /** Neither action handler calls setAction itself. */
  lemma HandlersEmitNoSetAction(m: MapView, year: int)
    ensures FreeOfSetAction(m.ApplyEditing(year).view.effects[|m.effects|..])
    ensures FreeOfSetAction(m.UndoEditing(year).view.effects[|m.effects|..])
  {
    var applied := m.ApplyEditing(year).view.effects;
    assert m.ApplyEditing(year).Completed? ==>
      applied[|m.effects|..] == [SetSelectedArea(m.ApplyEditing(year).view.rectangleBounds), SetMode(NoMode),
                                 FetchData(m.ApplyEditing(year).view.rectangleBounds.value, year)];
    var undone := m.UndoEditing(year).view.effects;
    assert m.UndoEditing(year).Completed? ==>
      undone[|m.effects|..] == [FetchData(m.rectangleBounds.value, year), SetMode(NoMode)];
  }

  /** The action block alone: a changed action appends one setAction(null) after the handler's effects. */
  lemma ActionStepResetOnce(m: MapView, prevAction: Action, nextAction: Action, year: int)
    requires prevAction != nextAction
    ensures var o := m.ActionStep(prevAction, nextAction, year);
      var emitted := o.view.effects[|m.effects|..];
      (o.Completed? ==>
        |emitted| >= 1 && emitted[|emitted| - 1] == SetAction(NoAction) &&
        FreeOfSetAction(emitted[..|emitted| - 1])) &&
      (o.Threw? ==> emitted == [])
  {
    HandlersEmitNoSetAction(m, year);
    var o := m.ActionStep(prevAction, nextAction, year);
    var handled := if nextAction == Save then m.ApplyEditing(year)
                   else if nextAction == Cancel then m.UndoEditing(year)
                   else Completed(m);
    assert o.Completed? ==> o.view.effects == handled.view.effects + [SetAction(NoAction)];
    assert o.Threw? ==> o.view.effects == m.effects;
    if o.Completed? {
      var emitted := o.view.effects[|m.effects|..];
      assert emitted[..|emitted| - 1] == handled.view.effects[|m.effects|..];
    }
  }

  /**
   * A change of `action` ends, when its handler does not throw, with exactly one setAction(null),
   * emitted after every effect of the handler; a handler that throws emits nothing.
   */
  lemma ActionResetOnce(v: MapView, prev: Props, next: Props)
    requires prev.action != next.action
    ensures var o := v.ReceiveProps(prev, next);
      var emitted := o.view.effects[|v.effects|..];
      (o.Completed? ==>
        |emitted| >= 1 && emitted[|emitted| - 1] == SetAction(NoAction) &&
        FreeOfSetAction(emitted[..|emitted| - 1])) &&
      (o.Threw? ==> emitted == [])
  {
    var moded := v.ModeStep(prev.mode, next.mode);
    ActionStepResetOnce(moded, prev.action, next.action, prev.year);
    var acted := moded.ActionStep(prev.action, next.action, prev.year);
    assert v.ReceiveProps(prev, next).view.effects == acted.view.effects;
    assert v.ReceiveProps(prev, next).Completed? == acted.Completed?;
  }

  /**
   * 'save' on a non-empty drawn layer commits the last rectangle: its bounds are stored and
   * published, the mode is cleared, their data is fetched for the year being replaced, and the
   * action is reset, in that order.
   */
  lemma SaveCommitsLastRectangle(v: MapView, prev: Props, next: Props)
    requires prev.action != next.action && next.action == Save
    requires v.drawnLayer != []
    ensures var o := v.ReceiveProps(prev, next);
      var b := GetRectangleBounds(v.drawnLayer[|v.drawnLayer| - 1]);
      o.Completed? && o.view.rectangleBounds == Some(b) &&
      o.view.effects == v.effects + [SetSelectedArea(Some(b)), SetMode(NoMode), FetchData(b, prev.year),
                                     SetAction(NoAction)]
  {
    var moded := v.ModeStep(prev.mode, next.mode);
    assert moded.drawnLayer == v.drawnLayer && moded.effects == v.effects;
    var b := GetRectangleBounds(v.drawnLayer[|v.drawnLayer| - 1]);
    assert RectangleOf(moded.ApplyEditing(prev.year).view.rectangleBounds.value) == RectangleOf(b);
    BoundsRoundTrip(b);
    BoundsRoundTrip(moded.ApplyEditing(prev.year).view.rectangleBounds.value);
  }

  /**
   * 'cancel' with stored bounds restores one rectangle built from those unchanged bounds, fetches
   * their data, then clears the mode and resets the action; with the selection kept, that
   * rectangle is all the drawn layer holds.
   */
  lemma CancelRestoresStoredRectangle(v: MapView, prev: Props, next: Props)
    requires prev.action != next.action && next.action == Cancel
    requires v.rectangleBounds.Some?
    ensures var o := v.ReceiveProps(prev, next);
      var b := v.rectangleBounds.value;
      o.Completed? && o.view.rectangleBounds == v.rectangleBounds && !o.view.popup.open &&
      o.view.effects == v.effects + [FetchData(b, prev.year), SetMode(NoMode), SetAction(NoAction)] &&
      (!(prev.selectedArea.Some? && next.selectedArea.None?) ==>
        |o.view.drawnLayer| == 1 && GetRectangleBounds(o.view.drawnLayer[0]) == b)
  {
    var moded := v.ModeStep(prev.mode, next.mode);
    assert moded.rectangleBounds == v.rectangleBounds && moded.effects == v.effects;
  }

  /**
   * When the selection goes from present to absent (and no handler throws first), the drawn layer
   * is emptied and the popup closed; the water layer is emptied, and holds only the new geometries
   * when the same update brings new data.
   */
  lemma SelectionClearedRemovesOverlays(v: MapView, prev: Props, next: Props)
    requires prev.selectedArea.Some? && next.selectedArea.None?
    requires v.ReceiveProps(prev, next).Completed?
    ensures var w := v.ReceiveProps(prev, next).view;
      w.drawnLayer == [] && !w.popup.open &&
      w.waterLayer == (if prev.data != next.data then next.data.geometries else [])
  {
  }

  /**
   * Whatever was on the water layer stays there when geometries are rendered: the layer is not
   * replaced, so it equals the new geometries only if it was empty before.
   */
  lemma RenderKeepsPreviousWater(v: MapView, gs: seq<Geometry>)
    requires v.waterLayer != []
    ensures v.RenderWaterGeos(gs).waterLayer != gs
  {
    assert |v.RenderWaterGeos(gs).waterLayer| == |v.waterLayer| + |gs|;
  }

  /** Stored bounds exist whenever a rectangle is drawn. */
  predicate BoundsBehindDrawing(v: MapView) {
    v.drawnLayer != [] ==> v.rectangleBounds.Some?
  }

  lemma MountedHasBoundsBehindDrawing(p: Props)
    ensures BoundsBehindDrawing(Mounted(p))
  {
  }

  lemma SaveRectangleKeepsBoundsBehindDrawing(v: MapView, rectangle: Rectangle, year: int)
    ensures BoundsBehindDrawing(v.SaveRectangle(rectangle, year))
  {
  }

  /** An update keeps stored bounds behind every drawing, whether or not a handler throws. */
  lemma ReceivePropsKeepsBoundsBehindDrawing(v: MapView, prev: Props, next: Props)
    requires BoundsBehindDrawing(v)
    ensures BoundsBehindDrawing(v.ReceiveProps(prev, next).view)
  {
  }

  /** So 'cancel' can throw only when no rectangle is on the drawn layer. */
  lemma CancelThrowsOnlyWithoutDrawing(v: MapView, year: int)
    requires BoundsBehindDrawing(v) && v.drawnLayer != []
    ensures v.UndoEditing(year).Completed?
  {
  }

  /** The drawn layer holds at most one rectangle, as `applyEditing` takes for granted. */
  predicate AtMostOneRectangle(v: MapView) {
    |v.drawnLayer| <= 1
  }

  lemma MountedHasAtMostOneRectangle(p: Props)
    ensures AtMostOneRectangle(Mounted(p))
  {
  }

  /** `draw:created` keeps a single rectangle only when it lands on an empty drawn layer. */
  lemma SaveRectangleOnEmptyLayer(v: MapView, rectangle: Rectangle, year: int)
    requires v.drawnLayer == []
    ensures AtMostOneRectangle(v.SaveRectangle(rectangle, year))
    ensures v.SaveRectangle(rectangle, year).drawnLayer == [rectangle]
  {
  }

  /** Every update, throwing or not, keeps at most one rectangle drawn. */
  lemma ReceivePropsKeepsAtMostOneRectangle(v: MapView, prev: Props, next: Props)
    requires AtMostOneRectangle(v)
    ensures AtMostOneRectangle(v.ReceiveProps(prev, next).view)
  {
  }

  /** With at most one rectangle drawn, the layer 'save' commits is that rectangle. */
  lemma ApplyEditingCommitsTheRectangle(v: MapView, year: int)
    requires AtMostOneRectangle(v) && v.drawnLayer != []
    ensures v.ApplyEditing(year).Completed?
    ensures v.ApplyEditing(year).view.rectangleBounds == Some(GetRectangleBounds(v.drawnLayer[0]))
  {
  }

  /**
   * Successive calls of `componentWillReceiveProps`, each with the properties of the one before;
   * the run stops at the first throw.
   */
  function Updates(v: MapView, prev: Props, nexts: seq<Props>): (o: Outcome)
    decreases |nexts|
  {
    if nexts == [] then Completed(v)
    else match v.ReceiveProps(prev, nexts[0])
      case Threw(w) => Threw(w)
      case Completed(w) => Updates(w, nexts[0], nexts[1..])
  }

  /** Callbacks once invoked stay invoked: a run of updates only appends to the log. */
  lemma {:induction false} UpdatesOnlyAppendEffects(v: MapView, prev: Props, nexts: seq<Props>)
    ensures var o := Updates(v, prev, nexts);
      |o.view.effects| >= |v.effects| && o.view.effects[..|v.effects|] == v.effects
    decreases |nexts|
  {
    if nexts != [] {
      match v.ReceiveProps(prev, nexts[0])
      case Threw(w) =>
      case Completed(w) =>
        UpdatesOnlyAppendEffects(w, nexts[0], nexts[1..]);
        var o := Updates(w, nexts[0], nexts[1..]);
        assert o.view.effects[..|w.effects|][..|v.effects|] == o.view.effects[..|v.effects|];
    }
  }

  /** Each update differs from the one before in its `data` array only. */
  predicate NewDataOnly(prev: Props, nexts: seq<Props>)
    decreases |nexts|
  {
    nexts == [] ||
    (nexts[0].data != prev.data && nexts[0] == prev.(data := nexts[0].data) && NewDataOnly(nexts[0], nexts[1..]))
  }

  /** The geometries of the updates' `data` arrays, one array after the other. */
  function DeliveredGeometries(nexts: seq<Props>): seq<Geometry>
    decreases |nexts|
  {
    if nexts == [] then [] else nexts[0].data.geometries + DeliveredGeometries(nexts[1..])
  }

  /**
   * Data arriving one array after another (for other years of the same area, say) accumulates on
   * the water layer: after the run it holds what it held before followed by every delivered
   * geometry, and nothing else of the state has changed.
   */
  lemma {:induction false} NewDataAccumulatesWater(v: MapView, prev: Props, nexts: seq<Props>)
    requires NewDataOnly(prev, nexts)
    ensures var o := Updates(v, prev, nexts);
      o.Completed? && o.view.waterLayer == v.waterLayer + DeliveredGeometries(nexts) &&
      o.view.(waterLayer := v.waterLayer) == v
    decreases |nexts|
  {
    if nexts != [] {
      var w := v.RenderWaterGeos(nexts[0].data.geometries);
      assert v.ReceiveProps(prev, nexts[0]) == Completed(w);
      NewDataAccumulatesWater(w, nexts[0], nexts[1..]);
      assert w.waterLayer + DeliveredGeometries(nexts[1..])
          == v.waterLayer + (nexts[0].data.geometries + DeliveredGeometries(nexts[1..]));
    }
  }
}
