/**
 * The Dashboard and the Map together. Their owner keeps the shared properties in a store outside
 * these components; it is modelled only as far as both rely on it: each `setX` callback sets
 * property `x`, `fetchData` changes no property (its answer comes back later as new `data`), and
 * the callbacks of one click reach the Map as a single update.
 */
module Scenarios {
  import opened Intents
  import opened MapModel
  import Dashboard
  import MapProperties

  /** The owner's store applying one callback to the Map's properties. */
  function Dispatch(p: Props, e: Effect): (q: Props)
    ensures q.data == p.data && q.year == p.year
  {
    match e
    case SetSelectedArea(area) => p.(selectedArea := area)
    case SetMode(m) => p.(mode := m)
    case SetAction(a) => p.(action := a)
    case FetchData(_, _) => p
  }

  /** The store applying callbacks in the order they were invoked. */
  function DispatchAll(p: Props, es: seq<Effect>): (q: Props)
    decreases |es|
  {
    if es == [] then p else DispatchAll(Dispatch(p, es[0]), es[1..])
  }

  lemma DispatchOne(p: Props, e: Effect)
    ensures DispatchAll(p, [e]) == Dispatch(p, e)
  {
    assert [e][1..] == [];
  }

  lemma DispatchCons(p: Props, e: Effect, es: seq<Effect>)
    ensures DispatchAll(p, [e] + es) == DispatchAll(Dispatch(p, e), es)
  {
    assert ([e] + es)[1..] == es;
  }

  /** What the Dashboard reads of the same store. */
  function DashboardView(p: Props, series: Option<seq<Dashboard.YearPercentage>>): Dashboard.DashboardProps {
    Dashboard.DashboardProps(p.mode, p.selectedArea, series)
  }

  /**
   * With bounds [10, 10, 20, 20], year 2020 and a series with data for 2020 only, the Dashboard
   * shows the tools with the "Edit" button and the year selector; clicking "Edit" puts the Map in
   * editing mode, which closes the popup and empties the water layer.
   */
  lemma EditClickScenario(v: MapView, p: Props)
    requires p.mode == NoMode && p.action == NoAction
    requires p.selectedArea == Some([10.0, 10.0, 20.0, 20.0]) && p.year == 2020
    ensures var series := Some([Dashboard.YearPercentage(2019, 0.0), Dashboard.YearPercentage(2020, 5.0)]);
      Dashboard.Render(DashboardView(p, series)) == Dashboard.Tools("Edit", true)
    ensures var next := DispatchAll(p, Dashboard.SecondButtonClick(p.mode));
      var o := v.ReceiveProps(p, next);
      next.mode == Editing && o.Completed? && o.view.editingEnabled && !o.view.popup.open &&
      o.view.waterLayer == [] && o.view.effects == v.effects
  {
    var series := [Dashboard.YearPercentage(2019, 0.0), Dashboard.YearPercentage(2020, 5.0)];
    assert series[1].percentage > 0.0;
    assert Dashboard.SomeYearHasData(series);
    DispatchOne(p, SetMode(Editing));
  }

  /**
   * Clicking "Save" while editing a drawn rectangle: the Map disables the editing tool, publishes
   * the bounds of the edited rectangle, clears the mode, fetches the data and resets the action,
   * in that order; once the store has applied those callbacks the action is back to none and the
   * selected area is the edited rectangle's.
   */
  lemma SaveClickScenario(v: MapView, p: Props)
    requires p.mode == Editing && p.action == NoAction
    requires v.drawnLayer != []
    ensures var next := DispatchAll(p, Dashboard.SecondButtonClick(p.mode));
      var o := v.ReceiveProps(p, next);
      var b := GetRectangleBounds(v.drawnLayer[|v.drawnLayer| - 1]);
      o.Completed? && !o.view.editingEnabled &&
      o.view.effects == v.effects + [SetSelectedArea(Some(b)), SetMode(NoMode), FetchData(b, p.year),
                                     SetAction(NoAction)] &&
      var settled := DispatchAll(next, o.view.effects[|v.effects|..]);
      settled.action == NoAction && settled.mode == NoMode && settled.selectedArea == Some(b)
  {
    DispatchCons(p, SetAction(Save), [SetMode(NoMode)]);
    DispatchOne(p.(action := Save), SetMode(NoMode));
    var next := DispatchAll(p, Dashboard.SecondButtonClick(p.mode));
    assert next == p.(action := Save, mode := NoMode);
    MapProperties.SaveCommitsLastRectangle(v, p, next);
    var b := GetRectangleBounds(v.drawnLayer[|v.drawnLayer| - 1]);
    var o := v.ReceiveProps(p, next);
    var emitted := o.view.effects[|v.effects|..];
    assert emitted == [SetSelectedArea(Some(b)), SetMode(NoMode), FetchData(b, p.year), SetAction(NoAction)];
    DispatchCons(next, SetSelectedArea(Some(b)), [SetMode(NoMode), FetchData(b, p.year), SetAction(NoAction)]);
    var q := next.(selectedArea := Some(b));
    DispatchCons(q, SetMode(NoMode), [FetchData(b, p.year), SetAction(NoAction)]);
    DispatchCons(q.(mode := NoMode), FetchData(b, p.year), [SetAction(NoAction)]);
    DispatchOne(q.(mode := NoMode), SetAction(NoAction));
  }

  /**
   * Clicking "Cancel" while editing, with bounds stored: the Map disables the editing tool,
   * restores the one rectangle those bounds describe, fetches for the same bounds, clears the mode
   * and resets the action.
   */
  lemma CancelClickScenario(v: MapView, p: Props)
    requires p.mode == Editing && p.action == NoAction
    requires v.rectangleBounds.Some?
    ensures var next := DispatchAll(p, Dashboard.FirstButtonClick(p.mode));
      var o := v.ReceiveProps(p, next);
      var b := v.rectangleBounds.value;
      o.Completed? && !o.view.editingEnabled &&
      |o.view.drawnLayer| == 1 && GetRectangleBounds(o.view.drawnLayer[0]) == b &&
      o.view.effects == v.effects + [FetchData(b, p.year), SetMode(NoMode), SetAction(NoAction)]
  {
    DispatchCons(p, SetAction(Cancel), [SetMode(NoMode)]);
    DispatchOne(p.(action := Cancel), SetMode(NoMode));
    var next := DispatchAll(p, Dashboard.FirstButtonClick(p.mode));
    assert next == p.(action := Cancel, mode := NoMode);
    MapProperties.CancelRestoresStoredRectangle(v, p, next);
  }

  /**
   * Clicking "Cancel" outside editing deselects the area: the Map removes the drawn rectangle,
   * closes the popup and empties the water layer, and the Dashboard goes back to the intro panel.
   */
  lemma CloseClickScenario(v: MapView, p: Props, series: Option<seq<Dashboard.YearPercentage>>)
    requires p.mode != Editing && p.selectedArea.Some?
    ensures var next := DispatchAll(p, Dashboard.FirstButtonClick(p.mode));
      var o := v.ReceiveProps(p, next);
      o.Completed? && o.view.drawnLayer == [] && !o.view.popup.open && o.view.waterLayer == [] &&
      Dashboard.Render(DashboardView(next, series)) == Dashboard.Intro
  {
    DispatchOne(p, SetSelectedArea(None));
  }

  /** The intro panel's button puts the Map in drawing mode, which enables the drawing tool only. */
  lemma IntroClickScenario(v: MapView, p: Props)
    requires p.mode == NoMode
    ensures var next := DispatchAll(p, Dashboard.IntroButtonClick());
      var o := v.ReceiveProps(p, next);
      o == Completed(v.(drawingEnabled := true))
  {
    DispatchOne(p, SetMode(Drawing));
  }
}
