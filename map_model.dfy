/**
 * The state that the Map component drives, seen without Leaflet: whether the drawing and the
 * editing tools are enabled, the rectangles on the drawn layer, the geometries on the water layer,
 * the popup, the stored `rectangleBounds`, and the log of upward callbacks it has invoked.
 *
 * Each operation of the component is a function from one `MapView` to the next; the class in
 * map_component.dfy is proved to change its fields exactly as these functions say. Where the
 * source would throw a TypeError (reading a property of `undefined`), the operation returns
 * `Threw` with the state reached at the throw, and nothing after it runs.
 */
module MapModel {
  import opened Intents

  datatype LatLng = LatLng(lat: real, lng: real)

  /** A rectangle of the drawn layer, given by its two corners. */
  datatype Rectangle = Rectangle(southWest: LatLng, northEast: LatLng)

  /** One GeoJSON object handed to the water layer's `addData`; its content is opaque here. */
  datatype Geometry = Geometry(feature: string)

  /**
   * The `data` property. The source compares it by reference; `tag` stands for the identity of
   * the array, so two properties carry the same array exactly when they are equal.
   */
  datatype GeoData = GeoData(tag: nat, geometries: seq<Geometry>)

  /** The properties of Map that its update logic reads. */
  datatype Props = Props(mode: Mode, action: Action, selectedArea: Option<Bounds>, data: GeoData, year: int)

  /** The single reusable popup: on the map or not, its content, its latitude, its extra class. */
  datatype Popup = Popup(open: bool, content: string, lat: real, extraClass: Option<string>)

  const ClosedPopup := Popup(false, "", 0.0, None)

  /** JavaScript truthiness of an optional class name: absent and "" are both false. */
  predicate ClassGiven(className: Option<string>) {
    className.Some? && className.value != ""
  }

  /** The rectangle `createRectangle` builds: `b.slice(0, 2)` and `b.slice(2, 4)` as its corners. */
  function RectangleOf(b: Bounds): (r: Rectangle)
    ensures r.southWest == LatLng(b[0], b[1]) && r.northEast == LatLng(b[2], b[3])
  {
    var southWest := b[0..2];
    var northEast := b[2..4];
    Rectangle(LatLng(southWest[0], southWest[1]), LatLng(northEast[0], northEast[1]))
  }

  /** The values of a corner's own keys, `lat` then `lng`. */
  function Coordinates(p: LatLng): (s: seq<real>)
    ensures |s| == 2 && s[0] == p.lat && s[1] == p.lng
  {
    [p.lat, p.lng]
  }

  /** `getRectangleBounds`: the south-west corner flattened, then the north-east corner. */
  function GetRectangleBounds(r: Rectangle): (b: Bounds)
    ensures RectangleOf(b) == r
  {
    Coordinates(r.southWest) + Coordinates(r.northEast)
  }

  /** Splitting bounds into a rectangle and reading them back gives the same four numbers. */
  lemma BoundsRoundTrip(b: Bounds)
    ensures GetRectangleBounds(RectangleOf(b)) == b
  {
    assert GetRectangleBounds(RectangleOf(b)) == [b[0], b[1], b[2], b[3]];
  }

  /** The result of an operation: it ran to the end, or it threw at the state given. */
  datatype Outcome = Completed(view: MapView) | Threw(view: MapView)

  datatype MapView = MapView(
    drawingEnabled: bool,
    editingEnabled: bool,
    drawnLayer: seq<Rectangle>,
    waterLayer: seq<Geometry>,
    popup: Popup,
    rectangleBounds: Option<Bounds>,
    effects: seq<Effect>)
  {
    /** `createRectangle(b)`: store `b`, add its rectangle to the drawn layer, fetch its data. */
    function CreateRectangle(b: Bounds, year: int): (r: MapView)
      ensures r.rectangleBounds == Some(b)
      ensures |r.drawnLayer| == |drawnLayer| + 1 && r.drawnLayer[..|drawnLayer|] == drawnLayer
      ensures GetRectangleBounds(r.drawnLayer[|drawnLayer|]) == b
      ensures r.effects == effects + [FetchData(b, year)]
      ensures r.(rectangleBounds := rectangleBounds, drawnLayer := drawnLayer, effects := effects) == this
    {
      BoundsRoundTrip(b);
      this.(rectangleBounds := Some(b),
            drawnLayer := drawnLayer + [RectangleOf(b)],
            effects := effects + [FetchData(b, year)])
    }

    /** `hidePopup`: take the popup off the map; its content and class stay as they were. */
    function HidePopup(): (r: MapView)
      ensures !r.popup.open && r.popup.(open := popup.open) == popup
      ensures r.(popup := popup) == this
    {
      this.(popup := popup.(open := false))
    }

    /** `deleteDrawing`: clear the drawn layer, then hide the popup. */
    function DeleteDrawing(): (r: MapView)
      ensures r.drawnLayer == []
      ensures !r.popup.open && r.popup.(open := popup.open) == popup
      ensures r.(drawnLayer := drawnLayer, popup := popup) == this
    {
      this.(drawnLayer := []).HidePopup()
    }

    /**
     * `saveRectangle(rectangle)`: store the rectangle's bounds, add it to the drawn layer, then
     * emit setSelectedArea(bounds), setMode(null) and fetchData(bounds, year), in that order.
     */
    function SaveRectangle(rectangle: Rectangle, year: int): (r: MapView)
      ensures r.rectangleBounds.Some? && RectangleOf(r.rectangleBounds.value) == rectangle
      ensures r.drawnLayer == drawnLayer + [rectangle]
      ensures r.effects == effects + [SetSelectedArea(r.rectangleBounds), SetMode(NoMode),
                                      FetchData(r.rectangleBounds.value, year)]
      ensures r.(rectangleBounds := rectangleBounds, drawnLayer := drawnLayer, effects := effects) == this
    {
      var b := GetRectangleBounds(rectangle);
      this.(rectangleBounds := Some(b),
            drawnLayer := drawnLayer + [rectangle],
            effects := effects + [SetSelectedArea(Some(b)), SetMode(NoMode), FetchData(b, year)])
    }

    /**
     * `applyEditing`: take the last rectangle of the drawn layer, store its bounds, then emit
     * setSelectedArea(bounds), setMode(null) and fetchData(bounds, year). On an empty drawn layer
     * the rectangle is undefined and reading its bounds throws before anything changes.
     */
    function ApplyEditing(year: int): (o: Outcome)
      ensures o.Threw? <==> drawnLayer == []
      ensures o.Threw? ==> o.view == this
      ensures o.Completed? ==>
        o.view.rectangleBounds.Some? &&
        var b := o.view.rectangleBounds.value;
        RectangleOf(b) == drawnLayer[|drawnLayer| - 1] &&
        o.view.effects == effects + [SetSelectedArea(Some(b)), SetMode(NoMode), FetchData(b, year)] &&
        o.view.(rectangleBounds := rectangleBounds, effects := effects) == this
    {
      if drawnLayer == [] then Threw(this)
      else
        var b := GetRectangleBounds(drawnLayer[|drawnLayer| - 1]);
        Completed(this.(rectangleBounds := Some(b),
                        effects := effects + [SetSelectedArea(Some(b)), SetMode(NoMode), FetchData(b, year)]))
    }

    /**
     * `undoEditing`: delete the drawing, recreate the rectangle from the stored bounds (which
     * fetches their data), then emit setMode(null). With no stored bounds, `createRectangle`
     * throws once the drawing is deleted.
     */
    function UndoEditing(year: int): (o: Outcome)
      ensures o.Threw? <==> rectangleBounds.None?
      ensures o.Threw? ==> o.view == DeleteDrawing()
      ensures o.Completed? ==>
        |o.view.drawnLayer| == 1 && GetRectangleBounds(o.view.drawnLayer[0]) == rectangleBounds.value &&
        o.view.rectangleBounds == rectangleBounds &&
        !o.view.popup.open && o.view.popup.(open := popup.open) == popup &&
        o.view.effects == effects + [FetchData(rectangleBounds.value, year), SetMode(NoMode)] &&
        o.view.(drawnLayer := drawnLayer, popup := popup, effects := effects) == this
    {
      var cleared := DeleteDrawing();
      match rectangleBounds
      case None => Threw(cleared)
      case Some(b) =>
        var created := cleared.CreateRectangle(b, year);
        Completed(created.(effects := created.effects + [SetMode(NoMode)]))
    }

    /**
     * `showPopup(content, className)`: open the popup at the latitude of the stored south-west
     * corner with the given content, drop the extra class added before, and add `className` when
     * it is truthy. With no stored bounds, reading `rectangleBounds[0]` throws.
     */
    function ShowPopup(content: string, className: Option<string>): (o: Outcome)
      ensures o.Threw? <==> rectangleBounds.None?
      ensures o.Threw? ==> o.view == this
      ensures o.Completed? ==>
        o.view.popup.open && o.view.popup.content == content &&
        o.view.popup.lat == rectangleBounds.value[0] &&
        o.view.popup.extraClass == (if ClassGiven(className) then className else None) &&
        o.view.(popup := popup) == this
    {
      match rectangleBounds
      case None => Threw(this)
      case Some(b) =>
        var placed := popup.(open := true, content := content, lat := b[0]);
        var unclassed := if placed.extraClass.Some? then placed.(extraClass := None) else placed;
        var classed := if ClassGiven(className) then unclassed.(extraClass := className) else unclassed;
        Completed(this.(popup := classed))
    }

    /** `renderWaterGeos(gs)`: add every geometry of `gs` to the water layer, in order. */
    function RenderWaterGeos(gs: seq<Geometry>): (r: MapView)
      ensures |r.waterLayer| == |waterLayer| + |gs|
      ensures r.waterLayer[..|waterLayer|] == waterLayer && r.waterLayer[|waterLayer|..] == gs
      ensures r.(waterLayer := waterLayer) == this
    {
      this.(waterLayer := waterLayer + gs)
    }

    /** `deleteWaterGeos`: clear the water layer. */
    function DeleteWaterGeos(): (r: MapView)
      ensures r.waterLayer == []
      ensures r.(waterLayer := waterLayer) == this
    {
      this.(waterLayer := [])
    }

    /** The first block of `componentWillReceiveProps`: react to a change of `mode`. */
    function ModeStep(prevMode: Mode, nextMode: Mode): (r: MapView)
      ensures r.effects == effects && r.drawnLayer == drawnLayer
      ensures prevMode == nextMode ==> r == this
      ensures prevMode != nextMode && nextMode == Drawing ==> r == this.(drawingEnabled := true)
      ensures prevMode != nextMode && nextMode == Editing ==>
        r.editingEnabled && !r.popup.open && r.waterLayer == [] &&
        r.popup.(open := popup.open) == popup &&
        r.(editingEnabled := editingEnabled, popup := popup, waterLayer := waterLayer) == this
      ensures prevMode != nextMode && nextMode == NoMode ==>
        r.drawingEnabled == (drawingEnabled && prevMode != Drawing) &&
        r.editingEnabled == (editingEnabled && prevMode != Editing) &&
        r.(drawingEnabled := drawingEnabled, editingEnabled := editingEnabled) == this
    {
      if prevMode == nextMode then this
      else match nextMode
        case Drawing => this.(drawingEnabled := true)
        case Editing => this.(editingEnabled := true).HidePopup().DeleteWaterGeos()
        case NoMode =>
          var afterDrawing := if prevMode == Drawing then this.(drawingEnabled := false) else this;
          if prevMode == Editing then afterDrawing.(editingEnabled := false) else afterDrawing
    }

    /**
     * The second block: on a change of `action`, run `applyEditing` for 'save' and `undoEditing`
     * for 'cancel', then emit setAction(null) whatever the new action is. `year` is that of the
     * properties being replaced.
     */
    function ActionStep(prevAction: Action, nextAction: Action, year: int): (o: Outcome)
      ensures |o.view.effects| >= |effects| && o.view.effects[..|effects|] == effects
      ensures prevAction == nextAction ==> o == Completed(this)
      ensures prevAction != nextAction && nextAction == NoAction ==>
        o == Completed(this.(effects := effects + [SetAction(NoAction)]))
      ensures prevAction != nextAction && nextAction == Save ==>
        o.Threw? == ApplyEditing(year).Threw? &&
        (o.Threw? ==> o == ApplyEditing(year)) &&
        (o.Completed? ==> o.view.(effects := ApplyEditing(year).view.effects) == ApplyEditing(year).view &&
                          o.view.effects == ApplyEditing(year).view.effects + [SetAction(NoAction)])
      ensures prevAction != nextAction && nextAction == Cancel ==>
        o.Threw? == UndoEditing(year).Threw? &&
        (o.Threw? ==> o == UndoEditing(year)) &&
        (o.Completed? ==> o.view.(effects := UndoEditing(year).view.effects) == UndoEditing(year).view &&
                          o.view.effects == UndoEditing(year).view.effects + [SetAction(NoAction)])
    {
      if prevAction == nextAction then Completed(this)
      else
        var handled := match nextAction
          case Save => ApplyEditing(year)
          case Cancel => UndoEditing(year)
          case NoAction => Completed(this);
        match handled
        case Threw(_) => handled
        case Completed(v) => Completed(v.(effects := v.effects + [SetAction(NoAction)]))
    }

    /** The third block: when the selection goes from present to absent, remove the drawing and the water. */
    function SelectionStep(prevArea: Option<Bounds>, nextArea: Option<Bounds>): (r: MapView)
      ensures r.effects == effects
      ensures prevArea.Some? && nextArea.None? ==>
        r.drawnLayer == [] && r.waterLayer == [] &&
        !r.popup.open && r.popup.(open := popup.open) == popup &&
        r.(drawnLayer := drawnLayer, waterLayer := waterLayer, popup := popup) == this
      ensures !(prevArea.Some? && nextArea.None?) ==> r == this
    {
      if prevArea.Some? && nextArea.None? then DeleteDrawing().DeleteWaterGeos() else this
    }

    /** The fourth block: a new `data` array is rendered onto the water layer. */
    function DataStep(prevData: GeoData, nextData: GeoData): (r: MapView)
      ensures r.effects == effects
      ensures prevData != nextData ==>
        r.waterLayer == waterLayer + nextData.geometries && r.(waterLayer := waterLayer) == this
      ensures prevData == nextData ==> r == this
    {
      if prevData != nextData then RenderWaterGeos(nextData.geometries) else this
    }

    /**
     * `componentWillReceiveProps(next)`, with `prev` the properties it replaces: the four blocks
     * in order; a throw inside the action block ends the update there.
     */
    function ReceiveProps(prev: Props, next: Props): (o: Outcome)
      ensures |o.view.effects| >= |effects| && o.view.effects[..|effects|] == effects
      ensures prev == next ==> o == Completed(this)
      ensures prev.action == next.action ==> o.Completed? && o.view.effects == effects
    {
      var moded := ModeStep(prev.mode, next.mode);
      match moded.ActionStep(prev.action, next.action, prev.year)
      case Threw(v) => Threw(v)
      case Completed(v) =>
        Completed(v.SelectionStep(prev.selectedArea, next.selectedArea).DataStep(prev.data, next.data))
    }
  }

  /**
   * The state right after mounting (`componentDidMount`): tools disabled, both layers empty, the
   * popup closed; when the properties already hold an area, its rectangle is painted and fetched.
   */
  function Mounted(p: Props): (v: MapView)
    ensures !v.drawingEnabled && !v.editingEnabled && v.waterLayer == [] && !v.popup.open
    ensures p.selectedArea.None? ==> v.drawnLayer == [] && v.rectangleBounds.None? && v.effects == []
    ensures p.selectedArea.Some? ==>
      |v.drawnLayer| == 1 && GetRectangleBounds(v.drawnLayer[0]) == p.selectedArea.value &&
      v.rectangleBounds == p.selectedArea && v.effects == [FetchData(p.selectedArea.value, p.year)]
  {
    var blank := MapView(false, false, [], [], ClosedPopup, None, []);
    if p.selectedArea.Some? then blank.CreateRectangle(p.selectedArea.value, p.year) else blank
  }
}
