/**
 * The Map component as an object: its fields stand in for the Leaflet handles it owns (the two
 * tools, the drawn and water layers, the popup) and for `this.rectangleBounds` and
 * `this.popupAdditionalClass`; `effects` records every upward callback it invokes, in order.
 * Every method is proved to change the fields exactly as the matching `MapView` function of
 * MapModel says, so the properties proved there hold of the object.
 */
module MapComponent {
  import opened Intents
  import opened MapModel

  /**
   * `drawnLayer.eachLayer(l => rectangle = l)`: visit the layers in the order they were added,
   * keeping the last one seen; with no layer, `rectangle` stays undefined.
   */
  method EachLayerLast(layers: seq<Rectangle>) returns (rectangle: Option<Rectangle>)
    ensures layers == [] ==> rectangle.None?
    ensures layers != [] ==> rectangle == Some(layers[|layers| - 1])
  {
    rectangle := None;
    for i := 0 to |layers|
      invariant i == 0 ==> rectangle.None?
      invariant i > 0 ==> rectangle == Some(layers[i - 1])
    {
      rectangle := Some(layers[i]);
    }
  }

  class Map {
    /** The properties received last; `componentWillReceiveProps` compares the next ones with these. */
    var props: Props
    var drawingEnabled: bool
    var editingEnabled: bool
    var drawnLayer: seq<Rectangle>
    var waterLayer: seq<Geometry>
    var popupOpen: bool
    var popupContent: string
    var popupLat: real
    var popupAdditionalClass: Option<string>
    var rectangleBounds: Option<Bounds>
    var effects: seq<Effect>

    /** The fields as one value of the model. */
    function View(): MapView
      reads this
    {
      MapView(drawingEnabled, editingEnabled, drawnLayer, waterLayer,
              Popup(popupOpen, popupContent, popupLat, popupAdditionalClass),
              rectangleBounds, effects)
    }

    /** Mounting (`componentDidMount`): both tools off, both layers empty, the area of the properties painted. */
    constructor (initial: Props)
      ensures props == initial
      ensures View() == Mounted(initial)
    {
      props := initial;
      drawingEnabled, editingEnabled := false, false;
      drawnLayer, waterLayer := [], [];
      popupOpen, popupContent, popupLat, popupAdditionalClass := false, "", 0.0, None;
      rectangleBounds := None;
      effects := [];
      new;
      if initial.selectedArea.Some? {
        CreateRectangle(initial.selectedArea.value);
      }
    }

    method CreateRectangle(b: Bounds)
      modifies this
      ensures props == old(props)
      ensures View() == old(View()).CreateRectangle(b, props.year)
    {
      rectangleBounds := Some(b);
      drawnLayer := drawnLayer + [RectangleOf(b)];
      effects := effects + [FetchData(b, props.year)];
    }

    method HidePopup()
      modifies this
      ensures props == old(props)
      ensures View() == old(View()).HidePopup()
    {
      popupOpen := false;
    }

    method DeleteDrawing()
      modifies this
      ensures props == old(props)
      ensures View() == old(View()).DeleteDrawing()
    {
      drawnLayer := [];
      HidePopup();
    }

    /** The handler of Leaflet Draw's `draw:created` event. */
    method SaveRectangle(rectangle: Rectangle)
      modifies this
      ensures props == old(props)
      ensures View() == old(View()).SaveRectangle(rectangle, props.year)
    {
      rectangleBounds := Some(GetRectangleBounds(rectangle));
      drawnLayer := drawnLayer + [rectangle];
      effects := effects + [SetSelectedArea(rectangleBounds)];
      effects := effects + [SetMode(NoMode)];
      effects := effects + [FetchData(rectangleBounds.value, props.year)];
    }

    /** Returns false where the source throws: the drawn layer is empty. */
    method ApplyEditing() returns (ok: bool)
      modifies this
      ensures props == old(props)
      ensures ok == old(View()).ApplyEditing(props.year).Completed?
      ensures View() == old(View()).ApplyEditing(props.year).view
    {
      var rectangle := EachLayerLast(drawnLayer);
      if rectangle.None? {
        return false;
      }
      rectangleBounds := Some(GetRectangleBounds(rectangle.value));
      effects := effects + [SetSelectedArea(rectangleBounds)];
      effects := effects + [SetMode(NoMode)];
      effects := effects + [FetchData(rectangleBounds.value, props.year)];
      ok := true;
    }

    /** Returns false where the source throws: no bounds were ever stored. */
    method UndoEditing() returns (ok: bool)
      modifies this
      ensures props == old(props)
      ensures ok == old(View()).UndoEditing(props.year).Completed?
      ensures View() == old(View()).UndoEditing(props.year).view
    {
      DeleteDrawing();
      if rectangleBounds.None? {
        return false;
      }
      CreateRectangle(rectangleBounds.value);
      effects := effects + [SetMode(NoMode)];
      ok := true;
    }

    /** Returns false where the source throws: no bounds were ever stored. */
    method ShowPopup(content: string, className: Option<string>) returns (ok: bool)
      modifies this
      ensures props == old(props)
      ensures ok == old(View()).ShowPopup(content, className).Completed?
      ensures View() == old(View()).ShowPopup(content, className).view
    {
      if rectangleBounds.None? {
        return false;
      }
      popupLat := rectangleBounds.value[0];
      popupContent := content;
      popupOpen := true;
      if popupAdditionalClass.Some? {
        popupAdditionalClass := None;
      }
      if ClassGiven(className) {
        popupAdditionalClass := className;
      }
      ok := true;
    }

    method RenderWaterGeos(waterGeos: seq<Geometry>)
      modifies this
      ensures props == old(props)
      ensures View() == old(View()).RenderWaterGeos(waterGeos)
    {
      for i := 0 to |waterGeos|
        invariant waterLayer == old(waterLayer) + waterGeos[..i]
        invariant View() == old(View()).(waterLayer := waterLayer)
        invariant props == old(props)
      {
        waterLayer := waterLayer + [waterGeos[i]];
      }
      assert waterGeos[..|waterGeos|] == waterGeos;
    }

    method DeleteWaterGeos()
      modifies this
      ensures props == old(props)
      ensures View() == old(View()).DeleteWaterGeos()
    {
      waterLayer := [];
    }

    /** The `mode` block of `componentWillReceiveProps`. */
    method ModeStep(nextMode: Mode)
      modifies this
      ensures props == old(props)
      ensures View() == old(View()).ModeStep(props.mode, nextMode)
    {
      if props.mode != nextMode {
        match nextMode
        case Drawing =>
          drawingEnabled := true;
        case Editing =>
          editingEnabled := true;
          HidePopup();
          DeleteWaterGeos();
        case NoMode =>
          if props.mode == Drawing {
            drawingEnabled := false;
          }
          if props.mode == Editing {
            editingEnabled := false;
          }
      }
    }

    /** The `action` block; returns false where its handler throws. */
    method ActionStep(nextAction: Action) returns (ok: bool)
      modifies this
      ensures props == old(props)
      ensures ok == old(View()).ActionStep(props.action, nextAction, props.year).Completed?
      ensures View() == old(View()).ActionStep(props.action, nextAction, props.year).view
    {
      ok := true;
      if props.action != nextAction {
        if nextAction == Save {
          ok := ApplyEditing();
        } else if nextAction == Cancel {
          ok := UndoEditing();
        }
        if ok {
          effects := effects + [SetAction(NoAction)];
        }
      }
    }

    /** The `selectedArea` block. */
    method SelectionStep(nextArea: Option<Bounds>)
      modifies this
      ensures props == old(props)
      ensures View() == old(View()).SelectionStep(props.selectedArea, nextArea)
    {
      if props.selectedArea.Some? && nextArea.None? {
        DeleteDrawing();
        DeleteWaterGeos();
      }
    }

    /** The `data` block. */
    method DataStep(nextData: GeoData)
      modifies this
      ensures props == old(props)
      ensures View() == old(View()).DataStep(props.data, nextData)
    {
      if props.data != nextData {
        RenderWaterGeos(nextData.geometries);
      }
    }

    /**
     * `componentWillReceiveProps(next)`. Returns false where one of the action handlers throws;
     * the update then stops there and `props` keeps the old properties.
     */
    method ReceiveProps(next: Props) returns (ok: bool)
      modifies this
      ensures ok == old(View()).ReceiveProps(old(props), next).Completed?
      ensures View() == old(View()).ReceiveProps(old(props), next).view
      ensures props == if ok then next else old(props)
    {
      ModeStep(next.mode);
      ok := ActionStep(next.action);
      if !ok {
        return;
      }
      SelectionStep(next.selectedArea);
      DataStep(next.data);
      props := next;
    }
  }
}
