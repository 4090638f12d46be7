/**
 * The values that travel between the map page's components: the workflow mode, the one-shot
 * action, the bounds of a selection, and the upward callbacks a component invokes, recorded as
 * effects in the order they are called.
 */
module Intents {

  datatype Option<+T> = None | Some(value: T)

  /** The `mode` property: null, 'drawing' or 'editing'. */
  datatype Mode = NoMode | Drawing | Editing

  /** The `action` property: null, 'save' or 'cancel'. */
  datatype Action = NoAction | Save | Cancel

  /** A selection area: [southWest.lat, southWest.lng, northEast.lat, northEast.lng]. */
  type Bounds = b: seq<real> | |b| == 4 witness [0.0, 0.0, 0.0, 0.0]

  /** One call of an upward callback property, with its arguments. */
  datatype Effect =
    | SetSelectedArea(area: Option<Bounds>)
    | SetMode(mode: Mode)
    | SetAction(action: Action)
    | FetchData(bounds: Bounds, year: int)
}
