/**
 * The values the router reads and produces. The wire builders (`straight_route`,
 * `c_route`, `L_route`, `via_stack` aligned with `align_comp_to_port`) are foreign
 * geometry: a route is the builder call that produced it, with its arguments.
 */
module Routes {
  import opened Wrappers

  /** A concrete GDS layer, a `(layer, datatype)` pair. */
  type Layer = (int, int)

  /** A generic PDK layer name such as `"met2"`. */
  type GLayer = string

  /** Keyword arguments forwarded untouched to a general wire builder. */
  type Kwargs = map<string, string>

  /** A terminal: its name, width and layer; position and orientation are opaque. */
  datatype Port = Port(name: string, width: real, layer: Layer, center: (real, real), orientation: real)

  datatype Route =
    | Empty                                                       // `Component()`: nothing to draw
    | ViaStack(fromGlayer: GLayer, toGlayer: GLayer, anchor: Port, alignment: (string, string))
    | Straight(p1: Port, p2: Port, width: Option<real>, glayer2: Option<GLayer>, kwargs: Kwargs)
    | CRoute(p1: Port, p2: Port, viaoffset: Option<(bool, bool)>, width2: Option<real>, kwargs: Kwargs)
    | LRoute(p1: Port, p2: Port, kwargs: Kwargs)

  /** The exceptions the router raises or lets through. */
  datatype Error =
    | NotManhattan          // raised by `assert_port_manhattan`
    | ValueError(msg: string)
    | KeyError(key: string) // a port-map lookup of a missing key

  /**
   * The collaborators the router consults without implementing them: the PDK's
   * `layer_to_glayer`, and the ports a built route exposes (`rt.ports[label]`).
   */
  datatype Env = Env(glayerOf: Layer -> GLayer, portOf: (Route, string) -> Port)

  /** The answers of `assert_port_manhattan`, `ports_parallel` and `ports_inline` for the two edges. */
  datatype PortGeometry = PortGeometry(manhattan: bool, parallel: bool, inline: bool)

  /** What the router may change in the enclosing component: its port map and the route references added to it. */
  datatype CellState = CellState(ports: map<string, Port>, refs: seq<Route>)

  /** A router call's return value or exception, with the component state it leaves behind. */
  datatype Outcome = Outcome(result: Result<Route, Error>, state: CellState)
}
