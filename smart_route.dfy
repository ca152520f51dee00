/**
 * `smart_route`: the top-level wire selector. After the Manhattan check it tries the
 * specialised router named by the reference cell's `route_genid` tag; a `ValueError` from
 * that router, a missing or unknown tag, or a missing cell sends it to the general choice
 * by port geometry: straight when the ports are parallel and inline, C when parallel only,
 * L otherwise.
 */
module SmartRoute {
  import opened Wrappers
  import opened PyStr
  import opened PortNames
  import opened Routes
  import opened TwoTransistor
  import opened FourTransistor

  const ROUTE_GENID: string := "route_genid"
  const TWO_TRANSISTOR: string := "two_transistor_interdigitized"
  const FOUR_TRANSISTOR: string := "four_transistor_interdigitized"
  const COMMON_CENTROID: string := "common_centroid"

  /** The general route by port geometry, with the caller's keyword arguments. */
  function Fallback(edge1: Port, edge2: Port, geom: PortGeometry, kwargs: Kwargs): Route {
    if geom.parallel then
      if geom.inline then Straight(edge1, edge2, None, None, kwargs) else CRoute(edge1, edge2, None, None, kwargs)
    else LRoute(edge1, edge2, kwargs)
  }

  /** The tag that picks a specialised router: only when both cells are given and the reference cell carries one. */
  function GenId(refInfo: Option<map<string, string>>, hasTop: bool): Option<string> {
    if hasTop && refInfo.Some? && ROUTE_GENID in refInfo.value then Some(refInfo.value[ROUTE_GENID]) else None
  }

  /** The specialised router a tag names, run on the cell state; `None` for an unknown tag. */
  function Specialized(env: Env, tag: string, edge1: Port, edge2: Port, s: CellState): Option<Outcome> {
    if tag == TWO_TRANSISTOR then Some(TwoTransistorRoute(env, edge1, edge2, s))
    else if tag == FOUR_TRANSISTOR then Some(FourTransistorRoute(env, edge1, edge2, s))
    else if tag == COMMON_CENTROID then Some(CommonCentroidRoute(s))
    else None
  }

  /** A raised `ValueError`, the one exception the selector intercepts. */
  predicate IsValueError(r: Result<Route, Error>) {
    r.Failure? && r.error.ValueError?
  }

  /**
   * The selector: non-Manhattan ports raise; a recognised tag runs its router, whose
   * `ValueError` is swallowed in favour of the general route on the state the router left;
   * any other outcome of the specialised router, `KeyError` included, is final.
   */
  function SmartRouteSpec(env: Env, edge1: Port, edge2: Port, tag: Option<string>, s: CellState, geom: PortGeometry, kwargs: Kwargs)
    : Outcome
  {
    if !geom.manhattan then Outcome(Failure(NotManhattan), s)
    else
      var attempt := if tag.Some? then Specialized(env, tag.value, edge1, edge2, s) else None;
      if attempt.Some? && !IsValueError(attempt.value.result) then attempt.value
      else Outcome(Success(Fallback(edge1, edge2, geom, kwargs)), if attempt.Some? then attempt.value.state else s)
  }

  // ---------------------------------------------------------------- properties

  /** The general route joins the two given ports and picks its shape from the geometry alone. */
  lemma FallbackShape(edge1: Port, edge2: Port, geom: PortGeometry, kwargs: Kwargs)
    ensures var r := Fallback(edge1, edge2, geom, kwargs);
      && r.p1 == edge1 && r.p2 == edge2 && r.kwargs == kwargs
      && (r.Straight? <==> geom.parallel && geom.inline)
      && (r.CRoute? <==> geom.parallel && !geom.inline)
      && (r.LRoute? <==> !geom.parallel)
  {
  }

  /** No `ValueError` ever leaves the selector, and its only other exceptions are the Manhattan check and `KeyError`. */
  lemma NoValueErrorEscapes(env: Env, edge1: Port, edge2: Port, tag: Option<string>, s: CellState, geom: PortGeometry, kwargs: Kwargs)
    ensures var o := SmartRouteSpec(env, edge1, edge2, tag, s, geom, kwargs);
      && !IsValueError(o.result)
      && (o.result.Failure? ==> o.result.error == NotManhattan || o.result.error.KeyError?)
      && (o.result.Failure? && o.result.error == NotManhattan <==> !geom.manhattan)
  {
    if geom.manhattan && tag.Some? && tag.value == TWO_TRANSISTOR {
      TwoTransistorErrors(env, edge1, edge2, s);
    } else if geom.manhattan && tag.Some? && tag.value == FOUR_TRANSISTOR {
      TwoTransistorErrors(env, edge1, edge2, s);
    }
  }

  /** Without both cells, or without a tag, the selector is the general route and changes nothing. */
  lemma UntaggedFallsBack(env: Env, edge1: Port, edge2: Port, s: CellState, geom: PortGeometry, kwargs: Kwargs)
    requires geom.manhattan
    ensures SmartRouteSpec(env, edge1, edge2, None, s, geom, kwargs) == Outcome(Success(Fallback(edge1, edge2, geom, kwargs)), s)
  {
  }

  /** An unknown tag is ignored: the general route, nothing changed. */
  lemma UnknownTagFallsBack(env: Env, edge1: Port, edge2: Port, tag: string, s: CellState, geom: PortGeometry, kwargs: Kwargs)
    requires geom.manhattan && tag != TWO_TRANSISTOR && tag != FOUR_TRANSISTOR && tag != COMMON_CENTROID
    ensures SmartRouteSpec(env, edge1, edge2, Some(tag), s, geom, kwargs) == Outcome(Success(Fallback(edge1, edge2, geom, kwargs)), s)
  {
  }

  /** The common-centroid tag always ends in the general route, with the cell unchanged. */
  lemma CommonCentroidFallsBack(env: Env, edge1: Port, edge2: Port, s: CellState, geom: PortGeometry, kwargs: Kwargs)
    requires geom.manhattan
    ensures SmartRouteSpec(env, edge1, edge2, Some(COMMON_CENTROID), s, geom, kwargs)
         == Outcome(Success(Fallback(edge1, edge2, geom, kwargs)), s)
  {
  }

  /**
   * Under the two-transistor tag the selector falls back, leaving the cell alone, exactly
   * when a terminal lacks its group or role; otherwise it returns what the router returns.
   */
  lemma TwoTransistorTag(env: Env, edge1: Port, edge2: Port, s: CellState, geom: PortGeometry, kwargs: Kwargs)
    requires geom.manhattan
    ensures var t1, t2 := TerminalOf(edge1.name), TerminalOf(edge2.name);
      SmartRouteSpec(env, edge1, edge2, Some(TWO_TRANSISTOR), s, geom, kwargs)
        == if Complete(t1) && Complete(t2) then TwoTransistorRoute(env, edge1, edge2, s)
           else Outcome(Success(Fallback(edge1, edge2, geom, kwargs)), s)
  {
    TwoTransistorEffects(env, edge1, edge2, s);
  }

  /**
   * Under the four-transistor tag, two generated names of different sub-pairs fall back
   * with the cell unchanged.
   */
  lemma FourTransistorTagAcrossPairs(env: Env, prefix1: string, t1: Terminal, c1: char, prefix2: string, t2: Terminal, c2: char,
                                     edge1: Port, edge2: Port, s: CellState, geom: PortGeometry, kwargs: Kwargs)
    requires geom.manhattan
    requires ValidPrefix(prefix1) && ValidPrefix(prefix2) && Complete(t1) && Complete(t2) && c1 in EDGES && c2 in EDGES
    requires edge1.name == PortName(prefix1, t1, c1) && edge2.name == PortName(prefix2, t2, c2)
    requires LastSegment(RStrip(prefix1, {'_'}), '_') != LastSegment(RStrip(prefix2, {'_'}), '_')
    ensures SmartRouteSpec(env, edge1, edge2, Some(FOUR_TRANSISTOR), s, geom, kwargs)
         == Outcome(Success(Fallback(edge1, edge2, geom, kwargs)), s)
  {
    FourTransistorOnGeneratedNames(env, prefix1, t1, c1, prefix2, t2, c2, edge1, edge2, s);
  }
}
