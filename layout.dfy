/**
 * The routers as the layout library runs them: on a mutable cell whose port map and
 * reference list they update in place. Each method is proved to leave the cell in the
 * state, and to return the value, that the functional model prescribes.
 */
module Layout {
  import opened Wrappers
  import opened PyStr
  import opened PortNames
  import opened Routes
  import opened Compensation
  import opened TwoTransistor
  import opened FourTransistor
  import opened SmartRoute

  /** A layout cell: its named ports, the route references added to it, and its `info` metadata. */
  class Component {
    var ports: map<string, Port>
    var refs: seq<Route>
    var info: map<string, string>

    constructor (ports0: map<string, Port>, info0: map<string, string>)
      ensures ports == ports0 && refs == [] && info == info0
    {
      ports := ports0;
      refs := [];
      info := info0;
    }

    /** The part of the cell the routers may change. */
    function State(): CellState
      reads this
    {
      CellState(ports, refs)
    }

    /**
     * `compensate_for_croutes`: for each device and each pin, read the private twin on the
     * route's side, add the straight extension to `extendTo`, and replace the public port by
     * the extension's end port renamed to the public key. A missing twin stops the loop
     * with `KeyError`, the earlier replacements kept.
     */
    method CompensateForCroutes(env: Env, sample: Port, leftSide: bool, extendTo: Port) returns (err: Option<Error>)
      modifies this`ports, this`refs
      ensures (State(), err) == Compensate(env, old(State()), SiblingKeys(BaseName(sample.name), Direction(leftSide)), Direction(leftSide), extendTo)
    {
      var basename := BaseName(sample.name);
      var direction := Direction(leftSide);
      ghost var keys := SiblingKeys(basename, direction);
      ghost var goal := Compensate(env, State(), keys, direction, extendTo);
      ghost var i := 0;
      for d := 0 to |DEVICES|
        invariant i == 3 * d
        invariant Compensate(env, State(), keys[i..], direction, extendTo) == goal
      {
        var specbase := basename + DEVICES[d];
        for p := 0 to |PINS|
          invariant i == 3 * d + p
          invariant Compensate(env, State(), keys[i..], direction, extendTo) == goal
        {
          var key := specbase + PINS[p] + direction;
          SiblingKeyAt(basename, direction, d, p, i);
          ghost var before := State();
          var e := CompensateKey(env, key, direction, extendTo);
          CompensateAdvance(env, before, State(), e, keys, i, direction, extendTo);
          if e.Some? {
            return e;
          }
          i := i + 1;
        }
      }
      assert keys[i..] == [];
      return None;
    }

    /**
     * One pass of the inner loop: read the private twin of `key`, add the straight extension
     * to `extendTo`, store the extension's end port under `key` and rename it to `key`.
     */
    method CompensateKey(env: Env, key: string, direction: string, extendTo: Port) returns (err: Option<Error>)
      modifies this`ports, this`refs
      ensures PrivateKey(key) !in old(ports) ==> State() == old(State()) && err == Some(KeyError(PrivateKey(key)))
      ensures PrivateKey(key) in old(ports) ==> State() == Step(env, old(State()), key, direction, extendTo) && err == None
    {
      if PrivateKey(key) !in ports {
        return Some(KeyError(PrivateKey(key)));
      }
      ghost var before := State();
      var correction := ports[PrivateKey(key)];
      var rt := Extension(env, correction, extendTo);
      refs := refs + [rt];
      ports := ports[key := env.portOf(rt, "route" + direction)];
      ports := ports[key := ports[key].(name := key)];
      WriteThenRename(before.ports, key, env.portOf(rt, "route" + direction));
      return None;
    }

    /**
     * `generic_route_two_transistor_interdigitized` on this cell: parse and order the names,
     * decide, and compensate after a C-route.
     */
    method RouteTwoTransistor(env: Env, edge1: Port, edge2: Port) returns (r: Result<Route, Error>)
      modifies this`ports, this`refs
      ensures Outcome(r, State()) == TwoTransistorRoute(env, edge1, edge2, old(State()))
    {
      var glayer2 := env.glayerOf(edge2.layer);
      var name1 := ParsePortName(edge1.name);
      var name2 := ParsePortName(edge2.name);
      if Contains(name2, "A") && !Contains(name1, "A") {
        name1, name2 := name2, name1;
      }
      assert (name1, name2) == OrderNames(ParsedName(edge1.name), ParsedName(edge2.name));
      var d := Decide(name1, name2, edge1, edge2, ports, glayer2);
      assert TwoTransistorRoute(env, edge1, edge2, State()) == Apply(env, d, State());
      match d {
        case Failure(e) =>
          r := Failure(e);
        case Success(Done(route)) =>
          r := Success(route);
        case Success(CompensateThen(route, sample, leftSide)) =>
          var err := CompensateForCroutes(env, sample, leftSide, env.portOf(route, "con_N"));
          r := if err.Some? then Failure(err.value) else Success(route);
      }
    }

    /** `generic_route_four_transistor_interdigitized` on this cell: validate, then delegate. */
    method RouteFourTransistor(env: Env, edge1: Port, edge2: Port) returns (r: Result<Route, Error>)
      modifies this`ports, this`refs
      ensures Outcome(r, State()) == FourTransistorRoute(env, edge1, edge2, old(State()))
    {
      var cond1 := CheckPort(edge1.name) || CheckPort(edge2.name);
      var cond2 := LastSegment(StripPortName(edge1.name), '_') != LastSegment(StripPortName(edge2.name), '_');
      if cond1 || cond2 {
        return Failure(ValueError(UNSUPPORTED_FOUR));
      }
      r := RouteTwoTransistor(env, edge1, edge2);
    }

    /**
     * The `try` block of `smart_route`: run the router the tag names on this cell, if any;
     * `None` for an unrecognised tag.
     */
    method RouteTagged(env: Env, edge1: Port, edge2: Port, tag: string) returns (attempt: Option<Result<Route, Error>>)
      modifies this`ports, this`refs
      ensures attempt.None? ==> Specialized(env, tag, edge1, edge2, old(State())).None? && State() == old(State())
      ensures attempt.Some? ==> Specialized(env, tag, edge1, edge2, old(State())) == Some(Outcome(attempt.value, State()))
    {
      if tag == TWO_TRANSISTOR {
        var a := RouteTwoTransistor(env, edge1, edge2);
        attempt := Some(a);
      } else if tag == FOUR_TRANSISTOR {
        var a := RouteFourTransistor(env, edge1, edge2);
        attempt := Some(a);
      } else if tag == COMMON_CENTROID {
        attempt := Some(Failure(ValueError(NOT_IMPLEMENTED)));
      } else {
        attempt := None;
      }
    }
  }

  /** Storing a port under `key` and then renaming the stored port is storing the renamed port. */
  lemma WriteThenRename(m: map<string, Port>, key: string, v: Port)
    ensures m[key := v][key := m[key := v][key].(name := key)] == m[key := v.(name := key)]
  {
  }

  /** The routing tag a call sees: the reference cell's `route_genid`, when both cells are given. */
  function Tag(refComp: Component?, topComp: Component?): Option<string>
    reads refComp
  {
    GenId(if refComp == null then None else Some(refComp.info), topComp != null)
  }

  /**
   * `smart_route`: check the ports, try the tagged router on `topComp` and fall back to the
   * general route on its `ValueError`; the result and the cell's new state are those of the
   * selector's functional model, and nothing but `topComp`'s ports and references changes.
   */
  method SmartRouteOn(env: Env, edge1: Port, edge2: Port, refComp: Component?, topComp: Component?,
                      geom: PortGeometry, kwargs: Kwargs)
    returns (r: Result<Route, Error>)
    modifies topComp
    ensures topComp != null ==> topComp.info == old(topComp.info)
    ensures topComp != null ==>
      Outcome(r, topComp.State()) == SmartRouteSpec(env, edge1, edge2, old(Tag(refComp, topComp)), old(topComp.State()), geom, kwargs)
    ensures topComp == null ==>
      r == SmartRouteSpec(env, edge1, edge2, None, CellState(map[], []), geom, kwargs).result
  {
    if !geom.manhattan {
      return Failure(NotManhattan);
    }
    var tag := Tag(refComp, topComp);
    if tag.Some? {
      var attempt := topComp.RouteTagged(env, edge1, edge2, tag.value);
      if attempt.Some? && !IsValueError(attempt.value) {
        return attempt.value;
      }
    }
    r := Success(Fallback(edge1, edge2, geom, kwargs));
  }
}
