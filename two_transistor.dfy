/**
 * `generic_route_two_transistor_interdigitized`: the router for a pair of interdigitized
 * devices A and B. It parses both port names into `"<group>_<role>"`, looks the pair up in
 * a fixed table of fifteen cases, draws the chosen wire between the private twins of the
 * two ports and, when the wire is a C-route, extends every sibling terminal on that side.
 */
module TwoTransistor {
  import opened Wrappers
  import opened PyStr
  import opened PortNames
  import opened Routes
  import opened Compensation

  const UNSUPPORTED_TWO: string := "You picked a port that smart_route with interdigitized 2 transistor does not support"

  /** What the decision table asks for: a finished route, or a C-route whose side must then be compensated. */
  datatype Action =
    | Done(route: Route)
    | CompensateThen(route: Route, sample: Port, leftSide: bool)

  /** `check_route`: the two parsed names are the two pins, in either order. */
  predicate CheckRoute(name1: string, name2: string, pin1: string, pin2: string) {
    (name1 == pin1 && name2 == pin2) || (name2 == pin1 && name1 == pin2)
  }

  /** Names reordered so that an `A` name comes first when only the second has one. */
  function OrderNames(name1: string, name2: string): (string, string) {
    if Contains(name2, "A") && !Contains(name1, "A") then (name2, name1) else (name1, name2)
  }

  /** `samecomp`: some group letter occurs in both names. */
  predicate SameComp(name1: string, name2: string) {
    || (Contains(name1, "A") && Contains(name2, "A"))
    || (Contains(name1, "B") && Contains(name2, "B"))
  }

  /** `samepin`: some role word occurs in both names. */
  predicate SamePin(name1: string, name2: string) {
    || (Contains(name1, "gate") && Contains(name2, "gate"))
    || (Contains(name1, "source") && Contains(name2, "source"))
    || (Contains(name1, "drain") && Contains(name2, "drain"))
  }

  /** `exchange_ports`: the private twin of `edge` on another edge, or the `KeyError` of its lookup. */
  function Exchange(ports: map<string, Port>, edge: Port, direction: string): (r: Result<Port, Error>)
    ensures r.Success? <==> ExchangeKey(edge.name, direction) in ports
    ensures r.Success? ==> r.value == ports[ExchangeKey(edge.name, direction)]
    ensures r.Failure? ==> r.error == KeyError(ExchangeKey(edge.name, direction))
  {
    var key := ExchangeKey(edge.name, direction);
    if key in ports then Success(ports[key]) else Failure(KeyError(key))
  }

  /**
   * On a generated terminal name, `exchange_ports` to edge `dir` fetches the private twin
   * of the same terminal on that edge, and raises `KeyError` on that twin's name when it
   * is absent; the edge the name came from plays no part.
   */
  lemma ExchangeOfPortName(ports: map<string, Port>, prefix: string, t: Terminal, edge: char, dir: char, p: Port)
    requires edge in EDGES && p.name == PortName(prefix, t, edge)
    ensures var twin := PortName(prefix, t, dir) + "_private";
      Exchange(ports, p, [dir]) == if twin in ports then Success(ports[twin]) else Failure(KeyError(twin))
  {
    ExchangeKeyOfPortName(prefix, t, edge, dir);
  }

  /** A `met1`-to-`glayer2` via stack aligned to the private twin of `edge` on `direction`. */
  function ViaAt(ports: map<string, Port>, edge: Port, direction: string, alignment: (string, string), glayer2: GLayer)
    : (r: Result<Action, Error>)
    ensures r.Failure? ==> r.error == KeyError(ExchangeKey(edge.name, direction))
    ensures r.Success? ==> r.value.Done? && r.value.route.ViaStack?
  {
    var anchor :- Exchange(ports, edge, direction);
    Success(Done(ViaStack("met1", glayer2, anchor, alignment)))
  }

  /** A C-route on `side` between the twins of `edge1` and `edge2`, to be compensated from `edge1`. */
  function CRouteAt(ports: map<string, Port>, edge1: Port, edge2: Port, side: string, viaoffset: bool)
    : (r: Result<Action, Error>)
    ensures r.Failure? ==> r.error.KeyError?
    ensures r.Success? ==> r.value.CompensateThen? && r.value.route.CRoute?
    ensures r.Success? ==> r.value.sample == edge1 && r.value.leftSide == (side == "W")
  {
    var p1 :- Exchange(ports, edge1, side);
    var p2 :- Exchange(ports, edge2, side);
    Success(CompensateThen(CRoute(p1, p2, Some((viaoffset, true)), Some(edge2.width), map[]), edge1, side == "W"))
  }

  /**
   * The decision table on the ordered parsed names `name1`, `name2` and the original edges,
   * branch for branch as written: trivial pair, the five via-or-straight cases, the swap of
   * the edges so a source or drain comes first, the four C-route families, the two remaining
   * via cases, and `ValueError` for anything else.
   */
  function Decide(name1: string, name2: string, edge1: Port, edge2: Port, ports: map<string, Port>, glayer2: GLayer)
    : Result<Action, Error>
  {
    if SameComp(name1, name2) && SamePin(name1, name2) then Success(Done(Empty))
    else
      var width := if edge1.width > 1.0 then 1.0 else edge1.width;
      if CheckRoute(name1, name2, "A_source", "B_source") then
        ViaAt(ports, if Contains(edge1.name, "B") then edge1 else edge2, "W", ("r", "c"), glayer2)
      else if CheckRoute(name1, name2, "A_gate", "B_gate") then
        var p1 :- Exchange(ports, edge1, "S");
        var p2 :- Exchange(ports, edge2, "S");
        Success(Done(Straight(p1, p2, Some(width), None, map[])))
      else if CheckRoute(name1, name2, "A_drain", "B_drain") then
        ViaAt(ports, if Contains(edge1.name, "A") then edge1 else edge2, "E", ("l", "c"), glayer2)
      else if CheckRoute(name1, name2, "A_drain", "A_source") then
        ViaAt(ports, if Contains(edge1.name, "drain") then edge1 else edge2, "W", ("r", "c"), glayer2)
      else if CheckRoute(name1, name2, "B_drain", "B_source") then
        ViaAt(ports, if Contains(edge1.name, "source") then edge1 else edge2, "E", ("l", "c"), glayer2)
      else HardRoutes(name1, name2, edge1, edge2, ports, glayer2)
  }

  /**
   * The rest of the chain, once the trivial and the five via-or-straight cases are ruled
   * out: the C-route via offset, the edge swap that puts a source or drain first, the four
   * C-route families, the two remaining via cases and the final `ValueError`.
   */
  function HardRoutes(name1: string, name2: string, edge1: Port, edge2: Port, ports: map<string, Port>, glayer2: GLayer)
    : Result<Action, Error>
  {
    var viaoffset := !(CheckRoute(name1, name2, "A_gate", "A_drain") || CheckRoute(name1, name2, "B_gate", "B_drain"));
    var swap := Contains(edge2.name, "drain") || Contains(edge2.name, "source");
    var f1 := if swap then edge2 else edge1;
    var f2 := if swap then edge1 else edge2;
    if CheckRoute(name1, name2, "A_gate", "A_drain") || CheckRoute(name1, name2, "A_gate", "A_source") then
      CRouteAt(ports, f1, f2, "W", viaoffset)
    else if CheckRoute(name1, name2, "B_gate", "B_drain") || CheckRoute(name1, name2, "B_gate", "B_source") then
      CRouteAt(ports, f1, f2, "E", viaoffset)
    else if CheckRoute(name1, name2, "A_gate", "B_drain") || CheckRoute(name1, name2, "A_gate", "B_source") then
      CRouteAt(ports, f1, f2, "W", !CheckRoute(name1, name2, "A_gate", "B_drain"))
    else if CheckRoute(name1, name2, "B_gate", "A_drain") || CheckRoute(name1, name2, "B_gate", "A_source") then
      CRouteAt(ports, f1, f2, "E", !CheckRoute(name1, name2, "B_gate", "A_drain"))
    else if CheckRoute(name1, name2, "A_source", "B_drain") then
      ViaAt(ports, if Contains(f1.name, "drain") then f1 else f2, "W", ("r", "c"), glayer2)
    else if CheckRoute(name1, name2, "A_drain", "B_source") then
      ViaAt(ports, if Contains(f1.name, "drain") then f1 else f2, "E", ("l", "c"), glayer2)
    else
      Failure(ValueError(UNSUPPORTED_TWO))
  }

  /**
   * Carrying out a decision on the component state: an error or a finished route leaves
   * the state alone; a C-route triggers the compensation of the six sibling terminals on
   * its side, extended to the route's `con_N` port, whose `KeyError` escapes.
   */
  function Apply(env: Env, d: Result<Action, Error>, s: CellState): Outcome {
    match d
    case Failure(e) => Outcome(Failure(e), s)
    case Success(Done(r)) => Outcome(Success(r), s)
    case Success(CompensateThen(r, sample, leftSide)) =>
      var direction := Direction(leftSide);
      var (s', err) := Compensate(env, s, SiblingKeys(BaseName(sample.name), direction), direction, env.portOf(r, "con_N"));
      Outcome(if err.Some? then Failure(err.value) else Success(r), s')
  }

  /** The router: `glayer2` from the layer of `edge2`, names parsed and ordered, the table decides. */
  function TwoTransistorRoute(env: Env, edge1: Port, edge2: Port, s: CellState): Outcome {
    var glayer2 := env.glayerOf(edge2.layer);
    var (name1, name2) := OrderNames(ParsedName(edge1.name), ParsedName(edge2.name));
    Apply(env, Decide(name1, name2, edge1, edge2, s.ports, glayer2), s)
  }

  // ---------------------------------------------------------------- the table by terminals

  /** The parsed name of a terminal. */
  function TerminalText(t: Terminal): string {
    GroupText(t.group) + "_" + RoleText(t.role)
  }

  /** The two terminals are `a` and `b`, in either order. */
  predicate Pair(t1: Terminal, t2: Terminal, a: Terminal, b: Terminal) {
    (t1 == a && t2 == b) || (t1 == b && t2 == a)
  }

  /**
   * Source/drain pairs of distinct terminals: the terminal whose twin anchors the via and
   * the side it is taken on. A same-role pair uses B's source (west) or A's drain (east);
   * a same-device pair uses A's drain (west) or B's source (east); a mixed pair uses the
   * drain, west when it is B's and east when it is A's.
   */
  function SourceDrainVia(t1: Terminal, t2: Terminal): (Terminal, string) {
    if t1.role == t2.role then
      if t1.role == Source then (Terminal(GroupB, Source), "W") else (Terminal(GroupA, Drain), "E")
    else if t1.group == t2.group then
      if t1.group == GroupA then (Terminal(GroupA, Drain), "W") else (Terminal(GroupB, Source), "E")
    else
      var drain := if t1.role == Drain then t1 else t2;
      (drain, if drain.group == GroupB then "W" else "E")
  }

  /**
   * The routing table by device terminal, independent of names: incomplete terminals are
   * refused, equal ones need no wire, two gates get a straight south wire, a gate and a
   * source/drain a C-route on the gate's device side (west for A, east for B) with the
   * via offset unless the other end is a drain, and two sources/drains a via stack.
   */
  function Table(t1: Terminal, t2: Terminal, edge1: Port, edge2: Port, ports: map<string, Port>, glayer2: GLayer)
    : Result<Action, Error>
  {
    if !Complete(t1) || !Complete(t2) then Failure(ValueError(UNSUPPORTED_TWO))
    else if t1 == t2 then Success(Done(Empty))
    else if t1.role == Gate && t2.role == Gate then
      var p1 :- Exchange(ports, edge1, "S");
      var p2 :- Exchange(ports, edge2, "S");
      Success(Done(Straight(p1, p2, Some(if edge1.width > 1.0 then 1.0 else edge1.width), None, map[])))
    else if t1.role == Gate || t2.role == Gate then
      var gate := if t1.role == Gate then t1 else t2;
      var other := if t1.role == Gate then t2 else t1;
      var gateEdge := if t1.role == Gate then edge1 else edge2;
      var otherEdge := if t1.role == Gate then edge2 else edge1;
      CRouteAt(ports, otherEdge, gateEdge, if gate.group == GroupA then "W" else "E", other.role != Drain)
    else
      var (anchor, side) := SourceDrainVia(t1, t2);
      ViaAt(ports, if t1 == anchor then edge1 else edge2, side, if side == "W" then ("r", "c") else ("l", "c"), glayer2)
  }

  // ---------------------------------------------------------------- names and terminals

  lemma ParsedNameText(pname: string)
    ensures ParsedName(pname) == TerminalText(TerminalOf(pname))
  {
    TagTexts(GroupTag(pname), PinTag(pname));
  }

  /** Different terminals parse to different names. */
  lemma TerminalTextInjective(t: Terminal, u: Terminal)
    ensures TerminalText(t) == TerminalText(u) ==> t == u
  {
    var s, w := TerminalText(t), TerminalText(u);
    if s == w {
      var gt, gu := GroupText(t.group), GroupText(u.group);
      assert s[|gt|] == '_' && w[|gu|] == '_';
      assert |gt| == 1 ==> s[0] != '_';
      assert |gu| == 1 ==> w[0] != '_';
      assert |gt| == |gu|;
      assert gt == s[..|gt|] && gu == w[..|gu|];
      assert RoleText(t.role) == s[|gt| + 1..] && RoleText(u.role) == w[|gu| + 1..];
    }
  }

  /** The six pin names the table spells out are the names of the six complete terminals. */
  lemma PinNames()
    ensures "A_source" == TerminalText(Terminal(GroupA, Source))
    ensures "A_drain" == TerminalText(Terminal(GroupA, Drain))
    ensures "A_gate" == TerminalText(Terminal(GroupA, Gate))
    ensures "B_source" == TerminalText(Terminal(GroupB, Source))
    ensures "B_drain" == TerminalText(Terminal(GroupB, Drain))
    ensures "B_gate" == TerminalText(Terminal(GroupB, Gate))
  {
  }

  /** `check_route` on parsed names is the unordered pair test on terminals. */
  lemma CheckRoutePair(t1: Terminal, t2: Terminal, a: Terminal, b: Terminal)
    ensures CheckRoute(TerminalText(t1), TerminalText(t2), TerminalText(a), TerminalText(b)) <==> Pair(t1, t2, a, b)
  {
    TerminalTextInjective(t1, a);
    TerminalTextInjective(t1, b);
    TerminalTextInjective(t2, a);
    TerminalTextInjective(t2, b);
  }

  /** `samecomp && samepin` on parsed names: the two terminals are complete and equal. */
  lemma TrivialPair(t1: Terminal, t2: Terminal)
    ensures SameComp(TerminalText(t1), TerminalText(t2)) && SamePin(TerminalText(t1), TerminalText(t2))
        <==> Complete(t1) && t1 == t2
  {
    TerminalTextContains(t1.group, t1.role);
    TerminalTextContains(t2.group, t2.role);
  }

  /** Reordering the names never changes the decision: every test on them is symmetric. */
  lemma DecideIgnoresNameOrder(name1: string, name2: string, edge1: Port, edge2: Port, ports: map<string, Port>, glayer2: GLayer)
    ensures Decide(name1, name2, edge1, edge2, ports, glayer2) == Decide(name2, name1, edge1, edge2, ports, glayer2)
  {
    CheckRouteSymmetric(name1, name2, "A_source", "B_source");
    CheckRouteSymmetric(name1, name2, "A_gate", "B_gate");
    CheckRouteSymmetric(name1, name2, "A_drain", "B_drain");
    CheckRouteSymmetric(name1, name2, "A_drain", "A_source");
    CheckRouteSymmetric(name1, name2, "B_drain", "B_source");
    assert SameComp(name2, name1) == SameComp(name1, name2);
    assert SamePin(name2, name1) == SamePin(name1, name2);
    HardRoutesIgnoreNameOrder(name1, name2, edge1, edge2, ports, glayer2);
  }

  lemma HardRoutesIgnoreNameOrder(name1: string, name2: string, edge1: Port, edge2: Port, ports: map<string, Port>, glayer2: GLayer)
    ensures HardRoutes(name1, name2, edge1, edge2, ports, glayer2) == HardRoutes(name2, name1, edge1, edge2, ports, glayer2)
  {
    CheckRouteSymmetric(name1, name2, "A_gate", "A_drain");
    CheckRouteSymmetric(name1, name2, "B_gate", "B_drain");
    CheckRouteSymmetric(name1, name2, "A_gate", "A_source");
    CheckRouteSymmetric(name1, name2, "B_gate", "B_source");
    CheckRouteSymmetric(name1, name2, "A_gate", "B_drain");
    CheckRouteSymmetric(name1, name2, "A_gate", "B_source");
    CheckRouteSymmetric(name1, name2, "B_gate", "A_drain");
    CheckRouteSymmetric(name1, name2, "B_gate", "A_source");
    CheckRouteSymmetric(name1, name2, "A_source", "B_drain");
    CheckRouteSymmetric(name1, name2, "A_drain", "B_source");
  }

  lemma CheckRouteSymmetric(name1: string, name2: string, a: string, b: string)
    ensures CheckRoute(name2, name1, a, b) == CheckRoute(name1, name2, a, b)
  {
  }

  // ---------------------------------------------------------------- the code agrees with the table

  /** The fifteen pin-pair tests of the table, as tests on terminals. */
  lemma PairTests(t1: Terminal, t2: Terminal)
    ensures var n1, n2 := TerminalText(t1), TerminalText(t2);
      && (CheckRoute(n1, n2, "A_source", "B_source") <==> Pair(t1, t2, Terminal(GroupA, Source), Terminal(GroupB, Source)))
      && (CheckRoute(n1, n2, "A_gate", "B_gate") <==> Pair(t1, t2, Terminal(GroupA, Gate), Terminal(GroupB, Gate)))
      && (CheckRoute(n1, n2, "A_drain", "B_drain") <==> Pair(t1, t2, Terminal(GroupA, Drain), Terminal(GroupB, Drain)))
      && (CheckRoute(n1, n2, "A_drain", "A_source") <==> Pair(t1, t2, Terminal(GroupA, Drain), Terminal(GroupA, Source)))
      && (CheckRoute(n1, n2, "B_drain", "B_source") <==> Pair(t1, t2, Terminal(GroupB, Drain), Terminal(GroupB, Source)))
      && (CheckRoute(n1, n2, "A_gate", "A_drain") <==> Pair(t1, t2, Terminal(GroupA, Gate), Terminal(GroupA, Drain)))
      && (CheckRoute(n1, n2, "A_gate", "A_source") <==> Pair(t1, t2, Terminal(GroupA, Gate), Terminal(GroupA, Source)))
      && (CheckRoute(n1, n2, "B_gate", "B_drain") <==> Pair(t1, t2, Terminal(GroupB, Gate), Terminal(GroupB, Drain)))
      && (CheckRoute(n1, n2, "B_gate", "B_source") <==> Pair(t1, t2, Terminal(GroupB, Gate), Terminal(GroupB, Source)))
      && (CheckRoute(n1, n2, "A_gate", "B_drain") <==> Pair(t1, t2, Terminal(GroupA, Gate), Terminal(GroupB, Drain)))
      && (CheckRoute(n1, n2, "A_gate", "B_source") <==> Pair(t1, t2, Terminal(GroupA, Gate), Terminal(GroupB, Source)))
      && (CheckRoute(n1, n2, "B_gate", "A_drain") <==> Pair(t1, t2, Terminal(GroupB, Gate), Terminal(GroupA, Drain)))
      && (CheckRoute(n1, n2, "B_gate", "A_source") <==> Pair(t1, t2, Terminal(GroupB, Gate), Terminal(GroupA, Source)))
      && (CheckRoute(n1, n2, "A_source", "B_drain") <==> Pair(t1, t2, Terminal(GroupA, Source), Terminal(GroupB, Drain)))
      && (CheckRoute(n1, n2, "A_drain", "B_source") <==> Pair(t1, t2, Terminal(GroupA, Drain), Terminal(GroupB, Source)))
  {
    PinNames();
    CheckRoutePair(t1, t2, Terminal(GroupA, Source), Terminal(GroupB, Source));
    CheckRoutePair(t1, t2, Terminal(GroupA, Gate), Terminal(GroupB, Gate));
    CheckRoutePair(t1, t2, Terminal(GroupA, Drain), Terminal(GroupB, Drain));
    CheckRoutePair(t1, t2, Terminal(GroupA, Drain), Terminal(GroupA, Source));
    CheckRoutePair(t1, t2, Terminal(GroupB, Drain), Terminal(GroupB, Source));
    CheckRoutePair(t1, t2, Terminal(GroupA, Gate), Terminal(GroupA, Drain));
    CheckRoutePair(t1, t2, Terminal(GroupA, Gate), Terminal(GroupA, Source));
    CheckRoutePair(t1, t2, Terminal(GroupB, Gate), Terminal(GroupB, Drain));
    CheckRoutePair(t1, t2, Terminal(GroupB, Gate), Terminal(GroupB, Source));
    CheckRoutePair(t1, t2, Terminal(GroupA, Gate), Terminal(GroupB, Drain));
    CheckRoutePair(t1, t2, Terminal(GroupA, Gate), Terminal(GroupB, Source));
    CheckRoutePair(t1, t2, Terminal(GroupB, Gate), Terminal(GroupA, Drain));
    CheckRoutePair(t1, t2, Terminal(GroupB, Gate), Terminal(GroupA, Source));
    CheckRoutePair(t1, t2, Terminal(GroupA, Source), Terminal(GroupB, Drain));
    CheckRoutePair(t1, t2, Terminal(GroupA, Drain), Terminal(GroupB, Source));
  }

  /** What the router's raw-name tests say about an edge whose name is clean. */
  predicate RawTests(edge: Port, t: Terminal) {
    && (Contains(edge.name, "A") <==> t.group == GroupA)
    && (Contains(edge.name, "B") <==> t.group == GroupB)
    && (Contains(edge.name, "source") <==> t.role == Source)
    && (Contains(edge.name, "drain") <==> t.role == Drain)
  }

  /**
   * On ports whose raw names mention group letters and source/drain words only where their
   * parsed terminals do, the name-driven decision is the terminal table: same route, same
   * ports looked up in the same order, same errors.
   */
  lemma DecideMatchesTable(edge1: Port, edge2: Port, ports: map<string, Port>, glayer2: GLayer)
    requires Clean(edge1.name) && Clean(edge2.name)
    ensures var (name1, name2) := OrderNames(ParsedName(edge1.name), ParsedName(edge2.name));
      Decide(name1, name2, edge1, edge2, ports, glayer2) == Table(TerminalOf(edge1.name), TerminalOf(edge2.name), edge1, edge2, ports, glayer2)
  {
    var t1, t2 := TerminalOf(edge1.name), TerminalOf(edge2.name);
    var n1, n2 := ParsedName(edge1.name), ParsedName(edge2.name);
    DecideIgnoresNameOrder(n1, n2, edge1, edge2, ports, glayer2);
    ParsedNameText(edge1.name);
    ParsedNameText(edge2.name);
    PinNames();
    DecideOnTerminals(t1, t2, edge1, edge2, ports, glayer2);
  }

  lemma DecideOnTerminals(t1: Terminal, t2: Terminal, edge1: Port, edge2: Port, ports: map<string, Port>, glayer2: GLayer)
    requires RawTests(edge1, t1) && RawTests(edge2, t2)
    ensures Decide(TerminalText(t1), TerminalText(t2), edge1, edge2, ports, glayer2) == Table(t1, t2, edge1, edge2, ports, glayer2)
  {
    TrivialPair(t1, t2);
    PairTests(t1, t2);
    if !Complete(t1) || !Complete(t2) {
      HardRoutesOnTerminals(t1, t2, edge1, edge2, ports, glayer2);
    } else if t1 == t2 {
    } else if t1.role == Gate && t2.role == Gate {
    } else if t1.role == Gate || t2.role == Gate {
      HardRoutesOnTerminals(t1, t2, edge1, edge2, ports, glayer2);
    } else if !EasyPair(t1, t2) {
      HardRoutesOnTerminals(t1, t2, edge1, edge2, ports, glayer2);
    }
  }

  lemma GateRoutesOnTerminals(t1: Terminal, t2: Terminal, edge1: Port, edge2: Port, ports: map<string, Port>, glayer2: GLayer)
    requires RawTests(edge1, t1) && RawTests(edge2, t2)
    requires Complete(t1) && Complete(t2) && (t1.role == Gate <==> t2.role != Gate)
    ensures HardRoutes(TerminalText(t1), TerminalText(t2), edge1, edge2, ports, glayer2) == Table(t1, t2, edge1, edge2, ports, glayer2)
  {
    PairTests(t1, t2);
  }

  /** The five source/drain-or-gate pairs `Decide` settles before the C-route families. */
  predicate EasyPair(t1: Terminal, t2: Terminal) {
    || Pair(t1, t2, Terminal(GroupA, Source), Terminal(GroupB, Source))
    || Pair(t1, t2, Terminal(GroupA, Gate), Terminal(GroupB, Gate))
    || Pair(t1, t2, Terminal(GroupA, Drain), Terminal(GroupB, Drain))
    || Pair(t1, t2, Terminal(GroupA, Drain), Terminal(GroupA, Source))
    || Pair(t1, t2, Terminal(GroupB, Drain), Terminal(GroupB, Source))
  }

  lemma HardRoutesOnTerminals(t1: Terminal, t2: Terminal, edge1: Port, edge2: Port, ports: map<string, Port>, glayer2: GLayer)
    requires RawTests(edge1, t1) && RawTests(edge2, t2)
    requires !EasyPair(t1, t2) && !(Complete(t1) && Complete(t2) && (t1 == t2 || (t1.role == Gate && t2.role == Gate)))
    ensures HardRoutes(TerminalText(t1), TerminalText(t2), edge1, edge2, ports, glayer2) == Table(t1, t2, edge1, edge2, ports, glayer2)
  {
    if !Complete(t1) || !Complete(t2) {
      PairTests(t1, t2);
    } else if t1.role == Gate || t2.role == Gate {
      GateRoutesOnTerminals(t1, t2, edge1, edge2, ports, glayer2);
    } else {
      PairTests(t1, t2);
    }
  }

  // ---------------------------------------------------------------- refusals and side effects

  /** One end is a gate and the other a source or drain: the pairs routed with a C-route. */
  predicate GateWithSourceDrain(t1: Terminal, t2: Terminal) {
    Complete(t1) && Complete(t2) && (t1.role == Gate) != (t2.role == Gate)
  }

  /**
   * Whatever the raw names say, the decision on parsed names refuses exactly the pairs
   * with an incomplete terminal, gives the empty component exactly for a repeated
   * terminal, and asks for compensation only for a gate paired with a source or drain.
   */
  lemma DecideShape(t1: Terminal, t2: Terminal, edge1: Port, edge2: Port, ports: map<string, Port>, glayer2: GLayer)
    ensures var d := Decide(TerminalText(t1), TerminalText(t2), edge1, edge2, ports, glayer2);
      && (d.Failure? && d.error.ValueError? <==> !Complete(t1) || !Complete(t2))
      && (d.Failure? && d.error.ValueError? ==> d.error.msg == UNSUPPORTED_TWO)
      && (d == Success(Done(Empty)) <==> Complete(t1) && t1 == t2)
      && (d.Success? && d.value.CompensateThen? ==> GateWithSourceDrain(t1, t2) && d.value.route.CRoute?)
  {
    TrivialPair(t1, t2);
    PairTests(t1, t2);
    if !(Complete(t1) && t1 == t2) && !EasyPair(t1, t2) {
      HardRoutesShape(t1, t2, edge1, edge2, ports, glayer2);
    }
  }

  lemma HardRoutesShape(t1: Terminal, t2: Terminal, edge1: Port, edge2: Port, ports: map<string, Port>, glayer2: GLayer)
    requires !(Complete(t1) && t1 == t2) && !EasyPair(t1, t2)
    ensures var d := HardRoutes(TerminalText(t1), TerminalText(t2), edge1, edge2, ports, glayer2);
      && (d.Failure? && d.error.ValueError? <==> !Complete(t1) || !Complete(t2))
      && (d.Failure? && d.error.ValueError? ==> d.error.msg == UNSUPPORTED_TWO)
      && d != Success(Done(Empty))
      && (d.Success? && d.value.CompensateThen? ==> GateWithSourceDrain(t1, t2) && d.value.route.CRoute?)
  {
    PairTests(t1, t2);
  }

  /**
   * Carrying out a decision turns no decision into a `ValueError` it did not hold, passes
   * errors through with the state untouched, and changes the state only for a C-route.
   */
  lemma ApplyEffects(env: Env, d: Result<Action, Error>, s: CellState)
    ensures var o := Apply(env, d, s);
      && (o.result.Failure? && o.result.error.ValueError? <==> d.Failure? && d.error.ValueError?)
      && (d.Failure? ==> o == Outcome(Failure(d.error), s))
      && (d.Success? && d.value.Done? ==> o == Outcome(Success(d.value.route), s))
      && (d.Success? && d.value.CompensateThen? ==> o.result.Failure? || o.result == Success(d.value.route))
  {
  }

  /** The two-transistor router raises nothing but `ValueError` and `KeyError`. */
  lemma TwoTransistorErrors(env: Env, edge1: Port, edge2: Port, s: CellState)
    ensures var o := TwoTransistorRoute(env, edge1, edge2, s);
      o.result.Failure? ==> o.result.error.ValueError? || o.result.error.KeyError?
  {
    var n1, n2 := ParsedName(edge1.name), ParsedName(edge2.name);
    var glayer2 := env.glayerOf(edge2.layer);
    var names := OrderNames(n1, n2);
    var d := Decide(names.0, names.1, edge1, edge2, s.ports, glayer2);
    assert TwoTransistorRoute(env, edge1, edge2, s) == Apply(env, d, s);
    DecideErrors(names.0, names.1, edge1, edge2, s.ports, glayer2);
    ApplyEffects(env, d, s);
  }

  /** Every failure of the decision table is the table's own `ValueError` or a lookup's `KeyError`. */
  lemma DecideErrors(name1: string, name2: string, edge1: Port, edge2: Port, ports: map<string, Port>, glayer2: GLayer)
    ensures var d := Decide(name1, name2, edge1, edge2, ports, glayer2);
      d.Failure? ==> d.error == ValueError(UNSUPPORTED_TWO) || d.error.KeyError?
  {
  }

  /**
   * The router raises `ValueError` exactly when a parsed terminal lacks its group or role,
   * and then leaves the component as it was; it returns the empty component exactly for a
   * repeated terminal; and only a gate paired with a source or drain changes the component.
   */
  lemma TwoTransistorEffects(env: Env, edge1: Port, edge2: Port, s: CellState)
    ensures var o, t1, t2 := TwoTransistorRoute(env, edge1, edge2, s), TerminalOf(edge1.name), TerminalOf(edge2.name);
      && (o.result.Failure? && o.result.error.ValueError? <==> !Complete(t1) || !Complete(t2))
      && (!Complete(t1) || !Complete(t2) ==> o == Outcome(Failure(ValueError(UNSUPPORTED_TWO)), s))
      && (o.result == Success(Empty) <==> Complete(t1) && t1 == t2)
      && (!GateWithSourceDrain(t1, t2) ==> o.state == s)
  {
    var t1, t2 := TerminalOf(edge1.name), TerminalOf(edge2.name);
    var n1, n2 := ParsedName(edge1.name), ParsedName(edge2.name);
    var glayer2 := env.glayerOf(edge2.layer);
    DecideIgnoresNameOrder(n1, n2, edge1, edge2, s.ports, glayer2);
    ParsedNameText(edge1.name);
    ParsedNameText(edge2.name);
    var d := Decide(TerminalText(t1), TerminalText(t2), edge1, edge2, s.ports, glayer2);
    assert TwoTransistorRoute(env, edge1, edge2, s) == Apply(env, d, s);
    DecideShape(t1, t2, edge1, edge2, s.ports, glayer2);
    ApplyEffects(env, d, s);
  }

  // ---------------------------------------------------------------- well-formed names

  /** The router run on clean names carries out the terminal table. */
  lemma TwoTransistorMatchesTable(env: Env, edge1: Port, edge2: Port, s: CellState)
    requires Clean(edge1.name) && Clean(edge2.name)
    ensures TwoTransistorRoute(env, edge1, edge2, s)
         == Apply(env, Table(TerminalOf(edge1.name), TerminalOf(edge2.name), edge1, edge2, s.ports, env.glayerOf(edge2.layer)), s)
  {
    DecideMatchesTable(edge1, edge2, s.ports, env.glayerOf(edge2.layer));
  }

  /** A generated terminal name parses to its terminal, is clean, and exchanges to its twin on the other edge. */
  lemma GeneratedName(prefix: string, t: Terminal, edge: char, dir: char)
    requires ValidPrefix(prefix) && NeutralPrefix(prefix) && Complete(t) && edge in EDGES
    ensures TerminalOf(PortName(prefix, t, edge)) == t && Clean(PortName(prefix, t, edge))
    ensures ExchangeKey(PortName(prefix, t, edge), [dir]) == PortName(prefix, t, dir) + "_private"
  {
    TerminalOfPortName(prefix, t, edge);
    CleanPortName(prefix, t, edge);
    ExchangeKeyOfPortName(prefix, t, edge, dir);
  }

  /** On two generated names of one cell the router carries out the terminal table. */
  lemma GeneratedPairRoute(env: Env, prefix: string, t1: Terminal, c1: char, t2: Terminal, c2: char, edge1: Port, edge2: Port, s: CellState)
    requires ValidPrefix(prefix) && NeutralPrefix(prefix) && Complete(t1) && Complete(t2) && c1 in EDGES && c2 in EDGES
    requires edge1.name == PortName(prefix, t1, c1) && edge2.name == PortName(prefix, t2, c2)
    ensures TwoTransistorRoute(env, edge1, edge2, s) == Apply(env, Table(t1, t2, edge1, edge2, s.ports, env.glayerOf(edge2.layer)), s)
  {
    GeneratedName(prefix, t1, c1, c1);
    GeneratedName(prefix, t2, c2, c2);
    TwoTransistorMatchesTable(env, edge1, edge2, s);
  }

  /** The six terminals of the pair on one side, in the order the compensation visits them. */
  function Siblings(prefix: string, side: char): seq<string> {
    [PortName(prefix, Terminal(GroupA, Source), side), PortName(prefix, Terminal(GroupA, Drain), side),
     PortName(prefix, Terminal(GroupA, Gate), side), PortName(prefix, Terminal(GroupB, Source), side),
     PortName(prefix, Terminal(GroupB, Drain), side), PortName(prefix, Terminal(GroupB, Gate), side)]
  }

  /**
   * From a generated sample name the compensation recovers the cell prefix and visits
   * exactly the six terminals of both devices on the C-route's side.
   */
  lemma SiblingsOfGeneratedName(prefix: string, t: Terminal, edge: char, leftSide: bool)
    requires ValidPrefix(prefix) && Complete(t) && edge in EDGES
    ensures SiblingKeys(BaseName(PortName(prefix, t, edge)), Direction(leftSide)) == Siblings(prefix, if leftSide then 'W' else 'E')
  {
    BaseNameOfPortName(prefix, t, edge);
    var side := if leftSide then 'W' else 'E';
    DirectionText(leftSide);
    SiblingKeysOfPrefix(prefix, side);
  }

  /** `direction` as the `_` and edge letter of the C-route's side. */
  lemma DirectionText(leftSide: bool)
    ensures Direction(leftSide) == "_" + [if leftSide then 'W' else 'E']
  {
  }

  /** The keys the compensation builds from a cell prefix are that cell's generated terminal names. */
  lemma SiblingKeysOfPrefix(prefix: string, side: char)
    ensures SiblingKeys(prefix, "_" + [side]) == Siblings(prefix, side)
  {
    var dir := "_" + [side];
    var keys := SiblingKeys(prefix, dir);
    var sib := Siblings(prefix, side);
    KeyIsPortName(prefix, "A_", GroupA, "source", Source, dir, side);
    KeyIsPortName(prefix, "A_", GroupA, "drain", Drain, dir, side);
    KeyIsPortName(prefix, "A_", GroupA, "gate", Gate, dir, side);
    KeyIsPortName(prefix, "B_", GroupB, "source", Source, dir, side);
    KeyIsPortName(prefix, "B_", GroupB, "drain", Drain, dir, side);
    KeyIsPortName(prefix, "B_", GroupB, "gate", Gate, dir, side);
    assert keys[0] == sib[0] && keys[1] == sib[1] && keys[2] == sib[2];
    assert keys[3] == sib[3] && keys[4] == sib[4] && keys[5] == sib[5];
  }

  /** One compensation key, `base + dev + pin + direction`, is the generated name of that terminal. */
  lemma KeyIsPortName(prefix: string, dev: string, g: Group, pin: string, role: Role, dir: string, side: char)
    requires dev == GroupText(g) + "_" && pin == RoleText(role) && dir == "_" + [side]
    ensures prefix + dev + pin + dir == PortName(prefix, Terminal(g, role), side)
  {
    assert prefix + dev + pin + dir == prefix + GroupText(g) + "_" + RoleText(role) + "_" + [side];
  }

  /**
   * A C-route decision succeeds exactly when all six sibling twins exist; then every
   * sibling's public port is replaced from its private twin and the six extensions are
   * added; otherwise the `KeyError` of the first missing twin escapes.
   */
  lemma CRouteOutcome(env: Env, r: Route, sample: Port, leftSide: bool, s: CellState)
    ensures var keys := SiblingKeys(BaseName(sample.name), Direction(leftSide));
      var o := Apply(env, Success(CompensateThen(r, sample, leftSide)), s);
      && (o.result == Success(r) <==> TwinsPresent(s.ports, keys))
      && (o.result.Failure? ==>
            FirstMissing(s.ports, keys) < |keys| && o.result.error == KeyError(PrivateKey(keys[FirstMissing(s.ports, keys)])))
      && (TwinsPresent(s.ports, keys) ==>
            && o.state.ports == s.ports + Replaced(env, s.ports, keys, Direction(leftSide), env.portOf(r, "con_N"))
            && o.state.refs == s.refs + Extensions(env, s.ports, keys, env.portOf(r, "con_N")))
  {
    var direction := Direction(leftSide);
    var keys := SiblingKeys(BaseName(sample.name), direction);
    SiblingKeysAreEdgeKeys(BaseName(sample.name), leftSide);
    CompensateOutcome(env, s, keys, direction, env.portOf(r, "con_N"));
  }
}
