/**
 * The two-transistor router on the generated terminal names of one cell (any prefix free
 * of group letters and source/drain words): the table at work on a representative case of
 * each kind.
 */
module TwoTransistorScenarios {
  import opened Wrappers
  import opened PyStr
  import opened PortNames
  import opened Routes
  import opened Compensation
  import opened TwoTransistor

  const A_SOURCE := Terminal(GroupA, Source)
  const A_DRAIN := Terminal(GroupA, Drain)
  const A_GATE := Terminal(GroupA, Gate)
  const B_SOURCE := Terminal(GroupB, Source)
  const B_DRAIN := Terminal(GroupB, Drain)
  const B_GATE := Terminal(GroupB, Gate)

  /** The private twin of a generated terminal on edge `c`. */
  function Twin(prefix: string, t: Terminal, c: char): string {
    PortName(prefix, t, c) + "_private"
  }

  // ---------------------------------------------------------------- the table on abstract twin keys

  /** Sources of A and B: the via anchors at the twin `k` that `edge2` exchanges to on the west. */
  lemma SourcePairTable(env: Env, edge1: Port, edge2: Port, s: CellState, k: string)
    requires ExchangeKey(edge2.name, "W") == k
    ensures var o := Apply(env, Table(A_SOURCE, B_SOURCE, edge1, edge2, s.ports, env.glayerOf(edge2.layer)), s);
      && (k in s.ports ==> o == Outcome(Success(ViaStack("met1", env.glayerOf(edge2.layer), s.ports[k], ("r", "c"))), s))
      && (k !in s.ports ==> o == Outcome(Failure(KeyError(k)), s))
  {
    var g := env.glayerOf(edge2.layer);
    if k in s.ports {
      assert Table(A_SOURCE, B_SOURCE, edge1, edge2, s.ports, g) == Success(Done(ViaStack("met1", g, s.ports[k], ("r", "c"))));
    } else {
      assert Table(A_SOURCE, B_SOURCE, edge1, edge2, s.ports, g) == Failure(KeyError(k));
    }
  }

  /** Two gates of different devices: a straight wire between their south twins `k1` and `k2`. */
  lemma GateTable(env: Env, t1: Terminal, t2: Terminal, edge1: Port, edge2: Port, s: CellState, k1: string, k2: string)
    requires Complete(t1) && Complete(t2) && t1 != t2 && t1.role == Gate && t2.role == Gate
    requires ExchangeKey(edge1.name, "S") == k1 && ExchangeKey(edge2.name, "S") == k2 && k1 in s.ports && k2 in s.ports
    ensures var w := if edge1.width > 1.0 then 1.0 else edge1.width;
      Apply(env, Table(t1, t2, edge1, edge2, s.ports, env.glayerOf(edge2.layer)), s)
        == Outcome(Success(Straight(s.ports[k1], s.ports[k2], Some(w), None, map[])), s)
  {
    var w := if edge1.width > 1.0 then 1.0 else edge1.width;
    assert Table(t1, t2, edge1, edge2, s.ports, env.glayerOf(edge2.layer))
        == Success(Done(Straight(s.ports[k1], s.ports[k2], Some(w), None, map[])));
  }

  /** B's source with A's drain: the via anchors at the drain's east twin `k`. */
  lemma DrainSourceTable(env: Env, edge1: Port, edge2: Port, s: CellState, k: string)
    requires ExchangeKey(edge2.name, "E") == k && k in s.ports
    ensures Apply(env, Table(B_SOURCE, A_DRAIN, edge1, edge2, s.ports, env.glayerOf(edge2.layer)), s)
         == Outcome(Success(ViaStack("met1", env.glayerOf(edge2.layer), s.ports[k], ("l", "c"))), s)
  {
    var g := env.glayerOf(edge2.layer);
    assert Table(B_SOURCE, A_DRAIN, edge1, edge2, s.ports, g) == Success(Done(ViaStack("met1", g, s.ports[k], ("l", "c"))));
  }

  /** A's gate with A's drain: a west C-route from the drain's twin `kd` to the gate's twin `kg`, sampled at the drain. */
  lemma GateDrainTable(edge1: Port, edge2: Port, ports: map<string, Port>, g: GLayer, kg: string, kd: string)
    requires ExchangeKey(edge1.name, "W") == kg && ExchangeKey(edge2.name, "W") == kd && kg in ports && kd in ports
    ensures Table(A_GATE, A_DRAIN, edge1, edge2, ports, g)
         == Success(CompensateThen(CRoute(ports[kd], ports[kg], Some((false, true)), Some(edge1.width), map[]), edge2, true))
  {
  }

  /** A's source with B's gate: an east C-route from the source's twin `ks` to the gate's twin `kg`, sampled at the source. */
  lemma SourceGateTable(edge1: Port, edge2: Port, ports: map<string, Port>, g: GLayer, ks: string, kg: string)
    requires ExchangeKey(edge1.name, "E") == ks && ExchangeKey(edge2.name, "E") == kg && ks in ports && kg in ports
    ensures Table(A_SOURCE, B_GATE, edge1, edge2, ports, g)
         == Success(CompensateThen(CRoute(ports[ks], ports[kg], Some((true, true)), Some(edge2.width), map[]), edge1, false))
  {
  }

  // ---------------------------------------------------------------- scenarios on generated names

  /** Sources of A and B: a via stack on the west twin of B's source, aligned right-centre. */
  lemma SourcePair(env: Env, prefix: string, c1: char, c2: char, edge1: Port, edge2: Port, s: CellState)
    requires ValidPrefix(prefix) && NeutralPrefix(prefix) && c1 in EDGES && c2 in EDGES
    requires edge1.name == PortName(prefix, A_SOURCE, c1) && edge2.name == PortName(prefix, B_SOURCE, c2)
    requires Twin(prefix, B_SOURCE, 'W') in s.ports
    ensures TwoTransistorRoute(env, edge1, edge2, s)
         == Outcome(Success(ViaStack("met1", env.glayerOf(edge2.layer), s.ports[Twin(prefix, B_SOURCE, 'W')], ("r", "c"))), s)
  {
    GeneratedPairRoute(env, prefix, A_SOURCE, c1, B_SOURCE, c2, edge1, edge2, s);
    ExchangeKeyOfPortName(prefix, B_SOURCE, c2, 'W');
    SourcePairTable(env, edge1, edge2, s, Twin(prefix, B_SOURCE, 'W'));
  }

  /** Without that private twin the anchor lookup raises `KeyError`, which nothing catches. */
  lemma SourcePairMissingTwin(env: Env, prefix: string, c1: char, c2: char, edge1: Port, edge2: Port, s: CellState)
    requires ValidPrefix(prefix) && NeutralPrefix(prefix) && c1 in EDGES && c2 in EDGES
    requires edge1.name == PortName(prefix, A_SOURCE, c1) && edge2.name == PortName(prefix, B_SOURCE, c2)
    requires Twin(prefix, B_SOURCE, 'W') !in s.ports
    ensures TwoTransistorRoute(env, edge1, edge2, s) == Outcome(Failure(KeyError(Twin(prefix, B_SOURCE, 'W'))), s)
  {
    GeneratedPairRoute(env, prefix, A_SOURCE, c1, B_SOURCE, c2, edge1, edge2, s);
    ExchangeKeyOfPortName(prefix, B_SOURCE, c2, 'W');
    SourcePairTable(env, edge1, edge2, s, Twin(prefix, B_SOURCE, 'W'));
  }

  /** Gates of A and B: a straight wire between the south twins, at most one unit wide. */
  lemma GatePair(env: Env, prefix: string, c1: char, c2: char, edge1: Port, edge2: Port, s: CellState)
    requires ValidPrefix(prefix) && NeutralPrefix(prefix) && c1 in EDGES && c2 in EDGES
    requires edge1.name == PortName(prefix, A_GATE, c1) && edge2.name == PortName(prefix, B_GATE, c2)
    requires Twin(prefix, A_GATE, 'S') in s.ports && Twin(prefix, B_GATE, 'S') in s.ports
    ensures var w := if edge1.width > 1.0 then 1.0 else edge1.width;
      TwoTransistorRoute(env, edge1, edge2, s)
        == Outcome(Success(Straight(s.ports[Twin(prefix, A_GATE, 'S')], s.ports[Twin(prefix, B_GATE, 'S')], Some(w), None, map[])), s)
  {
    GeneratedPairRoute(env, prefix, A_GATE, c1, B_GATE, c2, edge1, edge2, s);
    ExchangeKeyOfPortName(prefix, A_GATE, c1, 'S');
    ExchangeKeyOfPortName(prefix, B_GATE, c2, 'S');
    GateTable(env, A_GATE, B_GATE, edge1, edge2, s, Twin(prefix, A_GATE, 'S'), Twin(prefix, B_GATE, 'S'));
  }

  /** The names are reordered, the edges are not: B's gate first gives the wire from B, with B's width. */
  lemma GatePairReversed(env: Env, prefix: string, c1: char, c2: char, edge1: Port, edge2: Port, s: CellState)
    requires ValidPrefix(prefix) && NeutralPrefix(prefix) && c1 in EDGES && c2 in EDGES
    requires edge1.name == PortName(prefix, B_GATE, c1) && edge2.name == PortName(prefix, A_GATE, c2)
    requires Twin(prefix, A_GATE, 'S') in s.ports && Twin(prefix, B_GATE, 'S') in s.ports
    ensures var w := if edge1.width > 1.0 then 1.0 else edge1.width;
      TwoTransistorRoute(env, edge1, edge2, s)
        == Outcome(Success(Straight(s.ports[Twin(prefix, B_GATE, 'S')], s.ports[Twin(prefix, A_GATE, 'S')], Some(w), None, map[])), s)
  {
    GeneratedPairRoute(env, prefix, B_GATE, c1, A_GATE, c2, edge1, edge2, s);
    ExchangeKeyOfPortName(prefix, B_GATE, c1, 'S');
    ExchangeKeyOfPortName(prefix, A_GATE, c2, 'S');
    GateTable(env, B_GATE, A_GATE, edge1, edge2, s, Twin(prefix, B_GATE, 'S'), Twin(prefix, A_GATE, 'S'));
  }

  /** Two ends on the same gate of A, even on different edges: the empty component, the cell left alone. */
  lemma SameGate(env: Env, prefix: string, c1: char, c2: char, edge1: Port, edge2: Port, s: CellState)
    requires ValidPrefix(prefix) && NeutralPrefix(prefix) && c1 in EDGES && c2 in EDGES
    requires edge1.name == PortName(prefix, A_GATE, c1) && edge2.name == PortName(prefix, A_GATE, c2)
    ensures TwoTransistorRoute(env, edge1, edge2, s) == Outcome(Success(Empty), s)
  {
    GeneratedPairRoute(env, prefix, A_GATE, c1, A_GATE, c2, edge1, edge2, s);
  }

  /** Drain of A and source of B: a via stack on the east twin of the drain, aligned left-centre. */
  lemma DrainSourceAcross(env: Env, prefix: string, c1: char, c2: char, edge1: Port, edge2: Port, s: CellState)
    requires ValidPrefix(prefix) && NeutralPrefix(prefix) && c1 in EDGES && c2 in EDGES
    requires edge1.name == PortName(prefix, B_SOURCE, c1) && edge2.name == PortName(prefix, A_DRAIN, c2)
    requires Twin(prefix, A_DRAIN, 'E') in s.ports
    ensures TwoTransistorRoute(env, edge1, edge2, s)
         == Outcome(Success(ViaStack("met1", env.glayerOf(edge2.layer), s.ports[Twin(prefix, A_DRAIN, 'E')], ("l", "c"))), s)
  {
    GeneratedPairRoute(env, prefix, B_SOURCE, c1, A_DRAIN, c2, edge1, edge2, s);
    ExchangeKeyOfPortName(prefix, A_DRAIN, c2, 'E');
    DrainSourceTable(env, edge1, edge2, s, Twin(prefix, A_DRAIN, 'E'));
  }

  /**
   * Gate and drain of A: a C-route on the west side from the drain's twin to the gate's twin,
   * without the first via offset and with the gate's width; then all six west terminals of
   * both devices are redrawn from their private twins to the route's `con_N` port.
   */
  lemma GateDrainOfA(env: Env, prefix: string, c1: char, c2: char, edge1: Port, edge2: Port, s: CellState)
    requires ValidPrefix(prefix) && NeutralPrefix(prefix) && c1 in EDGES && c2 in EDGES
    requires edge1.name == PortName(prefix, A_GATE, c1) && edge2.name == PortName(prefix, A_DRAIN, c2)
    requires TwinsPresent(s.ports, Siblings(prefix, 'W'))
    ensures Twin(prefix, A_DRAIN, 'W') in s.ports && Twin(prefix, A_GATE, 'W') in s.ports
    ensures var route := CRoute(s.ports[Twin(prefix, A_DRAIN, 'W')], s.ports[Twin(prefix, A_GATE, 'W')], Some((false, true)), Some(edge1.width), map[]);
      var o := TwoTransistorRoute(env, edge1, edge2, s);
      && o.result == Success(route)
      && o.state.ports == s.ports + Replaced(env, s.ports, Siblings(prefix, 'W'), "_W", env.portOf(route, "con_N"))
      && o.state.refs == s.refs + Extensions(env, s.ports, Siblings(prefix, 'W'), env.portOf(route, "con_N"))
  {
    assert PrivateKey(Siblings(prefix, 'W')[1]) in s.ports && PrivateKey(Siblings(prefix, 'W')[2]) in s.ports;
    GeneratedPairRoute(env, prefix, A_GATE, c1, A_DRAIN, c2, edge1, edge2, s);
    ExchangeKeyOfPortName(prefix, A_GATE, c1, 'W');
    ExchangeKeyOfPortName(prefix, A_DRAIN, c2, 'W');
    GateDrainTable(edge1, edge2, s.ports, env.glayerOf(edge2.layer), Twin(prefix, A_GATE, 'W'), Twin(prefix, A_DRAIN, 'W'));
    var route := CRoute(s.ports[Twin(prefix, A_DRAIN, 'W')], s.ports[Twin(prefix, A_GATE, 'W')], Some((false, true)), Some(edge1.width), map[]);
    SiblingsOfGeneratedName(prefix, A_DRAIN, c2, true);
    CRouteOutcome(env, route, edge2, true, s);
  }

  /**
   * Gate of B and source of A: a C-route on the east side from the source's twin, with the
   * first via offset; if a sibling twin is missing, the `KeyError` escapes after the route is chosen.
   */
  lemma GateOfBSourceOfA(env: Env, prefix: string, c1: char, c2: char, edge1: Port, edge2: Port, s: CellState)
    requires ValidPrefix(prefix) && NeutralPrefix(prefix) && c1 in EDGES && c2 in EDGES
    requires edge1.name == PortName(prefix, A_SOURCE, c1) && edge2.name == PortName(prefix, B_GATE, c2)
    requires Twin(prefix, A_SOURCE, 'E') in s.ports && Twin(prefix, B_GATE, 'E') in s.ports
    ensures var route := CRoute(s.ports[Twin(prefix, A_SOURCE, 'E')], s.ports[Twin(prefix, B_GATE, 'E')], Some((true, true)), Some(edge2.width), map[]);
      var o := TwoTransistorRoute(env, edge1, edge2, s);
      o.result == Success(route) <==> TwinsPresent(s.ports, Siblings(prefix, 'E'))
  {
    GeneratedPairRoute(env, prefix, A_SOURCE, c1, B_GATE, c2, edge1, edge2, s);
    ExchangeKeyOfPortName(prefix, A_SOURCE, c1, 'E');
    ExchangeKeyOfPortName(prefix, B_GATE, c2, 'E');
    SourceGateTable(edge1, edge2, s.ports, env.glayerOf(edge2.layer), Twin(prefix, A_SOURCE, 'E'), Twin(prefix, B_GATE, 'E'));
    var route := CRoute(s.ports[Twin(prefix, A_SOURCE, 'E')], s.ports[Twin(prefix, B_GATE, 'E')], Some((true, true)), Some(edge2.width), map[]);
    SiblingsOfGeneratedName(prefix, A_SOURCE, c1, false);
    CRouteOutcome(env, route, edge1, false, s);
  }
}
