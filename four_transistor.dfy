/**
 * `generic_route_four_transistor_interdigitized` and `generic_route_ab_ba_common_centroid`.
 * The four-transistor cell is two interdigitized pairs side by side; its router accepts two
 * terminals of the same pair and hands them to the two-transistor router. The common-centroid
 * router is a stub that always refuses.
 */
module FourTransistor {
  import opened Wrappers
  import opened PyStr
  import opened PortNames
  import opened Routes
  import opened TwoTransistor

  const UNSUPPORTED_FOUR: string := "You picked a port that smart_route with interdigitized 4 transistor does not support"
  const NOT_IMPLEMENTED: string := "not yet implemented"

  /** The name of the sub-pair a terminal belongs to: the last segment of its stripped name. */
  function PairOf(pname: string): string {
    LastSegment(StripPortName(pname), '_')
  }

  /** The adapter's refusal: a name not ending in a role word, or terminals of two different pairs. */
  predicate Refused(name1: string, name2: string) {
    CheckPort(name1) || CheckPort(name2) || PairOf(name1) != PairOf(name2)
  }

  /** Validate the two names, then delegate to the two-transistor router. */
  function FourTransistorRoute(env: Env, edge1: Port, edge2: Port, s: CellState): Outcome {
    if Refused(edge1.name, edge2.name) then Outcome(Failure(ValueError(UNSUPPORTED_FOUR)), s)
    else TwoTransistorRoute(env, edge1, edge2, s)
  }

  /** The common-centroid router: not implemented, it raises `ValueError` and changes nothing. */
  function CommonCentroidRoute(s: CellState): (o: Outcome)
    ensures o.result.Failure? && o.result.error.ValueError? && o.state == s
  {
    Outcome(Failure(ValueError(NOT_IMPLEMENTED)), s)
  }

  /** A generated name's pair is the last `_`-segment of its cell prefix. */
  lemma PairOfGeneratedName(prefix: string, t: Terminal, edge: char)
    requires ValidPrefix(prefix) && Complete(t) && edge in EDGES
    ensures PairOf(PortName(prefix, t, edge)) == LastSegment(RStrip(prefix, {'_'}), '_')
    ensures !CheckPort(PortName(prefix, t, edge))
  {
    StripPortNameOfPortName(prefix, t, edge);
    CheckPortOfPortName(prefix, t, edge);
  }

  /**
   * On generated names the adapter refuses exactly the pairs from different sub-pairs,
   * leaving the cell alone, and otherwise returns what the two-transistor router returns.
   */
  lemma FourTransistorOnGeneratedNames(env: Env, prefix1: string, t1: Terminal, c1: char, prefix2: string, t2: Terminal, c2: char,
                                       edge1: Port, edge2: Port, s: CellState)
    requires ValidPrefix(prefix1) && ValidPrefix(prefix2) && Complete(t1) && Complete(t2) && c1 in EDGES && c2 in EDGES
    requires edge1.name == PortName(prefix1, t1, c1) && edge2.name == PortName(prefix2, t2, c2)
    ensures FourTransistorRoute(env, edge1, edge2, s)
         == if LastSegment(RStrip(prefix1, {'_'}), '_') == LastSegment(RStrip(prefix2, {'_'}), '_')
            then TwoTransistorRoute(env, edge1, edge2, s)
            else Outcome(Failure(ValueError(UNSUPPORTED_FOUR)), s)
  {
    PairOfGeneratedName(prefix1, t1, c1);
    PairOfGeneratedName(prefix2, t2, c2);
  }

  /**
   * When either name does not end in a role word followed only by edge letters and
   * underscores, the pair is refused, whatever the other name is.
   */
  lemma FourTransistorRefusesRoleless(env: Env, edge1: Port, edge2: Port, s: CellState)
    requires !EndsInRoleWord(edge1.name) || !EndsInRoleWord(edge2.name)
    ensures FourTransistorRoute(env, edge1, edge2, s) == Outcome(Failure(ValueError(UNSUPPORTED_FOUR)), s)
  {
  }

  /**
   * Every `ValueError` of the adapter leaves the cell alone: its own refusal comes before
   * any change, and the two-transistor router changes nothing when it refuses.
   */
  lemma FourTransistorValueErrorKeepsState(env: Env, edge1: Port, edge2: Port, s: CellState)
    ensures var o := FourTransistorRoute(env, edge1, edge2, s);
      o.result.Failure? && o.result.error.ValueError? ==> o.state == s
  {
    TwoTransistorEffects(env, edge1, edge2, s);
  }
}
