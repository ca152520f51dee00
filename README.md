# smart_route: routing-decision model

A Dafny model of the wire selector of the glayout analog layout generator
(`glayout/routing/smart_route.py`). Given two ports of a cell, `smart_route` either
runs a specialised router named by the reference cell's `route_genid` tag, or picks a
general straight, C or L route from the port geometry. The specialised routers read the
terminal naming convention of interdigitized transistor pairs. A name such as
`tail_A_source_W` carries a cell prefix, a device group (`A`/`B`), a role
(`source`/`drain`/`gate`) and a facing edge (`N`/`E`/`S`/`W`). Each public port has a
`_private` twin. The routers are:

- the two-transistor router, a fifteen-case table. A C-route also rewires the six
  sibling terminals on its side (`compensate_for_croutes`);
- the four-transistor adapter, which checks that both terminals belong to one pair and
  then delegates;
- the common-centroid stub.

Modules, one concern each:

- `PyStr`: the Python string operations the router uses (`rstrip`, `removesuffix`,
  `split`, `in`).
- `PortNames`: the naming convention, `parse_port_name`, `exchange_ports`' key, the
  basename derivation, `check_port` and `strip_portname`.
- `Routes`: ports, opaque route values standing for the geometry builders, the
  exceptions, and the cell state.
- `Compensation`: the compensation loop as a function on the cell state, and its
  closed form.
- `TwoTransistor`: the decision chain exactly as written on parsed names and raw port
  names (`Decide`), and an independent table by device terminal (`Table`). The two are
  proved equal on clean names.
- `TwoTransistorScenarios`: representative cases on generated names.
- `FourTransistor`: the adapter and the common-centroid stub.
- `SmartRoute`: the selector with its `ValueError` fallback.
- `Layout`: a mutable `Component` class. Its methods run the nested loops and the
  routers in place and are proved against the functions above.

The geometry builders are opaque:

- `via_stack` aligned by `align_comp_to_port`, `straight_route`, `c_route` and
  `L_route` are constructors of `Route` that record their arguments.
- The ports a built route exposes (`rt.ports[...]`) come from an opaque function
  `Env.portOf`.
- The PDK's `layer_to_glayer` is `Env.glayerOf`.
- `assert_port_manhattan`, `ports_parallel` and `ports_inline` are given booleans
  (`PortGeometry`).

Exceptions are values: `Error = NotManhattan | ValueError | KeyError`. A missing
`_private` key raises `KeyError`, which the selector does not catch. If that happens
during compensation, the replacements already made stay in the cell.

Four behaviours of the code that are easy to misread, each proved about the model:

- `generic_route_ab_ba_common_centroid` is not implemented and raises `ValueError`,
  which the selector catches. So the common-centroid tag always falls back to the
  general route (`SmartRoute.CommonCentroidFallsBack`).
- Two ends with the same group and the same role (for example both on A's gate, on
  different edges) return the empty component. They are not refused
  (`TwoTransistorScenarios.SameGate`).
- The compensation after a C-route redraws the six terminals of both devices on the
  route's side, not only those of one device (`TwoTransistor.SiblingsOfGeneratedName`).
- The basename derivation is not idempotent (`PortNames.BaseNameNotIdempotent`). It
  recovers the cell prefix only from a full generated terminal name
  (`PortNames.BaseNameOfPortName`).

## Model

| member | source | states |
|---|---|---|
| PyStr.RStrip | openfasoc/generators/gdsfactory-gen/glayout/routing/smart_route.py:57 | `str.rstrip`: the result is a prefix of the input that does not end in a stripped character, and every removed character is one of them |
| PyStr.RStripAppend | openfasoc/generators/gdsfactory-gen/glayout/routing/smart_route.py:57 | stripping `a + b` only touches `b` when `b` does not strip to nothing |
| PyStr.RemoveSuffix | openfasoc/generators/gdsfactory-gen/glayout/routing/smart_route.py:58 | `str.removesuffix`: when the suffix is present the result plus the suffix is the input, otherwise the input is returned unchanged |
| PyStr.Split | openfasoc/generators/gdsfactory-gen/glayout/routing/smart_route.py:84 | `str.split(sep)`: at least one part, and no part contains the separator |
| PyStr.JoinSplit | openfasoc/generators/gdsfactory-gen/glayout/routing/smart_route.py:84 | joining the parts of a split with the separator gives back the input |
| PyStr.SplitAppend | openfasoc/generators/gdsfactory-gen/glayout/routing/smart_route.py:84 | splitting `a + sep + w` (with `w` free of `sep`) is splitting `a` and then `w` as the last part |
| PyStr.ContainsAppend | openfasoc/generators/gdsfactory-gen/glayout/routing/smart_route.py:93-97 | a substring test on `a + b` where `b` starts with a character foreign to the word reduces to the two sides |
| PortNames.LastMatchIsLast | openfasoc/generators/gdsfactory-gen/glayout/routing/smart_route.py:84-88 | the kept tag is empty exactly when no segment matches, and otherwise it is a matching segment with no match after it (last wins) |
| PortNames.ParsePortName | openfasoc/generators/gdsfactory-gen/glayout/routing/smart_route.py:81-89 | the loop returns `comp + "_" + pin` with `comp` in `""`, `A`, `B` and `pin` in `""`, `source`, `drain`, `gate`, i.e. the text of the parsed terminal |
| PortNames.ParsedNameContains | openfasoc/generators/gdsfactory-gen/glayout/routing/smart_route.py:93-97 | on a parsed name, `"A" in name`, `"B" in name` and each role word test hold exactly when the parsed terminal has that group or role |
| PortNames.ExchangeKey | openfasoc/generators/gdsfactory-gen/glayout/routing/smart_route.py:72 | the exchanged key always ends in `_private` |
| PortNames.ExchangeKeyOfPortName | openfasoc/generators/gdsfactory-gen/glayout/routing/smart_route.py:70-72 | exchanging a generated terminal name to edge `d` gives the same terminal's name on edge `d` plus `_private` |
| PortNames.TerminalOfPortName | openfasoc/generators/gdsfactory-gen/glayout/routing/smart_route.py:81-89 | a generated name `prefix + group + "_" + role + "_" + edge` parses back to its group and role |
| PortNames.CleanPortName | openfasoc/generators/gdsfactory-gen/glayout/routing/smart_route.py:101-119 | the raw-name substring tests on a generated name with a neutral prefix agree with its parsed group and role |
| PortNames.BaseNameOfPortName | openfasoc/generators/gdsfactory-gen/glayout/routing/smart_route.py:57-59 | the basename derivation recovers the cell prefix of a generated name |
| PortNames.BaseNameNotIdempotent | openfasoc/generators/gdsfactory-gen/glayout/routing/smart_route.py:57-59 | applied twice, the basename derivation can strip more: `tail_A_gate_W` gives `tail_` and then `tail` |
| PortNames.CheckPort | openfasoc/generators/gdsfactory-gen/glayout/routing/smart_route.py:154-159 | a name is accepted exactly when it ends in a whole role segment (`source`, `drain` or `gate`, at the start or after an `_`) followed by nothing but edge letters and underscores; both directions |
| PortNames.CheckPortOfPortName | openfasoc/generators/gdsfactory-gen/glayout/routing/smart_route.py:154-159 | a generated name with a role is never refused |
| PortNames.StripPortNameOfPortName | openfasoc/generators/gdsfactory-gen/glayout/routing/smart_route.py:160-165 | stripping a generated name leaves its prefix without trailing underscores |
| Compensation.SiblingKeyAt | openfasoc/generators/gdsfactory-gen/glayout/routing/smart_route.py:62-65 | the key visited for device `d` and pin `p` is `base + dev + pin + direction`, entry `3d + p` of the six keys: device outer, pin inner |
| Compensation.Replacement | openfasoc/generators/gdsfactory-gen/glayout/routing/smart_route.py:66-68 | the replacing port is the extension's `route_W`/`route_E` port renamed to the public key |
| Compensation.FirstMissing | openfasoc/generators/gdsfactory-gen/glayout/routing/smart_route.py:62-65 | the number of leading keys whose private twin exists; the next key's twin is missing |
| Compensation.Compensate | openfasoc/generators/gdsfactory-gen/glayout/routing/smart_route.py:62-68 | step-by-step loop on the cell state; the only exception it raises is `KeyError` |
| Compensation.CompensateAt | openfasoc/generators/gdsfactory-gen/glayout/routing/smart_route.py:62-68 | resuming the loop at key `i` either raises the `KeyError` of that key's missing twin or performs one step and continues |
| Compensation.CompensateAdvance | openfasoc/generators/gdsfactory-gen/glayout/routing/smart_route.py:62-68 | one key's outcome (its missing twin's `KeyError`, or one step) either ends the loop with the loop's own result or leaves the rest of the loop to give that result |
| Compensation.CompensateOutcome | openfasoc/generators/gdsfactory-gen/glayout/routing/smart_route.py:62-68 | the loop raises nothing exactly when all six twins exist, otherwise the `KeyError` of the first missing one; on success every key is replaced from its twin and the extensions are added |
| Compensation.FirstMissingIgnoresEdgeKey | openfasoc/generators/gdsfactory-gen/glayout/routing/smart_route.py:65-67 | writing a public key never changes which private twins exist |
| Compensation.WriteKeepsTwins | openfasoc/generators/gdsfactory-gen/glayout/routing/smart_route.py:65-68 | writing a public key leaves every later read of a private twin, hence every later replacement and extension, unchanged |
| Compensation.ReplacedCons | openfasoc/generators/gdsfactory-gen/glayout/routing/smart_route.py:67-68 | one step's write followed by the rest's writes equals all writes at once |
| Compensation.CompensateErrorForm | openfasoc/generators/gdsfactory-gen/glayout/routing/smart_route.py:65 | the loop raises `KeyError` for the first key whose private twin is missing, and nothing when all exist |
| Compensation.CompensateRefsForm | openfasoc/generators/gdsfactory-gen/glayout/routing/smart_route.py:66 | the loop adds exactly the extensions of the keys it completed, in order |
| Compensation.CompensatePortsForm | openfasoc/generators/gdsfactory-gen/glayout/routing/smart_route.py:67-68 | the loop's port map is the old map with the completed keys replaced from their original private twins |
| Compensation.CompensateClosedForm | openfasoc/generators/gdsfactory-gen/glayout/routing/smart_route.py:62-68 | ports, references and error of the loop in closed form, together |
| Compensation.CompensateSucceedsIff | openfasoc/generators/gdsfactory-gen/glayout/routing/smart_route.py:65 | the loop ends without `KeyError` exactly when every key's private twin exists |
| Compensation.CompensateKeepsOtherPorts | openfasoc/generators/gdsfactory-gen/glayout/routing/smart_route.py:62-68 | every key not visited keeps its entry or its absence |
| Compensation.CompensateReplacesAll | openfasoc/generators/gdsfactory-gen/glayout/routing/smart_route.py:62-68 | on success each visited key holds a port named after it, fed from its private twin, and the extensions are appended in loop order |
| TwoTransistor.ExchangeOfPortName | openfasoc/generators/gdsfactory-gen/glayout/routing/smart_route.py:70-72 | on a generated terminal name, exchanging to edge `d` fetches the same terminal's `d`-edge private twin, or raises `KeyError` on that twin's name; the original edge plays no part |
| TwoTransistor.ViaAt | openfasoc/generators/gdsfactory-gen/glayout/routing/smart_route.py:104 | an aligned via stack, or the `KeyError` of its anchor's lookup |
| TwoTransistor.CRouteAt | openfasoc/generators/gdsfactory-gen/glayout/routing/smart_route.py:122-123 | a C-route whose compensation is sampled from the first port, west side exactly for `W`, or a `KeyError` |
| TwoTransistor.ParsedNameText | openfasoc/generators/gdsfactory-gen/glayout/routing/smart_route.py:89 | the parsed name is the text of the parsed terminal |
| TwoTransistor.TerminalTextInjective | openfasoc/generators/gdsfactory-gen/glayout/routing/smart_route.py:81-89 | different terminals parse to different names |
| TwoTransistor.CheckRoutePair | openfasoc/generators/gdsfactory-gen/glayout/routing/smart_route.py:75-79 | `check_route` on parsed names is the unordered-pair test on terminals |
| TwoTransistor.TrivialPair | openfasoc/generators/gdsfactory-gen/glayout/routing/smart_route.py:96-98 | `samecomp and samepin` holds exactly when both terminals are complete and equal |
| TwoTransistor.DecideIgnoresNameOrder | openfasoc/generators/gdsfactory-gen/glayout/routing/smart_route.py:93-94 | swapping the two names never changes the decision, so the A-first reordering is without effect |
| TwoTransistor.PairTests | openfasoc/generators/gdsfactory-gen/glayout/routing/smart_route.py:102-142 | each of the fifteen `check_route` tests is the corresponding pair test on terminals |
| TwoTransistor.DecideOnTerminals | openfasoc/generators/gdsfactory-gen/glayout/routing/smart_route.py:96-145 | when the raw-name tests agree with the terminals, the decision chain equals the terminal table |
| TwoTransistor.DecideMatchesTable | openfasoc/generators/gdsfactory-gen/glayout/routing/smart_route.py:90-145 | on clean names the decision equals the terminal table: A/B sources via west at B, gates straight south at most one wide, drains via east at A, same-device pairs, the four C-route families (gate of A west, gate of B east, via offset unless the other end is a drain, source/drain port first, gate's width) and the mixed source/drain vias at the drain |
| TwoTransistor.DecideShape | openfasoc/generators/gdsfactory-gen/glayout/routing/smart_route.py:96-145 | for any names: `ValueError` exactly for an incomplete terminal, the empty component exactly for a repeated complete terminal, compensation only for a gate with a source or drain |
| TwoTransistor.ApplyEffects | openfasoc/generators/gdsfactory-gen/glayout/routing/smart_route.py:121-137 | carrying out a decision creates no `ValueError`, passes errors and finished routes through unchanged, and a C-route returns itself or an error |
| TwoTransistor.DecideErrors | openfasoc/generators/gdsfactory-gen/glayout/routing/smart_route.py:96-145 | the decision fails only with its own `ValueError` message or a lookup's `KeyError` |
| TwoTransistor.TwoTransistorErrors | openfasoc/generators/gdsfactory-gen/glayout/routing/smart_route.py:47-145 | the router raises nothing but `ValueError` and `KeyError` |
| TwoTransistor.TwoTransistorEffects | openfasoc/generators/gdsfactory-gen/glayout/routing/smart_route.py:90-145 | `ValueError` exactly for an incomplete terminal, then with the cell unchanged; empty component exactly for a repeated terminal; the cell changes only for a gate with a source or drain |
| TwoTransistor.TwoTransistorMatchesTable | openfasoc/generators/gdsfactory-gen/glayout/routing/smart_route.py:90-145 | on clean names the router carries out the terminal table |
| TwoTransistor.GeneratedName | openfasoc/generators/gdsfactory-gen/glayout/routing/smart_route.py:70-89 | a generated name parses to its terminal, is clean, and exchanges to its twin on any edge |
| TwoTransistor.GeneratedPairRoute | openfasoc/generators/gdsfactory-gen/glayout/routing/smart_route.py:90-145 | on two generated names of one cell the router carries out the terminal table |
| TwoTransistor.SiblingsOfGeneratedName | openfasoc/generators/gdsfactory-gen/glayout/routing/smart_route.py:57-65 | from a generated sample name the compensation visits exactly the six terminals of both devices on the route's side |
| TwoTransistor.CRouteOutcome | openfasoc/generators/gdsfactory-gen/glayout/routing/smart_route.py:121-137 | after a C-route decision the call succeeds exactly when all six sibling twins exist, then replaces each sibling from its twin and adds the six extensions; otherwise the first missing twin's `KeyError` escapes |
| TwoTransistorScenarios.SourcePair | openfasoc/generators/gdsfactory-gen/glayout/routing/smart_route.py:102-104 | A and B sources: a `met1` via stack on B's west twin, aligned (`r`, `c`), cell unchanged |
| TwoTransistorScenarios.SourcePairMissingTwin | openfasoc/generators/gdsfactory-gen/glayout/routing/smart_route.py:102-104 | A and B sources without B's west twin: `KeyError` on that key, cell unchanged |
| TwoTransistorScenarios.GatePair | openfasoc/generators/gdsfactory-gen/glayout/routing/smart_route.py:105-106 | A and B gates: a straight wire between the south twins with width `min(edge1.width, 1)` |
| TwoTransistorScenarios.GatePairReversed | openfasoc/generators/gdsfactory-gen/glayout/routing/smart_route.py:93-106 | B's gate given first: the names are reordered but the wire still runs from edge1's twin with edge1's width |
| TwoTransistorScenarios.SameGate | openfasoc/generators/gdsfactory-gen/glayout/routing/smart_route.py:96-99 | both ends on A's gate: the empty component, cell unchanged |
| TwoTransistorScenarios.DrainSourceAcross | openfasoc/generators/gdsfactory-gen/glayout/routing/smart_route.py:142-144 | A's drain with B's source: a via stack on the drain's east twin, aligned (`l`, `c`) |
| TwoTransistorScenarios.GateDrainOfA | openfasoc/generators/gdsfactory-gen/glayout/routing/smart_route.py:118-124 | A's gate with A's drain: a west C-route from the drain's twin to the gate's twin, via offset `(False, True)`, gate's width; all six west terminals then redrawn to the route's `con_N` |
| TwoTransistorScenarios.GateOfBSourceOfA | openfasoc/generators/gdsfactory-gen/glayout/routing/smart_route.py:134-137 | B's gate with A's source: an east C-route from the source's twin with via offset `(True, True)`, which succeeds exactly when the six east twins exist |
| FourTransistor.CommonCentroidRoute | openfasoc/generators/gdsfactory-gen/glayout/routing/smart_route.py:176-183 | the common-centroid router always raises `ValueError` and changes nothing |
| FourTransistor.PairOfGeneratedName | openfasoc/generators/gdsfactory-gen/glayout/routing/smart_route.py:160-168 | a generated name is accepted and belongs to the sub-pair named by the last segment of its prefix |
| FourTransistor.FourTransistorOnGeneratedNames | openfasoc/generators/gdsfactory-gen/glayout/routing/smart_route.py:166-172 | on generated names the adapter refuses exactly terminals of different sub-pairs, with the cell unchanged, and otherwise returns the two-transistor router's outcome |
| FourTransistor.FourTransistorRefusesRoleless | openfasoc/generators/gdsfactory-gen/glayout/routing/smart_route.py:154-170 | when either name does not end in a role segment followed only by edge letters and underscores, the pair is refused with `ValueError`, cell unchanged, whatever the other name |
| FourTransistor.FourTransistorValueErrorKeepsState | openfasoc/generators/gdsfactory-gen/glayout/routing/smart_route.py:166-172 | every `ValueError` of the adapter leaves the cell unchanged |
| SmartRoute.FallbackShape | openfasoc/generators/gdsfactory-gen/glayout/routing/smart_route.py:37-44 | the general route joins the two ports with the caller's arguments: straight exactly when parallel and inline, C when parallel only, L when not parallel |
| SmartRoute.NoValueErrorEscapes | openfasoc/generators/gdsfactory-gen/glayout/routing/smart_route.py:23-44 | no `ValueError` leaves the selector; it raises only for non-Manhattan ports (exactly then) or a `KeyError` |
| SmartRoute.UntaggedFallsBack | openfasoc/generators/gdsfactory-gen/glayout/routing/smart_route.py:25-26 | without both cells or without a tag the selector returns the general route and changes nothing |
| SmartRoute.UnknownTagFallsBack | openfasoc/generators/gdsfactory-gen/glayout/routing/smart_route.py:27-33 | an unrecognised tag returns the general route and changes nothing |
| SmartRoute.CommonCentroidFallsBack | openfasoc/generators/gdsfactory-gen/glayout/routing/smart_route.py:32-35 | the common-centroid tag always ends in the general route with the cell unchanged |
| SmartRoute.TwoTransistorTag | openfasoc/generators/gdsfactory-gen/glayout/routing/smart_route.py:28-35 | under the two-transistor tag the selector falls back, cell unchanged, exactly when a terminal is incomplete, and otherwise returns the router's outcome |
| SmartRoute.FourTransistorTagAcrossPairs | openfasoc/generators/gdsfactory-gen/glayout/routing/smart_route.py:30-35 | under the four-transistor tag, terminals of different sub-pairs fall back with the cell unchanged |
| Layout.Component.CompensateForCroutes | openfasoc/generators/gdsfactory-gen/glayout/routing/smart_route.py:53-68 | the nested `for dev / for pin` loop leaves the cell and returns the error that the functional loop prescribes |
| Layout.Component.CompensateKey | openfasoc/generators/gdsfactory-gen/glayout/routing/smart_route.py:64-68 | one `pin` iteration on the cell: a missing private twin raises its `KeyError` and changes nothing; otherwise one extension is added and the public port replaced by its renamed `route` port |
| Layout.Component.RouteTagged | openfasoc/generators/gdsfactory-gen/glayout/routing/smart_route.py:27-33 | dispatching on the tag runs the matching specialised router on the cell (common centroid raises `ValueError`), and an unknown tag changes nothing |
| Layout.Component.RouteTwoTransistor | openfasoc/generators/gdsfactory-gen/glayout/routing/smart_route.py:47-145 | parsing, ordering, deciding and compensating on the cell gives the two-transistor router's result and new state |
| Layout.Component.RouteFourTransistor | openfasoc/generators/gdsfactory-gen/glayout/routing/smart_route.py:148-172 | validating and delegating on the cell gives the adapter's result and new state |
| Layout.SmartRouteOn | openfasoc/generators/gdsfactory-gen/glayout/routing/smart_route.py:14-44 | the selector on cells gives the functional selector's result and new cell state for the tag read before the call; the cell's `info` is unchanged |

## Left out

- The geometry of the builders, the alignment of via stacks, and what `top_comp << route` places. Routes are opaque values. A reference insertion is an append to the cell's reference list.
- Failures inside foreign calls. `layer_to_glayer` and the `rt.ports[...]` lookups on built routes are total functions here. A `KeyError` from a missing `con_N` or `route_W` port is therefore not modelled.
- The exception type `assert_port_manhattan` raises. It is `NotManhattan`, raised before the specialised routers, as in the code.
- `warnings.warn` on fallback. It is a log side channel.
- Aliasing of port objects. Renaming the replacement port also renames the port object the extension route exposes. The model replaces the map entry with a renamed copy.
- `Component` versus `ComponentReference`, and `info` values that are not strings. `info` is a `map<string, string>`, and a present key stands for a non-`None` value.
- Float widths. They are `real`. Only `width > 1` and `width2` are used.
- `dynamic_load.py` is not part of this model. It does file I/O, module loading and source introspection, with no routing logic.
- TwoTransistor.DecideMatchesTable: the equality with the terminal table is proved only for clean names. For other names the code's raw-name tests (`"B" in edge1.name`, `"drain" in edge2.name`, ...) may pick the other edge. There `TwoTransistor.DecideShape` still fixes which pairs are refused, empty, or compensated.
- FourTransistor.FourTransistorOnGeneratedNames: acceptance is characterised on generated names. For arbitrary names only the role-word refusal of either name is stated, by `FourTransistor.FourTransistorRefusesRoleless`; the sub-pair comparison of arbitrary names is not characterised.
- SmartRoute.FourTransistorTagAcrossPairs: the fallback under the four-transistor tag is stated for generated names of different sub-pairs. Refusals of the delegated two-transistor router are covered by `SmartRoute.NoValueErrorEscapes`.
