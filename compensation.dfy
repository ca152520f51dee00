/**
 * `compensate_for_croutes`: after a C-route on one side of a two-transistor cell, every
 * public port of both devices on that side is redrawn as a straight extension from its
 * private twin to the C-route's outer port, and the public entry is replaced by the
 * extension's end port, renamed to the public key.
 */
module Compensation {
  import opened Wrappers
  import opened PyStr
  import opened PortNames
  import opened Routes

  const DEVICES: seq<string> := ["A_", "B_"]
  const PINS: seq<string> := ["source", "drain", "gate"]

  /** `"_W"` for the left (west) side, `"_E"` for the right. */
  function Direction(leftSide: bool): string {
    if leftSide then "_W" else "_E"
  }

  function PrivateKey(key: string): string {
    key + "_private"
  }

  /** The six public keys the nested loop visits, in its order (device outer, pin inner). */
  function SiblingKeys(base: string, direction: string): (keys: seq<string>)
    ensures |keys| == |DEVICES| * |PINS|
  {
    [base + "A_" + "source" + direction, base + "A_" + "drain" + direction, base + "A_" + "gate" + direction,
     base + "B_" + "source" + direction, base + "B_" + "drain" + direction, base + "B_" + "gate" + direction]
  }

  /** The key the nested loop builds for device `d` and pin `p` is entry `3 * d + p`. */
  lemma SiblingKeyAt(base: string, direction: string, d: nat, p: nat, i: nat)
    requires d < |DEVICES| && p < |PINS| && i == 3 * d + p
    ensures i < |SiblingKeys(base, direction)|
    ensures SiblingKeys(base, direction)[i] == base + DEVICES[d] + PINS[p] + direction
  {
  }

  /** The straight extension drawn from a private port to the C-route's outer port. */
  function Extension(env: Env, from: Port, extendTo: Port): Route {
    Straight(from, extendTo, None, Some(env.glayerOf(from.layer)), map[])
  }

  /** The extension's `"route_W"`/`"route_E"` port, renamed to the public key it replaces. */
  function Replacement(env: Env, from: Port, extendTo: Port, key: string, direction: string): (p: Port)
    ensures p.name == key
  {
    env.portOf(Extension(env, from, extendTo), "route" + direction).(name := key)
  }

  /** The state one successful loop step leaves. */
  function Step(env: Env, s: CellState, k: string, direction: string, extendTo: Port): CellState
    requires PrivateKey(k) in s.ports
  {
    var from := s.ports[PrivateKey(k)];
    CellState(s.ports[k := Replacement(env, from, extendTo, k, direction)], s.refs + [Extension(env, from, extendTo)])
  }

  /**
   * The loop of `compensate_for_croutes`, one key at a time on the current state: the
   * private twin is read, the extension added, the public key replaced; a missing
   * private twin raises `KeyError` with the work done so far left in place.
   */
  function Compensate(env: Env, s: CellState, keys: seq<string>, direction: string, extendTo: Port)
    : (r: (CellState, Option<Error>))
    ensures r.1.Some? ==> r.1.value.KeyError?
    decreases |keys|
  {
    if keys == [] then (s, None)
    else if PrivateKey(keys[0]) !in s.ports then (s, Some(KeyError(PrivateKey(keys[0]))))
    else Compensate(env, Step(env, s, keys[0], direction, extendTo), keys[1..], direction, extendTo)
  }

  /** The loop resumed at key `i`: one step, or the `KeyError` of a missing twin. */
  lemma CompensateAt(env: Env, s: CellState, keys: seq<string>, i: nat, direction: string, extendTo: Port)
    requires i < |keys|
    ensures Compensate(env, s, keys[i..], direction, extendTo)
         == if PrivateKey(keys[i]) !in s.ports then (s, Some(KeyError(PrivateKey(keys[i]))))
            else Compensate(env, Step(env, s, keys[i], direction, extendTo), keys[i + 1..], direction, extendTo)
  {
    assert keys[i..][0] == keys[i] && keys[i..][1..] == keys[i + 1..];
  }

  /**
   * A key handled as the loop body handles it (a `KeyError` with nothing changed when the
   * twin is missing, one step otherwise) ends the resumed loop or advances it by one key.
   */
  lemma CompensateAdvance(env: Env, s: CellState, s': CellState, e: Option<Error>, keys: seq<string>, i: nat,
                          direction: string, extendTo: Port)
    requires i < |keys|
    requires PrivateKey(keys[i]) !in s.ports ==> s' == s && e == Some(KeyError(PrivateKey(keys[i])))
    requires PrivateKey(keys[i]) in s.ports ==> s' == Step(env, s, keys[i], direction, extendTo) && e == None
    ensures e.Some? ==> (s', e) == Compensate(env, s, keys[i..], direction, extendTo)
    ensures e.None? ==> Compensate(env, s', keys[i + 1..], direction, extendTo) == Compensate(env, s, keys[i..], direction, extendTo)
  {
    CompensateAt(env, s, keys, i, direction, extendTo);
  }

  // ---------------------------------------------------------------- closed form

  /** Public keys end in an edge letter, so none of them is any key's private twin. */
  predicate EdgeKeys(keys: seq<string>) {
    forall i :: 0 <= i < |keys| ==> keys[i] != [] && keys[i][|keys[i]| - 1] in {'W', 'E'}
  }

  /** All of `keys` have their private twin in `ports`. */
  predicate TwinsPresent(ports: map<string, Port>, keys: seq<string>) {
    forall i :: 0 <= i < |keys| ==> PrivateKey(keys[i]) in ports
  }

  /** How many leading keys have their private twin: the loop's progress before a `KeyError`. */
  function FirstMissing(ports: map<string, Port>, keys: seq<string>): (n: nat)
    ensures n <= |keys| && TwinsPresent(ports, keys[..n])
    ensures n < |keys| ==> PrivateKey(keys[n]) !in ports
    decreases |keys|
  {
    if keys == [] || PrivateKey(keys[0]) !in ports then 0
    else 1 + FirstMissing(ports, keys[1..])
  }

  /** The public entries written for `keys`, each from its private twin in `ports`. */
  function Replaced(env: Env, ports: map<string, Port>, keys: seq<string>, direction: string, extendTo: Port)
    : map<string, Port>
    requires TwinsPresent(ports, keys)
  {
    map k | k in keys :: Replacement(env, ports[PrivateKey(k)], extendTo, k, direction)
  }

  /** The extensions drawn for `keys`, in order. */
  function Extensions(env: Env, ports: map<string, Port>, keys: seq<string>, extendTo: Port): (rs: seq<Route>)
    requires TwinsPresent(ports, keys)
    ensures |rs| == |keys|
    ensures forall i :: 0 <= i < |keys| ==> rs[i] == Extension(env, ports[PrivateKey(keys[i])], extendTo)
    decreases |keys|
  {
    if keys == [] then []
    else [Extension(env, ports[PrivateKey(keys[0])], extendTo)] + Extensions(env, ports, keys[1..], extendTo)
  }

  lemma SiblingKeysAreEdgeKeys(base: string, leftSide: bool)
    ensures EdgeKeys(SiblingKeys(base, Direction(leftSide)))
  {
  }

  /** Writing a public key never changes which private twins are present. */
  lemma {:induction false} FirstMissingIgnoresEdgeKey(ports: map<string, Port>, keys: seq<string>, k: string, v: Port)
    requires k != [] && k[|k| - 1] in {'W', 'E'}
    ensures FirstMissing(ports[k := v], keys) == FirstMissing(ports, keys)
    decreases |keys|
  {
    if keys != [] {
      var pk := PrivateKey(keys[0]);
      assert pk[|pk| - 1] == 'e';
      FirstMissingIgnoresEdgeKey(ports, keys[1..], k, v);
    }
  }

  /** Writing a public key leaves every private twin, hence every replacement and extension, as it was. */
  lemma WriteKeepsTwins(env: Env, ports: map<string, Port>, keys: seq<string>, direction: string, extendTo: Port, k: string, v: Port)
    requires k != [] && k[|k| - 1] in {'W', 'E'} && TwinsPresent(ports, keys)
    ensures TwinsPresent(ports[k := v], keys)
    ensures Replaced(env, ports[k := v], keys, direction, extendTo) == Replaced(env, ports, keys, direction, extendTo)
    ensures Extensions(env, ports[k := v], keys, extendTo) == Extensions(env, ports, keys, extendTo)
  {
    forall i | 0 <= i < |keys| ensures ports[k := v][PrivateKey(keys[i])] == ports[PrivateKey(keys[i])] {
      var pk := PrivateKey(keys[i]);
      assert pk[|pk| - 1] == 'e';
    }
  }

  /** The first `n` keys are the head followed by the first `n - 1` keys of the tail. */
  lemma SliceCons(keys: seq<string>, n: nat)
    requires 1 <= n <= |keys|
    ensures keys[..n] == [keys[0]] + keys[1..][..n - 1]
  {
  }

  lemma TwinsPresentTail(ports: map<string, Port>, k: string, rest: seq<string>)
    requires TwinsPresent(ports, [k] + rest)
    ensures PrivateKey(k) in ports && TwinsPresent(ports, rest)
  {
    assert ([k] + rest)[0] == k;
    forall i | 0 <= i < |rest| ensures PrivateKey(rest[i]) in ports {
      assert ([k] + rest)[i + 1] == rest[i];
    }
  }

  /** One loop step in closed form: the first key's replacement followed by the rest's. */
  lemma ReplacedCons(env: Env, ports: map<string, Port>, k: string, rest: seq<string>, direction: string, extendTo: Port)
    requires PrivateKey(k) in ports && TwinsPresent(ports, rest)
    ensures TwinsPresent(ports, [k] + rest)
    ensures ports[k := Replacement(env, ports[PrivateKey(k)], extendTo, k, direction)] + Replaced(env, ports, rest, direction, extendTo)
         == ports + Replaced(env, ports, [k] + rest, direction, extendTo)
  {
    var keys := [k] + rest;
    assert forall i :: 0 < i < |keys| ==> keys[i] == rest[i - 1];
    var vk := Replacement(env, ports[PrivateKey(k)], extendTo, k, direction);
    var whole := Replaced(env, ports, keys, direction, extendTo);
    var tail := Replaced(env, ports, rest, direction, extendTo);
    assert whole == tail[k := vk];
    var m1 := ports[k := vk] + tail;
    var m2 := ports + whole;
    assert m1.Keys == m2.Keys;
    forall x | x in m1.Keys ensures m1[x] == m2[x] {
    }
  }

  lemma ExtensionsCons(env: Env, ports: map<string, Port>, k: string, rest: seq<string>, extendTo: Port)
    requires PrivateKey(k) in ports && TwinsPresent(ports, rest)
    ensures TwinsPresent(ports, [k] + rest)
    ensures [Extension(env, ports[PrivateKey(k)], extendTo)] + Extensions(env, ports, rest, extendTo)
         == Extensions(env, ports, [k] + rest, extendTo)
  {
    assert ([k] + rest)[1..] == rest;
  }

  /** A step over an edge key leaves every later key's progress as it was. */
  lemma StepUnfold(env: Env, s: CellState, keys: seq<string>, direction: string, extendTo: Port)
    requires EdgeKeys(keys) && keys != [] && PrivateKey(keys[0]) in s.ports
    ensures EdgeKeys(keys[1..])
    ensures Compensate(env, s, keys, direction, extendTo) == Compensate(env, Step(env, s, keys[0], direction, extendTo), keys[1..], direction, extendTo)
    ensures FirstMissing(s.ports, keys) == 1 + FirstMissing(Step(env, s, keys[0], direction, extendTo).ports, keys[1..])
  {
    var rest := keys[1..];
    forall i | 0 <= i < |rest| ensures rest[i] != [] && rest[i][|rest[i]| - 1] in {'W', 'E'} {
      assert rest[i] == keys[i + 1];
    }
    FirstMissingIgnoresEdgeKey(s.ports, rest, keys[0], Step(env, s, keys[0], direction, extendTo).ports[keys[0]]);
  }

  /**
   * The loop's error in closed form: a `KeyError` names the first key whose private twin is
   * missing, if any.
   */
  lemma {:induction false} CompensateErrorForm(env: Env, s: CellState, keys: seq<string>, direction: string, extendTo: Port)
    requires EdgeKeys(keys)
    ensures var n := FirstMissing(s.ports, keys);
      Compensate(env, s, keys, direction, extendTo).1 == (if n < |keys| then Some(KeyError(PrivateKey(keys[n]))) else None)
    decreases |keys|
  {
    if keys != [] && PrivateKey(keys[0]) in s.ports {
      StepUnfold(env, s, keys, direction, extendTo);
      CompensateErrorForm(env, Step(env, s, keys[0], direction, extendTo), keys[1..], direction, extendTo);
    }
  }

  /** The routes the loop adds: the extensions of the first `n` keys, in order. */
  lemma {:induction false} CompensateRefsForm(env: Env, s: CellState, keys: seq<string>, direction: string, extendTo: Port)
    requires EdgeKeys(keys)
    ensures var n := FirstMissing(s.ports, keys);
      Compensate(env, s, keys, direction, extendTo).0.refs == s.refs + Extensions(env, s.ports, keys[..n], extendTo)
    decreases |keys|
  {
    var n := FirstMissing(s.ports, keys);
    if keys == [] || PrivateKey(keys[0]) !in s.ports {
      assert keys[..n] == [];
    } else {
      var k := keys[0];
      var s1 := Step(env, s, k, direction, extendTo);
      StepUnfold(env, s, keys, direction, extendTo);
      CompensateRefsForm(env, s1, keys[1..], direction, extendTo);
      var done := keys[1..][..n - 1];
      SliceCons(keys, n);
      TwinsPresentTail(s.ports, k, done);
      ExtensionsCons(env, s.ports, k, done, extendTo);
      WriteKeepsTwins(env, s.ports, done, direction, extendTo, k, s1.ports[k]);
    }
  }

  /**
   * The ports the loop leaves: the first `n` public entries are replaced from their ORIGINAL
   * private twins (no write of the loop disturbs a later read), and nothing else changes.
   */
  lemma {:induction false} CompensatePortsForm(env: Env, s: CellState, keys: seq<string>, direction: string, extendTo: Port)
    requires EdgeKeys(keys)
    ensures var n := FirstMissing(s.ports, keys);
      Compensate(env, s, keys, direction, extendTo).0.ports == s.ports + Replaced(env, s.ports, keys[..n], direction, extendTo)
    decreases |keys|
  {
    var n := FirstMissing(s.ports, keys);
    if keys == [] || PrivateKey(keys[0]) !in s.ports {
      assert keys[..n] == [];
      assert s.ports + map[] == s.ports;
    } else {
      var k := keys[0];
      var s1 := Step(env, s, k, direction, extendTo);
      StepUnfold(env, s, keys, direction, extendTo);
      CompensatePortsForm(env, s1, keys[1..], direction, extendTo);
      var done := keys[1..][..n - 1];
      SliceCons(keys, n);
      TwinsPresentTail(s.ports, k, done);
      var vk := Replacement(env, s.ports[PrivateKey(k)], extendTo, k, direction);
      assert s1.ports == s.ports[k := vk];
      WriteKeepsTwins(env, s.ports, done, direction, extendTo, k, vk);
      ReplacedCons(env, s.ports, k, done, direction, extendTo);
      calc {
        Compensate(env, s, keys, direction, extendTo).0.ports;
        Compensate(env, s1, keys[1..], direction, extendTo).0.ports;
        s1.ports + Replaced(env, s1.ports, done, direction, extendTo);
        s.ports[k := vk] + Replaced(env, s.ports, done, direction, extendTo);
        s.ports + Replaced(env, s.ports, keys[..n], direction, extendTo);
      }
    }
  }

  /** The loop in closed form: all three parts of its outcome together. */
  lemma CompensateClosedForm(env: Env, s: CellState, keys: seq<string>, direction: string, extendTo: Port)
    requires EdgeKeys(keys)
    ensures var n := FirstMissing(s.ports, keys);
      && Compensate(env, s, keys, direction, extendTo).0.ports == s.ports + Replaced(env, s.ports, keys[..n], direction, extendTo)
      && Compensate(env, s, keys, direction, extendTo).0.refs == s.refs + Extensions(env, s.ports, keys[..n], extendTo)
      && Compensate(env, s, keys, direction, extendTo).1 ==
           (if n < |keys| then Some(KeyError(PrivateKey(keys[n]))) else None)
  {
    CompensatePortsForm(env, s, keys, direction, extendTo);
    CompensateRefsForm(env, s, keys, direction, extendTo);
    CompensateErrorForm(env, s, keys, direction, extendTo);
  }

  /** Compensation ends without a `KeyError` exactly when every key's private twin exists. */
  lemma CompensateSucceedsIff(env: Env, s: CellState, keys: seq<string>, direction: string, extendTo: Port)
    requires EdgeKeys(keys)
    ensures Compensate(env, s, keys, direction, extendTo).1 == None <==> TwinsPresent(s.ports, keys)
  {
    CompensateClosedForm(env, s, keys, direction, extendTo);
    var n := FirstMissing(s.ports, keys);
    if n == |keys| {
      assert keys[..n] == keys;
    }
  }

  /**
   * The loop's outcome in full: no error exactly when every twin exists, otherwise the
   * `KeyError` of the first missing twin; on success every key replaced and every extension added.
   */
  lemma CompensateOutcome(env: Env, s: CellState, keys: seq<string>, direction: string, extendTo: Port)
    requires EdgeKeys(keys)
    ensures var (s', err) := Compensate(env, s, keys, direction, extendTo);
      && (err == None <==> TwinsPresent(s.ports, keys))
      && (err.Some? ==> FirstMissing(s.ports, keys) < |keys| && err.value == KeyError(PrivateKey(keys[FirstMissing(s.ports, keys)])))
      && (TwinsPresent(s.ports, keys) ==>
            && s'.ports == s.ports + Replaced(env, s.ports, keys, direction, extendTo)
            && s'.refs == s.refs + Extensions(env, s.ports, keys, extendTo))
  {
    CompensateClosedForm(env, s, keys, direction, extendTo);
    CompensateSucceedsIff(env, s, keys, direction, extendTo);
    if TwinsPresent(s.ports, keys) {
      assert keys[..FirstMissing(s.ports, keys)] == keys;
    }
  }

  /** Ports other than the visited public keys keep their entries (or their absence). */
  lemma CompensateKeepsOtherPorts(env: Env, s: CellState, keys: seq<string>, direction: string, extendTo: Port, k: string)
    requires EdgeKeys(keys) && k !in keys
    ensures var ports := Compensate(env, s, keys, direction, extendTo).0.ports;
      && (k in ports <==> k in s.ports)
      && (k in s.ports ==> ports[k] == s.ports[k])
  {
    CompensateClosedForm(env, s, keys, direction, extendTo);
    var n := FirstMissing(s.ports, keys);
    assert k !in keys[..n];
  }

  /** On success every visited public key holds the renamed end port of its extension, fed from its private twin. */
  lemma CompensateReplacesAll(env: Env, s: CellState, keys: seq<string>, direction: string, extendTo: Port)
    requires EdgeKeys(keys) && TwinsPresent(s.ports, keys)
    ensures var (s', err) := Compensate(env, s, keys, direction, extendTo);
      && err == None
      && s'.refs == s.refs + Extensions(env, s.ports, keys, extendTo)
      && forall i :: 0 <= i < |keys| ==>
           && keys[i] in s'.ports && s'.ports[keys[i]].name == keys[i]
           && s'.ports[keys[i]] == Replacement(env, s.ports[PrivateKey(keys[i])], extendTo, keys[i], direction)
  {
    CompensateClosedForm(env, s, keys, direction, extendTo);
    CompensateSucceedsIff(env, s, keys, direction, extendTo);
    var n := FirstMissing(s.ports, keys);
    assert n == |keys|;
    assert keys[..n] == keys;
  }
}
