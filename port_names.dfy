/**
 * The terminal-name grammar of the interdigitized layouts: a port name such as
 * `"tail_A_source_W"` carries a cell prefix, a device group (`A`/`B`), an electrical role
 * (`source`/`drain`/`gate`) and a facing edge (`N`/`E`/`S`/`W`), all joined by `_`.
 * Private twin ports carry an extra `_private` suffix.
 */
module PortNames {
  import opened PyStr

  const EDGES: set<char> := {'N', 'E', 'S', 'W'}
  const EDGES_AND_UNDERSCORE: set<char> := {'N', 'E', 'S', 'W', '_'}
  const GROUP_TAGS: set<string> := {"A", "B"}
  const PIN_TAGS: set<string> := {"source", "drain", "gate"}

  datatype Group = NoGroup | GroupA | GroupB
  datatype Role = NoRole | Source | Drain | Gate

  /** What a port name says about the device terminal it belongs to. */
  datatype Terminal = Terminal(group: Group, role: Role)

  function GroupText(g: Group): string {
    match g
    case NoGroup => ""
    case GroupA => "A"
    case GroupB => "B"
  }

  function RoleText(r: Role): string {
    match r
    case NoRole => ""
    case Source => "source"
    case Drain => "drain"
    case Gate => "gate"
  }

  function GroupOfTag(tag: string): Group {
    if tag == "A" then GroupA else if tag == "B" then GroupB else NoGroup
  }

  function RoleOfTag(tag: string): Role {
    if tag == "source" then Source else if tag == "drain" then Drain
    else if tag == "gate" then Gate else NoRole
  }

  /** Both a device group and a role are present. */
  predicate Complete(t: Terminal) {
    t.group != NoGroup && t.role != NoRole
  }

  // ---------------------------------------------------------------- parse_port_name

  /**
   * The last of `parts` that is one of `choices`, or `""` when none is: the value a
   * left-to-right scan keeps when every match overwrites the previous one.
   */
  function LastMatch(parts: seq<string>, choices: set<string>): (r: string)
    requires "" !in choices
    ensures r == "" || r in choices
    decreases |parts|
  {
    if parts == [] then ""
    else if parts[|parts| - 1] in choices then parts[|parts| - 1]
    else LastMatch(parts[..|parts| - 1], choices)
  }

  /** The kept tag is empty exactly when no part matches, and otherwise it is a match with no match after it. */
  lemma {:induction false} LastMatchIsLast(parts: seq<string>, choices: set<string>)
    requires "" !in choices
    ensures var r := LastMatch(parts, choices);
      && (r == "" <==> forall j :: 0 <= j < |parts| ==> parts[j] !in choices)
      && (r != "" ==> exists i :: 0 <= i < |parts| && parts[i] == r &&
                        forall j :: i < j < |parts| ==> parts[j] !in choices)
    decreases |parts|
  {
    if parts != [] && parts[|parts| - 1] !in choices {
      var init := parts[..|parts| - 1];
      LastMatchIsLast(init, choices);
      assert forall j :: 0 <= j < |init| ==> init[j] == parts[j];
    }
  }

  /** The group tag `parse_port_name` keeps: `""`, `"A"` or `"B"`. */
  function GroupTag(pname: string): string {
    LastMatch(Split(pname, '_'), GROUP_TAGS)
  }

  /** The role tag `parse_port_name` keeps: `""`, `"source"`, `"drain"` or `"gate"`. */
  function PinTag(pname: string): string {
    LastMatch(Split(pname, '_'), PIN_TAGS)
  }

  /** The `"<group>_<role>"` text `parse_port_name` returns. */
  function ParsedName(pname: string): string {
    GroupTag(pname) + "_" + PinTag(pname)
  }

  function TerminalOf(pname: string): Terminal {
    Terminal(GroupOfTag(GroupTag(pname)), RoleOfTag(PinTag(pname)))
  }

  /** `parse_port_name`: scan the `_`-segments left to right, remembering the last group tag and the last role tag seen. */
  method ParsePortName(pname: string) returns (name: string)
    ensures name == ParsedName(pname)
    ensures name == GroupText(TerminalOf(pname).group) + "_" + RoleText(TerminalOf(pname).role)
  {
    var comp := "";
    var pin := "";
    var parts := Split(pname, '_');
    for i := 0 to |parts|
      invariant comp == LastMatch(parts[..i], GROUP_TAGS)
      invariant pin == LastMatch(parts[..i], PIN_TAGS)
    {
      var part := parts[i];
      assert parts[..i + 1] == parts[..i] + [part];
      LastMatchAppend(parts[..i], part, GROUP_TAGS);
      LastMatchAppend(parts[..i], part, PIN_TAGS);
      TagSetMembers(part);
      if part == "A" || part == "B" {
        comp := part;
      }
      if part == "source" || part == "drain" || part == "gate" {
        pin := part;
      }
    }
    assert parts[..|parts|] == parts;
    name := comp + "_" + pin;
    TagTexts(comp, pin);
  }

  /** A kept group tag and role tag are the texts of the group and role they name. */
  lemma TagTexts(comp: string, pin: string)
    requires comp == "" || comp in GROUP_TAGS
    requires pin == "" || pin in PIN_TAGS
    ensures GroupText(GroupOfTag(comp)) == comp && RoleText(RoleOfTag(pin)) == pin
  {
  }

  // ---------------------------------------------------------------- the other name helpers

  /** `exchange_ports`' key: the same terminal on another edge, private twin. */
  function ExchangeKey(name: string, direction: string): (key: string)
    ensures EndsWith(key, "_private")
  {
    var key := RStrip(name, EDGES) + direction + "_private";
    assert key[|key| - |"_private"|..] == "_private";
    key
  }

  /** The pin-family prefix `compensate_for_croutes` derives from a sample port's name. */
  function BaseName(name: string): string {
    var s := RStrip(RStrip(name, EDGES), {'_'});
    var s := RStrip(RemoveSuffix(RemoveSuffix(RemoveSuffix(s, "source"), "drain"), "gate"), {'_'});
    RemoveSuffix(RemoveSuffix(s, "A"), "B")
  }

  /**
   * The role word of `role` starts at index `i` of `pname`, at the start of the name or
   * right after an `_`, and only edge letters and underscores follow it.
   */
  predicate RoleWordAt(pname: string, role: Role, i: nat) {
    var w := RoleText(role);
    && i + |w| <= |pname| && pname[i..i + |w|] == w
    && (i == 0 || pname[i - 1] == '_')
    && forall k :: i + |w| <= k < |pname| ==> pname[k] in EDGES_AND_UNDERSCORE
  }

  /** The name ends in a whole role segment, followed by nothing but edge letters and underscores. */
  ghost predicate EndsInRoleWord(pname: string) {
    exists role: Role, i: nat :: role != NoRole && RoleWordAt(pname, role, i)
  }

  /** `check_port`: true when the name does NOT end in a role segment (so the port is refused). */
  function CheckPort(pname: string): (refused: bool)
    ensures !refused <==> EndsInRoleWord(pname)
  {
    var pin := LastSegment(RStrip(pname, EDGES_AND_UNDERSCORE), '_');
    TagSetMembers(pin);
    RoleSegmentIff(pname);
    !(pin == "source" || pin == "gate" || pin == "drain")
  }

  /** The last segment left after stripping edge letters and underscores is a role word exactly when the name ends in one. */
  lemma RoleSegmentIff(pname: string)
    ensures LastSegment(RStrip(pname, EDGES_AND_UNDERSCORE), '_') in PIN_TAGS <==> EndsInRoleWord(pname)
  {
    var w := LastSegment(RStrip(pname, EDGES_AND_UNDERSCORE), '_');
    TagSetMembers(w);
    if w in PIN_TAGS {
      RoleSegmentFound(pname, RoleOfTag(w));
    }
    if EndsInRoleWord(pname) {
      var role: Role, i: nat :| role != NoRole && RoleWordAt(pname, role, i);
      RoleSegmentAt(pname, role, i);
    }
  }

  /** A role word kept as the last segment marks where the role segment of the name starts. */
  lemma RoleSegmentFound(pname: string, role: Role)
    requires role != NoRole && LastSegment(RStrip(pname, EDGES_AND_UNDERSCORE), '_') == RoleText(role)
    ensures EndsInRoleWord(pname)
  {
    var r := RStrip(pname, EDGES_AND_UNDERSCORE);
    var w := RoleText(role);
    LastSegmentSuffix(r, '_');
    var i := |r| - |w|;
    assert i + |w| == |r| <= |pname|;
    assert pname[i..i + |w|] == r[i..] == w;
    assert i > 0 ==> pname[i - 1] == r[i - 1] == '_';
    assert forall k :: i + |w| <= k < |pname| ==> pname[k] in EDGES_AND_UNDERSCORE;
    assert RoleWordAt(pname, role, i);
  }

  lemma RoleSegmentAt(pname: string, role: Role, i: nat)
    requires role != NoRole && RoleWordAt(pname, role, i)
    ensures LastSegment(RStrip(pname, EDGES_AND_UNDERSCORE), '_') == RoleText(role)
  {
    StripToRoleWord(pname, role, i);
    var h := pname[..i];
    assert h == [] || h[|h| - 1] == pname[i - 1] == '_';
    RoleTextNoUnderscore(role);
    LastSegmentAfterUnderscore(h, RoleText(role));
  }

  lemma RoleTextNoUnderscore(role: Role)
    ensures '_' !in RoleText(role)
  {
  }

  /** Stripping edge letters and underscores stops at the end of a role word. */
  lemma StripToRoleWord(pname: string, role: Role, i: nat)
    requires role != NoRole && RoleWordAt(pname, role, i)
    ensures RStrip(pname, EDGES_AND_UNDERSCORE) == pname[..i] + RoleText(role)
  {
    var w := RoleText(role);
    var tail := pname[i + |w|..];
    assert pname == pname[..i] + w + tail;
    StripRoleThenTail(pname[..i], role, tail);
  }

  lemma StripRoleThenTail(h: string, role: Role, tail: string)
    requires role != NoRole && forall k :: 0 <= k < |tail| ==> tail[k] in EDGES_AND_UNDERSCORE
    ensures RStrip(h + RoleText(role) + tail, EDGES_AND_UNDERSCORE) == h + RoleText(role)
  {
    RStripTail(h + RoleText(role), tail, EDGES_AND_UNDERSCORE);
    RoleEndsNotStripped();
    RoleTail(h, role, EDGES_AND_UNDERSCORE);
  }

  /** A segment free of `_` that starts the text or follows an `_` is the text's last segment. */
  lemma LastSegmentAfterUnderscore(h: string, w: string)
    requires h == [] || h[|h| - 1] == '_'
    requires '_' !in w
    ensures LastSegment(h + w, '_') == w
  {
    if h == [] {
      assert h + w == w;
      SplitWithoutSeparator(w, '_');
    } else {
      assert h + w == h[..|h| - 1] + ['_'] + w;
      LastSegmentAppend(h[..|h| - 1], '_', w);
    }
  }

  /** `strip_portname`: the name without edge, role and group suffixes. */
  function StripPortName(pname: string): string {
    var s := RStrip(pname, EDGES_AND_UNDERSCORE);
    var s := RemoveSuffix(RemoveSuffix(RemoveSuffix(s, "source"), "drain"), "gate");
    RStrip(RemoveSuffix(RemoveSuffix(RStrip(s, {'_'}), "A"), "B"), {'_'})
  }

  // ---------------------------------------------------------------- well-formed names

  /** The name the layout generators give a device terminal: `prefix + "A_source_W"`. */
  function PortName(prefix: string, t: Terminal, edge: char): string {
    prefix + GroupText(t.group) + "_" + RoleText(t.role) + "_" + [edge]
  }

  /** A cell prefix is empty or ends in `_`. */
  predicate ValidPrefix(prefix: string) {
    prefix == [] || prefix[|prefix| - 1] == '_'
  }

  /** A prefix that mentions no group letter and no source or drain role word. */
  predicate NeutralPrefix(prefix: string) {
    'A' !in prefix && 'B' !in prefix && !Contains(prefix, "source") && !Contains(prefix, "drain")
  }

  /**
   * A port name whose raw text mentions a group letter or the source/drain role word only
   * where its parsed terminal does: the raw-name tests of the two-transistor router then
   * agree with the parsed roles.
   */
  predicate Clean(pname: string) {
    var t := TerminalOf(pname);
    && (Contains(pname, "A") <==> t.group == GroupA)
    && (Contains(pname, "B") <==> t.group == GroupB)
    && (Contains(pname, "source") <==> t.role == Source)
    && (Contains(pname, "drain") <==> t.role == Drain)
  }

  // ---------------------------------------------------------------- lemmas

  /**
   * On a parsed name `"<group>_<role>"` the router's substring tests are exact:
   * `"A" in name` holds iff the group is A, `"gate" in name` iff the role is gate, and so on.
   */
  lemma ParsedNameContains(pname: string)
    ensures var n, t := ParsedName(pname), TerminalOf(pname);
      && (Contains(n, "A") <==> t.group == GroupA)
      && (Contains(n, "B") <==> t.group == GroupB)
      && (Contains(n, "source") <==> t.role == Source)
      && (Contains(n, "drain") <==> t.role == Drain)
      && (Contains(n, "gate") <==> t.role == Gate)
  {
    var t := TerminalOf(pname);
    TerminalTextContains(t.group, t.role);
  }

  lemma TerminalTextContains(group: Group, role: Role)
    ensures var n := GroupText(group) + "_" + RoleText(role);
      && (Contains(n, "A") <==> group == GroupA)
      && (Contains(n, "B") <==> group == GroupB)
      && (Contains(n, "source") <==> role == Source)
      && (Contains(n, "drain") <==> role == Drain)
      && (Contains(n, "gate") <==> role == Gate)
  {
    var g, r := GroupText(group), RoleText(role);
    var n := g + "_" + r;
    assert 'A' !in r && 'B' !in r && 'A' !in "_" && 'B' !in "_";
    ContainsChar(n, 'A');
    ContainsChar(n, 'B');
    assert n == g + "_" + r + "";
    ContainsWitness(g + "_", r, "");
    RoleWordAbsent(g, role, Source, "source", 's');
    RoleWordAbsent(g, role, Drain, "drain", 'd');
    RoleWordAbsent(g, role, Gate, "gate", 'g');
  }

  lemma RoleWordAbsent(g: string, role: Role, other: Role, word: string, first: char)
    requires g == "" || g == "A" || g == "B"
    requires word == RoleText(other) && other != NoRole && first == word[0]
    requires first == 's' || first == 'd' || first == 'g'
    ensures role != other ==> !Contains(g + "_" + RoleText(role), word)
  {
    if role != other {
      var n := g + "_" + RoleText(role);
      assert first !in RoleText(role);
      assert first !in g + "_";
      NotContainsMissingChar(n, word, 0);
    }
  }

  lemma {:induction false} SplitWithoutSeparator(s: string, sep: char)
    requires sep !in s
    ensures Split(s, sep) == [s]
    decreases |s|
  {
    if s != [] {
      SplitWithoutSeparator(s[..|s| - 1], sep);
      assert s[..|s| - 1] + [s[|s| - 1]] == s;
    }
  }

  /** Membership in the tag sets as the equality tests `parse_port_name` and `check_port` write. */
  lemma TagSetMembers(x: string)
    ensures x in GROUP_TAGS <==> x == "A" || x == "B"
    ensures x in PIN_TAGS <==> x == "source" || x == "drain" || x == "gate"
  {
  }

  lemma LastMatchAppend(parts: seq<string>, x: string, choices: set<string>)
    requires "" !in choices
    ensures LastMatch(parts + [x], choices) == if x in choices then x else LastMatch(parts, choices)
  {
    assert (parts + [x])[..|parts|] == parts;
  }

  /** The `_`-segments of a valid prefix, without the empty one after its final `_`. */
  function PrefixSegments(prefix: string): seq<string> {
    if prefix == [] then [] else Split(prefix[..|prefix| - 1], '_')
  }

  /** The segments of a well-formed port name end with its group, role and edge segments. */
  lemma SplitPortName(prefix: string, t: Terminal, edge: char)
    requires ValidPrefix(prefix) && edge in EDGES
    ensures Split(PortName(prefix, t, edge), '_') ==
      PrefixSegments(prefix) + [GroupText(t.group), RoleText(t.role), [edge]]
  {
    var g, r := GroupText(t.group), RoleText(t.role);
    PortNameShape(prefix, g, r, edge);
    SplitOfTwoMore(prefix + g, r, [edge]);
    SplitPrefixGroup(prefix, g);
    ThreeMore(PrefixSegments(prefix), g, r, [edge]);
  }

  /** Two more `_`-separated segments free of `_` add two parts. */
  lemma SplitOfTwoMore(head: string, r: string, e: string)
    requires '_' !in r && '_' !in e
    ensures Split(head + ['_'] + r + ['_'] + e, '_') == Split(head, '_') + [r, e]
  {
    SplitAppend(head + ['_'] + r, '_', e);
    SplitAppend(head, '_', r);
    assert Split(head, '_') + [r] + [e] == Split(head, '_') + [r, e];
  }

  /** Regrouping the last three segments of a name. */
  lemma ThreeMore(front: seq<string>, g: string, r: string, e: string)
    ensures (front + [g]) + [r, e] == front + [g, r, e]
  {
  }

  /** A port name written with its two `_` separators as single characters, as `Split` consumes them. */
  lemma PortNameShape(prefix: string, g: string, r: string, edge: char)
    ensures prefix + g + "_" + r + "_" + [edge] == (prefix + g + ['_'] + r) + ['_'] + [edge]
  {
  }

  /** A valid prefix followed by a group tag splits into the prefix's segments and the tag. */
  lemma SplitPrefixGroup(prefix: string, g: string)
    requires ValidPrefix(prefix) && '_' !in g
    ensures Split(prefix + g, '_') == PrefixSegments(prefix) + [g]
  {
    if prefix == [] {
      assert prefix + g == g;
      SplitWithoutSeparator(g, '_');
    } else {
      var body := prefix[..|prefix| - 1];
      assert prefix + g == body + ['_'] + g;
      SplitAppend(body, '_', g);
    }
  }

  /** An edge letter on its own is neither a group tag nor a role tag. */
  lemma EdgeIsNoTag(edge: char)
    requires edge in EDGES
    ensures [edge] !in GROUP_TAGS && [edge] !in PIN_TAGS
  {
  }

  /** The last match among `front` and three more segments, the final one no match. */
  lemma LastMatchOfThree(front: seq<string>, g: string, r: string, e: string, choices: set<string>)
    requires "" !in choices && e !in choices
    ensures LastMatch(front + [g, r, e], choices)
         == if r in choices then r else if g in choices then g else LastMatch(front, choices)
  {
    assert front + [g, r, e] == front + [g] + [r] + [e];
    LastMatchAppend(front + [g] + [r], e, choices);
    LastMatchAppend(front + [g], r, choices);
    LastMatchAppend(front, g, choices);
  }

  lemma GroupTagOfPortName(prefix: string, t: Terminal, edge: char)
    requires ValidPrefix(prefix) && Complete(t) && edge in EDGES
    ensures GroupTag(PortName(prefix, t, edge)) == GroupText(t.group)
  {
    var g, r := GroupText(t.group), RoleText(t.role);
    SplitPortName(prefix, t, edge);
    EdgeIsNoTag(edge);
    assert r !in GROUP_TAGS && g in GROUP_TAGS;
    LastMatchOfThree(PrefixSegments(prefix), g, r, [edge], GROUP_TAGS);
  }

  lemma PinTagOfPortName(prefix: string, t: Terminal, edge: char)
    requires ValidPrefix(prefix) && Complete(t) && edge in EDGES
    ensures PinTag(PortName(prefix, t, edge)) == RoleText(t.role)
  {
    var g, r := GroupText(t.group), RoleText(t.role);
    SplitPortName(prefix, t, edge);
    EdgeIsNoTag(edge);
    assert r in PIN_TAGS;
    LastMatchOfThree(PrefixSegments(prefix), g, r, [edge], PIN_TAGS);
  }

  /** Parsing a well-formed port name recovers its group and role, whatever the prefix says. */
  lemma TerminalOfPortName(prefix: string, t: Terminal, edge: char)
    requires ValidPrefix(prefix) && Complete(t) && edge in EDGES
    ensures TerminalOf(PortName(prefix, t, edge)) == t
  {
    GroupTagOfPortName(prefix, t, edge);
    PinTagOfPortName(prefix, t, edge);
  }

  /** `exchange_ports` on a well-formed name looks up the private twin of the same terminal on edge `dir`. */
  lemma ExchangeKeyOfPortName(prefix: string, t: Terminal, edge: char, dir: char)
    requires edge in EDGES
    ensures ExchangeKey(PortName(prefix, t, edge), [dir]) == PortName(prefix, t, dir) + "_private"
  {
    var x := prefix + GroupText(t.group) + "_" + RoleText(t.role) + "_";
    assert PortName(prefix, t, edge) == x + [edge];
    RStripTail(x, [edge], EDGES);
    assert RStrip(x, EDGES) == x;
  }

  /** The last letters of the role words, `e` and `n`, are neither edge letters nor underscores. */
  lemma RoleEndsNotStripped()
    ensures 'e' !in EDGES_AND_UNDERSCORE && 'n' !in EDGES_AND_UNDERSCORE
  {
  }

  /** A name ending in a role word keeps it when edge letters or underscores are stripped. */
  lemma RoleTail(h: string, role: Role, chars: set<char>)
    requires role != NoRole && 'e' !in chars && 'n' !in chars
    ensures RStrip(h + RoleText(role), chars) == h + RoleText(role)
  {
    var x := h + RoleText(role);
    assert x[|x| - 1] == RoleText(role)[|RoleText(role)| - 1];
  }

  lemma RoleSuffixRemoved(h: string, role: Role)
    requires role != NoRole && h != [] && h[|h| - 1] == '_'
    ensures RemoveSuffix(RemoveSuffix(RemoveSuffix(h + RoleText(role), "source"), "drain"), "gate") == h
  {
    RemoveSuffixMismatch(h, "drain", 0);
    RemoveSuffixMismatch(h, "gate", 0);
    match role
    case Source =>
      RemoveSuffixOfAppend(h, "source");
    case Drain =>
      RemoveSuffixMismatch(h + "drain", "source", 0);
      RemoveSuffixOfAppend(h, "drain");
    case Gate =>
      RemoveSuffixMismatch(h + "gate", "source", 1);
      RemoveSuffixMismatch(h + "gate", "drain", 0);
      RemoveSuffixOfAppend(h, "gate");
  }

  /** Stripping `_`, then the group letter, from `prefix + group + "_"` leaves the prefix. */
  lemma GroupSuffixRemoved(prefix: string, group: Group)
    requires ValidPrefix(prefix) && group != NoGroup
    ensures RemoveSuffix(RemoveSuffix(RStrip(prefix + GroupText(group) + "_", {'_'}), "A"), "B") == prefix
  {
    var head := prefix + GroupText(group);
    RStripTail(head, "_", {'_'});
    assert RStrip(head, {'_'}) == head;
    if prefix != [] {
      RemoveSuffixMismatch(prefix, "B", 0);
    }
    if group == GroupA {
      RemoveSuffixOfAppend(prefix, "A");
    } else {
      RemoveSuffixMismatch(head, "A", 0);
      RemoveSuffixOfAppend(prefix, "B");
    }
  }

  /** The compensation basename of a well-formed port name is its cell prefix. */
  lemma BaseNameOfPortName(prefix: string, t: Terminal, edge: char)
    requires ValidPrefix(prefix) && Complete(t) && edge in EDGES
    ensures BaseName(PortName(prefix, t, edge)) == prefix
  {
    var h := prefix + GroupText(t.group) + "_";
    var x := h + RoleText(t.role);
    RStripTail(x + "_", [edge], EDGES);
    assert PortName(prefix, t, edge) == x + "_" + [edge];
    assert RStrip(x + "_", EDGES) == x + "_";
    RStripTail(x, "_", {'_'});
    RoleTail(h, t.role, {'_'});
    RoleSuffixRemoved(h, t.role);
    GroupSuffixRemoved(prefix, t.group);
  }

  /** `strip_portname` of a well-formed port name is its prefix without trailing `_`. */
  lemma StripPortNameOfPortName(prefix: string, t: Terminal, edge: char)
    requires ValidPrefix(prefix) && Complete(t) && edge in EDGES
    ensures StripPortName(PortName(prefix, t, edge)) == RStrip(prefix, {'_'})
  {
    var h := prefix + GroupText(t.group) + "_";
    var x := h + RoleText(t.role);
    assert PortName(prefix, t, edge) == x + ("_" + [edge]);
    RStripTail(x, "_" + [edge], EDGES_AND_UNDERSCORE);
    RoleEndsNotStripped();
    RoleTail(h, t.role, EDGES_AND_UNDERSCORE);
    RoleSuffixRemoved(h, t.role);
    GroupSuffixRemoved(prefix, t.group);
  }

  /** `check_port` accepts every port name that ends in a role and an edge. */
  lemma CheckPortOfPortName(prefix: string, t: Terminal, edge: char)
    requires t.role != NoRole && edge in EDGES
    ensures !CheckPort(PortName(prefix, t, edge))
  {
    CheckPortOfRoleName(prefix + GroupText(t.group), t.role, edge);
  }

  lemma CheckPortOfRoleName(h: string, role: Role, edge: char)
    requires role != NoRole && edge in EDGES
    ensures !CheckPort(h + "_" + RoleText(role) + "_" + [edge])
  {
    var x := h + "_" + RoleText(role);
    assert x + "_" + [edge] == x + ("_" + [edge]);
    RStripTail(x, "_" + [edge], EDGES_AND_UNDERSCORE);
    RoleEndsNotStripped();
    RoleTail(h + "_", role, EDGES_AND_UNDERSCORE);
    LastSegmentAppend(h, '_', RoleText(role));
  }

  /** The group letters of a well-formed name come from its group only. */
  lemma GroupLettersOfPortName(prefix: string, t: Terminal, edge: char)
    requires 'A' !in prefix && 'B' !in prefix && edge in EDGES
    ensures Contains(PortName(prefix, t, edge), "A") <==> t.group == GroupA
    ensures Contains(PortName(prefix, t, edge), "B") <==> t.group == GroupB
  {
    var name := PortName(prefix, t, edge);
    assert 'A' !in RoleText(t.role) && 'B' !in RoleText(t.role);
    ContainsChar(name, 'A');
    ContainsChar(name, 'B');
  }

  /** The source and drain words of a well-formed name come from its role only. */
  lemma RoleWordsOfPortName(prefix: string, t: Terminal, edge: char)
    requires !Contains(prefix, "source") && !Contains(prefix, "drain")
    requires t.group != NoGroup && edge in EDGES
    ensures Contains(PortName(prefix, t, edge), "source") <==> t.role == Source
    ensures Contains(PortName(prefix, t, edge), "drain") <==> t.role == Drain
  {
    var rest := GroupText(t.group) + "_" + RoleText(t.role) + "_" + [edge];
    assert PortName(prefix, t, edge) == prefix + rest;
    ContainsAppend(prefix, rest, "source");
    ContainsAppend(prefix, rest, "drain");
    RoleWordsOfTail(GroupText(t.group), t.role, edge);
  }

  /** The group, role and edge at the end of a port name hold a role word only as its role. */
  lemma RoleWordsOfTail(g: string, role: Role, edge: char)
    requires g in {"A", "B"} && edge in EDGES
    ensures Contains(g + "_" + RoleText(role) + "_" + [edge], "source") <==> role == Source
    ensures Contains(g + "_" + RoleText(role) + "_" + [edge], "drain") <==> role == Drain
  {
    var r := RoleText(role);
    var rest := g + "_" + r + "_" + [edge];
    ContainsWitness(g + "_", r, "_" + [edge]);
    assert rest == g + "_" + r + ("_" + [edge]);
    if role != Source {
      assert 's' !in rest;
      NotContainsMissingChar(rest, "source", 0);
    }
    if role != Drain {
      assert 'd' !in rest;
      NotContainsMissingChar(rest, "drain", 0);
    }
  }

  /** Well-formed names under a neutral prefix are clean. */
  lemma CleanPortName(prefix: string, t: Terminal, edge: char)
    requires ValidPrefix(prefix) && NeutralPrefix(prefix) && Complete(t) && edge in EDGES
    ensures Clean(PortName(prefix, t, edge))
  {
    TerminalOfPortName(prefix, t, edge);
    GroupLettersOfPortName(prefix, t, edge);
    RoleWordsOfPortName(prefix, t, edge);
  }

  /** A second basename pass over the prefix `"tail_"` strips its `_`. */
  lemma BaseNameOfTail()
    ensures BaseName("tail_") == "tail"
  {
    var s := "tail_";
    assert s[|s| - 1] == '_';
    assert RStrip(s, EDGES) == s;
    assert s[..4] == "tail";
    assert RStrip(s, {'_'}) == "tail";
    var u := "tail";
    assert u[3] == 'l';
    assert RStrip(u, {'_'}) == u;
    RemoveSuffixMismatch(u, "gate", 0);
    RemoveSuffixMismatch(u, "A", 0);
    RemoveSuffixMismatch(u, "B", 0);
  }

  /**
   * The basename is not idempotent: the basename of a well-formed name keeps the prefix's
   * trailing `_`, and a second pass strips it.
   */
  lemma BaseNameNotIdempotent()
    ensures BaseName("tail_A_gate_W") == "tail_"
    ensures BaseName(BaseName("tail_A_gate_W")) == "tail"
  {
    assert PortName("tail_", Terminal(GroupA, Gate), 'W') == "tail_A_gate_W";
    BaseNameOfPortName("tail_", Terminal(GroupA, Gate), 'W');
    BaseNameOfTail();
  }
}
