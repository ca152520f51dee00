/**
 * The few Python `str` operations the router's name grammar is built on, on `seq<char>`:
 * `s.rstrip(chars)`, `s.removesuffix(w)`, `s.split(sep)` (with `split(sep)[-1]`) and
 * the substring test `w in s`.
 */
module PyStr {

  /** `s.endswith(w)` */
  predicate EndsWith(s: string, w: string) {
    |w| <= |s| && s[|s| - |w|..] == w
  }

  /** `s.rstrip(chars)`: drop every trailing character that is in `chars`. */
  function RStrip(s: string, chars: set<char>): (r: string)
    ensures |r| <= |s| && r == s[..|r|]
    ensures r == [] || r[|r| - 1] !in chars
    ensures forall i :: |r| <= i < |s| ==> s[i] in chars
    decreases |s|
  {
    if s != [] && s[|s| - 1] in chars then RStrip(s[..|s| - 1], chars) else s
  }

  /** `s.removesuffix(w)`: drop `w` once from the end when `s` ends with it. */
  function RemoveSuffix(s: string, w: string): (r: string)
    ensures EndsWith(s, w) ==> r + w == s
    ensures !EndsWith(s, w) ==> r == s
  {
    if EndsWith(s, w) then s[..|s| - |w|] else s
  }

  /** `w` occurs in `s` starting at index `i`. */
  predicate OccursAt(s: string, w: string, i: nat) {
    i + |w| <= |s| && s[i..i + |w|] == w
  }

  /** The substring test `w in s`. */
  predicate Contains(s: string, w: string) {
    exists i: nat | i <= |s| :: OccursAt(s, w, i)
  }

  /**
   * `s.split([sep])`: the maximal runs between separators, in order; there is always at
   * least one (possibly empty) segment. Defined from the end, one character at a time.
   */
  function Split(s: string, sep: char): (parts: seq<string>)
    ensures |parts| >= 1
    ensures forall k :: 0 <= k < |parts| ==> sep !in parts[k]
    decreases |s|
  {
    if s == [] then [[]]
    else
      var init := Split(s[..|s| - 1], sep);
      var c := s[|s| - 1];
      if c == sep then init + [[]]
      else init[..|init| - 1] + [init[|init| - 1] + [c]]
  }

  /** `sep.join(parts)`, the inverse of `Split`. */
  function Join(parts: seq<string>, sep: char): string
    requires |parts| >= 1
    decreases |parts|
  {
    if |parts| == 1 then parts[0] else Join(parts[..|parts| - 1], sep) + [sep] + parts[|parts| - 1]
  }

  /** `s.split([sep])[-1]` */
  function LastSegment(s: string, sep: char): string {
    var parts := Split(s, sep);
    parts[|parts| - 1]
  }

  // ---------------------------------------------------------------- rstrip

  /** Stripping twice strips nothing more. */
  lemma RStripIdempotent(s: string, chars: set<char>)
    ensures RStrip(RStrip(s, chars), chars) == RStrip(s, chars)
  {
  }

  /** Text in front of a non-strippable tail is never touched. */
  lemma {:induction false} RStripAppend(a: string, b: string, chars: set<char>)
    requires RStrip(b, chars) != []
    ensures RStrip(a + b, chars) == a + RStrip(b, chars)
    decreases |b|
  {
    if b[|b| - 1] in chars {
      assert (a + b)[..|a + b| - 1] == a + b[..|b| - 1];
      RStripAppend(a, b[..|b| - 1], chars);
    }
  }

  /** Appending strippable characters to any text and stripping them gives the text back when it ends in a kept character. */
  lemma {:induction false} RStripTail(a: string, b: string, chars: set<char>)
    requires forall i :: 0 <= i < |b| ==> b[i] in chars
    ensures RStrip(a + b, chars) == RStrip(a, chars)
    decreases |b|
  {
    if b != [] {
      assert (a + b)[..|a + b| - 1] == a + b[..|b| - 1];
      RStripTail(a, b[..|b| - 1], chars);
    } else {
      assert a + b == a;
    }
  }

  // ---------------------------------------------------------------- removesuffix

  lemma RemoveSuffixOfAppend(a: string, w: string)
    ensures RemoveSuffix(a + w, w) == a
  {
    assert (a + w)[|a + w| - |w|..] == w;
    assert (a + w)[..|a + w| - |w|] == a;
  }

  /** A text that differs from `w` at the `k`-th character from the end does not end with `w`. */
  lemma RemoveSuffixMismatch(s: string, w: string, k: nat)
    requires k < |w| && k < |s| && s[|s| - 1 - k] != w[|w| - 1 - k]
    ensures RemoveSuffix(s, w) == s
  {
    if |w| <= |s| {
      assert s[|s| - |w|..][|w| - 1 - k] == s[|s| - 1 - k];
    }
  }

  // ---------------------------------------------------------------- contains

  /** A one-character substring test is sequence membership. */
  lemma ContainsChar(s: string, c: char)
    ensures Contains(s, [c]) <==> c in s
  {
    if c in s {
      var i :| 0 <= i < |s| && s[i] == c;
      assert s[i..i + 1] == [c];
      assert OccursAt(s, [c], i);
    }
    if Contains(s, [c]) {
      var i: nat :| i <= |s| && OccursAt(s, [c], i);
      assert s[i] == s[i..i + 1][0] == c;
    }
  }

  lemma ContainsWitness(a: string, w: string, b: string)
    ensures Contains(a + w + b, w)
  {
    assert (a + w + b)[|a|..|a| + |w|] == w;
    assert OccursAt(a + w + b, w, |a|);
  }

  /** A text lacking one of the characters of `w` cannot contain `w`. */
  lemma NotContainsMissingChar(s: string, w: string, j: nat)
    requires j < |w| && w[j] !in s
    ensures !Contains(s, w)
  {
  }

  /**
   * An occurrence of `w` in `a + b` lies within `a` or within `b` as soon as the first
   * character of `b` does not occur in `w` (no occurrence can straddle the seam).
   */
  lemma ContainsAppend(a: string, b: string, w: string)
    requires b != [] && b[0] !in w
    ensures Contains(a + b, w) <==> Contains(a, w) || Contains(b, w)
  {
    var s := a + b;
    if Contains(s, w) {
      var i: nat :| i <= |s| && OccursAt(s, w, i);
      forall j | i <= j < i + |w| ensures s[j] == w[j - i] {
        assert s[i..i + |w|][j - i] == w[j - i];
      }
      assert |a| < |s| ==> s[|a|] == b[0];
      if i + |w| <= |a| {
        assert a[i..i + |w|] == s[i..i + |w|];
        assert OccursAt(a, w, i);
      } else if i >= |a| {
        assert b[i - |a|..i - |a| + |w|] == s[i..i + |w|];
        assert OccursAt(b, w, i - |a|);
      }
    }
    if Contains(a, w) {
      var i: nat :| i <= |a| && OccursAt(a, w, i);
      assert s[i..i + |w|] == a[i..i + |w|];
      assert OccursAt(s, w, i);
    }
    if Contains(b, w) {
      var i: nat :| i <= |b| && OccursAt(b, w, i);
      assert s[|a| + i..|a| + i + |w|] == b[i..i + |w|];
      assert OccursAt(s, w, |a| + i);
    }
  }

  // ---------------------------------------------------------------- split

  /** `split` and `join` are inverse: joining the segments gives the text back. */
  lemma {:induction false} JoinSplit(s: string, sep: char)
    ensures Join(Split(s, sep), sep) == s
    decreases |s|
  {
    if s != [] {
      var init := Split(s[..|s| - 1], sep);
      JoinSplit(s[..|s| - 1], sep);
      var c := s[|s| - 1];
      if c == sep {
        assert Split(s, sep) == init + [[]];
        assert (init + [[]])[..|init|] == init;
      } else {
        var parts := Split(s, sep);
        assert parts[..|parts| - 1] == init[..|init| - 1];
        if |init| > 1 {
          assert Join(init, sep) == Join(init[..|init| - 1], sep) + [sep] + init[|init| - 1];
        }
      }
      assert s == s[..|s| - 1] + [s[|s| - 1]];
    }
  }

  /** Splitting after a separator starts a new segment: `(a + sep + w).split(sep) == a.split(sep) + [w]`. */
  lemma {:induction false} SplitAppend(a: string, sep: char, w: string)
    requires sep !in w
    ensures Split(a + [sep] + w, sep) == Split(a, sep) + [w]
    decreases |w|
  {
    var s := a + [sep] + w;
    if w == [] {
      assert s[..|s| - 1] == a;
    } else {
      assert s[..|s| - 1] == a + [sep] + w[..|w| - 1];
      SplitAppend(a, sep, w[..|w| - 1]);
      assert w[..|w| - 1] + [w[|w| - 1]] == w;
    }
  }

  /** The last `split` segment of a text ending in `sep + w` is `w`. */
  /** The last segment is a suffix of the text, either all of it or preceded by a separator. */
  lemma {:induction false} LastSegmentSuffix(s: string, sep: char)
    ensures var w := LastSegment(s, sep);
      && |w| <= |s| && s[|s| - |w|..] == w
      && (|w| == |s| || s[|s| - |w| - 1] == sep)
    decreases |s|
  {
    if s != [] && s[|s| - 1] != sep {
      var s' := s[..|s| - 1];
      LastSegmentSuffix(s', sep);
      var w' := LastSegment(s', sep);
      assert LastSegment(s, sep) == w' + [s[|s| - 1]];
      assert s[|s| - |w'| - 1..] == s'[|s'| - |w'|..] + [s[|s| - 1]];
    }
  }

  lemma LastSegmentAppend(a: string, sep: char, w: string)
    requires sep !in w
    ensures LastSegment(a + [sep] + w, sep) == w
  {
    SplitAppend(a, sep, w);
  }
}
