/**
 * The JavaScript string primitives the SDK relies on: `trim`, `includes`
 * and `split` (with a string separator), each given by a definition that
 * follows the language's behaviour and characterised by lemmas.
 */
module Text {
  import opened Outcomes

  /** The code points `String.prototype.trim` removes (ECMAScript WhiteSpace and LineTerminator). */
  predicate IsJsSpace(c: char) {
    c == ' ' || c == '\t' || c == '\n' || c == '\r' || c == '\U{000B}' || c == '\U{000C}'
    || c == '\U{00A0}' || c == '\U{FEFF}' || c == '\U{1680}' || ('\U{2000}' <= c <= '\U{200A}')
    || c == '\U{2028}' || c == '\U{2029}' || c == '\U{202F}' || c == '\U{205F}' || c == '\U{3000}'
  }

  predicate AllSpace(s: string) {
    forall i :: 0 <= i < |s| ==> IsJsSpace(s[i])
  }

  /** The index of the first non-whitespace character at or after `k` (or `|s|`). */
  function SkipSpace(s: string, k: nat): (j: nat)
    requires k <= |s|
    ensures k <= j <= |s|
    decreases |s| - k
  {
    if k < |s| && IsJsSpace(s[k]) then SkipSpace(s, k + 1) else k
  }

  /** The end of `s[start..e]` once its trailing whitespace is dropped. */
  function DropSpaceBack(s: string, start: nat, e: nat): (j: nat)
    requires start <= e <= |s|
    ensures start <= j <= e
  {
    if start < e && IsJsSpace(s[e - 1]) then DropSpaceBack(s, start, e - 1) else e
  }

  /** Where the text kept by `trim` begins and ends. */
  function TrimStartIndex(s: string): nat {
    SkipSpace(s, 0)
  }

  function TrimEndIndex(s: string): (j: nat)
    ensures TrimStartIndex(s) <= j <= |s|
  {
    DropSpaceBack(s, TrimStartIndex(s), |s|)
  }

  /** `s.trim()`. */
  function Trim(s: string): string {
    s[TrimStartIndex(s)..TrimEndIndex(s)]
  }

  lemma {:induction false} SkipSpaceSkipsSpace(s: string, k: nat)
    requires k <= |s|
    ensures forall m :: k <= m < SkipSpace(s, k) ==> IsJsSpace(s[m])
    ensures SkipSpace(s, k) < |s| ==> !IsJsSpace(s[SkipSpace(s, k)])
    decreases |s| - k
  {
    if k < |s| && IsJsSpace(s[k]) {
      SkipSpaceSkipsSpace(s, k + 1);
    }
  }

  lemma {:induction false} DropSpaceBackDropsSpace(s: string, start: nat, e: nat)
    requires start <= e <= |s|
    ensures forall m :: DropSpaceBack(s, start, e) <= m < e ==> IsJsSpace(s[m])
    ensures start < DropSpaceBack(s, start, e) ==> !IsJsSpace(s[DropSpaceBack(s, start, e) - 1])
  {
    if start < e && IsJsSpace(s[e - 1]) {
      DropSpaceBackDropsSpace(s, start, e - 1);
    }
  }

  /**
   * `trim` keeps the slice of `s` between its leading and its trailing
   * whitespace: everything cut off is whitespace, and what is kept neither
   * starts nor ends with whitespace.
   */
  lemma TrimIsInfix(s: string)
    ensures var i, j := TrimStartIndex(s), TrimEndIndex(s);
      Trim(s) == s[i..j] && AllSpace(s[..i]) && AllSpace(s[j..])
      && (i < j ==> !IsJsSpace(s[i]) && !IsJsSpace(s[j - 1]))
  {
    var i, j := TrimStartIndex(s), TrimEndIndex(s);
    SkipSpaceSkipsSpace(s, 0);
    DropSpaceBackDropsSpace(s, i, |s|);
    assert forall m :: 0 <= m < i ==> s[..i][m] == s[m];
    assert forall m :: 0 <= m < |s| - j ==> s[j..][m] == s[j + m];
  }

  /** A string trims to nothing exactly when it is all whitespace (JavaScript's `!s.trim()`). */
  lemma TrimEmptyIff(s: string)
    ensures Trim(s) == "" <==> AllSpace(s)
  {
    var i, j := TrimStartIndex(s), TrimEndIndex(s);
    SkipSpaceSkipsSpace(s, 0);
    DropSpaceBackDropsSpace(s, i, |s|);
    if i < j {
      assert Trim(s)[0] == s[i];
    }
  }

  lemma {:induction false} SkipSpaceStopsAt(s: string, k: nat, j: nat)
    requires k <= j <= |s|
    requires forall m :: k <= m < j ==> IsJsSpace(s[m])
    requires j < |s| ==> !IsJsSpace(s[j])
    ensures SkipSpace(s, k) == j
    decreases j - k
  {
    if k < j {
      SkipSpaceStopsAt(s, k + 1, j);
    }
  }

  lemma {:induction false} DropSpaceBackStopsAt(s: string, start: nat, e: nat, j: nat)
    requires start <= j <= e <= |s|
    requires forall m :: j <= m < e ==> IsJsSpace(s[m])
    requires start < j ==> !IsJsSpace(s[j - 1])
    ensures DropSpaceBack(s, start, e) == j
    decreases e - j
  {
    if j < e {
      DropSpaceBackStopsAt(s, start, e - 1, j);
    }
  }

  /** Trimming removes exactly the surrounding whitespace: a text with non-space ends comes back unchanged. */
  lemma TrimPadded(before: string, t: string, after: string)
    requires AllSpace(before) && AllSpace(after)
    requires |t| > 0 ==> !IsJsSpace(t[0]) && !IsJsSpace(t[|t| - 1])
    ensures Trim(before + t + after) == t
  {
    var s := before + t + after;
    if |t| > 0 {
      SkipSpaceStopsAt(s, 0, |before|);
      DropSpaceBackStopsAt(s, |before|, |s|, |before| + |t|);
      assert s[|before|..|before| + |t|] == t;
    } else {
      SkipSpaceStopsAt(s, 0, |s|);
    }
  }

  /** Joining all-space pieces with a space separator gives an all-space text, and only then. */
  lemma {:induction false} AllSpaceJoin(pieces: seq<string>, d: string)
    requires AllSpace(d)
    ensures AllSpace(Join(pieces, d)) <==> forall k :: 0 <= k < |pieces| ==> AllSpace(pieces[k])
  {
    if |pieces| > 1 {
      var rest := Join(pieces[1..], d);
      AllSpaceJoin(pieces[1..], d);
      var s := pieces[0] + d + rest;
      assert forall m :: 0 <= m < |pieces[0]| ==> s[m] == pieces[0][m];
      assert forall m :: 0 <= m < |rest| ==> s[|pieces[0]| + |d| + m] == rest[m];
      assert forall k :: 1 <= k < |pieces| ==> pieces[k] == pieces[1..][k - 1];
    }
  }

  predicate OccursAt(s: string, t: string, i: nat) {
    i + |t| <= |s| && s[i..i + |t|] == t
  }

  /** `s.includes(t)`: a case-sensitive substring test. */
  predicate Contains(s: string, t: string) {
    exists i: nat | i <= |s| :: OccursAt(s, t, i)
  }

  lemma ContainsInfix(a: string, t: string, b: string)
    ensures Contains(a + t + b, t)
  {
    assert OccursAt(a + t + b, t, |a|);
  }

  /** No character of `s` is one of `bad`. */
  predicate Avoids(s: string, bad: string) {
    forall i | 0 <= i < |s| :: s[i] !in bad
  }

  /** A string that avoids `bad` lacks each of its characters. */
  lemma AvoidsChar(s: string, bad: string, c: char)
    requires Avoids(s, bad) && c in bad
    ensures c !in s
  {
  }

  /** A string that lacks one of the pattern's characters cannot contain the pattern. */
  lemma MissingCharNotContained(s: string, t: string, c: char)
    requires c in t && c !in s
    ensures !Contains(s, t)
  {
    forall i: nat | i <= |s| ensures !OccursAt(s, t, i) {
      if i + |t| <= |s| {
        assert c !in s[i..i + |t|];
      }
    }
  }

  /**
   * No occurrence of `t` straddles the seam of `a + b` when the last-but-one
   * character of `a` is foreign to `t` and `t` does not start with the last one;
   * a message prefix ending in ": " meets this for every pattern without ':'.
   */
  lemma ContainsAppend(a: string, b: string, t: string)
    requires |a| >= 2 && |t| > 0
    requires a[|a| - 2] !in t && t[0] != a[|a| - 1]
    ensures Contains(a + b, t) <==> Contains(a, t) || Contains(b, t)
  {
    var s := a + b;
    forall i: nat | i < |a| < i + |t| <= |s| ensures !OccursAt(s, t, i) {
      if i <= |a| - 2 {
        assert s[i..i + |t|][|a| - 2 - i] == a[|a| - 2];
      } else {
        assert s[i..i + |t|][0] == a[|a| - 1];
      }
    }
    forall i: nat | i <= |s| && OccursAt(s, t, i) ensures Contains(a, t) || Contains(b, t) {
      if i + |t| <= |a| {
        assert a[i..i + |t|] == s[i..i + |t|];
        assert OccursAt(a, t, i);
      } else if i >= |a| {
        assert b[i - |a|..i - |a| + |t|] == s[i..i + |t|];
        assert OccursAt(b, t, i - |a|);
      }
    }
    if Contains(a, t) {
      var i: nat :| i <= |a| && OccursAt(a, t, i);
      assert s[i..i + |t|] == a[i..i + |t|];
      assert OccursAt(s, t, i);
    }
    if Contains(b, t) {
      var i: nat :| i <= |b| && OccursAt(b, t, i);
      assert s[|a| + i..|a| + i + |t|] == b[i..i + |t|];
      assert OccursAt(s, t, |a| + i);
    }
  }

  /** No occurrence of `t` straddles the seam of `a + b` when the last character of `a` is foreign to `t`. */
  lemma ContainsAfterSeparator(a: string, b: string, t: string)
    requires |a| >= 1 && a[|a| - 1] !in t
    ensures Contains(a + b, t) <==> Contains(a, t) || Contains(b, t)
  {
    var s := a + b;
    forall i: nat | i < |a| < i + |t| <= |s| ensures !OccursAt(s, t, i) {
      assert s[i..i + |t|][|a| - 1 - i] == a[|a| - 1];
    }
    forall i: nat | i <= |s| && OccursAt(s, t, i) ensures Contains(a, t) || Contains(b, t) {
      if i + |t| <= |a| {
        assert a[i..i + |t|] == s[i..i + |t|];
        assert OccursAt(a, t, i);
      } else if i >= |a| {
        assert b[i - |a|..i - |a| + |t|] == s[i..i + |t|];
        assert OccursAt(b, t, i - |a|);
      }
    }
    if Contains(a, t) {
      var i: nat :| i <= |a| && OccursAt(a, t, i);
      assert s[i..i + |t|] == a[i..i + |t|];
      assert OccursAt(s, t, i);
    }
    if Contains(b, t) {
      var i: nat :| i <= |b| && OccursAt(b, t, i);
      assert s[|a| + i..|a| + i + |t|] == b[i..i + |t|];
      assert OccursAt(s, t, |a| + i);
    }
  }

  /** The first occurrence of `d` in `s` at or after position `k`. */
  function FindFrom(s: string, d: string, k: nat): (r: Option<nat>)
    requires |d| > 0
    ensures r.Some? ==> k <= r.value && OccursAt(s, d, r.value)
    ensures r.Some? ==> forall j: nat :: k <= j < r.value ==> !OccursAt(s, d, j)
    ensures r.None? ==> forall j: nat :: k <= j ==> !OccursAt(s, d, j)
    decreases |s| - k
  {
    if k + |d| > |s| then None
    else if s[k..k + |d|] == d then Some(k)
    else FindFrom(s, d, k + 1)
  }

  /** `s.split(d)` for a non-empty separator: cut at each leftmost occurrence. */
  function SplitOn(s: string, d: string): (r: seq<string>)
    requires |d| > 0
    ensures |r| >= 1
    decreases |s|
  {
    var found := FindFrom(s, d, 0);
    if found.None? then
      [s]
    else
      var i := found.value;
      [s[..i]] + SplitOn(s[i + |d|..], d)
  }

  /** No piece of a split on a non-empty separator contains the separator. */
  lemma {:induction false} SplitOnPiecesFree(s: string, d: string)
    requires |d| > 0
    ensures forall k :: 0 <= k < |SplitOn(s, d)| ==> !Contains(SplitOn(s, d)[k], d)
    decreases |s|
  {
    var found := FindFrom(s, d, 0);
    if found.Some? {
      var i := found.value;
      PrefixBeforeFirst(s, d, i);
      SplitOnPiecesFree(s[i + |d|..], d);
    }
  }

  /** The text before the first occurrence of `d` does not contain `d`. */
  lemma PrefixBeforeFirst(s: string, d: string, i: nat)
    requires i <= |s| && |d| > 0
    requires forall j: nat :: j < i ==> !OccursAt(s, d, j)
    ensures !Contains(s[..i], d)
  {
    forall j: nat | j <= i ensures !OccursAt(s[..i], d, j) {
      if j + |d| <= i {
        assert s[..i][j..j + |d|] == s[j..j + |d|];
        assert !OccursAt(s, d, j);
      }
    }
  }

  /** The occurrences of `d` at or after `k`, counted left to right without overlap. */
  function CountFrom(s: string, d: string, k: nat): nat
    requires |d| > 0
    decreases |s| - k
  {
    if k + |d| > |s| then 0
    else if OccursAt(s, d, k) then 1 + CountFrom(s, d, k + |d|)
    else CountFrom(s, d, k + 1)
  }

  /** How many times `d` occurs in `s`, counted left to right without overlap. */
  function Occurrences(s: string, d: string): nat
    requires |d| > 0
  {
    CountFrom(s, d, 0)
  }

  lemma {:induction false} CountFromSkips(s: string, d: string, k: nat, i: nat)
    requires |d| > 0 && k <= i
    requires forall j: nat :: k <= j < i ==> !OccursAt(s, d, j)
    ensures CountFrom(s, d, k) == CountFrom(s, d, i)
    decreases i - k
  {
    if k < i && k + |d| <= |s| {
      CountFromSkips(s, d, k + 1, i);
    }
  }

  lemma {:induction false} CountFromShift(s: string, d: string, m: nat, k: nat)
    requires |d| > 0 && m <= k <= |s|
    ensures CountFrom(s, d, k) == CountFrom(s[m..], d, k - m)
    decreases |s| - k
  {
    if k + |d| <= |s| {
      assert s[m..][k - m..k - m + |d|] == s[k..k + |d|];
      if OccursAt(s, d, k) {
        CountFromShift(s, d, m, k + |d|);
      } else {
        CountFromShift(s, d, m, k + 1);
      }
    }
  }

  /** A split on a non-empty separator has one piece more than the separator has occurrences. */
  lemma {:induction false} SplitOnCount(s: string, d: string)
    requires |d| > 0
    ensures |SplitOn(s, d)| == Occurrences(s, d) + 1
    decreases |s|
  {
    var found := FindFrom(s, d, 0);
    if found.None? {
      CountFromSkips(s, d, 0, |s| + 1);
    } else {
      var i := found.value;
      CountFromSkips(s, d, 0, i);
      CountFromShift(s, d, i + |d|, i + |d|);
      SplitOnCount(s[i + |d|..], d);
    }
  }

  /** `s.split(d)`; the empty separator splits into single characters. */
  function Split(s: string, d: string): seq<string> {
    if d == "" then seq(|s|, i requires 0 <= i < |s| => [s[i]]) else SplitOn(s, d)
  }

  /** `pieces.join(d)`. */
  function Join(pieces: seq<string>, d: string): string {
    if pieces == [] then ""
    else if |pieces| == 1 then pieces[0]
    else pieces[0] + d + Join(pieces[1..], d)
  }

  /** Splitting on a non-empty separator keeps every character: joining the pieces back gives `s`. */
  lemma {:induction false} JoinSplitOn(s: string, d: string)
    requires |d| > 0
    ensures Join(SplitOn(s, d), d) == s
    decreases |s|
  {
    var found := FindFrom(s, d, 0);
    if found.Some? {
      var i := found.value;
      var rest := s[i + |d|..];
      var pieces := SplitOn(rest, d);
      assert SplitOn(s, d) == [s[..i]] + pieces;
      JoinSplitOn(rest, d);
      JoinCons(s[..i], pieces, d);
      assert s == s[..i] + d + rest;
    } else {
      assert SplitOn(s, d) == [s];
    }
  }

  lemma JoinCons(head: string, pieces: seq<string>, d: string)
    requires |pieces| >= 1
    ensures Join([head] + pieces, d) == head + d + Join(pieces, d)
  {
    assert ([head] + pieces)[1..] == pieces;
  }

  /** `s.split(d).join(d) == s` for every separator, including the empty one. */
  lemma {:induction false} JoinSplit(s: string, d: string)
    ensures Join(Split(s, d), d) == s
    decreases |s|
  {
    if d == "" {
      if |s| > 1 {
        JoinSplit(s[1..], d);
        assert Split(s, d)[1..] == Split(s[1..], d);
        assert s == [s[0]] + s[1..];
      }
    } else {
      JoinSplitOn(s, d);
    }
  }
}
