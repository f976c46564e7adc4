/** String helpers used by the bot: Python's `str.strip()`, `str.startswith`,
    the `in` substring test and the index search behind `str.split`. */
module Text {

  import opened Wrappers

  /** The characters for which Python 3's `str.isspace()` holds, which are the
      characters `str.strip()` with no argument removes: tab to carriage return,
      the four information separators, space, next line, no-break space, and the
      Unicode space, line and paragraph separators. */
  predicate IsSpace(c: char) {
    ('\t' <= c <= '\r') || ('\U{001C}' <= c <= ' ') || c == '\U{0085}' || c == '\U{00A0}'
    || c == '\U{1680}' || ('\U{2000}' <= c <= '\U{200A}') || c == '\U{2028}' || c == '\U{2029}'
    || c == '\U{202F}' || c == '\U{205F}' || c == '\U{3000}'
  }

  /** `s` with its leading whitespace removed. */
  function TrimStart(s: string): (r: string)
    ensures |r| <= |s| && r == s[|s| - |r|..]
    ensures forall i :: 0 <= i < |s| - |r| ==> IsSpace(s[i])
    ensures r != [] ==> !IsSpace(r[0])
  {
    if s != [] && IsSpace(s[0]) then TrimStart(s[1..]) else s
  }

  /** `s` with its trailing whitespace removed. */
  function TrimEnd(s: string): (r: string)
    ensures |r| <= |s| && r == s[..|r|]
    ensures forall i :: |r| <= i < |s| ==> IsSpace(s[i])
    ensures r != [] ==> !IsSpace(r[|r| - 1])
  {
    if s != [] && IsSpace(s[|s| - 1]) then TrimEnd(s[..|s| - 1]) else s
  }

  /** Python's `s.strip()`. */
  function Strip(s: string): (r: string)
    ensures r != [] ==> !IsSpace(r[0]) && !IsSpace(r[|r| - 1])
  {
    TrimEnd(TrimStart(s))
  }

  /** Stripping keeps the longest slice of `s` that neither starts nor ends with
      whitespace: everything it cuts off is whitespace. */
  lemma StripCutsOnlySpace(s: string)
    ensures exists a :: CutsOnlySpace(s, Strip(s), a)
  {
    var t := TrimStart(s);
    StripCuts(s, t, TrimEnd(t));
    assert CutsOnlySpace(s, Strip(s), |s| - |t|);
  }

  /** Cutting whitespace off the front and then off the back cuts only whitespace. */
  lemma StripCuts(s: string, t: string, r: string)
    requires |t| <= |s| && t == s[|s| - |t|..] && forall i :: 0 <= i < |s| - |t| ==> IsSpace(s[i])
    requires |r| <= |t| && r == t[..|r|] && forall i :: |r| <= i < |t| ==> IsSpace(t[i])
    ensures CutsOnlySpace(s, r, |s| - |t|)
  {
    var a := |s| - |t|;
    assert r == s[a..a + |r|];
    forall i | a + |r| <= i < |s| ensures IsSpace(s[i]) {
      assert s[i] == t[i - a];
    }
  }

  /** A string that neither starts nor ends with whitespace is left as it is. */
  lemma StripKeeps(s: string)
    requires s != [] && !IsSpace(s[0]) && !IsSpace(s[|s| - 1])
    ensures Strip(s) == s
  {
    assert TrimStart(s) == s;
  }

  /** Stripping twice is stripping once. */
  lemma StripIdempotent(s: string)
    ensures Strip(Strip(s)) == Strip(s)
  {
    if Strip(s) != [] {
      StripKeeps(Strip(s));
    }
  }

  /** Stripping leaves nothing exactly when every character is whitespace. */
  lemma StripEmptyIff(s: string)
    ensures Strip(s) == [] <==> forall i :: 0 <= i < |s| ==> IsSpace(s[i])
  {
    if !forall i :: 0 <= i < |s| ==> IsSpace(s[i]) {
      StripCutsOnlySpace(s);
      var a :| CutsOnlySpace(s, Strip(s), a);
    }
  }

  /** `r` is the slice of `s` starting at `a`, and everything of `s` outside
      that slice is whitespace. */
  predicate CutsOnlySpace(s: string, r: string, a: int) {
    0 <= a && a + |r| <= |s| && r == s[a..a + |r|]
    && (forall i :: 0 <= i < a ==> IsSpace(s[i]))
    && (forall i :: a + |r| <= i < |s| ==> IsSpace(s[i]))
  }

  /** Python's `s.startswith(p)`. */
  predicate StartsWith(s: string, p: string) {
    |p| <= |s| && s[..|p|] == p
  }

  /** `p` occurs in `s` at index `i`. */
  predicate OccursAt(s: string, p: string, i: int) {
    0 <= i && i + |p| <= |s| && s[i..i + |p|] == p
  }

  /** Python's `p in s` on strings. */
  predicate Contains(s: string, p: string) {
    exists i :: 0 <= i <= |s| - |p| && OccursAt(s, p, i)
  }

  /** Python's `s.find(p)`: the first index where `p` occurs, if any. */
  function IndexOf(s: string, p: string): (r: Option<nat>)
    ensures r.Some? ==> OccursAt(s, p, r.value) && forall j :: 0 <= j < r.value ==> !OccursAt(s, p, j)
    ensures r.None? <==> !Contains(s, p)
  {
    IndexFrom(s, p, 0)
  }

  /** The first index at or after `i` where `p` occurs in `s`. */
  function IndexFrom(s: string, p: string, i: nat): (r: Option<nat>)
    requires i <= |s| + 1
    decreases |s| + 1 - i
    ensures r.Some? ==> i <= r.value && OccursAt(s, p, r.value)
                        && forall j :: i <= j < r.value ==> !OccursAt(s, p, j)
    ensures r.None? ==> forall j :: i <= j ==> !OccursAt(s, p, j)
  {
    if i + |p| > |s| then None
    else if s[i..i + |p|] == p then Some(i)
    else IndexFrom(s, p, i + 1)
  }

  /** Some character of `s` is one of `cs`: Python's `any(c in s for c in cs)`. */
  predicate HasAnyOf(s: string, cs: string) {
    exists i :: 0 <= i < |s| && s[i] in cs
  }

  /** The renderings of the elements of `xs`, concatenated in order: the
      `for x in xs: out += render(x)` loops of the bot. */
  function Join<T>(render: T -> string, xs: seq<T>): string {
    if xs == [] then "" else Join(render, xs[..|xs| - 1]) + render(xs[|xs| - 1])
  }

  /** Rendering one more element appends its rendering. */
  lemma JoinSnoc<T>(render: T -> string, xs: seq<T>, i: nat)
    requires i < |xs|
    ensures Join(render, xs[..i + 1]) == Join(render, xs[..i]) + render(xs[i])
  {
    assert xs[..i + 1][..i] == xs[..i];
  }

  /** Rendering a concatenation renders each part in turn. */
  lemma {:induction false} JoinAppend<T>(render: T -> string, a: seq<T>, b: seq<T>)
    ensures Join(render, a + b) == Join(render, a) + Join(render, b)
    decreases |b|
  {
    if b == [] {
      assert a + b == a;
    } else {
      var b' := b[..|b| - 1];
      assert (a + b)[..|a + b| - 1] == a + b';
      JoinAppend(render, a, b');
    }
  }
}
