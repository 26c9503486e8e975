/**
 * String helpers: JavaScript's `trim`, and first/last occurrence of a character. The source calls
 * neither `indexOf` nor `lastIndexOf`; the model uses them to locate the brace match of app.js
 * line 389, the `split(',')` of js/gemini-client.js line 85 and the backticks of the code pass.
 */
module Text {
  import opened Wrappers

  /** The first index of `c` in `s`, None where there is none. */
  function IndexOf(s: string, c: char): (r: Option<nat>)
    ensures r.Some? ==> r.value < |s| && s[r.value] == c && c !in s[..r.value]
    ensures r.None? <==> c !in s
  {
    if s == [] then None
    else if s[0] == c then Some(0)
    else
      match IndexOf(s[1..], c)
      case None => None
      case Some(k) =>
        assert s[..k + 1] == [s[0]] + s[1..][..k];
        Some(k + 1)
  }

  /** The last index of `c` in `s`, None where there is none. */
  function LastIndexOf(s: string, c: char): (r: Option<nat>)
    ensures r.Some? ==> r.value < |s| && s[r.value] == c && c !in s[r.value + 1..]
    ensures r.None? <==> c !in s
  {
    if s == [] then None
    else if s[|s| - 1] == c then Some(|s| - 1)
    else
      var r := LastIndexOf(s[..|s| - 1], c);
      assert s == s[..|s| - 1] + [s[|s| - 1]];
      assert r.Some? ==> s[r.value + 1..] == s[..|s| - 1][r.value + 1..] + [s[|s| - 1]];
      r
  }

  /** Searching past a prefix that does not hold `c` finds the same occurrence, shifted. */
  lemma {:induction false} IndexOfAfter(a: string, b: string, c: char)
    requires c !in a
    ensures IndexOf(a + b, c) == match IndexOf(b, c) case None => None case Some(k) => Some(|a| + k)
  {
    if a == [] {
      assert a + b == b;
    } else {
      assert (a + b)[0] == a[0] != c;
      assert (a + b)[1..] == a[1..] + b;
      IndexOfAfter(a[1..], b, c);
    }
  }

  /** Searching backwards past a suffix that does not hold `c` finds the same occurrence. */
  lemma {:induction false} LastIndexOfBefore(a: string, b: string, c: char)
    requires c !in b
    ensures LastIndexOf(a + b, c) == LastIndexOf(a, c)
  {
    if b == [] {
      assert a + b == a;
    } else {
      assert (a + b)[|a + b| - 1] == b[|b| - 1] != c;
      assert (a + b)[..|a + b| - 1] == a + b[..|b| - 1];
      LastIndexOfBefore(a, b[..|b| - 1], c);
    }
  }

  /** The characters `String.prototype.trim` removes: ECMAScript WhiteSpace and LineTerminator. */
  predicate IsJsWhitespace(c: char) {
    || c == '\t' || c == '\U{000B}' || c == '\U{000C}' || c == ' ' || c == '\U{00A0}'
    || c == '\U{FEFF}' || c == '\U{1680}' || ('\U{2000}' <= c <= '\U{200A}')
    || c == '\U{202F}' || c == '\U{205F}' || c == '\U{3000}'
    || c == '\n' || c == '\r' || c == '\U{2028}' || c == '\U{2029}'
  }

  /** Every character of `s` from index `lo` up to (not including) `hi` is white space. */
  predicate WhitespaceBetween(s: string, lo: nat, hi: nat)
    requires lo <= hi <= |s|
  {
    forall k :: lo <= k < hi ==> IsJsWhitespace(s[k])
  }

  predicate AllWhitespace(s: string) {
    WhitespaceBetween(s, 0, |s|)
  }

  /** The first index at or after `i` that holds no white space, or `|s|`. */
  function SkipLeading(s: string, i: nat): (r: nat)
    requires i <= |s|
    ensures i <= r <= |s| && WhitespaceBetween(s, i, r)
    ensures r == |s| || !IsJsWhitespace(s[r])
    decreases |s| - i
  {
    if i < |s| && IsJsWhitespace(s[i]) then SkipLeading(s, i + 1) else i
  }

  /** The end of `s[lo..j]` once its trailing white space is cut: `lo`, or just past a non-blank. */
  function SkipTrailing(s: string, lo: nat, j: nat): (r: nat)
    requires lo <= j <= |s|
    ensures lo <= r <= j && WhitespaceBetween(s, r, j)
    ensures r == lo || !IsJsWhitespace(s[r - 1])
    decreases j
  {
    if lo < j && IsJsWhitespace(s[j - 1]) then SkipTrailing(s, lo, j - 1) else j
  }

  /** `s.trim()`: the slice of `s` left once white space is cut from both ends. */
  function Trim(s: string): (r: string)
    ensures exists i :: 0 <= i <= |s| - |r| && r == s[i..i + |r|] &&
                        WhitespaceBetween(s, 0, i) && WhitespaceBetween(s, i + |r|, |s|)
    ensures r == [] || (!IsJsWhitespace(r[0]) && !IsJsWhitespace(r[|r| - 1]))
    ensures r == [] <==> AllWhitespace(s)
  {
    var i := SkipLeading(s, 0);
    var j := SkipTrailing(s, i, |s|);
    assert i == j ==> i == |s|;
    s[i..j]
  }

  /** Trimming twice removes nothing more. */
  lemma TrimIdempotent(s: string)
    ensures Trim(Trim(s)) == Trim(s)
  {
    var r := Trim(s);
    if r != [] {
      assert SkipLeading(r, 0) == 0;
      assert SkipTrailing(r, 0, |r|) == |r|;
    }
  }
}
