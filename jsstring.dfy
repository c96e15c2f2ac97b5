/**
 * The two ECMAScript string built-ins the terminal relies on:
 * `String.prototype.trim` and `String.prototype.toLowerCase`.
 * Index.tsx normalises typed commands with them, CommandInput.tsx normalises
 * what it submits, and BlogPost.tsx trims the cleaned article text. Also
 * `repeat` and `padEnd`, which build the skill bars and the line prefixes.
 */
module JsString {

  /** The characters `trim` removes: ECMAScript WhiteSpace and LineTerminator code points. */
  predicate IsSpace(c: char) {
    || c == '\t' || c == '\n' || c == '\U{000B}' || c == '\U{000C}' || c == '\r' || c == ' '
    || c == '\U{00A0}' || c == '\U{1680}' || ('\U{2000}' <= c <= '\U{200A}')
    || c == '\U{2028}' || c == '\U{2029}' || c == '\U{202F}' || c == '\U{205F}'
    || c == '\U{3000}' || c == '\U{FEFF}'
  }

  predicate AllSpace(s: string) {
    forall i :: 0 <= i < |s| ==> IsSpace(s[i])
  }

  /** No whitespace at either end. */
  predicate Trimmed(s: string) {
    s == [] || (!IsSpace(s[0]) && !IsSpace(s[|s| - 1]))
  }

  /** `r` occurs in `s` at offset `k`, with nothing but whitespace before and after it. */
  predicate SitsAt(s: string, r: string, k: nat) {
    k + |r| <= |s| && s[k..k + |r|] == r && AllSpace(s[..k]) && AllSpace(s[k + |r|..])
  }

  /** `r` is `s` with only whitespace removed, and only from its two ends. */
  ghost predicate EdgesOf(s: string, r: string) {
    exists k: nat :: SitsAt(s, r, k)
  }

  function TrimStart(s: string): (r: string)
    ensures |r| <= |s| && r == s[|s| - |r|..]
    ensures AllSpace(s[..|s| - |r|])
    ensures r == [] || !IsSpace(r[0])
  {
    if s != [] && IsSpace(s[0]) then
      var r := TrimStart(s[1..]);
      assert s[..|s| - |r|] == [s[0]] + s[1..][..|s| - 1 - |r|];
      r
    else s
  }

  function TrimEnd(s: string): (r: string)
    ensures |r| <= |s| && r == s[..|r|]
    ensures AllSpace(s[|r|..])
    ensures r == [] || !IsSpace(r[|r| - 1])
  {
    if s != [] && IsSpace(s[|s| - 1]) then
      var r := TrimEnd(s[..|s| - 1]);
      assert s[|r|..] == s[..|s| - 1][|r|..] + [s[|s| - 1]];
      r
    else s
  }

  /** `String.prototype.trim`. */
  function Trim(s: string): (r: string)
    ensures Trimmed(r)
    ensures |r| <= |s|
    ensures Trimmed(s) ==> r == s
  {
    TrimEdges(s);
    TrimEnd(TrimStart(s))
  }

  /** `trim` removes whitespace only, and only from the two ends. */
  lemma TrimOnlyEdges(s: string)
    ensures EdgesOf(s, Trim(s))
  {
    TrimEdges(s);
  }

  /** Together with `Trimmed`, the edge condition fixes the result of `trim`. */
  lemma {:induction false} TrimUnique(s: string, r: string)
    requires Trimmed(r) && EdgesOf(s, r)
    ensures r == Trim(s)
  {
    TrimOnlyEdges(s);
    var k :| SitsAt(s, r, k);
    var j :| SitsAt(s, Trim(s), j);
    EdgesAgree(s, r, k, Trim(s), j);
  }

  /** Two trimmed strings that each sit between whitespace runs of `s` are the same string. */
  lemma EdgesAgree(s: string, r: string, k: nat, t: string, j: nat)
    requires Trimmed(r) && SitsAt(s, r, k)
    requires Trimmed(t) && SitsAt(s, t, j)
    ensures r == t
  {
    SitsFacts(s, r, k);
    SitsFacts(s, t, j);
    assert r != [] ==> s[k] == r[0] && s[k + |r| - 1] == r[|r| - 1];
    assert t != [] ==> s[j] == t[0] && s[j + |t| - 1] == t[|t| - 1];
  }

  /** Where `r` sits in `s`: its characters inside, whitespace outside. */
  lemma SitsFacts(s: string, r: string, k: nat)
    requires SitsAt(s, r, k)
    ensures forall i :: 0 <= i < |r| ==> s[k + i] == r[i]
    ensures forall i :: 0 <= i < |s| && (i < k || k + |r| <= i) ==> IsSpace(s[i])
  {
    forall i | 0 <= i < |r|
      ensures s[k + i] == r[i]
    {
      assert s[k..k + |r|][i] == s[k + i];
    }
    forall i | 0 <= i < |s| && (i < k || k + |r| <= i)
      ensures IsSpace(s[i])
    {
      if i < k {
        assert s[..k][i] == s[i];
      } else {
        assert s[k + |r|..][i - k - |r|] == s[i];
      }
    }
  }

  lemma TrimEdges(s: string)
    ensures Trimmed(TrimEnd(TrimStart(s)))
    ensures EdgesOf(s, TrimEnd(TrimStart(s)))
    ensures Trimmed(s) ==> TrimEnd(TrimStart(s)) == s
  {
    var t := TrimStart(s);
    var r := TrimEnd(t);
    TwoCuts(s, t, r);
    if Trimmed(s) && s != [] {
      assert t == s;
    }
  }

  /**
   * Cutting whitespace from the front of `s` to get `t`, then from the back of `t`
   * to get `r`, leaves `r` sitting in `s`, trimmed when both cuts stopped at a
   * non-space.
   */
  lemma TwoCuts(s: string, t: string, r: string)
    requires |t| <= |s| && t == s[|s| - |t|..] && AllSpace(s[..|s| - |t|])
    requires t == [] || !IsSpace(t[0])
    requires |r| <= |t| && r == t[..|r|] && AllSpace(t[|r|..])
    requires r == [] || !IsSpace(r[|r| - 1])
    ensures Trimmed(r) && SitsAt(s, r, |s| - |t|)
  {
    if r != [] {
      assert r[0] == t[0];
    }
    SliceOfSlice(s, |s| - |t|, |r|);
  }

  lemma SliceOfSlice(s: string, k: nat, n: nat)
    requires k + n <= |s|
    ensures s[k..][..n] == s[k..k + n]
    ensures s[k..][n..] == s[k + n..]
  {
  }

  /** `String.prototype.startsWith`. */
  predicate StartsWith(s: string, p: string) {
    |p| <= |s| && s[..|p|] == p
  }

  /** `toLowerCase` on one character: A-Z become a-z, everything else is kept. */
  function LowerChar(c: char): char {
    if 'A' <= c <= 'Z' then (c as int + 32) as char else c
  }

  /** `String.prototype.toLowerCase`, character by character. */
  function Lower(s: string): (r: string)
    ensures |r| == |s|
  {
    if s == [] then [] else [LowerChar(s[0])] + Lower(s[1..])
  }

  lemma {:induction false} LowerAt(s: string, i: nat)
    requires i < |s|
    ensures Lower(s)[i] == LowerChar(s[i])
  {
    if i > 0 {
      LowerAt(s[1..], i - 1);
    }
  }

  lemma {:induction false} LowerPrefix(s: string, k: nat)
    requires k <= |s|
    ensures Lower(s)[..k] == Lower(s[..k])
  {
    if k > 0 {
      assert s[..k][1..] == s[1..][..k - 1];
      LowerPrefix(s[1..], k - 1);
    }
  }

  lemma {:induction false} LowerIdempotent(s: string)
    ensures Lower(Lower(s)) == Lower(s)
  {
    if s != [] {
      assert Lower(s)[1..] == Lower(s[1..]);
      LowerIdempotent(s[1..]);
    }
  }

  /** Lower-casing maps spaces to themselves and non-spaces to non-spaces. */
  lemma LowerCharSpace(c: char)
    ensures IsSpace(LowerChar(c)) <==> IsSpace(c)
    ensures IsSpace(c) ==> LowerChar(c) == c
  {
  }

  lemma {:induction false} TrimStartLower(s: string)
    ensures TrimStart(Lower(s)) == Lower(TrimStart(s))
    decreases |s|
  {
    if s != [] {
      var l := Lower(s);
      assert l[0] == LowerChar(s[0]) && l[1..] == Lower(s[1..]);
      LowerCharSpace(s[0]);
      if IsSpace(s[0]) {
        TrimStartLower(s[1..]);
        assert TrimStart(l) == TrimStart(l[1..]);
        assert TrimStart(s) == TrimStart(s[1..]);
      } else {
        assert TrimStart(l) == l;
        assert TrimStart(s) == s;
      }
    }
  }

  lemma {:induction false} TrimEndLower(s: string)
    ensures TrimEnd(Lower(s)) == Lower(TrimEnd(s))
    decreases |s|
  {
    if s != [] {
      var n := |s| - 1;
      LowerAt(s, n);
      if IsSpace(s[n]) {
        LowerPrefix(s, n);
        TrimEndLower(s[..n]);
      }
    }
  }

  /** Lower-casing never turns a space into a non-space or back, so it commutes with `trim`. */
  lemma {:induction false} TrimLowerCommute(s: string)
    ensures Trim(Lower(s)) == Lower(Trim(s))
  {
    TrimStartLower(s);
    TrimEndLower(TrimStart(s));
  }

  /**
   * A string that was trimmed and then lower-cased (what the command line submits)
   * is left unchanged by lower-casing and trimming again (what the dispatcher does).
   */
  lemma {:induction false} NormalizeSubmitted(raw: string)
    ensures Trim(Lower(Lower(Trim(raw)))) == Lower(Trim(raw))
  {
    LowerIdempotent(Trim(raw));
    TrimLowerCommute(Trim(raw));
    assert Trim(Trim(raw)) == Trim(raw);
  }

  /** Lower-casing leaves a string without upper-case letters as it is. */
  lemma {:induction false} LowerFixed(s: string)
    requires forall i :: 0 <= i < |s| ==> !('A' <= s[i] <= 'Z')
    ensures Lower(s) == s
  {
    if s != [] {
      LowerFixed(s[1..]);
    }
  }

  /** A string without edge whitespace or upper-case letters is its own normal form. */
  lemma {:induction false} NormalFormFixed(s: string)
    requires Trimmed(s)
    requires forall i :: 0 <= i < |s| ==> !('A' <= s[i] <= 'Z')
    ensures Trim(Lower(s)) == s
  {
    LowerFixed(s);
  }

  /** `String.prototype.repeat` of a one-character string, for a count that is not negative. */
  function Repeat(c: char, n: nat): (r: string)
    ensures |r| == n
    ensures forall i :: 0 <= i < |r| ==> r[i] == c
  {
    if n == 0 then [] else [c] + Repeat(c, n - 1)
  }

  /** `String.prototype.padEnd` with the default filler, a space. */
  function PadEnd(s: string, n: nat): (r: string)
    ensures |r| == if |s| < n then n else |s|
    ensures r[..|s|] == s
    ensures forall i :: |s| <= i < |r| ==> r[i] == ' '
    ensures |s| >= n ==> r == s
  {
    if |s| < n then s + Repeat(' ', n - |s|) else s
  }

  /** Padding a string that is already padded changes nothing. */
  lemma PadEndIdempotent(s: string, n: nat)
    ensures PadEnd(PadEnd(s, n), n) == PadEnd(s, n)
  {
  }
}
