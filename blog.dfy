/**
 * The blog page of pages/BlogPost.tsx: the placeholder stripper applied to a fetched
 * Markdown file, and the `loading` / `fetchError` / `html` state driven by the
 * page's effect, with the `cancelled` flag of each effect run.
 */
module Blog {
  import opened Wrappers
  import JsString
  import opened Subsequence

  /** The literal head of `PLACEHOLDER_PATTERN`. */
  const Opener: string := "{{PLACEHOLDER_"

  /** A whole match of `PLACEHOLDER_PATTERN`: the opener, one or more non-`}` characters, then `}}`. */
  predicate IsPlaceholder(span: string) {
    && |span| >= |Opener| + 3
    && JsString.StartsWith(span, Opener)
    && span[|span| - 2] == '}' && span[|span| - 1] == '}'
    && forall i :: |Opener| <= i < |span| - 2 ==> span[i] != '}'
  }

  /** The length of the longest prefix of `s` without a `}`. */
  function RunLength(s: string): (n: nat)
    ensures n <= |s|
    ensures forall i :: 0 <= i < n ==> s[i] != '}'
    ensures n < |s| ==> s[n] == '}'
  {
    if s == [] || s[0] == '}' then 0 else 1 + RunLength(s[1..])
  }

  /**
   * The length of the match of `PLACEHOLDER_PATTERN` that starts at the front of `s`,
   * if there is one. `[^}]+` takes the longest run of non-`}` characters; a shorter
   * run would be followed by a non-`}`, so backtracking never finds another match,
   * and the match, when there is one, is the only placeholder that is a prefix of `s`.
   */
  function MatchAt(s: string): (m: Option<nat>)
    ensures m.Some? ==> m.value <= |s| && IsPlaceholder(s[..m.value])
    ensures m.Some? ==> forall k :: 0 <= k <= |s| && IsPlaceholder(s[..k]) ==> k == m.value
    ensures m.None? ==> forall k :: 0 <= k <= |s| ==> !IsPlaceholder(s[..k])
  {
    if !JsString.StartsWith(s, Opener) then
      forall k | 0 <= k <= |s|
        ensures !IsPlaceholder(s[..k])
      {
        if |Opener| <= k {
          assert s[..k][..|Opener|] == s[..|Opener|];
        }
      }
      None
    else
      var o := |Opener|;
      var n := RunLength(s[o..]);
      var m := o + n + 2;
      RunInside(s, o);
      if n >= 1 && m <= |s| && s[m - 1] == '}' then
        PlaceholderAt(s, n);
        forall k | 0 <= k <= |s| && IsPlaceholder(s[..k])
          ensures k == m
        {
          PlaceholderEnd(s, k, n);
        }
        Some(m)
      else
        forall k | 0 <= k <= |s|
          ensures !IsPlaceholder(s[..k])
        {
          if IsPlaceholder(s[..k]) {
            PlaceholderEnd(s, k, n);
          }
        }
        None
  }

  /** `RunLength` of a suffix, read in the positions of the whole text. */
  lemma RunInside(s: string, o: nat)
    requires o <= |s|
    ensures o + RunLength(s[o..]) <= |s|
    ensures forall i :: o <= i < o + RunLength(s[o..]) ==> s[i] != '}'
    ensures o + RunLength(s[o..]) < |s| ==> s[o + RunLength(s[o..])] == '}'
  {
    var t := s[o..];
    var n := RunLength(t);
    forall i | o <= i < o + n
      ensures s[i] != '}'
    {
      assert s[i] == t[i - o];
    }
    if o + n < |s| {
      assert s[o + n] == t[n];
    }
  }

  /** The opener, a non-empty run without `}`, and `}}` make a placeholder. */
  lemma PlaceholderAt(s: string, n: nat)
    requires JsString.StartsWith(s, Opener) && n >= 1 && |Opener| + n + 2 <= |s|
    requires forall i :: |Opener| <= i < |Opener| + n ==> s[i] != '}'
    requires s[|Opener| + n] == '}' && s[|Opener| + n + 1] == '}'
    ensures IsPlaceholder(s[..|Opener| + n + 2])
  {
    var m := |Opener| + n + 2;
    var p := s[..m];
    assert p[..|Opener|] == s[..|Opener|];
    assert p[m - 2] == s[m - 2] && p[m - 1] == s[m - 1];
    forall i | |Opener| <= i < m - 2
      ensures p[i] != '}'
    {
      assert p[i] == s[i];
    }
  }

  /** A placeholder prefix of `s` ends exactly two characters after the first `}` past the opener. */
  lemma PlaceholderEnd(s: string, k: nat, n: nat)
    requires JsString.StartsWith(s, Opener) && k <= |s| && IsPlaceholder(s[..k])
    requires n <= |s| - |Opener|
    requires forall i :: |Opener| <= i < |Opener| + n ==> s[i] != '}'
    requires |Opener| + n < |s| ==> s[|Opener| + n] == '}'
    ensures k == |Opener| + n + 2
  {
    assert s[..k][k - 2] == '}';
  }

  /** One step of the left-to-right scan: a removed placeholder or a kept character. */
  datatype Piece = Kept(c: char) | Removed(span: string)

  function Joined(ps: seq<Piece>): string {
    if ps == [] then []
    else (match ps[0] case Kept(c) => [c] case Removed(span) => span) + Joined(ps[1..])
  }

  /** The characters the scan keeps, in order. */
  function Survivors(ps: seq<Piece>): string {
    if ps == [] then []
    else (match ps[0] case Kept(c) => [c] case Removed(_) => []) + Survivors(ps[1..])
  }

  /**
   * How the global `replace` walks the text: at each position it removes the match
   * that starts there, if any, and resumes after it; otherwise it keeps one
   * character and moves on. The pieces put back together give the text, every
   * removed piece is a placeholder, and no match starts where a character is kept.
   */
  function Scan(s: string): (ps: seq<Piece>)
    ensures Joined(ps) == s
    ensures forall p :: p in ps && p.Removed? ==> IsPlaceholder(p.span)
    ensures ps != [] && ps[0].Kept? ==> MatchAt(s) == None
    decreases |s|
  {
    if s == [] then []
    else match MatchAt(s)
      case Some(m) =>
        assert s == s[..m] + s[m..];
        [Removed(s[..m])] + Scan(s[m..])
      case None =>
        assert s == [s[0]] + s[1..];
        [Kept(s[0])] + Scan(s[1..])
  }

  /**
   * Piece `p` begins the text `rest`: a kept character exactly where no match
   * starts, and a removed piece exactly as long as the match that starts there.
   */
  predicate Agrees(p: Piece, rest: string) {
    match p
    case Kept(_) => MatchAt(rest) == None
    case Removed(span) => MatchAt(rest) == Some(|span|)
  }

  lemma {:induction false} JoinedAppend(x: seq<Piece>, y: seq<Piece>)
    ensures Joined(x + y) == Joined(x) + Joined(y)
    decreases |x|
  {
    if x == [] {
      assert x + y == y;
    } else {
      assert (x + y)[0] == x[0] && (x + y)[1..] == x[1..] + y;
      JoinedAppend(x[1..], y);
    }
  }

  /** The pieces after piece `i` put back together are the text from that piece's offset on. */
  lemma ScanSuffixes(s: string)
    ensures forall i :: 0 <= i <= |Scan(s)| ==> Joined(Scan(s)[..i]) + Joined(Scan(s)[i..]) == s
  {
    var ps := Scan(s);
    forall i | 0 <= i <= |ps|
      ensures Joined(ps[..i]) + Joined(ps[i..]) == s
    {
      assert ps[..i] + ps[i..] == ps;
      JoinedAppend(ps[..i], ps[i..]);
    }
  }

  /**
   * Every piece of the scan, not only the first, agrees with the text from its
   * own offset on: the global `replace` removes the match at every position it
   * reaches and keeps a character only where none starts.
   */
  lemma {:induction false} ScanEveryPiece(s: string)
    ensures forall i :: 0 <= i < |Scan(s)| ==> Agrees(Scan(s)[i], Joined(Scan(s)[i..]))
    decreases |s|
  {
    var ps := Scan(s);
    if s != [] {
      var n := match MatchAt(s) case Some(m) => m case None => 1;
      var rest := Scan(s[n..]);
      assert ps == [ps[0]] + rest;
      ScanEveryPiece(s[n..]);
      forall i | 0 <= i < |ps|
        ensures Agrees(ps[i], Joined(ps[i..]))
      {
        if i == 0 {
          assert ps[0..] == ps;
        } else {
          assert ps[i] == rest[i - 1] && ps[i..] == rest[i - 1..];
        }
      }
    }
  }

  /** The scan is the only split of the text into pieces that all agree with the text after them. */
  lemma {:induction false} ScanUnique(ps: seq<Piece>, s: string)
    requires Joined(ps) == s
    requires forall i :: 0 <= i < |ps| ==> Agrees(ps[i], Joined(ps[i..]))
    ensures ps == Scan(s)
    decreases |ps|
  {
    if ps != [] {
      var tail := ps[1..];
      forall i | 0 <= i < |tail|
        ensures Agrees(tail[i], Joined(tail[i..]))
      {
        assert tail[i..] == ps[i + 1..];
      }
      assert ps[0..] == ps;
      ScanUnique(tail, Joined(tail));
      match ps[0]
      case Kept(c) =>
        assert s[1..] == Joined(tail);
      case Removed(span) =>
        assert s[..|span|] == span && s[|span|..] == Joined(tail);
    }
  }

  /**
   * `raw.replace(PLACEHOLDER_PATTERN, '')`: the characters the scan keeps, which
   * are the raw text with some characters left out and the rest in order.
   */
  function Strip(s: string): (r: string)
    ensures IsSubsequence(r, s)
    ensures |r| <= |s|
  {
    var r := Survivors(Scan(s));
    SurvivorsSubsequence(Scan(s));
    SubsequenceShorter(r, s);
    r
  }

  lemma {:induction false} SurvivorsSubsequence(ps: seq<Piece>)
    ensures IsSubsequence(Survivors(ps), Joined(ps))
  {
    if ps != [] {
      SurvivorsSubsequence(ps[1..]);
      match ps[0]
      case Kept(c) =>
        SubsequenceCons(c, Survivors(ps[1..]), Joined(ps[1..]));
      case Removed(span) =>
        assert Survivors(ps) == Survivors(ps[1..]);
        assert Joined(ps) == span + Joined(ps[1..]);
        assert Joined(ps)[|span|..] == Joined(ps[1..]);
        SubsequenceDrop(Survivors(ps[1..]), Joined(ps), |span|);
    }
  }

  /** `{{PLACEHOLDER_` occurs in `s` at index `k`. */
  predicate OpenerAt(s: string, k: nat) {
    k + |Opener| <= |s| && s[k..k + |Opener|] == Opener
  }

  /** `s` contains no `{{PLACEHOLDER_` anywhere. */
  predicate NoOpener(s: string) {
    forall k: nat :: k <= |s| ==> !OpenerAt(s, k)
  }

  /** The opener at the front is the opener at index 0. */
  lemma OpenerAtFront(s: string)
    ensures JsString.StartsWith(s, Opener) <==> OpenerAt(s, 0)
  {
    if |Opener| <= |s| {
      assert s[0..|Opener|] == s[..|Opener|];
    }
  }

  lemma NoOpenerTail(s: string)
    requires NoOpener(s) && s != []
    ensures NoOpener(s[1..])
  {
    forall k: nat | k <= |s[1..]|
      ensures !OpenerAt(s[1..], k)
    {
      assert !OpenerAt(s, k + 1);
      if k + |Opener| <= |s[1..]| {
        assert s[1..][k..k + |Opener|] == s[k + 1..k + 1 + |Opener|];
      }
    }
  }

  /** Text without the opener loses nothing. */
  lemma {:induction false} StripWithoutOpener(s: string)
    requires NoOpener(s)
    ensures Strip(s) == s
    decreases |s|
  {
    if s != [] {
      assert !OpenerAt(s, 0);
      OpenerAtFront(s);
      NoOpenerTail(s);
      StripWithoutOpener(s[1..]);
    }
  }

  /**
   * Text without the opener, followed by a placeholder, is not itself the start of
   * a match: the opener ends in its only `_`, so no tail of the text and head of
   * the placeholder can form it.
   */
  lemma NoOpenerBefore(a: string, p: string, b: string)
    requires a != [] && NoOpener(a) && IsPlaceholder(p)
    ensures !JsString.StartsWith(a + p + b, Opener)
  {
    var s := a + p + b;
    var o := |Opener|;
    if |a| >= o {
      assert !OpenerAt(a, 0);
      assert s[..o] == a[0..o];
    } else {
      var i := o - 1 - |a|;
      assert s[o - 1] == p[i];
      assert p[i] == p[..o][i];
      assert Opener[o - 1] == '_';
      assert forall j :: 0 <= j < o - 1 ==> Opener[j] != '_';
    }
  }

  /** A placeholder at the front is removed, and the scan resumes right after it. */
  lemma StripLeading(p: string, b: string)
    requires IsPlaceholder(p)
    ensures Strip(p + b) == Strip(b)
  {
    var s := p + b;
    assert s[..|p|] == p && s[|p|..] == b;
    assert MatchAt(s) == Some(|p|);
    assert Scan(s) == [Removed(p)] + Scan(b);
    assert Survivors(Scan(s)) == Survivors(Scan(b));
  }

  /** Where no opener starts, the first character is kept and the scan moves on by one. */
  lemma StripKeepsFirst(s: string)
    requires s != [] && !JsString.StartsWith(s, Opener)
    ensures Strip(s) == [s[0]] + Strip(s[1..])
  {
    assert MatchAt(s) == None;
    assert Scan(s) == [Kept(s[0])] + Scan(s[1..]);
    assert Survivors(Scan(s)) == [s[0]] + Survivors(Scan(s[1..]));
  }

  /**
   * The global `replace` removes a placeholder wherever it stands after text
   * without the opener: the text before it is kept, the placeholder is gone, and
   * the rest is stripped in turn.
   */
  lemma {:induction false} StripSplice(a: string, p: string, b: string)
    requires NoOpener(a) && IsPlaceholder(p)
    ensures Strip(a + p + b) == a + Strip(b)
    decreases |a|
  {
    if a == [] {
      assert a + p + b == p + b;
      StripLeading(p, b);
    } else {
      var s := a + p + b;
      assert Strip(s) == [a[0]] + Strip(a[1..] + p + b) by {
        NoOpenerBefore(a, p, b);
        StripKeepsFirst(s);
        TailOfSplice(a, p, b);
      }
      assert Strip(a[1..] + p + b) == a[1..] + Strip(b) by {
        NoOpenerTail(a);
        StripSplice(a[1..], p, b);
      }
      ConsAppend(a, Strip(b));
    }
  }

  lemma ConsAppend(a: string, t: string)
    requires a != []
    ensures [a[0]] + (a[1..] + t) == a + t
  {
    assert a == [a[0]] + a[1..];
  }

  lemma TailOfSplice(a: string, p: string, b: string)
    requires a != []
    ensures (a + p + b)[1..] == a[1..] + p + b
  {
  }

  /** A placeholder on its own is removed completely. */
  lemma StripPlaceholder(p: string)
    requires IsPlaceholder(p)
    ensures Strip(p) == []
  {
    StripSplice([], p, []);
    assert [] + p + [] == p;
  }

  /** The article source after cleaning: placeholders removed, then `trim`. */
  function Clean(raw: string): (r: string)
    ensures JsString.Trimmed(r)
    ensures |r| <= |raw|
    ensures NoOpener(raw) ==> r == JsString.Trim(raw)
    ensures IsPlaceholder(raw) ==> r == []
  {
    if IsPlaceholder(raw) then
      StripPlaceholder(raw);
      PlaceholderHasOpener(raw);
      JsString.Trim(Strip(raw))
    else if NoOpener(raw) then
      StripWithoutOpener(raw);
      JsString.Trim(Strip(raw))
    else
      JsString.Trim(Strip(raw))
  }

  /** A placeholder begins with the opener. */
  lemma PlaceholderHasOpener(p: string)
    requires IsPlaceholder(p)
    ensures !NoOpener(p)
  {
    OpenerAtFront(p);
  }

  /** A placeholder between two runs of ordinary text disappears, and the text around it is joined and trimmed. */
  lemma CleanRemovesPlaceholder(a: string, p: string, b: string)
    requires NoOpener(a) && IsPlaceholder(p) && NoOpener(b)
    ensures Clean(a + p + b) == JsString.Trim(a + b)
  {
    StripSplice(a, p, b);
    StripWithoutOpener(b);
  }

  /**
   * What `fetch` produced: a response, or `None` when it threw. The body is what
   * `res.text()` resolved to, or `None` when it rejected.
   */
  datatype Response = Response(ok: bool, body: Option<string>)

  /** How a `loadPost` run ends: with the rendered HTML, or in the catch block. */
  datatype Completion = Loaded(html: string) | Failed

  /**
   * The outcome of one `loadPost` run, given what `fetch` returned and what
   * `marked.parse` returns for the cleaned text (`None` when it throws).
   */
  function Complete(response: Option<Response>, parse: string -> Option<string>): (c: Completion)
    ensures c.Loaded? <==>
      && response.Some? && response.value.ok && response.value.body.Some?
      && parse(Clean(response.value.body.value)).Some?
    ensures c.Loaded? ==> c.html == parse(Clean(response.value.body.value)).value
  {
    match response
    case None => Failed
    case Some(res) =>
      if !res.ok then Failed
      else match res.body
        case None => Failed
        case Some(raw) =>
          match parse(Clean(raw))
          case None => Failed
          case Some(h) => Loaded(h)
  }

  /** The three views the page can render. */
  datatype View = LoadingView | ErrorView | ArticleView

  /** The render selection: each of the three guards holds for exactly one state pair. */
  function Shown(loading: bool, fetchError: bool): (v: View)
    ensures v == LoadingView <==> loading
    ensures v == ErrorView <==> fetchError && !loading
    ensures v == ArticleView <==> !loading && !fetchError
  {
    if loading then LoadingView else if fetchError then ErrorView else ArticleView
  }

  /** `slug` counts as missing when it is absent or empty. */
  predicate Missing(slug: Option<string>) {
    slug.None? || slug.value == []
  }

  /** The page's state, and the effect runs started and cancelled so far. */
  class BlogPage {
    var html: string
    var loading: bool
    var fetchError: bool
    /** Number of effect runs that started a `loadPost`. */
    var runs: nat
    /** The runs whose cleanup has set their `cancelled` flag. */
    var cancelled: set<nat>

    /** Only runs that were started can have been cancelled. */
    predicate Valid()
      reads this
    {
      forall r :: r in cancelled ==> r < runs
    }

    constructor ()
      ensures Valid()
      ensures html == [] && loading && !fetchError
      ensures runs == 0 && cancelled == {}
    {
      html := [];
      loading := true;
      fetchError := false;
      runs := 0;
      cancelled := {};
    }

    /**
     * The effect for `slug`. A missing slug shows the error view at once and starts
     * nothing; otherwise a new, not yet cancelled run starts and the loading view shows.
     */
    method Start(slug: Option<string>) returns (run: Option<nat>)
      requires Valid()
      modifies this`loading, this`fetchError, this`runs
      ensures Valid()
      ensures Missing(slug) ==> run == None && fetchError && !loading && runs == old(runs)
      ensures !Missing(slug) ==> run == Some(old(runs)) && loading && !fetchError && runs == old(runs) + 1
      ensures run.Some? ==> run.value !in cancelled
      ensures Shown(loading, fetchError) == (if Missing(slug) then ErrorView else LoadingView)
    {
      if slug.None? || slug.value == [] {
        fetchError := true;
        loading := false;
        run := None;
        return;
      }
      run := Some(runs);
      runs := runs + 1;
      loading := true;
      fetchError := false;
    }

    /** The cleanup the effect returns for `run`. */
    method Cleanup(run: nat)
      requires Valid() && run < runs
      modifies this`cancelled
      ensures Valid()
      ensures cancelled == old(cancelled) + {run}
    {
      cancelled := cancelled + {run};
    }

    /**
     * The end of `loadPost` for `run`: a cancelled run changes nothing; otherwise
     * success stores the HTML and failure raises the error, and loading ends.
     */
    method Finish(run: nat, response: Option<Response>, parse: string -> Option<string>)
      modifies this`html, this`loading, this`fetchError
      ensures run in cancelled ==> html == old(html) && loading == old(loading) && fetchError == old(fetchError)
      ensures run !in cancelled ==> !loading
      ensures run !in cancelled && Complete(response, parse).Failed? ==> fetchError && html == old(html)
      ensures run !in cancelled && Complete(response, parse).Loaded? ==>
        html == Complete(response, parse).html && fetchError == old(fetchError)
    {
      var outcome := Complete(response, parse);
      if run !in cancelled {
        match outcome
        case Loaded(h) =>
          html := h;
          loading := false;
        case Failed =>
          fetchError := true;
          loading := false;
      }
    }

    /**
     * One uncancelled visit of a page: the effect starts and its load completes.
     * A missing slug or a failed load shows the error view; a load that succeeds
     * shows the article with the parsed HTML.
     */
    method Visit(slug: Option<string>, response: Option<Response>, parse: string -> Option<string>)
      requires Valid()
      modifies this`html, this`loading, this`fetchError, this`runs
      ensures Valid()
      ensures Missing(slug) ==> Shown(loading, fetchError) == ErrorView
      ensures !Missing(slug) ==>
        Shown(loading, fetchError) == (if Complete(response, parse).Loaded? then ArticleView else ErrorView)
      ensures !Missing(slug) && Complete(response, parse).Loaded? ==> html == Complete(response, parse).html
    {
      var run := Start(slug);
      if run.Some? {
        Finish(run.value, response, parse);
      }
    }
  }
}
