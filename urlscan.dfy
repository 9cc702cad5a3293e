/**
 * The global, case-insensitive scan `html.match(/(https?:\/\/[^\s"'<>]+\.EXT[^\s"'<>]*)/gi)`
 * that the TypeScript scraper runs for EXT = `m3u8`, `mpd` and `mp4` (and the JavaScript
 * scraper for `m3u8`), written as a scanner over the page text.
 */
module UrlScan {
  import opened Text

  /** The characters `[^\s"'<>]` refuses. */
  predicate Excluded(c: char)
  {
    IsSpace(c) || c == '"' || c == '\'' || c == '<' || c == '>'
  }

  /**
   * The lower-case ASCII pattern `pat` matches `s` at `i` ignoring case. Under the `i` flag
   * without `u`, a non-ASCII character never matches an ASCII one, so ASCII folding is exact.
   */
  predicate IcAt(s: string, pat: string, i: nat)
  {
    i + |pat| <= |s| && forall j :: 0 <= j < |pat| ==> LowerChar(s[i + j]) == pat[j]
  }

  /** The length of the `https?://` match at `p`, or 0 when there is none. */
  function SchemeLen(s: string, p: nat): (n: nat)
    ensures n == 0 || n == 7 || n == 8
    ensures n == 8 <==> IcAt(s, "https://", p)
    ensures n == 7 <==> !IcAt(s, "https://", p) && IcAt(s, "http://", p)
  {
    if IcAt(s, "https://", p) then 8 else if IcAt(s, "http://", p) then 7 else 0
  }

  /** The end of the longest run of allowed characters starting at `k`. */
  function RunEnd(s: string, k: nat): (e: nat)
    requires k <= |s|
    ensures k <= e <= |s|
    ensures forall j :: k <= j < e ==> !Excluded(s[j])
    ensures e == |s| || Excluded(s[e])
    decreases |s| - k
  {
    if k == |s| || Excluded(s[k]) then k else RunEnd(s, k + 1)
  }

  /** `\.EXT` can be matched inside `s[k..e]` after at least one character. */
  predicate HasExt(s: string, ext: string, k: nat, e: nat)
  {
    exists d :: k + 1 <= d && d + 1 + |ext| <= e && d < |s| && s[d] == '.' && IcAt(s, ext, d + 1)
  }

  /**
   * What a match is: a scheme, then only allowed characters, among which `.EXT` appears after
   * at least one of them.
   */
  predicate Url(m: string, ext: string)
  {
    var n := SchemeLen(m, 0);
    n > 0 && (forall j :: n <= j < |m| ==> !Excluded(m[j])) && HasExt(m, ext, n, |m|)
  }

  lemma IcAtSlice(s: string, pat: string, p: nat, e: nat, i: nat)
    requires p <= e <= |s|
    ensures p + i + |pat| <= e ==> (IcAt(s[p..e], pat, i) <==> IcAt(s, pat, p + i))
    ensures p + i + |pat| > e ==> !IcAt(s[p..e], pat, i)
  {
    if p + i + |pat| <= e {
      forall j | 0 <= j < |pat|
        ensures LowerChar(s[p..e][i + j]) == pat[j] <==> LowerChar(s[p + i + j]) == pat[j]
      {
      }
    }
  }

  lemma {:induction false} SliceIsUrl(s: string, ext: string, p: nat)
    requires p <= |s| && SchemeLen(s, p) > 0
    requires HasExt(s, ext, p + SchemeLen(s, p), RunEnd(s, p + SchemeLen(s, p)))
    ensures Url(s[p..RunEnd(s, p + SchemeLen(s, p))], ext)
  {
    var n := SchemeLen(s, p);
    var e := RunEnd(s, p + n);
    var m := s[p..e];
    assert SchemeLen(m, 0) == n by {
      IcAtSlice(s, "https://", p, e, 0);
      IcAtSlice(s, "http://", p, e, 0);
    }
    assert forall j :: n <= j < |m| ==> !Excluded(m[j]) by {
      forall j | n <= j < |m| ensures !Excluded(m[j]) {
        assert m[j] == s[p + j];
      }
    }
    assert HasExt(m, ext, n, |m|) by {
      var d :| p + n + 1 <= d && d + 1 + |ext| <= e && d < |s| && s[d] == '.' && IcAt(s, ext, d + 1);
      IcAtSlice(s, ext, p, e, d + 1 - p);
      assert m[d - p] == '.';
    }
  }

  /**
   * Where the global scan from position `p` on finds its matches: the pieces `s[a..b]`, in
   * order and without overlap.
   */
  function Spans(s: string, ext: string, p: nat): (r: seq<(nat, nat)>)
    requires p <= |s|
    ensures forall i :: 0 <= i < |r| ==> p <= r[i].0 < r[i].1 <= |s|
    ensures forall i :: 0 < i < |r| ==> r[i - 1].1 <= r[i].0
    decreases |s| - p
  {
    if p == |s| then []
    else
      var n := SchemeLen(s, p);
      if n > 0 && HasExt(s, ext, p + n, RunEnd(s, p + n)) then
        [(p, RunEnd(s, p + n))] + Spans(s, ext, RunEnd(s, p + n))
      else
        Spans(s, ext, p + 1)
  }

  /** Every span of `sp` lies within `s` and its text is a URL. */
  predicate AllUrls(s: string, sp: seq<(nat, nat)>, ext: string)
  {
    forall i :: 0 <= i < |sp| ==> sp[i].0 <= sp[i].1 <= |s| && Url(s[sp[i].0..sp[i].1], ext)
  }

  lemma AllUrlsCons(s: string, x: (nat, nat), rest: seq<(nat, nat)>, ext: string)
    requires x.0 <= x.1 <= |s| && Url(s[x.0..x.1], ext) && AllUrls(s, rest, ext)
    ensures AllUrls(s, [x] + rest, ext)
  {
    var sp := [x] + rest;
    forall i | 0 <= i < |sp| ensures sp[i].0 <= sp[i].1 <= |s| && Url(s[sp[i].0..sp[i].1], ext) {
      if i > 0 {
        assert sp[i] == rest[i - 1];
      }
    }
  }

  /** Every piece the scan finds is a URL. */
  lemma {:induction false} SpansAreUrls(s: string, ext: string, p: nat)
    requires p <= |s|
    ensures AllUrls(s, Spans(s, ext, p), ext)
    decreases |s| - p
  {
    if p < |s| {
      var n := SchemeLen(s, p);
      if n > 0 && HasExt(s, ext, p + n, RunEnd(s, p + n)) {
        var e := RunEnd(s, p + n);
        SliceIsUrl(s, ext, p);
        SpansAreUrls(s, ext, e);
        AllUrlsCons(s, (p, e), Spans(s, ext, e), ext);
      } else {
        SpansAreUrls(s, ext, p + 1);
      }
    }
  }

  /** `html.match(regex) || []`: the text of each piece the scan finds, in order. */
  function Matches(s: string, ext: string): (r: seq<string>)
    ensures var sp := Spans(s, ext, 0);
      |r| == |sp| && forall i :: 0 <= i < |r| ==> r[i] == s[sp[i].0..sp[i].1] && Url(r[i], ext)
  {
    var sp := Spans(s, ext, 0);
    SpansAreUrls(s, ext, 0);
    seq(|sp|, i requires 0 <= i < |sp| => s[sp[i].0..sp[i].1])
  }

  /** A match begins with `http://` or `https://` in any case, and holds no excluded character. */
  lemma UrlShape(m: string, ext: string)
    requires Url(m, ext)
    ensures IcAt(m, "https://", 0) || IcAt(m, "http://", 0)
    ensures forall j :: 0 <= j < |m| ==> !Excluded(m[j])
    ensures exists d :: 0 < d && d + 1 + |ext| <= |m| && m[d] == '.' && IcAt(m, ext, d + 1)
  {
    var n := SchemeLen(m, 0);
    forall j | 0 <= j < n ensures !Excluded(m[j]) {
      if n == 8 {
        assert LowerChar(m[j]) == "https://"[j];
      } else {
        assert LowerChar(m[j]) == "http://"[j];
      }
    }
  }

  lemma {:induction false} RunEndAllowed(s: string, k: nat)
    requires k <= |s| && forall j :: k <= j < |s| ==> !Excluded(s[j])
    ensures RunEnd(s, k) == |s|
    decreases |s| - k
  {
    if k < |s| {
      RunEndAllowed(s, k + 1);
    }
  }

  /** A string that is one URL by itself is found whole. */
  lemma UrlFoundWhole(m: string, ext: string)
    requires Url(m, ext)
    ensures Matches(m, ext) == [m]
  {
    var n := SchemeLen(m, 0);
    RunEndAllowed(m, n);
    assert HasExt(m, ext, n, RunEnd(m, n));
    assert Spans(m, ext, 0) == [(0, |m|)] + Spans(m, ext, |m|);
    assert m[0..|m|] == m;
  }
}
