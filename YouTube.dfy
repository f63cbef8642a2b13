/**
 * The six YouTube URL patterns shared by every service, the anchored check
 * (`re.match`), the unanchored check (`RegExp.test`), id extraction
 * (`re.search` / `String.match`, pattern by pattern) and the canonical
 * `watch?v=` form.
 *
 * Each pattern is `(?:https?:\/\/)?(?:www\.)?<path>([a-zA-Z0-9_-]{11})`
 * (the short-link pattern has no `www.` part). It is matched as a
 * backtracking engine does: the optional parts are tried present first,
 * then absent.
 */
module YouTube {
  import opened Wrappers
  import opened Text

  /** One pattern: whether it allows `www.`, and the literal path before the id. */
  datatype Pattern = Pattern(allowsWww: bool, path: string)

  /** `VALID_YOUTUBE_URL_PATTERNS`, in order. */
  const Patterns: seq<Pattern> := [
    Pattern(true, "youtube.com/watch?v="),
    Pattern(false, "youtu.be/"),
    Pattern(true, "youtube.com/embed/"),
    Pattern(true, "youtube.com/v/"),
    Pattern(true, "youtube.com/shorts/"),
    Pattern(true, "youtube.com/live/")
  ]

  const InvalidUrlMessage := "Invalid YouTube video URL or unable to extract video ID."

  /** `[a-zA-Z0-9_-]` */
  predicate IdChar(c: char) {
    ('a' <= c <= 'z') || ('A' <= c <= 'Z') || ('0' <= c <= '9') || c == '_' || c == '-'
  }

  /** The explicit check on a capture: `len(video_id) == 11 and re.fullmatch(r"[a-zA-Z0-9_-]+", video_id)`. */
  predicate ValidId(id: string) {
    |id| == 11 && forall i :: 0 <= i < |id| ==> IdChar(id[i])
  }

  /** `<path>([a-zA-Z0-9_-]{11})` at the start of `s`; the capture. */
  function MatchPath(p: Pattern, s: string): (r: Option<string>)
    ensures r.Some? ==> ValidId(r.value)
  {
    var n := |p.path|;
    if StartsWith(s, p.path) && n + 11 <= |s| && ValidId(s[n..n + 11]) then Some(s[n..n + 11]) else None
  }

  /** `(?:www\.)?` then the path. */
  function MatchHost(p: Pattern, s: string): (r: Option<string>)
    ensures r.Some? ==> ValidId(r.value)
  {
    if p.allowsWww && StartsWith(s, "www.") && MatchPath(p, s[4..]).Some? then MatchPath(p, s[4..])
    else MatchPath(p, s)
  }

  /** The whole pattern at the start of `s` (what `re.match` does); the capture. */
  function MatchAt(p: Pattern, s: string): (r: Option<string>)
    ensures r.Some? ==> ValidId(r.value)
  {
    if StartsWith(s, "https://") && MatchHost(p, s[8..]).Some? then MatchHost(p, s[8..])
    else if StartsWith(s, "http://") && MatchHost(p, s[7..]).Some? then MatchHost(p, s[7..])
    else MatchHost(p, s)
  }

  /** The leftmost match at or after position `start` (what `re.search` does). */
  function SearchFrom(p: Pattern, s: string, start: nat): Option<string>
    requires start <= |s|
    decreases |s| - start
  {
    match MatchAt(p, s[start..])
    case Some(id) => Some(id)
    case None => if start == |s| then None else SearchFrom(p, s, start + 1)
  }

  function Search(p: Pattern, s: string): Option<string> {
    SearchFrom(p, s, 0)
  }

  /** No match starts at a position in `[a, b)`. */
  predicate NoMatchBetween(p: Pattern, s: string, a: nat, b: nat)
    requires b <= |s| + 1
  {
    forall j :: a <= j < b ==> MatchAt(p, s[j..]).None?
  }

  /** The search finds the match at the leftmost position where there is one. */
  lemma {:induction false} SearchFromSpec(p: Pattern, s: string, start: nat)
    requires start <= |s|
    ensures SearchFrom(p, s, start).Some? ==>
      exists i :: start <= i <= |s| && MatchAt(p, s[i..]) == SearchFrom(p, s, start) && NoMatchBetween(p, s, start, i)
    ensures SearchFrom(p, s, start).None? <==> NoMatchBetween(p, s, start, |s| + 1)
    decreases |s| - start
  {
    var r := SearchFrom(p, s, start);
    if MatchAt(p, s[start..]).Some? {
      assert MatchAt(p, s[start..]) == r && NoMatchBetween(p, s, start, start);
    } else if start < |s| {
      SearchFromSpec(p, s, start + 1);
      if r.Some? {
        var i :| start + 1 <= i <= |s| && MatchAt(p, s[i..]) == r && NoMatchBetween(p, s, start + 1, i);
        assert NoMatchBetween(p, s, start, i);
      }
    }
  }

  lemma SearchValid(p: Pattern, s: string)
    ensures Search(p, s).Some? ==> ValidId(Search(p, s).value)
  {
    SearchFromSpec(p, s, 0);
  }

  /** `any(re.match(pattern, url) for pattern in VALID_YOUTUBE_URL_PATTERNS)`:
    * some pattern matches at the very start. */
  predicate IsYoutubeUrl(url: string) {
    exists k :: 0 <= k < |Patterns| && MatchAt(Patterns[k], url).Some?
  }

  /** `VALID_YOUTUBE_URL_PATTERNS.some(pattern => new RegExp(pattern).test(url))`:
    * some pattern occurs anywhere. */
  predicate IsYoutubeUrlUnanchored(url: string) {
    exists k :: 0 <= k < |Patterns| && Search(Patterns[k], url).Some?
  }

  /** The search loop from pattern `k` on: the first capture that passes the check. */
  function FindFrom(url: string, k: nat): (r: Option<string>)
    requires k <= |Patterns|
    ensures r.Some? ==> ValidId(r.value)
    decreases |Patterns| - k
  {
    if k == |Patterns| then None
    else
      match Search(Patterns[k], url)
      case Some(id) => if ValidId(id) then Some(id) else FindFrom(url, k + 1)
      case None => FindFrom(url, k + 1)
  }

  /** No pattern in `[a, b)` occurs in `url`. */
  predicate NoPatternBetween(url: string, a: nat, b: nat)
    requires b <= |Patterns|
  {
    forall m :: a <= m < b ==> Search(Patterns[m], url).None?
  }

  lemma {:induction false} FindFromSpec(url: string, k: nat)
    requires k <= |Patterns|
    ensures FindFrom(url, k).Some? ==>
      exists j :: k <= j < |Patterns| && Search(Patterns[j], url) == FindFrom(url, k) && NoPatternBetween(url, k, j)
    ensures FindFrom(url, k).None? <==> NoPatternBetween(url, k, |Patterns|)
    decreases |Patterns| - k
  {
    if k < |Patterns| {
      var here := Search(Patterns[k], url);
      var r := FindFrom(url, k);
      SearchValid(Patterns[k], url);
      FindFromSpec(url, k + 1);
      if here.Some? {
        assert Search(Patterns[k], url) == r && NoPatternBetween(url, k, k);
      } else {
        assert r == FindFrom(url, k + 1);
        if r.Some? {
          var j :| k + 1 <= j < |Patterns| && Search(Patterns[j], url) == r && NoPatternBetween(url, k + 1, j);
          assert NoPatternBetween(url, k, j);
        }
      }
    }
  }

  /** The video id the loop in `parse_youtube_video_id` / `parseYoutubeVideoId` returns, if any. */
  function FindVideoId(url: string): Option<string> {
    FindFrom(url, 0)
  }

  /** `parse_youtube_video_id` (and `get_youtube_video_id`): the id, or `RuntimeError`. */
  function ParseVideoId(url: string): (r: Result<string, Error>)
    ensures r.Failure? ==> r.error == RuntimeError(InvalidUrlMessage)
  {
    match FindVideoId(url)
    case Some(id) => Success(id)
    case None => Failure(RuntimeError(InvalidUrlMessage))
  }

  /** `parseYoutubeVideoId`: the id, or an `Error` with the same message. */
  function ParseVideoIdTs(url: string): (r: Result<string, Error>)
    ensures r.Failure? ==> r.error == JsError(InvalidUrlMessage)
  {
    match FindVideoId(url)
    case Some(id) => Success(id)
    case None => Failure(JsError(InvalidUrlMessage))
  }

  /** The id is the capture of the first listed pattern that occurs anywhere in
    * the URL, and there is none exactly when no pattern occurs: the explicit
    * length-and-alphabet check never rejects a capture. */
  lemma FindVideoIdSpec(url: string)
    ensures FindVideoId(url).Some? ==> ValidId(FindVideoId(url).value)
    ensures FindVideoId(url).Some? ==>
      exists j :: 0 <= j < |Patterns| && Search(Patterns[j], url) == FindVideoId(url) && NoPatternBetween(url, 0, j)
    ensures FindVideoId(url).None? <==> NoPatternBetween(url, 0, |Patterns|)
  {
    FindFromSpec(url, 0);
  }

  /** The unanchored check holds exactly when an id can be extracted. */
  lemma UnanchoredIffParses(url: string)
    ensures IsYoutubeUrlUnanchored(url) <==> ParseVideoIdTs(url).Success?
    ensures IsYoutubeUrlUnanchored(url) <==> ParseVideoId(url).Success?
  {
    FindVideoIdSpec(url);
  }

  /** A match at the start is also a match found by the search. */
  lemma MatchAtStartIsFound(p: Pattern, url: string)
    requires MatchAt(p, url).Some?
    ensures Search(p, url).Some?
  {
    assert url[0..] == url;
  }

  /** Whenever the anchored check holds, an id can be extracted. */
  lemma AnchoredImpliesParses(url: string)
    requires IsYoutubeUrl(url)
    ensures ParseVideoId(url).Success?
  {
    var k :| 0 <= k < |Patterns| && MatchAt(Patterns[k], url).Some?;
    MatchAtStartIsFound(Patterns[k], url);
    FindVideoIdSpec(url);
  }

  /** `normalize_youtube_url` / `normalizeYoutubeURL`: the `watch?v=` form. */
  function CanonicalUrl(id: string): string {
    "https://www.youtube.com/watch?v=" + id
  }

  function NormalizeYoutubeUrl(url: string): (r: Result<string, Error>)
    ensures r.Failure? ==> r == Failure(RuntimeError(InvalidUrlMessage))
  {
    match ParseVideoId(url)
    case Success(id) => Success(CanonicalUrl(id))
    case Failure(e) => Failure(e)
  }

  function NormalizeYoutubeUrlTs(url: string): (r: Result<string, Error>)
    ensures r.Failure? ==> r == Failure(JsError(InvalidUrlMessage))
  {
    match ParseVideoIdTs(url)
    case Success(id) => Success(CanonicalUrl(id))
    case Failure(e) => Failure(e)
  }

  lemma AfterPrefix(a: string, b: string)
    ensures StartsWith(a + b, a) && (a + b)[|a|..] == b
  {
    assert (a + b)[..|a|] == a;
  }

  /** The canonical form of a valid id matches the first pattern at its start, capturing the id. */
  lemma CanonicalMatches(id: string)
    requires ValidId(id)
    ensures MatchAt(Patterns[0], CanonicalUrl(id)) == Some(id)
  {
    var p := Patterns[0];
    var t := p.path + id;
    CanonicalShape(id);
    PathMatches(p, id);
    HostMatches(p, t, id);
    SchemeMatches(p, "www." + t, id);
  }

  lemma CanonicalShape(id: string)
    ensures CanonicalUrl(id) == "https://" + ("www." + (Patterns[0].path + id))
  {
    CanonicalPrefix();
    var a, b, c := "https://", "www.", Patterns[0].path;
    assert a + (b + (c + id)) == (a + (b + c)) + id;
  }

  lemma CanonicalPrefix()
    ensures "https://www.youtube.com/watch?v=" == "https://" + ("www." + Patterns[0].path)
  {
  }

  lemma PathMatches(p: Pattern, id: string)
    requires ValidId(id)
    ensures MatchPath(p, p.path + id) == Some(id)
  {
    var t := p.path + id;
    AfterPrefix(p.path, id);
    assert t[|p.path|..|p.path| + 11] == id;
  }

  lemma HostMatches(p: Pattern, t: string, id: string)
    requires p.allowsWww && MatchPath(p, t) == Some(id)
    ensures MatchHost(p, "www." + t) == Some(id)
  {
    AfterPrefix("www.", t);
  }

  lemma SchemeMatches(p: Pattern, h: string, id: string)
    requires MatchHost(p, h) == Some(id)
    ensures MatchAt(p, "https://" + h) == Some(id)
  {
    AfterPrefix("https://", h);
  }

  /** Parsing the canonical form gives the id back, and the anchored check holds on it. */
  lemma CanonicalRoundTrip(id: string)
    requires ValidId(id)
    ensures ParseVideoId(CanonicalUrl(id)) == Success(id)
    ensures ParseVideoIdTs(CanonicalUrl(id)) == Success(id)
    ensures IsYoutubeUrl(CanonicalUrl(id))
  {
    var c := CanonicalUrl(id);
    CanonicalMatches(id);
    assert c[0..] == c;
    assert Search(Patterns[0], c) == Some(id);
  }

  /** Normalising twice is normalising once, and the result passes the anchored check. */
  lemma NormalizeIdempotent(url: string)
    requires NormalizeYoutubeUrl(url).Success?
    ensures NormalizeYoutubeUrl(NormalizeYoutubeUrl(url).value) == NormalizeYoutubeUrl(url)
    ensures IsYoutubeUrl(NormalizeYoutubeUrl(url).value)
  {
    var id := ParseVideoId(url).value;
    FindVideoIdSpec(url);
    CanonicalRoundTrip(id);
  }

  lemma NormalizeTsIdempotent(url: string)
    requires NormalizeYoutubeUrlTs(url).Success?
    ensures NormalizeYoutubeUrlTs(NormalizeYoutubeUrlTs(url).value) == NormalizeYoutubeUrlTs(url)
    ensures IsYoutubeUrlUnanchored(NormalizeYoutubeUrlTs(url).value)
  {
    var id := ParseVideoIdTs(url).value;
    FindVideoIdSpec(url);
    CanonicalRoundTrip(id);
    UnanchoredIffParses(CanonicalUrl(id));
  }

  lemma NotStartsWith(s: string, t: string, i: nat)
    requires i < |s| && i < |t| && s[i] != t[i]
    ensures !StartsWith(s, t)
  {
    if |t| <= |s| {
      assert s[..|t|][i] == s[i];
    }
  }

  /** No pattern matches where the first character begins neither a scheme,
    * nor `www.`, nor the path. */
  lemma FirstCharBlocks(p: Pattern, s: string)
    requires p.path != [] && s != [] && s[0] != 'h' && s[0] != 'w' && s[0] != p.path[0]
    ensures MatchAt(p, s).None?
  {
    NotStartsWith(s, "https://", 0);
    NotStartsWith(s, "http://", 0);
    NotStartsWith(s, "www.", 0);
    NotStartsWith(s, p.path, 0);
  }

  /** Positions without a match are skipped by the search. */
  lemma {:induction false} SearchSkips(p: Pattern, s: string, a: nat, b: nat)
    requires a <= b <= |s| && NoMatchBetween(p, s, a, b)
    ensures SearchFrom(p, s, a) == SearchFrom(p, s, b)
    decreases b - a
  {
    if a < b {
      SearchSkips(p, s, a + 1, b);
    }
  }

  /** `https://m.youtube.com/watch?v=dQw4w9WgXcQ`, a mobile watch link. */
  const MobileHost := "m." + Patterns[0].path + "dQw4w9WgXcQ"
  const MobileUrl := "https://" + MobileHost

  lemma FirstOfSuffix(a: string, b: string, j: nat)
    requires j < |a|
    ensures (a + b)[j..] != [] && (a + b)[j..][0] == a[j]
  {
    assert (a + b)[j] == a[j];
  }

  lemma MobileNotAnchored(k: nat)
    requires k < |Patterns|
    ensures MatchAt(Patterns[k], MobileUrl).None?
  {
    var u := MobileUrl;
    var q := Patterns[k];
    assert q.path[0] == 'y';
    AfterPrefix("https://", MobileHost);
    FirstOfSuffix("m.", Patterns[0].path + "dQw4w9WgXcQ", 0);
    assert MobileHost == "m." + (Patterns[0].path + "dQw4w9WgXcQ");
    FirstCharBlocks(q, MobileHost);
    FirstOfSuffix("https://", MobileHost, 0);
    assert u[0] == 'h';
    assert u[4] == 's' by { FirstOfSuffix("https://", MobileHost, 4); assert u[4..][0] == u[4]; }
    NotStartsWith(u, "http://", 4);
    NotStartsWith(u, "www.", 0);
    NotStartsWith(u, q.path, 0);
  }

  lemma MobileNoMatchAt(j: nat)
    requires 1 <= j < 10
    ensures MatchAt(Patterns[0], MobileUrl[j..]).None?
  {
    var p := Patterns[0];
    var t := p.path + "dQw4w9WgXcQ";
    assert MobileHost == "m." + t;
    if j < 8 {
      FirstOfSuffix("https://", MobileHost, j);
      FirstCharBlocks(p, MobileUrl[j..]);
    } else {
      AfterPrefix("https://", MobileHost);
      assert MobileUrl[j..] == MobileHost[j - 8..];
      FirstOfSuffix("m.", t, j - 8);
      FirstCharBlocks(p, MobileHost[j - 8..]);
    }
  }

  lemma MobileFound()
    ensures Search(Patterns[0], MobileUrl) == Some("dQw4w9WgXcQ")
  {
    var p := Patterns[0];
    forall j | 0 <= j < 10
      ensures MatchAt(p, MobileUrl[j..]).None?
    {
      if j == 0 {
        MobileNotAnchored(0);
        assert MobileUrl[0..] == MobileUrl;
      } else {
        MobileNoMatchAt(j);
      }
    }
    SearchSkips(p, MobileUrl, 0, 10);
    MobileMatchAt10();
  }

  lemma MobileMatchAt10()
    ensures MatchAt(Patterns[0], MobileUrl[10..]) == Some("dQw4w9WgXcQ")
  {
    var p := Patterns[0];
    var t := p.path + "dQw4w9WgXcQ";
    assert MobileUrl[10..] == t by {
      assert MobileHost == "m." + t;
      AfterPrefix("https://", MobileHost);
      AfterPrefix("m.", t);
    }
    PathMatches(p, "dQw4w9WgXcQ");
    FirstOfSuffix(p.path, "dQw4w9WgXcQ", 0);
    BareMatch(p, t, "dQw4w9WgXcQ");
  }

  /** A text starting with 'y' has no scheme and no "www." to skip. */
  lemma BareMatch(p: Pattern, t: string, id: string)
    requires MatchPath(p, t) == Some(id) && t != [] && t[0] == 'y'
    ensures MatchAt(p, t) == Some(id)
  {
    NotStartsWith(t, "https://", 0);
    NotStartsWith(t, "http://", 0);
    NotStartsWith(t, "www.", 0);
  }

  /** A mobile link fails the anchored check (no pattern matches at its start)
    * and still yields its id, found by the first pattern at position 10. */
  lemma MobileUrlParsesButNotAnchored()
    ensures !IsYoutubeUrl(MobileUrl)
    ensures ParseVideoId(MobileUrl) == Success("dQw4w9WgXcQ")
    ensures IsYoutubeUrlUnanchored(MobileUrl)
  {
    forall k | 0 <= k < |Patterns|
      ensures MatchAt(Patterns[k], MobileUrl).None?
    {
      MobileNotAnchored(k);
    }
    MobileFound();
    SearchValid(Patterns[0], MobileUrl);
    assert FindVideoId(MobileUrl) == Some("dQw4w9WgXcQ");
    UnanchoredIffParses(MobileUrl);
  }
}
