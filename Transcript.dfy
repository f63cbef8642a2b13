/**
 * `get_video_transcript` (api/utils.py and api/app/video/actions.py): parse
 * the video id, then fetch the transcript with at most seven attempts; and the
 * title-prefix step of `improve_transcript_readability`
 * (api/app/video/actions.py).
 */
module Transcript {
  import opened Wrappers
  import opened Text
  import opened YouTube
  import opened MarkdownDoc
  import opened CleanMarkdownStripAll

  const MaxAttempts: nat := 7
  const FetchFailedMessage := "Failed to fetch video transcript"

  /** What one `ytt_api.fetch(video_id)` call gives: the segment texts, or an exception. */
  datatype FetchOutcome = Fetched(segments: seq<string>) | FetchFailed(message: string)

  /** The service, seen from the loop: the outcome of attempt `n` for a video id. */
  type Fetcher = (string, nat) -> FetchOutcome

  /** `" ".join(t.text for t in transcript).replace("\n", " ")` */
  function TranscriptText(segments: seq<string>): (r: string)
    ensures '\n' !in r
    ensures |r| == |Join(segments, " ")|
    ensures forall i :: 0 <= i < |r| && Join(segments, " ")[i] != '\n' ==> r[i] == Join(segments, " ")[i]
    ensures forall i :: 0 <= i < |r| && Join(segments, " ")[i] == '\n' ==> r[i] == ' '
  {
    ReplaceChar(Join(segments, " "), '\n', ' ')
  }

  /** The first attempt, from attempt `n` on, that fetches the transcript. */
  function FirstFetched(fetch: Fetcher, id: string, n: nat): (r: Option<nat>)
    requires n <= MaxAttempts
    ensures r.Some? ==> n <= r.value < MaxAttempts && fetch(id, r.value).Fetched?
    decreases MaxAttempts - n
  {
    if n == MaxAttempts then None
    else if fetch(id, n).Fetched? then Some(n)
    else FirstFetched(fetch, id, n + 1)
  }

  /** What `get_video_transcript` returns or raises. */
  function TranscriptOf(url: string, fetch: Fetcher): Result<string, Error> {
    match ParseVideoId(url)
    case Failure(e) => Failure(e)
    case Success(id) =>
      match FirstFetched(fetch, id, 0)
      case Some(n) => Success(TranscriptText(fetch(id, n).segments))
      case None => Failure(RuntimeError(FetchFailedMessage))
  }

  /** How many fetch calls `get_video_transcript` makes. */
  function CallsOf(url: string, fetch: Fetcher): nat {
    match ParseVideoId(url)
    case Failure(_) => 0
    case Success(id) =>
      match FirstFetched(fetch, id, 0)
      case Some(n) => n + 1
      case None => MaxAttempts
  }

  /** The retry loop. `calls` counts the fetch calls made. */
  method GetVideoTranscript(url: string, fetch: Fetcher) returns (r: Result<string, Error>, calls: nat)
    ensures r == TranscriptOf(url, fetch)
    ensures calls == CallsOf(url, fetch)
  {
    calls := 0;
    var parsed := ParseVideoId(url);
    if parsed.Failure? {
      return Failure(parsed.error), calls;
    }
    var id := parsed.value;
    var attempts: nat := 0;
    while attempts < MaxAttempts
      invariant attempts <= MaxAttempts
      invariant calls == attempts
      invariant FirstFetched(fetch, id, 0) == FirstFetched(fetch, id, attempts)
      decreases MaxAttempts - attempts
    {
      var outcome := fetch(id, attempts);
      calls := calls + 1;
      match outcome {
        case Fetched(segments) =>
          return Success(TranscriptText(segments)), calls;
        case FetchFailed(_) =>
          attempts := attempts + 1;
          if attempts >= MaxAttempts {
            return Failure(RuntimeError(FetchFailedMessage)), calls;
          }
      }
    }
    // Not reached: the seventh failure leaves the loop by the return above.
    r := Failure(RuntimeError(FetchFailedMessage));
  }

  /** An id that does not parse fails before any fetch, with the parser's error. */
  lemma InvalidUrlFetchesNothing(url: string, fetch: Fetcher)
    requires ParseVideoId(url).Failure?
    ensures TranscriptOf(url, fetch) == Failure(RuntimeError(InvalidUrlMessage))
    ensures CallsOf(url, fetch) == 0
  {
  }

  lemma {:induction false} FirstFetchedIsFirst(fetch: Fetcher, id: string, n: nat)
    requires n <= MaxAttempts
    ensures FirstFetched(fetch, id, n).Some? ==>
      forall j :: n <= j < FirstFetched(fetch, id, n).value ==> fetch(id, j).FetchFailed?
    ensures FirstFetched(fetch, id, n).None? <==> forall j :: n <= j < MaxAttempts ==> fetch(id, j).FetchFailed?
    decreases MaxAttempts - n
  {
    if n < MaxAttempts {
      FirstFetchedIsFirst(fetch, id, n + 1);
    }
  }

  /** A transcript is the text of the first successful attempt among the first
    * seven, and it has no newline. */
  lemma TranscriptIsFirstSuccess(url: string, fetch: Fetcher)
    requires TranscriptOf(url, fetch).Success?
    ensures ParseVideoId(url).Success?
    ensures var id := ParseVideoId(url).value;
      exists n :: 0 <= n < MaxAttempts && fetch(id, n).Fetched?
        && (forall j :: 0 <= j < n ==> fetch(id, j).FetchFailed?)
        && TranscriptOf(url, fetch).value == TranscriptText(fetch(id, n).segments)
        && CallsOf(url, fetch) == n + 1
    ensures '\n' !in TranscriptOf(url, fetch).value
  {
    var id := ParseVideoId(url).value;
    FirstFetchedIsFirst(fetch, id, 0);
    var n := FirstFetched(fetch, id, 0).value;
    assert fetch(id, n).Fetched?;
  }

  /** The loop gives up only once all seven attempts have failed, and never
    * makes more than seven calls. */
  lemma GivesUpOnlyAfterSeven(url: string, fetch: Fetcher)
    ensures TranscriptOf(url, fetch) == Failure(RuntimeError(FetchFailedMessage)) <==>
      ParseVideoId(url).Success? && forall j :: 0 <= j < MaxAttempts ==> fetch(ParseVideoId(url).value, j).FetchFailed?
    ensures CallsOf(url, fetch) <= MaxAttempts
  {
    if ParseVideoId(url).Success? {
      FirstFetchedIsFirst(fetch, ParseVideoId(url).value, 0);
    }
  }

  /** The Gemini reply: its content (possibly `None`), or the exception the call raised. */
  type Reply = Result<Option<string>, Error>

  const NoneConcatMessage := "can only concatenate str (not \"NoneType\") to str"

  /** The text `improve_transcript_readability` cleans. */
  function TitledTranscript(title: string, content: string): string {
    "# " + title + "\n" + content
  }

  /** `improve_transcript_readability` after the model call: prefix the title
    * line and clean. The emptiness check never fires, because the text always
    * starts with "# ". */
  function ImproveTranscriptReadability(title: string, reply: Reply): (r: Result<string, Error>)
    ensures reply.Failure? ==> r == Failure(reply.error)
    ensures reply.Success? && reply.value.None? ==> r == Failure(TypeError(NoneConcatMessage))
    ensures reply.Success? && reply.value.Some? ==> r.Success?
  {
    match reply
    case Failure(e) => Failure(e)
    case Success(None) => Failure(TypeError(NoneConcatMessage))
    case Success(Some(content)) =>
      var improved := TitledTranscript(title, content);
      if improved == [] then Failure(RuntimeError("Failed to improve transcript readability"))
      else Success(CleanMarkdownStripAll.CleanMarkdownStripAll(improved))
  }

  /** With a one-line title, the cleaned text is the trimmed title line, then
    * the trimmed non-blank lines of the reply. */
  lemma TitleLineFirst(title: string, content: string)
    requires NoLineBreak(title)
    ensures ImproveTranscriptReadability(title, Success(Some(content)))
      == Success(Join([Strip("# " + title)] + NonBlank(TrimmedLines(content)), "\n"))
  {
    var head := "# " + title;
    assert NoLineBreak(head) by {
      assert forall i :: 2 <= i < |head| ==> head[i] == title[i - 2];
    }
    assert Strip(head) != "" by {
      assert !AllSpace(head) by { assert !IsSpace(head[0]); }
    }
    calc {
      ImproveTranscriptReadability(title, Success(Some(content)));
      { assert TitledTranscript(title, content) == head + "\n" + content; }
      Success(CleanMarkdownStripAll.CleanMarkdownStripAll(head + "\n" + content));
      { StripAllIsFilter(head + "\n" + content); }
      Success(Join(NonBlank(TrimmedLines(head + "\n" + content)), "\n"));
      { TrimmedLinesCons(head, content); }
      Success(Join(NonBlank([Strip(head)] + TrimmedLines(content)), "\n"));
      { NonBlankCons(Strip(head), TrimmedLines(content)); }
      Success(Join([Strip(head)] + NonBlank(TrimmedLines(content)), "\n"));
    }
  }

  /** A first line without a line break is split off and trimmed on its own. */
  lemma TrimmedLinesCons(head: string, rest: string)
    requires NoLineBreak(head)
    ensures TrimmedLines(head + "\n" + rest) == [Strip(head)] + TrimmedLines(rest)
  {
    SplitLinesCons(head, rest);
    MapStripAppend([head], SplitLines(rest));
  }
}
