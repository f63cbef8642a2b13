/**
 * `VideoTranscriber` (api/app/lib/transcription.py): pick the source kind,
 * obtain an audio file, transcribe it, improve its readability with the LLM
 * client, and always try to remove the temporary directory. Downloads,
 * ffmpeg, yt-dlp, whisper and the file system are outcomes given by the
 * caller.
 */
module Transcriber {
  import opened Wrappers
  import opened Text
  import opened SourceKind
  import opened YouTube
  import CleanMarkdown
  import LlmClientPy

  /** Which branch of `transcribe_video` a URL takes. */
  datatype Route = AudioRoute | VideoRoute | YoutubeRoute | NoRoute

  /** Direct audio first, then direct video, then the anchored YouTube check. */
  function RouteOf(url: string): (r: Route)
    ensures r == AudioRoute <==> IsDirectAudioUrl(url)
    ensures r == VideoRoute <==> !IsDirectAudioUrl(url) && IsDirectVideoUrl(url)
    ensures r == YoutubeRoute <==> !IsDirectAudioUrl(url) && !IsDirectVideoUrl(url) && IsYoutubeUrl(url)
    ensures r == NoRoute <==> !IsDirectAudioUrl(url) && !IsDirectVideoUrl(url) && !IsYoutubeUrl(url)
  {
    if IsDirectAudioUrl(url) then AudioRoute
    else if IsDirectVideoUrl(url) then VideoRoute
    else if IsYoutubeUrl(url) then YoutubeRoute
    else NoRoute
  }

  const InvalidSourceMessage := "Invalid input source. Provide a valid YouTube URL, direct video URL, direct audio URL."

  /** `os.path.basename`: the text after the last '/'. */
  function Basename(path: string): (r: string)
    ensures '/' !in r
    ensures EndsWith(path, r)
  {
    var parts := Split(path, '/');
    JoinSplit(path, '/');
    JoinLastPart(parts, "/");
    parts[|parts| - 1]
  }

  lemma {:induction false} JoinLastPart(parts: seq<string>, sep: string)
    requires |parts| >= 1
    ensures EndsWith(Join(parts, sep), parts[|parts| - 1])
  {
    if |parts| > 1 {
      JoinLastPart(parts[1..], sep);
      var rest := Join(parts[1..], sep);
      var last := parts[|parts| - 1];
      assert parts[1..][|parts[1..]| - 1] == last;
      assert Join(parts, sep) == (parts[0] + sep) + rest;
      assert rest[|rest| - |last|..] == last;
      assert (parts[0] + sep + rest)[|parts[0] + sep + rest| - |last|..] == rest[|rest| - |last|..];
    }
  }

  /** `os.path.join(a, b)` for two components. */
  function PathJoin(a: string, b: string): (r: string)
    ensures b != [] && b[0] != '/' ==> EndsWith(r, "/" + b) || (a == [] && r == b)
  {
    if b != [] && b[0] == '/' then b
    else if a == [] || a[|a| - 1] == '/' then a + b
    else a + "/" + b
  }

  /** What the foreign steps of one `transcribe_video` call give. */
  datatype Environment = Environment(
    download: Result<int, string>,             // status code of `requests.get(url, stream=True)`, or what it raises
    ffmpegError: Option<string>,               // the `CalledProcessError` of ffmpeg, if any
    ytdlpError: Option<string>,                // the `CalledProcessError` of yt-dlp, if any
    fileExists: string -> bool,                // `os.path.exists`
    whisperResult: string -> Result<map<string, string>, string>,  // `whisper_model.transcribe(path)`, or what it raises
    send: LlmClientPy.Transport,               // the readability model's transport
    elapsed: real,                             // the clock difference it measures
    rmtreeError: Option<string>)               // the error `shutil.rmtree` raises on an existing directory

  /** `_download_file`: the request, the status check, then the file under the
    * temporary directory, which must still exist for the file to be opened. */
  function DownloadFile(tempDir: string, tempDirExists: bool, url: string, download: Result<int, string>): (r: Result<string, Error>)
    ensures download.Failure? ==> r == Failure(LibraryError(download.error))
    ensures download.Success? && download.value != 200 ==> r == Failure(RuntimeError("Failed to download file from " + url))
    ensures download == Success(200) && tempDirExists ==> r == Success(PathJoin(tempDir, Basename(url)))
    ensures download == Success(200) && !tempDirExists ==>
      r == Failure(FileNotFoundError(NoDirMessage + ("'" + PathJoin(tempDir, Basename(url)) + "'")))
  {
    if download.Failure? then Failure(LibraryError(download.error))
    else if download.value != 200 then Failure(RuntimeError("Failed to download file from " + url))
    else
      var path := PathJoin(tempDir, Basename(url));
      if !tempDirExists then Failure(FileNotFoundError(NoDirMessage + ("'" + path + "'")))
      else Success(path)
  }

  /** `_extract_audio_from_video` */
  function ExtractAudio(tempDir: string, ffmpegError: Option<string>): (r: Result<string, Error>)
    ensures ffmpegError.Some? <==> r.Failure?
    ensures r.Success? ==> r.value == PathJoin(tempDir, "extracted_audio.wav")
  {
    match ffmpegError
    case Some(e) => Failure(RuntimeError("Failed to extract audio: " + e))
    case None => Success(PathJoin(tempDir, "extracted_audio.wav"))
  }

  /** `_download_youtube_audio` */
  function DownloadYoutubeAudio(tempDir: string, ytdlpError: Option<string>): (r: Result<string, Error>)
    ensures ytdlpError.Some? <==> r.Failure?
    ensures r.Success? ==> r.value == PathJoin(tempDir, "youtube_extracted_audio.wav")
  {
    match ytdlpError
    case Some(e) => Failure(RuntimeError("Failed to download YouTube audio: " + e))
    case None => Success(PathJoin(tempDir, "youtube_extracted_audio.wav"))
  }

  /** `_transcribe_audio`: the file must exist, whisper must not raise, and its
    * result must have a text. */
  function TranscribeAudio(path: string, env: Environment): (r: Result<string, Error>)
    ensures !env.fileExists(path) ==> r == Failure(FileNotFoundError("Audio file not found: " + path))
    ensures env.fileExists(path) && env.whisperResult(path).Failure? ==>
      r == Failure(LibraryError(env.whisperResult(path).error))
    ensures env.fileExists(path) && env.whisperResult(path).Success? && "text" !in env.whisperResult(path).value ==>
      r == Failure(RuntimeError("Transcription failed."))
    ensures env.fileExists(path) && env.whisperResult(path).Success? && "text" in env.whisperResult(path).value ==>
      r == Success(Strip(env.whisperResult(path).value["text"]))
    ensures r.Success? ==> Stripped(r.value)
  {
    if !env.fileExists(path) then Failure(FileNotFoundError("Audio file not found: " + path))
    else
      match env.whisperResult(path)
      case Failure(e) => Failure(LibraryError(e))
      case Success(result) =>
        if "text" !in result then Failure(RuntimeError("Transcription failed."))
        else Success(Strip(result["text"]))
  }

  /** The audio file for a URL, by route. */
  function AudioPath(tempDir: string, tempDirExists: bool, url: string, env: Environment): (r: Result<string, Error>)
    ensures RouteOf(url) == NoRoute ==> r == Failure(ValueError(InvalidSourceMessage))
  {
    match RouteOf(url)
    case AudioRoute => DownloadFile(tempDir, tempDirExists, url, env.download)
    case VideoRoute =>
      (match DownloadFile(tempDir, tempDirExists, url, env.download)
       case Failure(e) => Failure(e)
       case Success(_) => ExtractAudio(tempDir, env.ffmpegError))
    case YoutubeRoute => DownloadYoutubeAudio(tempDir, env.ytdlpError)
    case NoRoute => Failure(ValueError(InvalidSourceMessage))
  }

  /** The transcript before the readability step. */
  function RawTranscript(tempDir: string, tempDirExists: bool, url: string, env: Environment): Result<string, Error> {
    match AudioPath(tempDir, tempDirExists, url, env)
    case Failure(e) => Failure(e)
    case Success(path) => TranscribeAudio(path, env)
  }

  /** The `except` clause of `transcribe_video`. */
  function Wrap(r: Result<string, Error>): (w: Result<string, Error>)
    ensures r.Success? ==> w == r
    ensures r.Failure? ==> w == Failure(RuntimeError(WrapPrefix + r.error.Message()))
  {
    match r
    case Success(s) => Success(s)
    case Failure(e) => Failure(RuntimeError(WrapPrefix + e.Message()))
  }

  const WrapPrefix := "Failed to transcribe video: "
  const NoDirMessage := "[Errno 2] No such file or directory: "
  const CleanupWarningPrefix := "Warning: Failed to clean up temporary files: "
  const ReadabilityPrefix := "Failed to improve transcript readability: "
  const MissingSystemPromptMessage := "LLMClient.generate_response() missing 1 required positional argument: 'system_prompt'"
  const UserPromptPrefix := "Improve the readability of the following video transcript: "
  const ReadabilityTemperature: real := 0.825

  /** Stands for `IMPROVE_TRANSCRIPT_PROMPT_1`, whose text is not modelled. */
  const ImproveTranscriptPrompt1 := "IMPROVE_TRANSCRIPT_PROMPT_1"

  /** `_improve_transcript_readability` as written: the call leaves out the
    * required `system_prompt`, so it raises `TypeError` before any request. */
  function ImproveReadabilityAsWritten(transcript: string): (r: Result<string, Error>)
    ensures r.Failure?
  {
    Failure(RuntimeError(ReadabilityPrefix + TypeError(MissingSystemPromptMessage).Message()))
  }

  /** `_improve_transcript_readability` with the system prompt passed: the
    * reply's content, cleaned by `clean_markdown` as written. */
  function ImproveReadability(llm: LlmClientPy.LLMClient, transcript: string, env: Environment): (r: Result<string, Error>)
    requires llm.Valid()
  {
    match llm.GenerateResponse(ImproveTranscriptPrompt1, UserPromptPrefix + transcript, ReadabilityTemperature, env.send, env.elapsed)
    case Failure(e) => Failure(RuntimeError(ReadabilityPrefix + e.Message()))
    case Success(response) => Success(CleanMarkdown.CleanMarkdownAsWritten(response.content))
  }

  /** `transcribe_video` as written: never returns a transcript. */
  function TranscribeAsWritten(tempDir: string, tempDirExists: bool, url: string, env: Environment): Result<string, Error> {
    Wrap(ThenAsWritten(RawTranscript(tempDir, tempDirExists, url, env)))
  }

  function ThenAsWritten(raw: Result<string, Error>): (r: Result<string, Error>)
    ensures r.Failure?
    ensures raw.Success? ==> r == ImproveReadabilityAsWritten(raw.value)
  {
    match raw
    case Failure(e) => Failure(e)
    case Success(t) => ImproveReadabilityAsWritten(t)
  }

  /** The readability step after a successful transcription. */
  function Then(raw: Result<string, Error>, llm: LlmClientPy.LLMClient, env: Environment): Result<string, Error>
    requires llm.Valid()
  {
    match raw
    case Failure(e) => Failure(e)
    case Success(t) => ImproveReadability(llm, t, env)
  }

  /** `transcribe_video` with the readability call corrected. */
  function Transcribe(llm: LlmClientPy.LLMClient, tempDir: string, tempDirExists: bool, url: string, env: Environment): Result<string, Error>
    requires llm.Valid()
  {
    Wrap(Then(RawTranscript(tempDir, tempDirExists, url, env), llm, env))
  }

  const AsWrittenError := RuntimeError(WrapPrefix + ReadabilityPrefix + MissingSystemPromptMessage)

  lemma WrapAsWritten(raw: Result<string, Error>)
    ensures Wrap(ThenAsWritten(raw)).Failure?
    ensures raw.Success? ==> Wrap(ThenAsWritten(raw)) == Failure(AsWrittenError)
  {
    if raw.Success? {
      var m := ReadabilityPrefix + MissingSystemPromptMessage;
      assert ThenAsWritten(raw) == Failure(RuntimeError(m));
      assert WrapPrefix + m == WrapPrefix + ReadabilityPrefix + MissingSystemPromptMessage;
    }
  }

  /** As written, every call fails; once the audio is transcribed, the error is
    * the missing-argument `TypeError`, wrapped twice. */
  lemma AsWrittenNeverSucceeds(tempDir: string, tempDirExists: bool, url: string, env: Environment)
    ensures TranscribeAsWritten(tempDir, tempDirExists, url, env).Failure?
    ensures RawTranscript(tempDir, tempDirExists, url, env).Success? ==>
      TranscribeAsWritten(tempDir, tempDirExists, url, env) == Failure(AsWrittenError)
  {
    WrapAsWritten(RawTranscript(tempDir, tempDirExists, url, env));
  }

  /** The cleanup's outcome plays no part in the result: what `rmtree` would
    * raise in `finally` changes neither the reply nor the error. */
  lemma CleanupErrorIrrelevant(llm: LlmClientPy.LLMClient, tempDir: string, tempDirExists: bool, url: string,
                               env: Environment, rmtreeError: Option<string>)
    requires llm.Valid()
    ensures Transcribe(llm, tempDir, tempDirExists, url, env)
            == Transcribe(llm, tempDir, tempDirExists, url, env.(rmtreeError := rmtreeError))
  {
    var env2 := env.(rmtreeError := rmtreeError);
    assert AudioPath(tempDir, tempDirExists, url, env2) == AudioPath(tempDir, tempDirExists, url, env);
    var raw := RawTranscript(tempDir, tempDirExists, url, env);
    assert RawTranscript(tempDir, tempDirExists, url, env2) == raw;
    if raw.Success? {
      assert ImproveReadability(llm, raw.value, env2) == ImproveReadability(llm, raw.value, env);
    }
    assert Then(raw, llm, env2) == Then(raw, llm, env);
  }

  /** Every failure of `transcribe_video` is a `RuntimeError` with the
    * "Failed to transcribe video: " prefix; an unsupported URL fails with the
    * invalid-source message. */
  lemma TranscribeErrors(llm: LlmClientPy.LLMClient, tempDir: string, tempDirExists: bool, url: string, env: Environment)
    requires llm.Valid()
    ensures var r := Transcribe(llm, tempDir, tempDirExists, url, env);
      r.Failure? ==> r.error.RuntimeError? && StartsWith(r.error.message, WrapPrefix)
    ensures RouteOf(url) == NoRoute ==>
      Transcribe(llm, tempDir, tempDirExists, url, env) == Failure(RuntimeError(WrapPrefix + InvalidSourceMessage))
  {
    var r := Transcribe(llm, tempDir, tempDirExists, url, env);
    if r.Failure? {
      var raw := Then(RawTranscript(tempDir, tempDirExists, url, env), llm, env);
      AfterPrefix(WrapPrefix, raw.error.Message());
    }
  }

  /** A success is the cleaned reply of the readability model to the stripped
    * whisper text of the route's audio file. */
  lemma TranscribeSuccess(llm: LlmClientPy.LLMClient, tempDir: string, tempDirExists: bool, url: string, env: Environment)
    requires llm.Valid()
    ensures Transcribe(llm, tempDir, tempDirExists, url, env).Success? ==> RouteOf(url) != NoRoute
    ensures Transcribe(llm, tempDir, tempDirExists, url, env).Success? ==>
      var path := AudioPath(tempDir, tempDirExists, url, env);
      path.Success? && env.fileExists(path.value) && env.whisperResult(path.value).Success?
      && "text" in env.whisperResult(path.value).value
      && var transcript := Strip(env.whisperResult(path.value).value["text"]);
      var reply := env.send(llm.BuildRequest(ImproveTranscriptPrompt1, UserPromptPrefix + transcript, ReadabilityTemperature));
      reply.Success? && reply.value.choices != [] && reply.value.choices[0].Some?
      && Transcribe(llm, tempDir, tempDirExists, url, env).value
         == CleanMarkdown.CleanMarkdownAsWritten(reply.value.choices[0].value)
  {
    if Transcribe(llm, tempDir, tempDirExists, url, env).Success? {
      var t := RawTranscript(tempDir, tempDirExists, url, env).value;
      llm.GenerateResponseOutcomes(ImproveTranscriptPrompt1, UserPromptPrefix + t, ReadabilityTemperature, env.send, env.elapsed);
    }
  }

  /** A URL that is a direct audio link takes the audio route even when it is
    * also a YouTube URL. */
  lemma AudioBeforeYoutube(url: string)
    requires IsDirectAudioUrl(url) && IsYoutubeUrl(url)
    ensures RouteOf(url) == AudioRoute
  {
  }

  const NoDirPrefix := WrapPrefix + NoDirMessage

  /** Without the temporary directory, a direct audio download cannot be saved. */
  lemma AudioWithoutTempDir(llm: LlmClientPy.LLMClient, tempDir: string, url: string, env: Environment)
    requires llm.Valid() && RouteOf(url) == AudioRoute && env.download == Success(200)
    ensures var r := Transcribe(llm, tempDir, false, url, env);
      r.Failure? && r.error.RuntimeError? && StartsWith(r.error.message, NoDirPrefix)
  {
    var path := PathJoin(tempDir, Basename(url));
    var q := "'" + path + "'";
    var m := NoDirMessage + q;
    assert DownloadFile(tempDir, false, url, env.download) == Failure(FileNotFoundError(m));
    assert AudioPath(tempDir, false, url, env) == Failure(FileNotFoundError(m));
    assert RawTranscript(tempDir, false, url, env) == Failure(FileNotFoundError(m));
    assert Transcribe(llm, tempDir, false, url, env) == Failure(RuntimeError(WrapPrefix + m));
    assert WrapPrefix + m == NoDirPrefix + q;
    AfterPrefix(NoDirPrefix, q);
  }

  class VideoTranscriber {
    const llm: LlmClientPy.LLMClient
    const tempDir: string
    /** Whether the directory made by `tempfile.mkdtemp()` still exists. */
    var tempDirExists: bool
    /** The warnings printed so far. */
    var warnings: seq<string>

    ghost predicate Valid()
    {
      llm.Valid()
    }

    constructor Init(llm: LlmClientPy.LLMClient, tempDir: string)
      requires llm.Valid()
      ensures Valid() && this.llm == llm && this.tempDir == tempDir
      ensures tempDirExists && warnings == []
    {
      this.llm := llm;
      this.tempDir := tempDir;
      this.tempDirExists := true;
      this.warnings := [];
    }

    /** `VideoTranscriber(llm)`: yt-dlp and ffmpeg must be installed; then
      * the temporary directory is created (its name given here). */
    static method New(llm: LlmClientPy.LLMClient, hasYtDlp: bool, hasFfmpeg: bool, tempDir: string)
      returns (r: Result<VideoTranscriber, Error>)
      requires llm.Valid()
      ensures !hasYtDlp ==> r == Failure(RuntimeError("yt-dlp is not installed. Please install it using 'pip install yt-dlp'."))
      ensures hasYtDlp && !hasFfmpeg ==>
        r == Failure(RuntimeError("ffmpeg is not installed. Please install it using your package manager or 'brew install ffmpeg' on macOS."))
      ensures hasYtDlp && hasFfmpeg ==>
        (r.Success? && fresh(r.value) && r.value.Valid()
         && r.value.tempDir == tempDir && r.value.tempDirExists && r.value.warnings == [])
    {
      if !hasYtDlp {
        return Failure(RuntimeError("yt-dlp is not installed. Please install it using 'pip install yt-dlp'."));
      }
      if !hasFfmpeg {
        return Failure(RuntimeError("ffmpeg is not installed. Please install it using your package manager or 'brew install ffmpeg' on macOS."));
      }
      var t := new VideoTranscriber.Init(llm, tempDir);
      return Success(t);
    }

    /** `_cleanup_temp_files`: remove the directory; a failure is only a warning. */
    method CleanupTempFiles(rmtreeError: Option<string>)
      modifies this
      ensures tempDirExists == (old(tempDirExists) && rmtreeError.Some?)
      ensures warnings == old(warnings) + CleanupWarning(old(tempDirExists), rmtreeError)
    {
      if !tempDirExists {
        warnings := warnings + [CleanupWarningPrefix + NoDirMessage + "'" + tempDir + "'"];
      } else if rmtreeError.Some? {
        warnings := warnings + [CleanupWarningPrefix + rmtreeError.value];
      } else {
        tempDirExists := false;
      }
    }

    /** The warning `_cleanup_temp_files` prints, if any. */
    function CleanupWarning(existed: bool, rmtreeError: Option<string>): (w: seq<string>)
      ensures |w| <= 1
      ensures w == [] <==> existed && rmtreeError.None?
    {
      if !existed then [CleanupWarningPrefix + NoDirMessage + "'" + tempDir + "'"]
      else if rmtreeError.Some? then [CleanupWarningPrefix + rmtreeError.value]
      else []
    }

    /** `transcribe_video`: the branch for the route, the transcription and
      * readability steps, the `except` wrapping, and the cleanup in `finally`,
      * which runs on every path and does not change the result. */
    method TranscribeVideo(url: string, env: Environment) returns (r: Result<string, Error>)
      requires Valid()
      modifies this
      ensures Valid()
      ensures r == Transcribe(llm, tempDir, old(tempDirExists), url, env)
      ensures r == Transcribe(llm, tempDir, old(tempDirExists), url, env.(rmtreeError := None))
      ensures tempDirExists == (old(tempDirExists) && env.rmtreeError.Some?)
      ensures warnings == old(warnings) + CleanupWarning(old(tempDirExists), env.rmtreeError)
    {
      CleanupErrorIrrelevant(llm, tempDir, tempDirExists, url, env, None);
      var audioPath: Result<string, Error>;
      var route := RouteOf(url);
      if route == AudioRoute {
        audioPath := DownloadFile(tempDir, tempDirExists, url, env.download);
      } else if route == VideoRoute {
        var videoPath := DownloadFile(tempDir, tempDirExists, url, env.download);
        if videoPath.Success? {
          audioPath := ExtractAudio(tempDir, env.ffmpegError);
        } else {
          audioPath := videoPath;
        }
      } else if route == YoutubeRoute {
        audioPath := DownloadYoutubeAudio(tempDir, env.ytdlpError);
      } else {
        audioPath := Failure(ValueError(InvalidSourceMessage));
      }
      assert audioPath == AudioPath(tempDir, tempDirExists, url, env);
      var outcome: Result<string, Error>;
      if audioPath.Failure? {
        outcome := audioPath;
      } else {
        var transcript := TranscribeAudio(audioPath.value, env);
        if transcript.Failure? {
          outcome := transcript;
        } else {
          outcome := ImproveReadability(llm, transcript.value, env);
        }
      }
      assert outcome == Then(RawTranscript(tempDir, tempDirExists, url, env), llm, env);
      r := Wrap(outcome);
      CleanupTempFiles(env.rmtreeError);
    }

    /** Nothing recreates the temporary directory: once a call has removed it,
      * a later direct download cannot be saved, and that call fails. */
    method TranscribeAfterCleanup(url1: string, env1: Environment, url2: string, env2: Environment)
      returns (r1: Result<string, Error>, r2: Result<string, Error>)
      requires Valid() && tempDirExists
      requires env1.rmtreeError.None? && RouteOf(url2) == AudioRoute && env2.download == Success(200)
      modifies this
      ensures !tempDirExists
      ensures r2.Failure? && r2.error.RuntimeError? && StartsWith(r2.error.message, NoDirPrefix)
    {
      r1 := TranscribeVideo(url1, env1);
      r2 := TranscribeVideo(url2, env2);
      AudioWithoutTempDir(llm, tempDir, url2, env2);
    }
  }
}
