# smrz core, modelled in Dafny

smrz turns a web article or a video into clean Markdown plus a summary. The
Python services (`api/`, `orion/`) and the TypeScript router (`choreo/`)
share a small deterministic core, and that core is what this project models:

- the Markdown normaliser `clean_markdown`, in its two variants. The
  collapse variant keeps one blank line between paragraphs and joins list
  items. The strip-all variant drops every blank line.
- recognising direct audio and video links and YouTube URLs, extracting the
  11-character video id, and canonicalising to the `watch?v=` form;
- the trailing-slash normalisation of article URLs;
- the bounded transcript retry loop (at most seven attempts);
- the model registries, provider dispatch, request and option building, and
  the cost formula of the Python and TypeScript LLM clients;
- article and video metadata: the favicon, the author line, the publish date,
  and the null-coalescing merge in the ingest handler;
- the `VideoTranscriber` state machine: audio, then video, then YouTube
  precedence, the `except` wrapping, and the cleanup in `finally`;
- the `ingestURL` handler: the branch taken, the id chosen, which model call
  feeds which field, and the metadata merge.

Regular expressions are written out as explicit matchers on lines and
strings; no regex engine is modelled. A text is seen through `SplitLines`
(Python's `str.splitlines`) and `Strip` (`str.strip`). Between the rewrite
steps, a text is held as a `Doc` (`MarkdownDoc`): the count of leading
blank lines, then each stripped non-blank line with the number of blank
lines after it. Each `re.sub` of the normaliser becomes a function that
changes those gaps.

Everything outside the program is a parameter:

- network results, the HEAD redirect, oEmbed;
- the AI SDK and OpenAI client replies;
- newspaper, dateutil and the URL constructor;
- whisper, ffmpeg, yt-dlp and the file system.

Each arrives as an outcome value or a function argument. Where such a call
can raise, and the core catches or passes on what it raises, the outcome is a
`Result`. Three such calls are `requests.get` in `_download_file`,
`whisper_model.transcribe`, and the chat-completion reply with no choice. What
stays out is listed under "## Left out".

Modules:

| module | what it models |
|---|---|
| `Wrappers` | `Option`/`Result`, and the exception kinds, including what a library outside the model raises |
| `Text` | `strip`, `splitlines`, `split`/`join`, ASCII `lower` |
| `MarkdownDoc` | the line view of a text |
| `MarkdownPasses` | the individual `re.sub` passes |
| `CleanMarkdown` | the collapse variant: its reference definition, the properties, and the finding below |
| `CleanMarkdownStripAll` | the strip-all variant |
| `SourceKind` | the suffix tests |
| `YouTube` | the six URL patterns, the anchored check and the unanchored check, id extraction, canonicalisation |
| `UrlNormalize` | `normalizeURL` |
| `Transcript` | `get_video_transcript` and the title step of `improve_transcript_readability` |
| `Metadata` | `extract_article_metadata`, `extract_youtube_metadata` |
| `LlmClientPy` | `api/app/lib/llm_client.py` |
| `LlmClientTs` | `choreo/src/lib/llm-client.ts` |
| `Transcriber` | `api/app/lib/transcription.py` |
| `ContentRouter` | `choreo/src/routers/content.ts` |

`splitlines`, `strip` and `\s` follow Python's full definitions:

- `splitlines` breaks on every line boundary Python knows, not only on `\n`.
- `strip` and `\s` use the whole `str.isspace` set.
- `clean_markdown` is modelled as written. A corrected numbered-list pattern
  sits beside it; see Findings.

## Model

| member | source | states |
|---|---|---|
| CleanMarkdown.Reference | api/app/utils.py:76-92 | The collapse and list passes keep every line and leave at most one blank line after it. |
| CleanMarkdown.PassesReference | api/app/utils.py:78-92 | The three `re.sub` passes, with the trailing gap dropped, equal the per-line reference definition. Under it, a line keeps one blank line after itself exactly when some blank line was there and no same-kind list item follows. |
| CleanMarkdown.CleanWithReference | api/app/utils.py:70-93 | `clean_markdown` is the reference definition applied to the parsed input and joined with "\n". |
| CleanMarkdown.OutputLines | api/app/utils.py:70-93 | Splitting the output into lines gives exactly the lines of the reference items. |
| CleanMarkdown.CleanKeepsText | api/app/utils.py:75-93 | The non-blank lines of the output are the stripped non-blank lines of the input, in order. Only blank lines are added or removed. |
| CleanMarkdown.CleanTidy | api/app/utils.py:75-93 | Every output line is stripped. No two blank lines are adjacent. The first and last lines are not blank. |
| CleanMarkdown.CleanNoTripleBreak | api/app/utils.py:76-78 | The output never contains three `\n` in a row. |
| CleanMarkdown.ListItemsAdjacent | api/app/utils.py:79-92 | A bullet line followed, across blank lines, by a bullet line ends up directly above it. So does a numbered item followed by a numbered item. This holds for runs of any length. |
| CleanMarkdown.BlankKeptAfterItem | api/app/utils.py:81-92 | A numbered item keeps its blank line when the next line does not start a numbered item. So does any line that no list item follows. A bullet item keeps its blank line when the next line is not a bullet. As written, that last clause has one exception: a bare `\d+.` line directly above the bullet, with no blank line between, lets the numbered pattern take the bullet along. The corrected pattern has no exception. |
| CleanMarkdown.AsWrittenBulletLosesBlank | api/app/utils.py:87-92 | As written, "1.\n- x\n\n2. y" cleans to "1.\n- x\n2. y", dropping the blank line after a bullet that no bullet follows. The corrected cleaner keeps it. |
| CleanMarkdown.InputItemsOfOutput | api/app/utils.py:70-93 | Re-reading the output as lines gives back exactly the cleaned items. |
| CleanMarkdown.ReferenceFixpoint | api/app/utils.py:78-92 | With the corrected numbered pattern, the reference definition is a fixpoint on its own result. |
| CleanMarkdown.CleanMarkdownIdempotent | api/app/utils.py:75-93 | With the corrected numbered pattern, running `clean_markdown` on its own output changes nothing. |
| CleanMarkdown.CleanEmptyIff | api/app/utils.py:75-93 | The output is "" exactly when the input is all whitespace. |
| CleanMarkdown.AsWrittenNotIdempotent | api/app/utils.py:87-92 | As written, "1.\n2.\n\n3.\n\n4. b" cleans to "1.\n2.\n3.\n\n4. b". Cleaning that again gives "1.\n2.\n3.\n4. b", so the function is not idempotent. |
| CleanMarkdownStripAll.StripAllIsFilter | api/utils.py:40-66 | The strip-all `clean_markdown` equals the stripped, non-blank input lines joined by "\n". The heading and list passes never change the result. |
| CleanMarkdownStripAll.StripAllLines | api/app/common/actions.py:26-52 | The output lines are exactly the stripped non-blank input lines, in order. None is empty or has surrounding whitespace. |
| CleanMarkdownStripAll.StripAllIdempotent | api/utils.py:40-66 | The strip-all variant is idempotent. |
| CleanMarkdownStripAll.StripAllEmptyIff | api/app/common/actions.py:49-51 | The output is "" exactly when the input is all whitespace. |
| MarkdownPasses.Collapse | api/app/utils.py:78 | `\n\s*\n+` keeps every line and whether it had a blank line after it, and leaves at most one blank line between lines. |
| MarkdownPasses.BulletPass | api/app/utils.py:81-86 | A bullet line loses its blank lines exactly when a bullet line follows them. Nothing else changes. |
| MarkdownPasses.NumberedScanSpec | api/app/utils.py:87-92 | The left-to-right scan of the numbered pattern removes the blank lines after exactly the items the join condition names. That includes the as-written case where a bare "1." swallows the next line. |
| MarkdownPasses.HeadingPass | api/utils.py:47 | The heading pass removes the blank lines after a heading line and changes nothing else. |
| MarkdownPasses.PassesKeepLines | api/utils.py:47-61 | The heading and list passes never change, drop or reorder a non-blank line. |
| MarkdownDoc.TrimmedLines | api/app/utils.py:75 | Every trimmed line is stripped and contains no line break. |
| SourceKind.AudioNotVideo | api/app/utils.py:101-112 | No URL is both a direct audio and a direct video link. |
| SourceKind.LowerInvariant | api/app/utils.py:101-112 | Both tests look only at the lower-cased URL. |
| SourceKind.TrailingCharDefeats | api/app/utils.py:101-112 | A URL whose last character cannot end an extension passes neither test. |
| SourceKind.UpperCaseAudio | api/app/utils.py:105 | "A.MP3" is a direct audio link. |
| SourceKind.QueryStringDefeats | api/app/utils.py:101-112 | A query string after ".mp3" makes both tests false. |
| YouTube.MatchAt | api/app/utils.py:12-19 | A pattern's capture is always 11 characters from `[A-Za-z0-9_-]`. |
| YouTube.SearchFromSpec | api/app/utils.py:34 | `re.search` gives the capture at the leftmost position where the pattern matches, and fails only when it matches nowhere. |
| YouTube.FindFromSpec | api/app/utils.py:33-42 | The loop returns the capture of the first listed pattern found anywhere. It returns nothing only when no pattern occurs. |
| YouTube.FindVideoIdSpec | api/utils.py:110-126 | `get_youtube_video_id` finds an id exactly when some pattern occurs, and the id is valid. So the explicit length and alphabet check never rejects. |
| YouTube.ParseVideoId | api/app/utils.py:29-45 | `parse_youtube_video_id` fails only with `RuntimeError("Invalid YouTube video URL or unable to extract video ID.")`. |
| YouTube.ParseVideoIdTs | choreo/src/utils.ts:27-44 | `parseYoutubeVideoId` throws only the same message, as an `Error`. |
| YouTube.UnanchoredIffParses | choreo/src/utils.ts:20-44 | `isYoutubeURL` holds exactly when `parseYoutubeVideoId` succeeds. The same holds for the Python parser. |
| YouTube.AnchoredImpliesParses | api/app/video/actions.py:23-46 | Whenever the anchored `is_valid_youtube_url` holds, `get_youtube_video_id` succeeds. |
| YouTube.MobileUrlParsesButNotAnchored | api/utils.py:93-126 | "https://m.youtube.com/watch?v=dQw4w9WgXcQ" fails the anchored check, yet parses to "dQw4w9WgXcQ". So the converse of the previous row does not hold. |
| YouTube.CanonicalRoundTrip | orion/app/utils.py:96-102 | Parsing "https://www.youtube.com/watch?v=" + id gives back id, and that URL passes the anchored check. |
| YouTube.NormalizeYoutubeUrl | orion/app/utils.py:96-102 | `normalize_youtube_url` fails only with the invalid-URL `RuntimeError`. |
| YouTube.NormalizeIdempotent | orion/app/utils.py:96-102 | Normalising a normalised URL returns it unchanged, and `is_youtube_url` holds on it. |
| YouTube.NormalizeTsIdempotent | choreo/src/utils.ts:50-53 | `normalizeYoutubeURL` applied twice equals applying it once, and its output passes `isYoutubeURL`. |
| UrlNormalize.StripTrailingSlashes | choreo/src/utils.ts:72 | The result never ends in '/', and the input is the result followed only by slashes. |
| UrlNormalize.StripTrailingSlashesIdempotent | choreo/src/utils.ts:72 | Stripping trailing slashes twice equals stripping once. |
| UrlNormalize.StripTrailingSlashesKeeps | choreo/src/utils.ts:72 | A path not ending in '/', followed by any number of slashes, strips back to that path. |
| UrlNormalize.NormalizeUrl | choreo/src/utils.ts:59-78 | The redirected URL's parts are formatted when the HEAD request and parsing succeed. Otherwise the original URL's parts are formatted, or its parse error is thrown. |
| UrlNormalize.FormatPath | choreo/src/utils.ts:76 | Trailing slashes on the path never change the formatted URL. |
| UrlNormalize.RootPath | choreo/src/utils.ts:76 | A root path "/" yields protocol + "//" + host. |
| Transcript.TranscriptText | api/utils.py:158 | The transcript has no `\n`. It is the segments joined with " ", character for character, except that each `\n` becomes " ". |
| Transcript.FirstFetched | api/utils.py:152-164 | The attempt found is within the bound and succeeded. |
| Transcript.GetVideoTranscript | api/utils.py:145-164 | The retry loop returns the first successful attempt's text, or the error. It makes exactly the number of fetch calls the reference definition states. |
| Transcript.InvalidUrlFetchesNothing | api/utils.py:149 | An unparsable URL raises the invalid-URL error before any fetch. |
| Transcript.TranscriptIsFirstSuccess | api/app/video/actions.py:72-84 | A success is the text of the first successful attempt, after n failed attempts and with n + 1 calls, and has no `\n`. |
| Transcript.GivesUpOnlyAfterSeven | api/utils.py:152-164 | "Failed to fetch video transcript" is raised exactly when all seven attempts fail. Never more than seven calls are made. |
| Transcript.ImproveTranscriptReadability | api/app/video/actions.py:109-113 | With a reply, the result is a success: "# " + title + "\n" + content is never empty, so the check at line 110 never fires. A `None` reply raises `TypeError`. |
| Transcript.TitleLineFirst | api/app/video/actions.py:109-113 | The cleaned text is the title line, then the stripped non-blank reply lines. |
| Metadata.PublishedDate | orion/app/utils.py:124-133 | A string becomes its parsed date, or none if parsing fails. A `datetime` becomes its date. Anything else becomes none. |
| Metadata.AuthorLine | orion/app/utils.py:137 | There is an author line exactly when the list is non-empty. |
| Metadata.AuthorLineSnoc | orion/app/utils.py:137 | Appending an author appends ", " and that name to the line. |
| Metadata.FaviconFailsIff | orion/app/utils.py:139 | Computing the favicon raises `IndexError` exactly when the URL has fewer than two '/'. |
| Metadata.FaviconOfHost | orion/app/utils.py:139 | For scheme + "//" + host + path, the favicon is "https://" + host + "/favicon.ico". |
| Metadata.FaviconExample | orion/app/utils.py:139 | "https://example.com/a/b" gives "https://example.com/favicon.ico". |
| Metadata.ExtractArticleMetadata | orion/app/utils.py:116-141 | It fails exactly when the favicon does. On success the fields are the title, the author line, the normalised date, the favicon and the meta image. |
| Metadata.ExtractYoutubeMetadata | orion/app/utils.py:154-181 | An invalid URL or an oEmbed failure raises. A missing "title" raises `KeyError`. Otherwise channel and thumbnail default to none, and a failed date lookup gives none. |
| Metadata.PublishDateFailureHarmless | orion/app/utils.py:170-174 | A failing publish-date lookup never turns a success into a failure, and changes only `published_date`. |
| LlmClientPy.GetProvider | api/app/lib/llm_client.py:109-113 | The provider is found exactly for registered models. Any other key raises `ValueError("Unknown model: ...")`. |
| LlmClientPy.GetClient | api/app/lib/llm_client.py:115-123 | "Google" gives the Gemini client and "OpenRouter" the OpenRouter client. Anything else raises `ValueError`. |
| LlmClientPy.RegistryCoversModels | api/app/lib/llm_client.py:10-81 | Every `Models` member has a registry entry with a resolvable provider and client. Distinct members have distinct values. |
| LlmClientPy.RegistryKeys | api/app/lib/llm_client.py:30-81 | The registry's keys are exactly the eight model values. |
| LlmClientPy.CostNonNegative | api/app/lib/llm_client.py:156-165 | For every registered model, the cost is at least 0. |
| LlmClientPy.FlashCostExample | api/app/lib/llm_client.py:156-165 | For `GEMINI_2_5_FLASH`, 1,000,000 input and 500,000 output tokens cost 10 + 20. |
| LlmClientPy.LLMClient.New | api/app/lib/llm_client.py:104-107 | Construction succeeds exactly for registered models, with the provider and client resolved. Otherwise it raises before any request. |
| LlmClientPy.LLMClient.BuildRequest | api/app/lib/llm_client.py:131-138 | The request names the client's model and carries exactly two messages, system then user, at the given temperature. The temperature defaults to 0.7 (api/app/lib/llm_client.py:126). |
| LlmClientPy.LLMClient.GenerateResponseOutcomes | api/app/lib/llm_client.py:125-166 | The outcomes are checked in this order. First, a transport error becomes `RuntimeError("Failed to generate response: ...")`. Next, a reply with no choice raises `IndexError`, outside the `try`. Then empty content fails, and then missing usage fails. A success happens exactly when the first choice's content is non-empty and usage is present. It carries the registry provider, that content and a non-negative cost. |
| LlmClientTs.ReasoningModels | choreo/src/lib/llm-client.ts:28-41 | Exactly the two GPT-5 entries are reasoning models. |
| LlmClientTs.GetModelDetails | choreo/src/lib/llm-client.ts:178-184 | Each registered id gives its entry. Any other id throws "Model not found: ...". In the source this holds for every id except a property name inherited from `Object.prototype`, such as "toString"; see "## Left out". |
| LlmClientTs.GetModelClient | choreo/src/lib/llm-client.ts:186-197 | The client is the entry's provider for the model. An unregistered model throws "Model not found: ...". |
| LlmClientTs.TextOptions | choreo/src/lib/llm-client.ts:103-122 | A reasoning model gets a reasoning effort and no temperature. Any other model gets the temperature and no effort. |
| LlmClientTs.StructuredOptions | choreo/src/lib/llm-client.ts:141-162 | The effort and temperature split as for text, and the schema is added in both branches. |
| LlmClientTs.StructuredAddsSchema | choreo/src/lib/llm-client.ts:103-162 | The structured options are the text options with the schema added. |
| LlmClientTs.Cost | choreo/src/lib/llm-client.ts:129 | A cost exists exactly when both token counts are reported. It is at least 0 for non-negative rates. |
| LlmClientTs.RegistryRatesNonNegative | choreo/src/lib/llm-client.ts:19-67 | For every registered model, a reported cost is at least 0. |
| LlmClientTs.Gpt5MiniCostExample | choreo/src/lib/llm-client.ts:129-133 | A million input and a million output tokens on GPT-5 Mini cost 225 hundredths of a USD, logged as 2.25 USD. |
| LlmClientTs.LLMClient.New | choreo/src/lib/llm-client.ts:92-97 | Construction succeeds exactly for registered models. An unregistered model throws at construction, before any generate call. |
| LlmClientTs.LLMClient.Log | choreo/src/lib/llm-client.ts:131-133 | An entry is written exactly when the log key is set and non-empty, with the cost divided by 100 as USD. |
| LlmClientTs.LLMClient.GenerateTextResponse | choreo/src/lib/llm-client.ts:99-136 | The generation receives the text options. Its error is passed on. On success the text is returned with the log entry for its usage. |
| LlmClientTs.LLMClient.GenerateStructuredResponse | choreo/src/lib/llm-client.ts:138-176 | The same for structured generation with the schema. |
| LlmClientTs.LLMClient.OptionsSplit | choreo/src/lib/llm-client.ts:103-122 | For a constructed client, the temperature is left out exactly for the GPT-5 models, and then only a reasoning effort is sent. |
| Transcriber.RouteOf | api/app/lib/transcription.py:42-53 | The route is audio for a direct audio link, else video for a direct video link, else YouTube for an anchored YouTube URL, else none. |
| Transcriber.AudioBeforeYoutube | api/app/lib/transcription.py:42-48 | A YouTube URL ending in ".mp3" takes the audio route. |
| Transcriber.Basename | api/app/lib/transcription.py:67 | The basename has no '/' and ends the URL. |
| Transcriber.DownloadFile | api/app/lib/transcription.py:62-72 | What `requests.get` raises passes through. A status other than 200 raises `RuntimeError`. Otherwise the file is the temporary directory joined with the basename. It cannot be opened once the directory is gone. |
| Transcriber.ExtractAudio | api/app/lib/transcription.py:94-114 | ffmpeg failing raises. Otherwise the audio is `extracted_audio.wav` in the temporary directory. |
| Transcriber.DownloadYoutubeAudio | api/app/lib/transcription.py:74-92 | yt-dlp failing raises. Otherwise the audio is `youtube_extracted_audio.wav` in the temporary directory. |
| Transcriber.TranscribeAudio | api/app/lib/transcription.py:116-124 | A missing file raises `FileNotFoundError`. What whisper raises passes through. A result without "text" raises `RuntimeError`. Otherwise it returns the stripped text. |
| Transcriber.AudioPath | api/app/lib/transcription.py:42-53 | A URL on no route raises the invalid-source `ValueError`. |
| Transcriber.Wrap | api/app/lib/transcription.py:57-58 | Every failure becomes `RuntimeError("Failed to transcribe video: ...")`, and a success passes through. |
| Transcriber.ImproveReadabilityAsWritten | api/app/lib/transcription.py:126-134 | As written, the readability step always fails. |
| Transcriber.AsWrittenNeverSucceeds | api/app/lib/transcription.py:38-60 | As written, `transcribe_video` never returns a transcript. Once audio is transcribed, it fails with the missing-`system_prompt` `TypeError`, wrapped twice. |
| Transcriber.TranscribeErrors | api/app/lib/transcription.py:38-60 | Every failure is a `RuntimeError` with the "Failed to transcribe video: " prefix. An unsupported URL fails with the invalid-source message. |
| Transcriber.TranscribeSuccess | api/app/lib/transcription.py:38-60 | With the system prompt passed, a success comes from the model's reply to the stripped whisper text of the route's audio file. It is that reply's first choice, cleaned by `app.utils.clean_markdown` as written. |
| Transcriber.AudioWithoutTempDir | api/app/lib/transcription.py:35-72 | Once the temporary directory is gone, a direct audio download fails. |
| Transcriber.VideoTranscriber.New | api/app/lib/transcription.py:18-36 | yt-dlp, then ffmpeg, must be installed. On success the directory exists and no warning has been printed. |
| Transcriber.VideoTranscriber.CleanupTempFiles | api/app/lib/transcription.py:136-140 | An existing directory is removed unless `rmtree` raises. A failure only adds a warning. |
| Transcriber.VideoTranscriber.CleanupWarning | api/app/lib/transcription.py:136-140 | A warning is printed exactly when the directory was already gone or `rmtree` raised. |
| Transcriber.VideoTranscriber.TranscribeVideo | api/app/lib/transcription.py:38-60 | The result is the `transcribe_video` outcome for the directory's state at the call. The one change to the source is that the system prompt is passed; the cleaner stays as written. The cleanup runs on every path. The result is also the outcome in which `rmtree` raises nothing, so the cleanup does not change it. |
| Transcriber.CleanupErrorIrrelevant | api/app/lib/transcription.py:57-60 | What `rmtree` raises in `finally` changes neither the transcript nor the error. |
| Transcriber.VideoTranscriber.TranscribeAfterCleanup | api/app/lib/transcription.py:35-60 | Nothing recreates the directory. After a call that removed it, a direct audio download fails. |
| ContentRouter.HandlerModels | choreo/src/routers/content.ts:30-164 | The three models the handler names are registered. Only GPT-5 Mini reasons, so no temperature is sent for article-to-Markdown. |
| ContentRouter.Merge | choreo/src/routers/content.ts:121-128 | Each field takes the raw value unless it is null, and the extracted value otherwise. |
| ContentRouter.MergeNeverOverrides | choreo/src/routers/content.ts:121-128 | A non-null raw field is never replaced, and every field comes from one of the two sources. |
| ContentRouter.MergeExtremes | choreo/src/routers/content.ts:121-128 | Fully present raw metadata wins. Entirely null raw metadata yields the extracted metadata. |
| ContentRouter.MergeIdempotent | choreo/src/routers/content.ts:121-128 | Merging a merged result again changes nothing. |
| ContentRouter.TemperaturesSent | choreo/src/routers/content.ts:54-139 | Readability sends 0.825 and summaries send 0.585. Article-to-Markdown sends no temperature, only the low reasoning effort. |
| ContentRouter.BranchSelection | choreo/src/routers/content.ts:36 | A response carries video metadata exactly when `isYoutubeURL` holds. |
| ContentRouter.YoutubeResponse | choreo/src/routers/content.ts:36-79 | The id is the canonical `watch?v=` URL of the first pattern's capture. The content is the improved transcript. The summary is computed from the raw transcription. |
| ContentRouter.ArticleResponse | choreo/src/routers/content.ts:82-155 | The id is `normalizeURL(url)`. The content is the model's Markdown. The metadata is the raw metadata merged over the extracted. The summary is computed from the article Markdown. |
| ContentRouter.TranscriptFailureWins | choreo/src/routers/content.ts:36-40 | On the YouTube path, a failing transcription fetch is the handler's error. |
| ContentRouter.NormalizeFailureWins | choreo/src/routers/content.ts:82 | On the article path, a failing `normalizeURL` is the handler's error. |
| ContentRouter.IngestUrl | choreo/src/routers/content.ts:30-164 | The handler, which assigns `id`, `metadata`, `content` and `summary` in branches, returns exactly the reference response. |
| ContentRouter.IngestYoutube | choreo/src/routers/content.ts:36-79 | The YouTube branch returns the reference YouTube response. |
| ContentRouter.IngestArticle | choreo/src/routers/content.ts:82-94 | The article branch returns the reference article response. |
| ContentRouter.IngestArticleTail | choreo/src/routers/content.ts:96-155 | The metadata extraction, merge and summary return the rest of the reference article response. |
| ContentRouter.ReplyText | choreo/src/routers/content.ts:54-64 | A client's text reply is the reference reply for its model and system prompt. |

## Left out

- **Character classes are ASCII.**
  - `Text.Lower` lower-cases ASCII letters only. Python's `str.lower` also folds non-ASCII letters; the extensions and patterns the model uses are ASCII.
  - `\d` is the ASCII digits 0-9. Python's `re` also accepts other Unicode decimal digits.
- **Token counts.** The Python client applies `len()` to `usage.input_tokens` and `usage.output_tokens` (api/app/lib/llm_client.py:158, 162). The model takes those lengths as natural-number counts. It makes no claim that the real SDK supplies such sequences.
- **Concurrency and side effects in `ingestURL`.**
  - `Promise.all` is sequential in the model. When both calls fail, the model reports the first call's error.
  - The output file writes, slugify, timing, logging and `toFixed` formatting are not modelled.
- **Prompt texts are parameters.** This covers the system prompts and `IMPROVE_TRANSCRIPT_PROMPT_1`. Their wording is plain data.
- **Foreign calls are oracles.** Network fetches, the HEAD request, oEmbed, newspaper `Article`, dateutil, the URL constructor, the AI SDK, the OpenAI client, whisper, yt-dlp and ffmpeg are all oracles. So is `os.path.exists`.
- **`_download_file`.** The chunk-writing loop is left out. The model keeps the request's exception, the status check, the path, and whether the directory still exists. An `open` or write failure other than the missing directory is not modelled.
- **Other foreign exceptions.** What the AI SDK, newspaper, dateutil and the Python service's endpoints raise is not modelled, except where the model passes the call's outcome in as a `Result`.
- **Installation checks.** The `shutil.which` checks in `VideoTranscriber.__init__` are boolean parameters. The whisper model loading is left out.
- **Printed warnings.** `print` in `_cleanup_temp_files` is a `warnings` sequence on the object. The other prints are listed below.
- **Unreachable provider branch.** The "Unsupported provider" throw in `_getModelClient` is not modelled: the `Provider` type has only the three registered providers.
- LlmClientTs.GetModelDetails: does not model inherited registry keys. `MODEL_REGISTRY[id]` also finds properties inherited from `Object.prototype`, such as "toString", "constructor" and "__proto__". The source then returns that value, and `_getModelClient` throws "Unsupported provider: undefined". The model's registry is a plain map, so such an id gets "Model not found".
- LlmClientPy.LLMClient.GenerateResponseOutcomes, LlmClientTs.Cost: do not model floating point. Costs, rates and temperatures are exact `real`s. The source computes IEEE doubles at api/app/lib/llm_client.py:156-165, choreo/src/lib/llm-client.ts:129 and 169, and `825 / 1000` at api/app/lib/transcription.py:130. So the model's cost is the exact value, which the program only approximates by rounding.
- **Transcript fetch message.** After the seventh failed fetch, `get_video_transcript` prints an error line before it raises (api/utils.py:163, api/app/video/actions.py:83). The print is not modelled; the raised `RuntimeError` is.
- **Nullable title.** The raw article title is nullable in the model, because the handler coalesces it like the other fields.

## Findings

| source | as written | input that shows it | evidently intended | confidence | as-written member | corrected member |
|---|---|---|---|---|---|---|
| api/app/utils.py:87-92 | In `\d+\.\s.+?`, `\s` may match the line break after a bare "1." line, so `.+?` takes the next line and the match skips a join. A second run then joins what the first left apart. | "1.\n2.\n\n3.\n\n4. b" cleans to "1.\n2.\n3.\n\n4. b", which cleans to "1.\n2.\n3.\n4. b" | the whitespace after the dot is on the same line, and `clean_markdown` is idempotent | not executed | CleanMarkdown.AsWrittenNotIdempotent | CleanMarkdown.CleanMarkdownIdempotent |
| api/app/utils.py:87-92 | The same `\s` lets a bare "1." take a following bullet line into a numbered match. The blank line after that bullet is then removed, although no bullet follows it. | "1.\n- x\n\n2. y" cleans to "1.\n- x\n2. y" | the blank line after a bullet that no bullet follows stays | not executed | CleanMarkdown.AsWrittenBulletLosesBlank | CleanMarkdown.BlankKeptAfterItem |
| api/app/lib/transcription.py:128 | `_improve_transcript_readability` calls `generate_response` without the required `system_prompt` (api/app/lib/llm_client.py:125-127). The call raises `TypeError`, so `transcribe_video` never returns a transcript. | any URL whose audio is transcribed | pass the readability prompt as `system_prompt`, and return the reply cleaned by `clean_markdown` (as written) | not executed | Transcriber.AsWrittenNeverSucceeds | Transcriber.VideoTranscriber.TranscribeVideo |
