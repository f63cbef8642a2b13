/** The `ingestURL` handler of the TypeScript service (choreo/src/routers/content.ts):
  * the branch taken, the id chosen, the LLM calls made and the metadata merge. */
module ContentRouter {
  import opened Wrappers
  import opened YouTube
  import opened UrlNormalize
  import opened LlmClientTs

  /** The article metadata the Python service extracts; every field may be
    * `null`, including the title, which the handler also coalesces. */
  datatype RawArticleMetadata = RawArticleMetadata(title: Option<string>, author: Option<string>,
                                                   publishedDate: Option<string>, favicon: Option<string>,
                                                   metaImage: Option<string>)

  /** `ArticleMetadata`: also the schema the metadata-extraction model fills in. */
  datatype ArticleMetadata = ArticleMetadata(title: string, author: Option<string>,
                                             publishedDate: Option<string>, favicon: Option<string>,
                                             metaImage: Option<string>)

  /** `YoutubeVideoMetadata`, as the Python service returns it. */
  datatype YoutubeVideoMetadata = YoutubeVideoMetadata(title: string, channel: Option<string>,
                                                       publishedDate: Option<string>, thumbnailUrl: Option<string>)

  datatype Metadata = ArticleMeta(article: ArticleMetadata) | VideoMeta(video: YoutubeVideoMetadata)

  /** The handler's response: exactly `id`, `metadata`, `content` and `summary`. */
  datatype Response = Response(id: string, metadata: Metadata, content: string, summary: string)

  /** The system prompts, which are plain text. */
  datatype Prompts = Prompts(improveTranscript: string, summarize: string, articleToMarkdown: string)

  /** Everything the handler calls that is outside this model: the Python
    * service's endpoints, the HEAD request of `normalizeURL`, the URL
    * constructor and the two generation calls of the AI SDK. */
  datatype Services = Services(
    fetchTranscription: string -> Result<string, Error>,
    fetchYoutubeMetadata: string -> Result<YoutubeVideoMetadata, Error>,
    fetchCleanHtml: string -> Result<string, Error>,
    fetchRawArticleMetadata: string -> Result<RawArticleMetadata, Error>,
    head: string -> Result<string, Error>,
    parse: UrlParser,
    generateText: Options -> Result<Generated<string>, Error>,
    generateMetadata: Options -> Result<Generated<ArticleMetadata>, Error>)

  const FlashLite := "gemini-2.5-flash-lite-preview-06-17"
  const Gpt5Mini := "gpt-5-mini-2025-08-07"
  const Gpt41Nano := "gpt-4.1-nano-2025-04-14"

  const ReadabilityPrefix := "Improve the readability of the following video transcript: "
  const SummaryPrefix := "Summarize the following content: "
  const ConvertPrefix := "Convert the following article to markdown: "
  const ExtractPrefix := "Extract metadata from the following article: "
  const MetadataSystemPrompt := "You are an expert at extracting metadata from articles."
  const MetadataSchema := Schema("ArticleMetadata")

  const ReadabilityTemperature: real := 0.825
  const SummaryTemperature: real := 0.585

  /** The three models the handler names are registered, and only GPT-5 Mini is a reasoning model. */
  lemma HandlerModels()
    ensures FlashLite in Registry && Gpt5Mini in Registry && Gpt41Nano in Registry
    ensures Registry[Gpt5Mini].reasoning && !Registry[FlashLite].reasoning && !Registry[Gpt41Nano].reasoning
  {
  }

  /** The metadata merge: each field is the raw value unless it is `null`, then the extracted one. */
  function Merge(raw: RawArticleMetadata, extracted: ArticleMetadata): (m: ArticleMetadata)
    ensures raw.title.Some? ==> m.title == raw.title.value
    ensures raw.title.None? ==> m.title == extracted.title
    ensures raw.author.Some? ==> m.author == raw.author
    ensures raw.author.None? ==> m.author == extracted.author
    ensures raw.publishedDate.Some? ==> m.publishedDate == raw.publishedDate
    ensures raw.publishedDate.None? ==> m.publishedDate == extracted.publishedDate
    ensures raw.favicon.Some? ==> m.favicon == raw.favicon
    ensures raw.favicon.None? ==> m.favicon == extracted.favicon
    ensures raw.metaImage.Some? ==> m.metaImage == raw.metaImage
    ensures raw.metaImage.None? ==> m.metaImage == extracted.metaImage
  {
    ArticleMetadata(
      raw.title.GetOr(extracted.title),
      if raw.author.Some? then raw.author else extracted.author,
      if raw.publishedDate.Some? then raw.publishedDate else extracted.publishedDate,
      if raw.favicon.Some? then raw.favicon else extracted.favicon,
      if raw.metaImage.Some? then raw.metaImage else extracted.metaImage)
  }

  /** Raw metadata seen as the handler's `ArticleMetadata`, every field present. */
  function AsRaw(m: ArticleMetadata): RawArticleMetadata {
    RawArticleMetadata(Some(m.title), m.author, m.publishedDate, m.favicon, m.metaImage)
  }

  /** A merged field is the raw one or the extracted one, and no value that was
    * present in the raw metadata is replaced. */
  lemma MergeNeverOverrides(raw: RawArticleMetadata, extracted: ArticleMetadata)
    ensures var m := Merge(raw, extracted);
      && (m.title == extracted.title || Some(m.title) == raw.title)
      && (m.author == raw.author || m.author == extracted.author)
      && (raw.author.Some? ==> m.author == raw.author)
      && (raw.publishedDate.Some? ==> m.publishedDate == raw.publishedDate)
      && (raw.favicon.Some? ==> m.favicon == raw.favicon)
      && (raw.metaImage.Some? ==> m.metaImage == raw.metaImage)
  {
  }

  /** Raw metadata with every field present is kept as it is; empty raw
    * metadata gives the extracted values. */
  lemma MergeExtremes(raw: RawArticleMetadata, extracted: ArticleMetadata)
    ensures raw.title.Some? && raw.author.Some? && raw.publishedDate.Some? && raw.favicon.Some? && raw.metaImage.Some? ==>
      Merge(raw, extracted) == ArticleMetadata(raw.title.value, raw.author, raw.publishedDate, raw.favicon, raw.metaImage)
    ensures Merge(RawArticleMetadata(None, None, None, None, None), extracted) == extracted
  {
  }

  /** Merging again with the same extracted values changes nothing. */
  lemma MergeIdempotent(raw: RawArticleMetadata, extracted: ArticleMetadata)
    ensures Merge(AsRaw(Merge(raw, extracted)), extracted) == Merge(raw, extracted)
  {
  }

  /** The options `generateTextResponse` sends for a handler's client. */
  function SentOptions(model: string, system: string, prompt: string, temp: real): (o: Options)
    requires model in Registry
    ensures o.prompt == prompt && o.system == system && o.client == ModelClient(Registry[model].provider, model)
  {
    TextOptions(Registry[model], ModelClient(Registry[model].provider, model), system, prompt, temp, DefaultEffort)
  }

  /** The temperatures sent: 0.825 for readability and 0.585 for summaries; the
    * article conversion passes none of its own and, on a reasoning model, is
    * sent the default reasoning effort ("low") and no temperature at all. */
  lemma TemperaturesSent(system: string, prompt: string)
    ensures SentOptions(FlashLite, system, prompt, ReadabilityTemperature).temperature == Some(0.825)
    ensures SentOptions(FlashLite, system, prompt, SummaryTemperature).temperature == Some(0.585)
    ensures SentOptions(FlashLite, system, prompt, SummaryTemperature).reasoningEffort.None?
    ensures SentOptions(Gpt5Mini, system, prompt, DefaultTemperature).temperature.None?
    ensures SentOptions(Gpt5Mini, system, prompt, DefaultTemperature).reasoningEffort == Some(Low)
  {
    HandlerModels();
  }

  /** The text a handler's client returns for a prompt, or the rejection. */
  function TextReply(model: string, system: string, prompt: string, temp: real, s: Services): Result<string, Error>
    requires model in Registry
  {
    match s.generateText(SentOptions(model, system, prompt, temp))
    case Failure(e) => Failure(e)
    case Success(g) => Success(g.value)
  }

  /** The object the metadata-extraction client returns, or the rejection. */
  function MetadataReply(html: string, s: Services): Result<ArticleMetadata, Error>
    requires Gpt41Nano in Registry
  {
    var d := Registry[Gpt41Nano];
    var o := StructuredOptions(d, ModelClient(d.provider, Gpt41Nano), MetadataSystemPrompt,
                               ExtractPrefix + html, DefaultTemperature, DefaultEffort, MetadataSchema);
    match s.generateMetadata(o)
    case Failure(e) => Failure(e)
    case Success(g) => Success(g.value)
  }

  /** The YouTube branch. */
  function YoutubeIngest(url: string, prompts: Prompts, s: Services): Result<Response, Error>
    requires IsYoutubeUrlUnanchored(url)
  {
    UnanchoredIffParses(url);
    HandlerModels();
    var youtubeUrl := NormalizeYoutubeUrlTs(url).value;
    match s.fetchTranscription(youtubeUrl)
    case Failure(e) => Failure(e)
    case Success(transcription) =>
      match s.fetchYoutubeMetadata(youtubeUrl)
      case Failure(e) => Failure(e)
      case Success(metadata) =>
        match TextReply(FlashLite, prompts.improveTranscript, ReadabilityPrefix + transcription, ReadabilityTemperature, s)
        case Failure(e) => Failure(e)
        case Success(improved) =>
          match TextReply(FlashLite, prompts.summarize, SummaryPrefix + transcription, SummaryTemperature, s)
          case Failure(e) => Failure(e)
          case Success(summary) => Success(Response(youtubeUrl, VideoMeta(metadata), improved, summary))
  }

  /** The article branch, from the article Markdown on. */
  function ArticleTail(normalizedUrl: string, html: string, markdown: string, prompts: Prompts, s: Services): Result<Response, Error>
  {
    HandlerModels();
    match s.fetchRawArticleMetadata(normalizedUrl)
    case Failure(e) => Failure(e)
    case Success(raw) =>
      match MetadataReply(html, s)
      case Failure(e) => Failure(e)
      case Success(extracted) =>
        match TextReply(FlashLite, prompts.summarize, SummaryPrefix + markdown, SummaryTemperature, s)
        case Failure(e) => Failure(e)
        case Success(summary) => Success(Response(normalizedUrl, ArticleMeta(Merge(raw, extracted)), markdown, summary))
  }

  /** The article branch. */
  function ArticleIngest(url: string, prompts: Prompts, s: Services): Result<Response, Error> {
    HandlerModels();
    match NormalizeUrl(url, s.head(url), s.parse)
    case Failure(e) => Failure(e)
    case Success(normalizedUrl) =>
      match s.fetchCleanHtml(url)
      case Failure(e) => Failure(e)
      case Success(html) =>
        match TextReply(Gpt5Mini, prompts.articleToMarkdown, ConvertPrefix + html, DefaultTemperature, s)
        case Failure(e) => Failure(e)
        case Success(markdown) => ArticleTail(normalizedUrl, html, markdown, prompts, s)
  }

  /** What the handler returns, or the error it throws. */
  function Ingest(url: string, prompts: Prompts, s: Services): Result<Response, Error> {
    if IsYoutubeUrlUnanchored(url) then YoutubeIngest(url, prompts, s) else ArticleIngest(url, prompts, s)
  }

  /** The video metadata comes back exactly for the URLs the unanchored YouTube check accepts. */
  lemma BranchSelection(url: string, prompts: Prompts, s: Services)
    ensures var r := Ingest(url, prompts, s);
      r.Success? ==> (r.value.metadata.VideoMeta? <==> IsYoutubeUrlUnanchored(url))
  {
    var r := Ingest(url, prompts, s);
    if r.Success? && !IsYoutubeUrlUnanchored(url) {
      var n := NormalizeUrl(url, s.head(url), s.parse).value;
      var h := s.fetchCleanHtml(url).value;
      var m := TextReply(Gpt5Mini, prompts.articleToMarkdown, ConvertPrefix + h, DefaultTemperature, s).value;
      assert r == ArticleTail(n, h, m, prompts, s);
    }
  }

  /** On the YouTube branch the id is the canonical `watch?v=` URL of the
    * extracted video id; the transcription, the video metadata and the two
    * generations are all asked for or about that URL's transcript. The
    * content is the improved transcript, while the summary is generated from
    * the raw transcription, not from the improved one. */
  lemma YoutubeResponse(url: string, prompts: Prompts, s: Services)
    requires IsYoutubeUrlUnanchored(url)
    ensures var r := Ingest(url, prompts, s);
      r.Success? ==>
        && FindVideoId(url).Some?
        && r.value.id == CanonicalUrl(FindVideoId(url).value)
        && ValidId(FindVideoId(url).value)
        && IsYoutubeUrl(r.value.id)
        && s.fetchTranscription(r.value.id).Success?
        && r.value.metadata == VideoMeta(s.fetchYoutubeMetadata(r.value.id).value)
        && Success(r.value.content) == TextReply(FlashLite, prompts.improveTranscript,
             ReadabilityPrefix + s.fetchTranscription(r.value.id).value, ReadabilityTemperature, s)
        && Success(r.value.summary) == TextReply(FlashLite, prompts.summarize,
             SummaryPrefix + s.fetchTranscription(r.value.id).value, SummaryTemperature, s)
  {
    UnanchoredIffParses(url);
    FindVideoIdSpec(url);
    CanonicalRoundTrip(FindVideoId(url).value);
  }

  /** On the article branch the id is `normalizeURL(url)`, the raw metadata is
    * fetched for that normalised URL while the clean HTML is fetched for the
    * URL as given, the content is the Markdown conversion of that HTML, the
    * metadata is the merge, and the summary is generated from the content. */
  lemma ArticleResponse(url: string, prompts: Prompts, s: Services)
    requires !IsYoutubeUrlUnanchored(url)
    ensures var r := Ingest(url, prompts, s);
      r.Success? ==>
        && NormalizeUrl(url, s.head(url), s.parse) == Success(r.value.id)
        && s.fetchCleanHtml(url).Success?
        && s.fetchRawArticleMetadata(r.value.id).Success?
        && MetadataReply(s.fetchCleanHtml(url).value, s).Success?
        && Success(r.value.content) == TextReply(Gpt5Mini, prompts.articleToMarkdown,
             ConvertPrefix + s.fetchCleanHtml(url).value, DefaultTemperature, s)
        && r.value.metadata == ArticleMeta(Merge(s.fetchRawArticleMetadata(r.value.id).value,
                                                 MetadataReply(s.fetchCleanHtml(url).value, s).value))
        && Success(r.value.summary) == TextReply(FlashLite, prompts.summarize,
             SummaryPrefix + r.value.content, SummaryTemperature, s)
  {
    var r := Ingest(url, prompts, s);
    if r.Success? {
      var n := NormalizeUrl(url, s.head(url), s.parse).value;
      var h := s.fetchCleanHtml(url).value;
      var m := TextReply(Gpt5Mini, prompts.articleToMarkdown, ConvertPrefix + h, DefaultTemperature, s).value;
      assert r == ArticleTail(n, h, m, prompts, s);
    }
  }

  /** On the YouTube branch a failing transcription fetch ends the handler with its error. */
  lemma TranscriptFailureWins(url: string, prompts: Prompts, s: Services)
    requires IsYoutubeUrlUnanchored(url)
    ensures NormalizeYoutubeUrlTs(url).Success?
    ensures var y := NormalizeYoutubeUrlTs(url).value;
      s.fetchTranscription(y).Failure? ==> Ingest(url, prompts, s) == Failure(s.fetchTranscription(y).error)
  {
    UnanchoredIffParses(url);
  }

  /** On the article branch a URL that cannot be normalised ends the handler
    * with that error, before the clean HTML is fetched or any model is asked. */
  lemma NormalizeFailureWins(url: string, prompts: Prompts, s: Services)
    requires !IsYoutubeUrlUnanchored(url)
    ensures NormalizeUrl(url, s.head(url), s.parse).Failure? ==>
      Ingest(url, prompts, s) == Failure(NormalizeUrl(url, s.head(url), s.parse).error)
  {
  }

  /** The handler: the branch taken produces the response. */
  method IngestUrl(url: string, prompts: Prompts, s: Services) returns (r: Result<Response, Error>)
    ensures r == Ingest(url, prompts, s)
  {
    if IsYoutubeUrlUnanchored(url) {
      r := IngestYoutube(url, prompts, s);
    } else {
      r := IngestArticle(url, prompts, s);
    }
  }

  /** The YouTube branch: transcription and video metadata, then the improved
    * transcript and the summary. */
  method IngestYoutube(url: string, prompts: Prompts, s: Services) returns (r: Result<Response, Error>)
    requires IsYoutubeUrlUnanchored(url)
    ensures r == YoutubeIngest(url, prompts, s)
  {
    HandlerModels();
    UnanchoredIffParses(url);
    var youtubeUrl := NormalizeYoutubeUrlTs(url).value;
    var transcription: string;
    var metadata: YoutubeVideoMetadata;
    match s.fetchTranscription(youtubeUrl) {
      case Failure(e) => return Failure(e);
      case Success(t) => transcription := t;
    }
    match s.fetchYoutubeMetadata(youtubeUrl) {
      case Failure(e) => return Failure(e);
      case Success(m) => metadata := m;
    }
    var readabilityClient := LLMClient.New(FlashLite, prompts.improveTranscript, Some("transcript-readability"));
    var summaryClient := LLMClient.New(FlashLite, prompts.summarize, Some("transcript-summary"));
    var improvedTranscript := ReplyText(readabilityClient.value, ReadabilityPrefix + transcription, ReadabilityTemperature, s);
    if improvedTranscript.Failure? {
      return Failure(improvedTranscript.error);
    }
    var summary := ReplyText(summaryClient.value, SummaryPrefix + transcription, SummaryTemperature, s);
    if summary.Failure? {
      return Failure(summary.error);
    }
    return Success(Response(youtubeUrl, VideoMeta(metadata), improvedTranscript.value, summary.value));
  }

  /** The article branch: normalized URL and clean HTML, the Markdown
    * conversion, the metadata merge and the summary. */
  method IngestArticle(url: string, prompts: Prompts, s: Services) returns (r: Result<Response, Error>)
    ensures r == ArticleIngest(url, prompts, s)
  {
    HandlerModels();
    var normalizedUrl: string;
    var cleanHtml: string;
    match NormalizeUrl(url, s.head(url), s.parse) {
      case Failure(e) => return Failure(e);
      case Success(n) => normalizedUrl := n;
    }
    match s.fetchCleanHtml(url) {
      case Failure(e) => return Failure(e);
      case Success(h) => cleanHtml := h;
    }
    var markdownClient := LLMClient.New(Gpt5Mini, prompts.articleToMarkdown, Some("article-to-markdown"));
    var articleMarkdown := ReplyText(markdownClient.value, ConvertPrefix + cleanHtml, DefaultTemperature, s);
    if articleMarkdown.Failure? {
      return Failure(articleMarkdown.error);
    }
    r := IngestArticleTail(normalizedUrl, cleanHtml, articleMarkdown.value, prompts, s);
  }

  /** The article branch from the Markdown on: the raw and the extracted
    * metadata, merged, and the summary of the Markdown. */
  method IngestArticleTail(normalizedUrl: string, cleanHtml: string, articleMarkdown: string, prompts: Prompts, s: Services)
    returns (r: Result<Response, Error>)
    ensures r == ArticleTail(normalizedUrl, cleanHtml, articleMarkdown, prompts, s)
  {
    HandlerModels();
    var raw: RawArticleMetadata;
    match s.fetchRawArticleMetadata(normalizedUrl) {
      case Failure(e) => return Failure(e);
      case Success(m) => raw := m;
    }
    var metadataClient := LLMClient.New(Gpt41Nano, MetadataSystemPrompt, Some("article-metadata-extraction"));
    var extracted := metadataClient.value.GenerateStructuredResponse(
      MetadataSchema, ExtractPrefix + cleanHtml, DefaultTemperature, DefaultEffort, s.generateMetadata);
    if extracted.Failure? {
      return Failure(extracted.error);
    }
    var metadata := Merge(raw, extracted.value.0);
    var summaryClient := LLMClient.New(FlashLite, prompts.summarize, Some("article-summary"));
    var summary := ReplyText(summaryClient.value, SummaryPrefix + articleMarkdown, SummaryTemperature, s);
    if summary.Failure? {
      return Failure(summary.error);
    }
    return Success(Response(normalizedUrl, ArticleMeta(metadata), articleMarkdown, summary.value));
  }

  /** `generateTextResponse(prompt, temp)` on a client, keeping the text and
    * dropping the log entry. */
  method ReplyText(client: LLMClient, prompt: string, temp: real, s: Services) returns (r: Result<string, Error>)
    requires client.Valid()
    ensures client.model in Registry
    ensures r == TextReply(client.model, client.systemPrompt, prompt, temp, s)
  {
    match client.GenerateTextResponse(prompt, temp, DefaultEffort, s.generateText) {
      case Failure(e) => return Failure(e);
      case Success(v) => return Success(v.0);
    }
  }
}
