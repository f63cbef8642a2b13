/**
 * Metadata field derivation in orion/app/utils.py: the published date, the
 * author line and the favicon of an article, and the fields of a YouTube
 * video's metadata.
 */
module Metadata {
  import opened Wrappers
  import opened Text
  import opened YouTube

  /** A calendar date (`datetime.date`), taken as given. */
  datatype Date = Date(year: int, month: int, day: int)

  /** The value of `article.publish_date`. */
  datatype PublishValue =
    | PStr(text: string)          // a string
    | PDateTime(date: Date)       // a `datetime.datetime`; only its date part matters here
    | PDate(date: Date)           // a plain `datetime.date`
    | PNone                       // `None`
    | POther                      // any other value

  /** `parse_date`: the parsed date, or `None` where it raises `ValueError`. */
  type DateParser = string -> Option<Date>

  /** The if/elif chain on `published_date`. */
  function PublishedDate(v: PublishValue, parseDate: DateParser): (r: Option<Date>)
    ensures v.PStr? ==> r == parseDate(v.text)
    ensures v.PDateTime? ==> r == Some(v.date)
    ensures !v.PStr? && !v.PDateTime? ==> r.None?
  {
    match v
    case PStr(s) => parseDate(s)
    case PDateTime(d) => Some(d)
    case _ => None
  }

  /** `", ".join(authors) if authors else None` */
  function AuthorLine(authors: seq<string>): (r: Option<string>)
    ensures r.Some? <==> authors != []
  {
    if authors == [] then None else Some(Join(authors, ", "))
  }

  /** The author line names the authors in order: one more author adds ", " and the name. */
  lemma AuthorLineSnoc(authors: seq<string>, a: string)
    ensures AuthorLine(authors + [a]) == Some(if authors == [] then a else AuthorLine(authors).value + ", " + a)
  {
    if authors != [] {
      JoinSnoc(authors, a, ", ");
    } else {
      assert authors + [a] == [a];
    }
  }

  /** The number of occurrences of `c` in `s`. */
  function Count(s: string, c: char): nat {
    multiset(s)[c]
  }

  lemma {:induction false} SplitCount(s: string, c: char)
    ensures |Split(s, c)| == Count(s, c) + 1
    decreases |s|
  {
    match IndexOf(s, c)
    case None =>
    case Some(i) =>
      assert s == s[..i] + [c] + s[i + 1..];
      assert multiset(s) == multiset(s[..i]) + multiset([c]) + multiset(s[i + 1..]);
      SplitCount(s[i + 1..], c);
  }

  /** `f"https://{url.split('/')[2]}/favicon.ico"`; IndexError when there is no third field. */
  function Favicon(url: string): (r: Result<string, Error>)
    ensures r.Failure? ==> r.error == IndexError
  {
    var fields := Split(url, '/');
    if |fields| < 3 then Failure(IndexError) else Success("https://" + fields[2] + "/favicon.ico")
  }

  /** The favicon fails exactly when the URL has fewer than two '/'. */
  lemma FaviconFailsIff(url: string)
    ensures Favicon(url).Failure? <==> Count(url, '/') < 2
  {
    SplitCount(url, '/');
  }

  /** The first field of `p + t` is `p` when `t` is empty or starts with the separator. */
  lemma SplitFirst(p: string, c: char, t: string)
    requires c !in p && (t == [] || t[0] == c)
    ensures Split(p + t, c)[0] == p
  {
    if t == [] {
      assert p + t == p;
    } else {
      assert p + t == p + [c] + t[1..];
      SplitCons(p, c, t[1..]);
    }
  }

  /** For `scheme//host` followed by nothing or by a path, the favicon is at the host's root. */
  lemma FaviconOfHost(scheme: string, host: string, rest: string)
    requires '/' !in scheme && '/' !in host
    requires rest == [] || rest[0] == '/'
    ensures Favicon(scheme + "//" + host + rest) == Success("https://" + host + "/favicon.ico")
  {
    var hr := host + rest;
    var u := scheme + "//" + host + rest;
    assert Split(u, '/')[2] == host by {
      calc {
        Split(u, '/');
        { assert u == scheme + ['/'] + ([] + ['/'] + hr); SplitCons(scheme, '/', [] + ['/'] + hr); }
        [scheme] + Split([] + ['/'] + hr, '/');
        { SplitCons([], '/', hr); }
        [scheme] + ([[]] + Split(hr, '/'));
      }
      SplitFirst(host, '/', rest);
    }
  }

  const ExampleArticleUrl := "https:" + "//" + "example.com" + "/a/b"

  lemma FaviconExample()
    ensures ExampleArticleUrl == "https://example.com/a/b"
    ensures Favicon(ExampleArticleUrl) == Success("https://example.com/favicon.ico")
  {
    ExampleUrlLiteral();
    ExampleNoSlash();
    ExampleFaviconLiteral();
    FaviconOfHost("https:", "example.com", "/a/b");
  }

  /** Literal facts about the example URL and its parts. */
  lemma ExampleUrlLiteral()
    ensures ExampleArticleUrl == "https://example.com/a/b"
  {
  }

  lemma ExampleNoSlash()
    ensures '/' !in "https:" && '/' !in "example.com"
  {
  }

  lemma ExampleFaviconLiteral()
    ensures "https://" + "example.com" + "/favicon.ico" == "https://example.com/favicon.ico"
  {
  }

  /** What newspaper's `Article` gives after download and parse. */
  datatype Article = Article(title: string, authors: seq<string>, publishDate: PublishValue, metaImg: string)

  /** `ArticleMetadata` */
  datatype ArticleMetadata = ArticleMetadata(title: string, author: Option<string>, publishedDate: Option<Date>,
                                             favicon: Option<string>, metaImage: Option<string>)

  /** `extract_article_metadata` after the download. */
  function ExtractArticleMetadata(url: string, article: Article, parseDate: DateParser): (r: Result<ArticleMetadata, Error>)
    ensures r.Failure? <==> Favicon(url).Failure?
    ensures r.Failure? ==> r.error == IndexError
    ensures r.Success? ==> r.value == ArticleMetadata(article.title, AuthorLine(article.authors),
                                         PublishedDate(article.publishDate, parseDate),
                                         Some(Favicon(url).value), Some(article.metaImg))
  {
    var date := PublishedDate(article.publishDate, parseDate);
    match Favicon(url)
    case Failure(e) => Failure(e)
    case Success(icon) => Success(ArticleMetadata(article.title, AuthorLine(article.authors), date, Some(icon), Some(article.metaImg)))
  }

  /** `YoutubeMetadata` */
  datatype YoutubeMetadata = YoutubeMetadata(title: string, channel: Option<string>, publishedDate: Option<Date>,
                                             thumbnailUrl: Option<string>)

  function Get(x: map<string, string>, key: string): Option<string> {
    if key in x then Some(x[key]) else None
  }

  /** `extract_youtube_metadata`, given the oEmbed JSON (or the error fetching it
    * raised) and the outcome of the publish-date lookup. */
  function ExtractYoutubeMetadata(url: string, oembed: Result<map<string, string>, Error>,
                                  publishDate: Result<Date, Error>): (r: Result<YoutubeMetadata, Error>)
    ensures ParseVideoId(url).Failure? ==> r == Failure(RuntimeError(InvalidUrlMessage))
    ensures ParseVideoId(url).Success? && oembed.Failure? ==> r == Failure(oembed.error)
    ensures ParseVideoId(url).Success? && oembed.Success? ==>
      if "title" in oembed.value then
        r.Success? && r.value.title == oembed.value["title"]
        && r.value.channel == Get(oembed.value, "author_name")
        && r.value.thumbnailUrl == Get(oembed.value, "thumbnail_url")
        && r.value.publishedDate == (if publishDate.Success? then Some(publishDate.value) else None)
      else r == Failure(KeyError("title"))
  {
    match ParseVideoId(url)
    case Failure(e) => Failure(e)
    case Success(id) =>
      if id == [] then Failure(ValueError("Invalid YouTube video URL"))
      else
        match oembed
        case Failure(e) => Failure(e)
        case Success(x) =>
          if "title" !in x then Failure(KeyError("title"))
          else
            var date := match publishDate case Success(d) => Some(d) case Failure(_) => None;
            Success(YoutubeMetadata(x["title"], Get(x, "author_name"), date, Get(x, "thumbnail_url")))
  }

  /** A failing publish-date lookup never makes the extraction fail. */
  lemma PublishDateFailureHarmless(url: string, oembed: Result<map<string, string>, Error>, e: Error, d: Date)
    ensures ExtractYoutubeMetadata(url, oembed, Failure(e)).Success? == ExtractYoutubeMetadata(url, oembed, Success(d)).Success?
    ensures ExtractYoutubeMetadata(url, oembed, Failure(e)).Success? ==>
      ExtractYoutubeMetadata(url, oembed, Failure(e)).value == ExtractYoutubeMetadata(url, oembed, Success(d)).value.(publishedDate := None)
  {
    FindVideoIdSpec(url);
  }
}
