/**
 * The string-building part of `normalizeURL` (choreo/src/utils.ts): format
 * the protocol, host and path of the redirected URL, or of the original URL
 * when following the redirect fails, with every trailing '/' removed from the
 * path. Query and fragment are not part of the result.
 */
module UrlNormalize {
  import opened Wrappers
  import opened Text

  /** `pathname.replace(/\/+$/, "")`: drop the final run of '/'. */
  function StripTrailingSlashes(p: string): (r: string)
    ensures r == [] || r[|r| - 1] != '/'
    ensures |r| <= |p| && p == r + Rep('/', |p| - |r|)
  {
    if p != [] && p[|p| - 1] == '/' then
      var r := StripTrailingSlashes(p[..|p| - 1]);
      assert Rep('/', |p| - |r|) == Rep('/', |p| - 1 - |r|) + ['/'] by {
        RepSnoc('/', |p| - 1 - |r|);
      }
      r
    else
      assert Rep('/', 0) == [];
      p
  }

  /** Stripping twice is stripping once. */
  lemma StripTrailingSlashesIdempotent(p: string)
    ensures StripTrailingSlashes(StripTrailingSlashes(p)) == StripTrailingSlashes(p)
  {
  }

  /** Only '/' characters at the end are removed: a path not ending in '/'
    * followed by any number of '/' strips back to that path. */
  lemma {:induction false} StripTrailingSlashesKeeps(p: string, k: nat)
    requires p == [] || p[|p| - 1] != '/'
    ensures StripTrailingSlashes(p + Rep('/', k)) == p
  {
    if k == 0 {
      assert p + Rep('/', 0) == p;
    } else {
      var q := p + Rep('/', k);
      RepSnoc('/', k - 1);
      assert q == (p + Rep('/', k - 1)) + ['/'];
      assert q[..|q| - 1] == p + Rep('/', k - 1);
      StripTrailingSlashesKeeps(p, k - 1);
    }
  }

  /** What `new URL(...)` gives: the three components used. */
  datatype UrlParts = UrlParts(protocol: string, host: string, pathname: string)

  /** The URL constructor: the parts of a URL, or the error it throws. */
  type UrlParser = string -> Result<UrlParts, Error>

  /** `${protocol}//${host}${pathname.replace(/\/+$/, "")}` */
  function Format(parts: UrlParts): string {
    parts.protocol + "//" + parts.host + StripTrailingSlashes(parts.pathname)
  }

  /** `normalizeURL`, given the redirect target of the HEAD request (or its
    * rejection) and the URL constructor. */
  function NormalizeUrl(url: string, head: Result<string, Error>, parse: UrlParser): (r: Result<string, Error>)
    ensures head.Success? && parse(head.value).Success? ==> r == Success(Format(parse(head.value).value))
    ensures (head.Failure? || parse(head.value).Failure?) ==>
      r == (match parse(url) case Success(p) => Success(Format(p)) case Failure(e) => Failure(e))
  {
    var viaRedirect := match head case Success(final) => parse(final) case Failure(e) => Failure(e);
    match viaRedirect
    case Success(p) => Success(Format(p))
    case Failure(_) =>
      match parse(url)
      case Success(p) => Success(Format(p))
      case Failure(e) => Failure(e)
  }

  /** Adding trailing slashes to the path does not change the formatted URL. */
  lemma FormatPath(parts: UrlParts, k: nat)
    ensures Format(parts.(pathname := parts.pathname + Rep('/', k))) == Format(parts)
  {
    var s := StripTrailingSlashes(parts.pathname);
    StripTrailingSlashesKeeps(s, |parts.pathname| - |s| + k);
    assert parts.pathname + Rep('/', k) == s + Rep('/', |parts.pathname| - |s| + k) by {
      RepAppend('/', |parts.pathname| - |s|, k);
    }
  }

  lemma RepAppend(c: char, m: nat, n: nat)
    ensures Rep(c, m) + Rep(c, n) == Rep(c, m + n)
  {
    var a := Rep(c, m) + Rep(c, n);
    assert forall i :: 0 <= i < |a| ==> a[i] == c;
  }

  /** A root path "/" gives `protocol//host` with nothing after it. */
  lemma RootPath(protocol: string, host: string)
    ensures Format(UrlParts(protocol, host, "/")) == protocol + "//" + host
  {
    assert "/" == [] + Rep('/', 1);
    StripTrailingSlashesKeeps([], 1);
  }
}
