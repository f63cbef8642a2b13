/**
 * The direct-link tests of api/app/utils.py: a URL is a direct audio (video)
 * link when its lower-cased text ends in one of the audio (video) file
 * extensions.
 */
module SourceKind {
  import opened Text

  const AudioExtensions: seq<string> := [".mp3", ".wav", ".ogg", ".flac", ".aac"]
  const VideoExtensions: seq<string> := [".mp4", ".avi", ".mov", ".mkv", ".webm", ".flv"]

  /** `s.endswith(suffixes)` for a tuple of suffixes. */
  predicate EndsWithAny(s: string, suffixes: seq<string>) {
    exists i :: 0 <= i < |suffixes| && EndsWith(s, suffixes[i])
  }

  /** `is_direct_audio_url` */
  predicate IsDirectAudioUrl(url: string) {
    EndsWithAny(Lower(url), AudioExtensions)
  }

  /** `is_direct_video_url` */
  predicate IsDirectVideoUrl(url: string) {
    EndsWithAny(Lower(url), VideoExtensions)
  }

  /** Two suffixes of one string agree, counted from the end. */
  lemma SuffixesAgree(s: string, a: string, b: string, i: nat)
    requires EndsWith(s, a) && EndsWith(s, b) && i < |a| && i < |b|
    ensures a[|a| - 1 - i] == b[|b| - 1 - i]
  {
    assert a[|a| - 1 - i] == s[|s| - 1 - i];
    assert b[|b| - 1 - i] == s[|s| - 1 - i];
  }

  /** No URL is both a direct audio link and a direct video link. */
  lemma AudioNotVideo(url: string)
    ensures !(IsDirectAudioUrl(url) && IsDirectVideoUrl(url))
  {
    var s := Lower(url);
    if IsDirectAudioUrl(url) && IsDirectVideoUrl(url) {
      var i :| 0 <= i < |AudioExtensions| && EndsWith(s, AudioExtensions[i]);
      var j :| 0 <= j < |VideoExtensions| && EndsWith(s, VideoExtensions[j]);
      var a := AudioExtensions[i];
      var b := VideoExtensions[j];
      SuffixesAgree(s, a, b, 0);
      SuffixesAgree(s, a, b, 1);
      ExtensionsDiffer(i, j);
      assert false;
    }
  }

  /** Each audio extension differs from each video extension in one of its last two characters. */
  lemma ExtensionsDiffer(i: nat, j: nat)
    requires i < |AudioExtensions| && j < |VideoExtensions|
    ensures var a := AudioExtensions[i]; var b := VideoExtensions[j];
      |a| >= 2 && |b| >= 2 && (a[|a| - 1] != b[|b| - 1] || a[|a| - 2] != b[|b| - 2])
  {
  }

  /** Both tests look at the lower-cased text only, so they ignore letter case. */
  lemma LowerInvariant(url: string)
    ensures IsDirectAudioUrl(Lower(url)) == IsDirectAudioUrl(url)
    ensures IsDirectVideoUrl(Lower(url)) == IsDirectVideoUrl(url)
  {
    assert Lower(Lower(url)) == Lower(url);
  }

  /** The last character of every extension is one of these. */
  predicate ExtensionEnd(c: char) {
    c in "3vgc4im"
  }

  lemma EndsWithLast(s: string, e: string)
    requires e != []
    ensures EndsWith(s, e) ==> s != [] && s[|s| - 1] == e[|e| - 1]
  {
    if EndsWith(s, e) {
      assert s[|s| - |e|..][|e| - 1] == s[|s| - 1];
    }
  }

  /** A URL whose last character does not end an extension (a query string
    * such as `?dl=1`, a trailing `/`) is neither kind of direct link. */
  lemma TrailingCharDefeats(url: string)
    requires url != [] && !ExtensionEnd(LowerChar(url[|url| - 1]))
    ensures !IsDirectAudioUrl(url) && !IsDirectVideoUrl(url)
  {
    var s := Lower(url);
    forall e | e in AudioExtensions + VideoExtensions
      ensures EndsWith(s, e) ==> ExtensionEnd(s[|s| - 1])
    {
      EndsWithLast(s, e);
    }
    assert forall i :: 0 <= i < |AudioExtensions| ==> AudioExtensions[i] in AudioExtensions + VideoExtensions;
    assert forall i :: 0 <= i < |VideoExtensions| ==> VideoExtensions[i] in AudioExtensions + VideoExtensions;
  }

  /** An upper-case extension counts. */
  lemma UpperCaseAudio()
    ensures IsDirectAudioUrl("A.MP3")
  {
    var s := Lower("A.MP3");
    assert s == "a.mp3";
    assert EndsWith(s, AudioExtensions[0]);
  }

  /** A query string after the extension defeats both tests. */
  lemma QueryStringDefeats()
    ensures !IsDirectAudioUrl("https://cdn.example.com/a.mp3?dl=1")
    ensures !IsDirectVideoUrl("https://cdn.example.com/a.mp3?dl=1")
  {
    TrailingCharDefeats("https://cdn.example.com/a.mp3?dl=1");
  }
}
