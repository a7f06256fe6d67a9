/** The video modal (components/VideoModal.tsx): the id extractors for YouTube and Vimeo links and
    the effect that turns the link it is given into the URL of the embedded player. */
module VideoModal {
  import opened Wrappers
  import opened Strings
  import opened CmsTypes
  import opened UrlPatterns

  /** `[^&\n?#]`. */
  predicate IdChar(c: char) {
    c != '&' && c != '\n' && c != '?' && c != '#'
  }

  /** `(?:youtube\.com\/watch\?v=|youtu\.be\/)([^&\n?#]+)`. */
  const WatchPattern: Pattern := Pattern(["youtube.com/watch?v=", "youtu.be/"], IdChar)

  /** `youtube\.com\/embed\/([^&\n?#]+)`. */
  const EmbedPattern: Pattern := Pattern(["youtube.com/embed/"], IdChar)

  /** `vimeo\.com\/(?:video\/)?(\d+)`: the optional group is greedy, so `video/` is tried first;
      without it a digit would have to follow `vimeo.com/` directly. */
  const VimeoPattern: Pattern := Pattern(["vimeo.com/video/", "vimeo.com/"], IsDigit)

  /** The capture of the first pattern in the list that matches. */
  function FirstCapture(url: string, patterns: seq<Pattern>): (r: Option<string>)
    ensures r.Some? <==> exists k :: 0 <= k < |patterns| && Capture(url, patterns[k]).Some?
    ensures r.Some? ==> exists k ::
      && 0 <= k < |patterns| && Capture(url, patterns[k]) == r
      && forall j :: 0 <= j < k ==> Capture(url, patterns[j]).None?
  {
    if patterns == [] then None
    else if Capture(url, patterns[0]).Some? then Capture(url, patterns[0])
    else
      var r := FirstCapture(url, patterns[1..]);
      assert forall k :: 1 <= k < |patterns| ==> patterns[k] == patterns[1..][k - 1];
      r
  }

  /** `extractYouTubeId`: the watch / short-link pattern first, then the embed pattern. */
  function ExtractYouTubeId(url: string): Option<string> {
    FirstCapture(url, [WatchPattern, EmbedPattern])
  }

  /** `extractVimeoId`. */
  function ExtractVimeoId(url: string): Option<string> {
    Capture(url, VimeoPattern)
  }

  /** A YouTube id is the watch / short-link capture when there is one and the embed capture
      otherwise; it is non-empty and holds none of `&`, `\n`, `?`, `#`. No id means neither
      pattern matches anywhere. */
  lemma YouTubeIdSpec(url: string)
    ensures Capture(url, WatchPattern).Some? ==> ExtractYouTubeId(url) == Capture(url, WatchPattern)
    ensures Capture(url, WatchPattern).None? ==> ExtractYouTubeId(url) == Capture(url, EmbedPattern)
    ensures ExtractYouTubeId(url).Some? ==> var id := ExtractYouTubeId(url).value;
      id != [] && forall k :: 0 <= k < |id| ==> IdChar(id[k])
    ensures ExtractYouTubeId(url).None? <==>
      forall i: nat :: !MatchesAt(url, i, WatchPattern) && !MatchesAt(url, i, EmbedPattern)
  {
    var patterns := [WatchPattern, EmbedPattern];
    assert patterns[1..] == [EmbedPattern] && [EmbedPattern][1..] == [];
    if Capture(url, WatchPattern).None? {
      assert ExtractYouTubeId(url) == FirstCapture(url, [EmbedPattern]);
      assert FirstCapture(url, []) == None;
    }
    CaptureNone(url, WatchPattern);
    CaptureNone(url, EmbedPattern);
    if ExtractYouTubeId(url).Some? {
      var k :| 0 <= k < |patterns| && Capture(url, patterns[k]) == ExtractYouTubeId(url);
      assert patterns[k].inClass == IdChar;
    }
  }

  /** A Vimeo id is a non-empty run of digits that follows `vimeo.com/video/` or `vimeo.com/` and
      is not followed by another digit; no id means no such run exists. */
  lemma VimeoIdSpec(url: string)
    ensures ExtractVimeoId(url).Some? ==> var id := ExtractVimeoId(url).value;
      && id != [] && AllDigits(id)
      && exists i: nat, k: nat :: LeftmostCapture(url, VimeoPattern, i, k, id)
    ensures ExtractVimeoId(url).None? <==> forall i: nat :: !MatchesAt(url, i, VimeoPattern)
  {
    CaptureNone(url, VimeoPattern);
    if ExtractVimeoId(url).Some? {
      CaptureSome(url, VimeoPattern);
    }
  }

  /** A Vimeo link captured through the `vimeo.com/video/` alternative is the digit run after it;
      through `vimeo.com/`, the digit run directly after the slash. */
  lemma VimeoAlternatives(url: string, i: nat, k: nat, id: string)
    requires LeftmostCapture(url, VimeoPattern, i, k, id)
    ensures k == 0 ==> OccursAt(url, "vimeo.com/video/" + id, i)
    ensures k == 1 ==> OccursAt(url, "vimeo.com/" + id, i)
  {
    if k == 0 {
      assert url[i..i + 16 + |id|] == url[i..i + 16] + url[i + 16..i + 16 + |id|];
    } else {
      assert url[i..i + 10 + |id|] == url[i..i + 10] + url[i + 10..i + 10 + |id|];
    }
  }

  function YouTubeEmbed(id: string): string {
    "https://www.youtube.com/embed/" + id + "?autoplay=1&rel=0"
  }

  function VimeoEmbed(id: string): string {
    "https://player.vimeo.com/video/" + id + "?autoplay=1"
  }

  predicate LooksLikeYouTube(url: string) {
    Contains(url, "youtube.com") || Contains(url, "youtu.be")
  }

  /** The URL the first effect computes for a non-empty link. */
  function EmbedUrlFor(videoUrl: string): string {
    if LooksLikeYouTube(videoUrl) then
      (if ExtractYouTubeId(videoUrl).Some? then YouTubeEmbed(ExtractYouTubeId(videoUrl).value) else videoUrl)
    else if Contains(videoUrl, "vimeo.com") && ExtractVimeoId(videoUrl).Some? then
      VimeoEmbed(ExtractVimeoId(videoUrl).value)
    else videoUrl
  }

  /** The embed URL is the link itself, a YouTube embed of the extracted YouTube id, or a Vimeo
      embed of the extracted Vimeo id; a link that looks like YouTube never becomes a Vimeo embed,
      even when it also names vimeo.com. */
  lemma EmbedUrlForSpec(videoUrl: string)
    ensures var e := EmbedUrlFor(videoUrl);
      || e == videoUrl
      || (ExtractYouTubeId(videoUrl).Some? && e == YouTubeEmbed(ExtractYouTubeId(videoUrl).value))
      || (ExtractVimeoId(videoUrl).Some? && e == VimeoEmbed(ExtractVimeoId(videoUrl).value))
    ensures LooksLikeYouTube(videoUrl) && ExtractYouTubeId(videoUrl).None? ==> EmbedUrlFor(videoUrl) == videoUrl
    ensures LooksLikeYouTube(videoUrl) && ExtractYouTubeId(videoUrl).Some? ==>
      EmbedUrlFor(videoUrl) == YouTubeEmbed(ExtractYouTubeId(videoUrl).value)
    ensures !LooksLikeYouTube(videoUrl) && !Contains(videoUrl, "vimeo.com") ==> EmbedUrlFor(videoUrl) == videoUrl
  {
  }

  /** A link without a Vimeo id or a YouTube id is left as it is. */
  lemma NoIdNoEmbed(videoUrl: string)
    requires ExtractYouTubeId(videoUrl).None? && ExtractVimeoId(videoUrl).None?
    ensures EmbedUrlFor(videoUrl) == videoUrl
  {
  }

  /** The modal's `embedUrl` state. */
  class VideoModalState {
    var embedUrl: string

    constructor ()
      ensures embedUrl == ""
    {
      embedUrl := "";
    }

    /** The first effect, run when `videoUrl` changes: nothing for a missing or empty link;
        otherwise a local `url` starts as the link, is replaced by an embed URL when an id is
        found, and becomes the new state. */
    method OnVideoUrl(videoUrl: Option<string>)
      modifies this
      ensures !Truthy(videoUrl) ==> embedUrl == old(embedUrl)
      ensures Truthy(videoUrl) ==> embedUrl == EmbedUrlFor(videoUrl.value)
    {
      if !Truthy(videoUrl) {
        return;
      }
      var link := videoUrl.value;
      var url := link;
      if LooksLikeYouTube(link) {
        var videoId := ExtractYouTubeId(link);
        if videoId.Some? {
          url := YouTubeEmbed(videoId.value);
        }
      } else if Contains(link, "vimeo.com") {
        var videoId := ExtractVimeoId(link);
        if videoId.Some? {
          url := VimeoEmbed(videoId.value);
        }
      }
      embedUrl := url;
    }
  }
}
