/** The inline video player (components/VideoPlayer.tsx): `getVideoEmbedUrl`, which recognises a
    YouTube or a Vimeo link and builds the player URL with the caption language of the page. The
    YouTube regular expression

      (?:youtube\.com\/(?:[^\/]+\/.+\/|(?:v|e(?:mbed)?)\/|.*[?&]v=)|youtu\.be\/)([^"&?\/\s]{11})

    is modelled with its backtracking made explicit: the leftmost start wins, the alternatives are
    tried in order, and the greedy `.+` and `.*` take the last position from which the rest of the
    expression can match. `.` stops at any line terminator, and `\s` is ASCII white space. */
module VideoPlayer {
  import opened Wrappers
  import opened Strings
  import opened I18n
  import opened SearchParams
  import UrlPatterns

  /** `[^"&?\/\s]`. */
  predicate IdChar(c: char) {
    c != '"' && c != '&' && c != '?' && c != '/' && !IsSpace(c)
  }

  const IdLength: nat := 11

  /** Eleven id characters start at `k`. */
  predicate IdAt(s: string, k: nat) {
    k + IdLength <= |s| && forall t :: k <= t < k + IdLength ==> IdChar(s[t])
  }

  /** The largest `k` with `lo <= k < hi` and `good(k)`: what a greedy quantifier settles on. */
  function LastBelow(lo: nat, hi: nat, good: nat -> bool): (r: Option<nat>)
    ensures r.Some? ==> lo <= r.value < hi && good(r.value)
    ensures r.Some? ==> forall k :: r.value < k < hi ==> !good(k)
    ensures r.None? ==> forall k :: lo <= k < hi ==> !good(k)
    decreases hi
  {
    if hi <= lo then None
    else if good(hi - 1) then Some(hi - 1)
    else LastBelow(lo, hi - 1, good)
  }

  /** The characters `.` does not match without the `s` flag: line feed, carriage return, line
      separator and paragraph separator. */
  predicate LineTerminator(c: char) {
    c == '\n' || c == '\r' || c == '\U{2028}' || c == '\U{2029}'
  }

  /** The first line terminator at or after `from`, or the end: how far `.` can reach. */
  function LineEnd(s: string, from: nat): (e: nat)
    ensures from <= e && (from <= |s| ==> e <= |s|)
    ensures forall t :: from <= t < e ==> t < |s| && !LineTerminator(s[t])
    ensures from <= e < |s| ==> LineTerminator(s[e])
    decreases |s| - from
  {
    if from >= |s| || LineTerminator(s[from]) then from else LineEnd(s, from + 1)
  }

  /** `[^\/]+\/.+\/` after `youtube.com/` at `p`: a non-empty segment without a slash and its slash,
      then at least one character of the same line up to the last slash after which an id
      starts. The result is where the id starts. */
  function SegmentsRoute(s: string, p: nat): (r: Option<nat>)
    ensures r.Some? ==> IdAt(s, r.value)
  {
    if p < |s| && s[p] != '/' then
      match FindFrom(s, "/", p)
      case None => None
      case Some(e) =>
        var j := e + 1;
        var k := LastBelow(j + 1, LineEnd(s, j), (k: nat) => k < |s| && s[k] == '/' && IdAt(s, k + 1));
        if k.Some? then Some(k.value + 1) else None
    else None
  }

  /** `(?:v|e(?:mbed)?)\/` after `youtube.com/` at `p`: `v/`, then `embed/`, then `e/`. */
  function ShortRoute(s: string, p: nat): (r: Option<nat>)
    ensures r.Some? ==> IdAt(s, r.value)
  {
    if OccursAt(s, "v/", p) && IdAt(s, p + 2) then Some(p + 2)
    else if OccursAt(s, "embed/", p) && IdAt(s, p + 6) then Some(p + 6)
    else if OccursAt(s, "e/", p) && IdAt(s, p + 2) then Some(p + 2)
    else None
  }

  /** `[?&]v=` at `k`. */
  predicate VParamAt(s: string, k: nat) {
    k + 3 <= |s| && (s[k] == '?' || s[k] == '&') && s[k + 1] == 'v' && s[k + 2] == '='
  }

  /** `.*[?&]v=` after `youtube.com/` at `p`: the last `?v=` or `&v=` on the same line after which
      an id starts. */
  function QueryRoute(s: string, p: nat): (r: Option<nat>)
    ensures r.Some? ==> IdAt(s, r.value)
  {
    var k := LastBelow(p, LineEnd(s, p), (k: nat) => VParamAt(s, k) && IdAt(s, k + 3));
    if k.Some? then Some(k.value + 3) else None
  }

  /** Where the id starts when the expression matches at `i`, the alternatives in order. */
  function YouTubeMatchAt(s: string, i: nat): (r: Option<nat>)
    ensures r.Some? ==> IdAt(s, r.value)
  {
    if OccursAt(s, "youtube.com/", i) && SegmentsRoute(s, i + 12).Some? then SegmentsRoute(s, i + 12)
    else if OccursAt(s, "youtube.com/", i) && ShortRoute(s, i + 12).Some? then ShortRoute(s, i + 12)
    else if OccursAt(s, "youtube.com/", i) && QueryRoute(s, i + 12).Some? then QueryRoute(s, i + 12)
    else if OccursAt(s, "youtu.be/", i) && IdAt(s, i + 9) then Some(i + 9)
    else None
  }

  /** The leftmost start at or after `from`. */
  function FirstYouTubeMatch(s: string, from: nat): (r: Option<nat>)
    ensures r.Some? ==> from <= r.value && YouTubeMatchAt(s, r.value).Some?
    ensures r.Some? ==> forall j :: from <= j < r.value ==> YouTubeMatchAt(s, j).None?
    ensures r.None? ==> forall j :: from <= j < |s| ==> YouTubeMatchAt(s, j).None?
    decreases |s| - from
  {
    if from >= |s| then None
    else if YouTubeMatchAt(s, from).Some? then Some(from)
    else FirstYouTubeMatch(s, from + 1)
  }

  /** `url.match(youtubeRegex)?.[1]`. */
  function YouTubeId(url: string): (r: Option<string>)
    ensures r.Some? ==> |r.value| == IdLength && forall k :: 0 <= k < |r.value| ==> IdChar(r.value[k])
  {
    match FirstYouTubeMatch(url, 0)
    case None => None
    case Some(i) =>
      var k := YouTubeMatchAt(url, i).value;
      Some(url[k..k + IdLength])
  }

  /** `(?:vimeo\.com\/)(\d+)`: unlike the modal's pattern, no `video/` segment is allowed. */
  const VimeoPattern: UrlPatterns.Pattern := UrlPatterns.Pattern(["vimeo.com/"], IsDigit)

  function VimeoId(url: string): Option<string> {
    UrlPatterns.Capture(url, VimeoPattern)
  }

  datatype Platform = YouTube | Vimeo | Unknown

  datatype EmbedInfo = EmbedInfo(embedUrl: string, platform: Platform)

  const EmbedHead: string := "https://www.youtube.com/embed/"

  /** The parameters of the YouTube player, in the order they are given to `URLSearchParams`. */
  function YouTubeParams(locale: Locale): seq<(string, string)> {
    [("autoplay", "0"), ("modestbranding", "1"), ("rel", "0"), ("cc_load_policy", "1"), ("cc_lang_pref", Code(locale))]
  }

  function VimeoParams(locale: Locale): seq<(string, string)> {
    [("title", "0"), ("byline", "0"), ("portrait", "0"), ("texttrack", Code(locale))]
  }

  function YouTubePlayer(id: string, locale: Locale): string {
    EmbedHead + id + "?" + Serialize(YouTubeParams(locale))
  }

  function VimeoPlayer(id: string, locale: Locale): string {
    "https://player.vimeo.com/video/" + id + "?" + Serialize(VimeoParams(locale))
  }

  /** `getVideoEmbedUrl`: YouTube first, then Vimeo, otherwise no player. The `locale` prop
      defaults to English. */
  function GetVideoEmbedUrl(url: string, locale: Option<Locale>): EmbedInfo {
    var loc := locale.GetOr(En);
    match YouTubeId(url)
    case Some(id) => EmbedInfo(YouTubePlayer(id, loc), YouTube)
    case None =>
      match VimeoId(url)
      case Some(id) => EmbedInfo(VimeoPlayer(id, loc), Vimeo)
      case None => EmbedInfo("", Unknown)
  }

  /** The player shows the unsupported-format message instead of a frame. */
  predicate Unsupported(info: EmbedInfo) {
    info.embedUrl == "" || info.platform == Unknown
  }

  /** A YouTube id, when found, decides the result, whatever Vimeo link the URL also holds; it is
      eleven characters none of which is a quote, `&`, `?`, `/` or white space, and the caption
      language is the page's (English by default). */
  lemma YouTubeFirst(url: string, locale: Option<Locale>)
    requires YouTubeId(url).Some?
    ensures var id := YouTubeId(url).value;
      && GetVideoEmbedUrl(url, locale) == EmbedInfo(YouTubePlayer(id, locale.GetOr(En)), YouTube)
      && |id| == 11
      && forall k :: 0 <= k < |id| ==> id[k] != '"' && id[k] != '&' && id[k] != '?' && id[k] != '/' && !IsSpace(id[k])
  {
  }

  /** Without a YouTube id, a Vimeo result is a non-empty run of digits right after `vimeo.com/`,
      with the subtitle track in the page's language. */
  lemma VimeoSecond(url: string, locale: Option<Locale>)
    requires YouTubeId(url).None? && VimeoId(url).Some?
    ensures var id := VimeoId(url).value;
      && GetVideoEmbedUrl(url, locale) == EmbedInfo(VimeoPlayer(id, locale.GetOr(En)), Vimeo)
      && id != [] && AllDigits(id)
      && exists i: nat :: OccursAt(url, "vimeo.com/" + id, i) && (i + 10 + |id| < |url| ==> !IsDigit(url[i + 10 + |id|]))
  {
    VimeoIdFollowsDomain(url);
  }

  /** A Vimeo id is a maximal digit run directly after an occurrence of `vimeo.com/`. */
  lemma VimeoIdFollowsDomain(url: string)
    requires VimeoId(url).Some?
    ensures var id := VimeoId(url).value;
      && id != [] && AllDigits(id)
      && exists i: nat :: OccursAt(url, "vimeo.com/" + id, i) && (i + 10 + |id| < |url| ==> !IsDigit(url[i + 10 + |id|]))
  {
    var id := VimeoId(url).value;
    UrlPatterns.CaptureSome(url, VimeoPattern);
    var i: nat, k: nat :| UrlPatterns.LeftmostCapture(url, VimeoPattern, i, k, id);
    assert k == 0 && VimeoPattern.alternatives[k] == "vimeo.com/";
    assert url[i..i + 10] == "vimeo.com/";
    assert url[i..i + 10 + |id|] == url[i..i + 10] + url[i + 10..i + 10 + |id|];
    assert OccursAt(url, "vimeo.com/" + id, i);
  }

  /** The unsupported-format branch is taken exactly when neither platform is recognised, and then
      the embed URL is empty. */
  lemma UnsupportedIffNoMatch(url: string, locale: Option<Locale>)
    ensures Unsupported(GetVideoEmbedUrl(url, locale)) <==> YouTubeId(url).None? && VimeoId(url).None?
    ensures Unsupported(GetVideoEmbedUrl(url, locale)) ==> GetVideoEmbedUrl(url, locale) == EmbedInfo("", Unknown)
  {
    var loc := locale.GetOr(En);
    if YouTubeId(url).Some? {
      assert |YouTubePlayer(YouTubeId(url).value, loc)| > 0;
    } else if VimeoId(url).Some? {
      assert |VimeoPlayer(VimeoId(url).value, loc)| > 0;
    }
  }

  /** No YouTube id means the expression matches at no position. */
  lemma NoYouTubeIdMeansNoMatch(url: string)
    ensures YouTubeId(url).None? <==> forall i: nat :: YouTubeMatchAt(url, i).None?
  {
    if YouTubeId(url).None? {
      forall i: nat ensures YouTubeMatchAt(url, i).None? {
        if i >= |url| {
          assert !OccursAt(url, "youtube.com/", i) && !OccursAt(url, "youtu.be/", i);
        }
      }
    } else {
      assert YouTubeMatchAt(url, FirstYouTubeMatch(url, 0).value).Some?;
    }
  }

  /** No key or value of the player parameters holds a slash, so neither does their serialization. */
  lemma NoSlashInParams(locale: Locale)
    ensures '/' !in Serialize(YouTubeParams(locale))
  {
    var ps := YouTubeParams(locale);
    assert '/' !in "autoplay" && '/' !in "modestbranding" && '/' !in "rel";
    assert '/' !in "cc_load_policy" && '/' !in "cc_lang_pref" && '/' !in Code(locale);
    assert forall i :: 0 <= i < |ps| ==> '/' !in ps[i].0 && '/' !in ps[i].1;
    SerializeAvoids(ps, '/');
  }

  /** The player URL has no slash after `/embed/`: the id has none, nor has the query. */
  lemma NoSlashAfterEmbed(id: string, locale: Locale, k: nat)
    requires |id| == IdLength && forall t :: 0 <= t < |id| ==> IdChar(id[t])
    requires 30 <= k < |YouTubePlayer(id, locale)|
    ensures YouTubePlayer(id, locale)[k] != '/'
  {
    var s := YouTubePlayer(id, locale);
    var tail := "?" + Serialize(YouTubeParams(locale));
    assert s == EmbedHead + id + tail;
    if k < 41 {
      assert s[k] == id[k - 30];
    } else {
      NoSlashInParams(locale);
      assert s[k] == tail[k - 41];
      assert '/' !in tail;
    }
  }

  /** `https://www.youtube.com/embed/` has no slash between positions 8 and 22. */
  lemma HeadSlashes(t: nat)
    requires 8 <= t < 23
    ensures EmbedHead[t] != '/'
  {
  }

  /** Neither `youtube.com/` nor `youtu.be/` starts inside `https://www.`: the slash each of them
      ends with would fall where the head has none. */
  lemma NoEarlyMatch(s: string, i: nat)
    requires |s| >= 30 && s[..30] == EmbedHead && i < 12
    ensures YouTubeMatchAt(s, i).None?
  {
    HeadSlashes(i + 11);
    HeadSlashes(i + 8);
    assert s[i + 11] == EmbedHead[i + 11] && s[i + 8] == EmbedHead[i + 8];
    assert s[i..i + 12][11] == s[i + 11] && "youtube.com/"[11] == '/';
    assert s[i..i + 9][8] == s[i + 8] && "youtu.be/"[8] == '/';
  }

  /** After `youtube.com/` in a player URL, the `[^\/]+\/.+\/` route finds no second slash. */
  lemma SegmentsRouteFails(id: string, locale: Locale)
    requires |id| == IdLength && forall t :: 0 <= t < |id| ==> IdChar(id[t])
    ensures SegmentsRoute(YouTubePlayer(id, locale), 24).None?
  {
    var s := YouTubePlayer(id, locale);
    assert s[..30] == EmbedHead;
    assert s[24..30] == "embed/";
    assert OccursAt(s, "/", 29);
    forall t | 24 <= t < 29 ensures !OccursAt(s, "/", t) {
      assert s[t] == s[24..30][t - 24];
    }
    assert FindFrom(s, "/", 24) == Some(29);
    forall k | 31 <= k < |s| ensures s[k] != '/' {
      NoSlashAfterEmbed(id, locale, k);
    }
  }

  /** `.+` cannot cross a carriage return: in `youtube.com/xx/a\r/ABCDEFGHIJK` the slash before the
      id lies on the next line, so the `[^\/]+\/.+\/` route does not fit. */
  lemma CarriageReturnEndsLine()
    ensures SegmentsRoute("youtube.com/xx/a\r/ABCDEFGHIJK", 12).None?
  {
    var s := "youtube.com/xx/a\r/ABCDEFGHIJK";
    assert s[12] == 'x' && s[13] == 'x' && s[14] == '/' && s[15] == 'a' && s[16] == '\r';
    assert !OccursAt(s, "/", 12) && !OccursAt(s, "/", 13) && OccursAt(s, "/", 14);
    assert FindFrom(s, "/", 14) == Some(14);
    assert FindFrom(s, "/", 12) == Some(14);
    assert LineEnd(s, 16) == 16;
    assert LineEnd(s, 15) == 16;
  }

  /** The player URL built for an id is recognised again, with the same id: the expression first
      matches at `youtube.com/` and takes the `embed/` route. */
  lemma PlayerUrlRoundTrip(id: string, locale: Locale)
    requires |id| == IdLength && forall t :: 0 <= t < |id| ==> IdChar(id[t])
    ensures YouTubeId(YouTubePlayer(id, locale)) == Some(id)
  {
    var s := YouTubePlayer(id, locale);
    assert s[..30] == EmbedHead;
    forall i | 0 <= i < 12 ensures YouTubeMatchAt(s, i).None? {
      NoEarlyMatch(s, i);
    }
    SegmentsRouteFails(id, locale);
    assert s[12..24] == "youtube.com/" && s[24..30] == "embed/";
    assert OccursAt(s, "youtube.com/", 12) && !OccursAt(s, "v/", 24) && OccursAt(s, "embed/", 24);
    assert s[30..41] == id;
    assert YouTubeMatchAt(s, 12) == Some(30);
  }
}
