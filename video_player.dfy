/**
 * The lesson video player's choice of source: a YouTube url with a well-formed video id is
 * embedded, any other non-YouTube url is played directly, and everything else falls back to
 * a sample video.
 */
module VideoPlayer {
  import opened Wrappers
  import opened JsText

  const DefaultSampleVideo: string := "https://commondatastorage.googleapis.com/gtv-videos-bucket/sample/BigBuckBunny.mp4"

  /** `[A-Za-z0-9_-]`. */
  predicate IsIdChar(c: char) {
    ('A' <= c <= 'Z') || ('a' <= c <= 'z') || ('0' <= c <= '9') || c == '_' || c == '-'
  }

  /** `isValidYoutubeVideoId`: exactly eleven characters, each a letter, a digit, `_` or `-`. */
  predicate IsValidYoutubeVideoId(id: string) {
    |id| == 11 && forall i | 0 <= i < |id| :: IsIdChar(id[i])
  }

  /** The three url shapes an id is read from, in the order they are tried. */
  datatype Pattern = WatchParam | ShortLink | Embed

  /** `s` holds `m` at position `i`. */
  predicate StartsAt(s: string, i: nat, m: string) {
    i + |m| <= |s| && s[i..i + |m|] == m
  }

  /** The text each pattern's capture follows: `[?&]v=`, `youtu.be/`, `embed/`. */
  predicate MarkerAt(u: string, i: nat, p: Pattern) {
    match p
    case WatchParam => StartsAt(u, i, "?v=") || StartsAt(u, i, "&v=")
    case ShortLink => StartsAt(u, i, "youtu.be/")
    case Embed => StartsAt(u, i, "embed/")
  }

  function MarkerLength(p: Pattern): nat {
    match p
    case WatchParam => 3
    case ShortLink => 9
    case Embed => 6
  }

  /** The characters that end a capture: `[^&]+` for the watch parameter, `[^?&]+` for the others. */
  function Stops(p: Pattern): set<char> {
    match p
    case WatchParam => {'&'}
    case _ => {'?', '&'}
  }

  /** The pattern matches at `i`: its marker is there and at least one non-stop character follows. */
  predicate MatchesAt(u: string, i: nat, p: Pattern) {
    MarkerAt(u, i, p) && FirstOf(u[i + MarkerLength(p)..], Stops(p)) > 0
  }

  /** The leftmost position at or after `from` where the pattern matches, as `match` finds it. */
  function MatchIndex(u: string, from: nat, p: Pattern): (r: Option<nat>)
    ensures r.Some? ==> from <= r.value < |u| && MatchesAt(u, r.value, p)
    ensures r.Some? ==> forall j | from <= j < r.value :: !MatchesAt(u, j, p)
    ensures r.None? ==> forall j | from <= j < |u| :: !MatchesAt(u, j, p)
    decreases |u| - from
  {
    if from >= |u| then None
    else if MatchesAt(u, from, p) then Some(from)
    else MatchIndex(u, from + 1, p)
  }

  /** The first capture group of the match at `i`: the longest run of non-stop characters after the marker. */
  function CaptureAt(u: string, i: nat, p: Pattern): (r: string)
    requires MatchesAt(u, i, p)
    ensures r != [] && NoneIn(r, Stops(p))
  {
    var rest := u[i + MarkerLength(p)..];
    rest[..FirstOf(rest, Stops(p))]
  }

  /** `m ? m[1] : null` for one pattern. */
  function Capture(u: string, p: Pattern): (r: Option<string>)
    ensures r.Some? ==> r.value != [] && NoneIn(r.value, Stops(p))
  {
    match MatchIndex(u, 0, p)
    case None => None
    case Some(i) => Some(CaptureAt(u, i, p))
  }

  /** The id candidate: the watch parameter if the url is a watch url, else the short link's, else the embed path's. */
  function ExtractedId(u: string): Option<string> {
    if Contains(u, "youtube.com/watch?v=") then Capture(u, WatchParam)
    else if Contains(u, "youtu.be/") then Capture(u, ShortLink)
    else if Contains(u, "youtube.com/embed/") then Capture(u, Embed)
    else None
  }

  /** `getYoutubeVideoId`: the candidate from the trimmed url when it is a valid id; nothing for blank urls. */
  function GetYoutubeVideoId(url: string): (r: Option<string>)
    ensures r.Some? ==> IsValidYoutubeVideoId(r.value)
    ensures IsBlank(url) ==> r.None?
    ensures r.Some? <==> !IsBlank(url) && ExtractedId(Trim(url)).Some? && IsValidYoutubeVideoId(ExtractedId(Trim(url)).value)
  {
    var u := Trim(url);
    if u == [] then None
    else
      var id := ExtractedId(u);
      if id.Some? && IsValidYoutubeVideoId(id.value) then id else None
  }

  /** A run of characters with no stop in it is entirely taken by `FirstOf`. */
  lemma FirstOfNoStop(s: string, stops: set<char>)
    requires NoneIn(s, stops)
    ensures FirstOf(s, stops) == |s|
  {
  }

  /** The first match is at `i` when the pattern matches there and nowhere before. */
  lemma {:induction false} MatchIndexIsFirst(u: string, from: nat, i: nat, p: Pattern)
    requires from <= i < |u| && MatchesAt(u, i, p)
    requires forall j | from <= j < i :: !MatchesAt(u, j, p)
    ensures MatchIndex(u, from, p) == Some(i)
    decreases i - from
  {
    if from < i {
      MatchIndexIsFirst(u, from + 1, i, p);
    }
  }

  /** A string that holds `m` at `i` has `m`'s first character there. */
  lemma StartsAtHead(s: string, i: nat, m: string)
    requires m != []
    ensures StartsAt(s, i, m) ==> i < |s| && s[i] == m[0]
  {
    if StartsAt(s, i, m) {
      assert s[i..i + |m|][0] == s[i];
    }
  }

  /** No watch marker starts inside a prefix free of `?` and `&`. */
  lemma NoWatchMatchBefore(url: string, k: nat)
    requires k <= |url| && NoneIn(url[..k], {'?', '&'})
    ensures forall j | 0 <= j < k :: !MatchesAt(url, j, WatchParam)
  {
    forall j | 0 <= j < k
      ensures !MatchesAt(url, j, WatchParam)
    {
      assert url[..k][j] == url[j];
      StartsAtHead(url, j, "?v=");
      StartsAtHead(url, j, "&v=");
    }
  }

  /** After the marker, `[^&]+` takes the whole parameter value when nothing or an `&` follows it. */
  lemma CaptureParameter(id: string, rest: string)
    requires id != [] && NoneIn(id, {'&'})
    requires rest == [] || rest[0] == '&'
    ensures FirstOf(id + rest, {'&'}) == |id| && (id + rest)[..|id|] == id
  {
    FirstOfNoStop(id, {'&'});
    FirstOfExtended(id, rest, {'&'});
  }

  /** With no `?` or `&` before a `?v=` marker at `k` and a non-empty value after it, the first watch match is at `k`. */
  lemma WatchMatchFirst(url: string, k: nat)
    requires k + 3 <= |url| && NoneIn(url[..k], {'?', '&'}) && StartsAt(url, k, "?v=")
    requires FirstOf(url[k + 3..], {'&'}) > 0
    ensures MatchIndex(url, 0, WatchParam) == Some(k)
  {
    NoWatchMatchBefore(url, k);
    assert MatchesAt(url, k, WatchParam);
    MatchIndexIsFirst(url, 0, k, WatchParam);
  }

  /** `[?&]v=([^&]+)` captures the parameter's value, up to the next `&`. */
  lemma WatchParamCapture(base: string, id: string, rest: string)
    requires NoneIn(base, {'?', '&'}) && id != [] && NoneIn(id, {'&'})
    requires rest == [] || rest[0] == '&'
    ensures Capture(base + "?v=" + id + rest, WatchParam) == Some(id)
  {
    var url := base + "?v=" + id + rest;
    var k := |base|;
    assert url[..k] == base;
    assert url[k..k + 3] == "?v=";
    assert url[k + 3..] == id + rest;
    CaptureParameter(id, rest);
    WatchMatchFirst(url, k);
  }

  /** A valid id holds no `&`. */
  lemma ValidIdHasNoAmpersand(id: string)
    requires IsValidYoutubeVideoId(id)
    ensures id != [] && NoneIn(id, {'&'})
  {
    assert forall i | 0 <= i < |id| :: IsIdChar(id[i]);
  }

  /**
   * A watch url gives its `v` parameter: for `base?v=<id>` followed by nothing or by further
   * `&` parameters, where `base` ends in `youtube.com/watch` and holds no `?` or `&`.
   */
  lemma WatchUrlGivesId(prefix: string, id: string, rest: string)
    requires NoneIn(prefix, {'?', '&'}) && IsValidYoutubeVideoId(id)
    requires rest == [] || rest[0] == '&'
    requires var url := prefix + "youtube.com/watch" + "?v=" + id + rest;
      !IsSpace(url[0]) && !IsSpace(url[|url| - 1])
    ensures GetYoutubeVideoId(prefix + "youtube.com/watch" + "?v=" + id + rest) == Some(id)
  {
    var base := prefix + "youtube.com/watch";
    var url := base + "?v=" + id + rest;
    TrimOfTrimmed(url);
    assert Contains(url, "youtube.com/watch?v=") by {
      assert url == prefix + "youtube.com/watch?v=" + (id + rest);
      ContainsInfix(prefix, "youtube.com/watch?v=", id + rest);
    }
    assert NoneIn(base, {'?', '&'}) by {
      assert NoneIn("youtube.com/watch", {'?', '&'});
      assert forall i | 0 <= i < |base| :: base[i] in prefix || base[i] in "youtube.com/watch";
    }
    ValidIdHasNoAmpersand(id);
    WatchParamCapture(base, id, rest);
  }

  // ---------------------------------------------------------------- source selection

  /** `/youtube\.com|youtu\.be/.test(url)`. */
  predicate LooksLikeYoutube(url: string) {
    Contains(url, "youtube.com") || Contains(url, "youtu.be")
  }

  /** The three candidate sources the player computes; `None` is `null`. */
  datatype Source = Source(youtubeId: Option<string>, directUrl: Option<string>, fallbackUrl: Option<string>)

  /** Exactly one of the three sources is set. */
  predicate ExactlyOne(s: Source) {
    || (s.youtubeId.Some? && s.directUrl.None? && s.fallbackUrl.None?)
    || (s.youtubeId.None? && s.directUrl.Some? && s.fallbackUrl.None?)
    || (s.youtubeId.None? && s.directUrl.None? && s.fallbackUrl.Some?)
  }

  /**
   * `youtubeId`, `directUrl` and `fallbackUrl`: exactly one of them is set, the embedded id
   * is valid, a direct url is the source itself, and the fallback is the sample video.
   */
  function SelectSource(src: Option<string>): (r: Source)
    ensures ExactlyOne(r)
    ensures r.youtubeId.Some? ==> Truthy(src) && r.youtubeId == GetYoutubeVideoId(src.value)
    ensures r.directUrl.Some? ==> r.directUrl == src && Truthy(src) && !LooksLikeYoutube(src.value)
    ensures r.fallbackUrl.Some? ==> r.fallbackUrl.value == DefaultSampleVideo
  {
    var youtubeId := if Truthy(src) then GetYoutubeVideoId(src.value) else None;
    var directUrl := if Truthy(src) && youtubeId.None? && !LooksLikeYoutube(src.value) then src else None;
    var fallbackUrl := if youtubeId.None? && directUrl.None? then Some(DefaultSampleVideo) else None;
    Source(youtubeId, directUrl, fallbackUrl)
  }

  /** `directUrl ?? fallbackUrl ?? ""`: what the native player plays when nothing is embedded. */
  function VideoSrc(s: Source): (r: string)
    ensures ExactlyOne(s) && s.youtubeId.None? ==> Some(r) == s.directUrl || Some(r) == s.fallbackUrl
  {
    if s.directUrl.Some? then s.directUrl.value else if s.fallbackUrl.Some? then s.fallbackUrl.value else ""
  }

  /** Each id marker mentions `youtube.com` or `youtu.be`. */
  lemma MarkersMentionYoutube()
    ensures Contains("youtube.com/watch?v=", "youtube.com")
    ensures Contains("youtu.be/", "youtu.be")
    ensures Contains("youtube.com/embed/", "youtube.com")
  {
    ContainsAt("youtube.com/watch?v=", "youtube.com", 0);
    ContainsAt("youtu.be/", "youtu.be", 0);
    ContainsAt("youtube.com/embed/", "youtube.com", 0);
  }

  /** A url that holds a marker mentioning `name` mentions `name`. */
  lemma MentionThroughMarker(url: string, u: string, marker: string, name: string)
    requires Contains(url, u) && Contains(u, marker) && Contains(marker, name)
    ensures Contains(url, name)
  {
    ContainsTransitive(u, marker, name);
    ContainsTransitive(url, u, name);
  }

  /** Only a url that mentions `youtube.com` or `youtu.be` can yield an id. */
  lemma OnlyYoutubeUrlsGiveIds(url: string)
    requires !LooksLikeYoutube(url)
    ensures GetYoutubeVideoId(url).None?
  {
    var u := Trim(url);
    TrimIsInfix(url);
    MarkersMentionYoutube();
    if Contains(u, "youtube.com/watch?v=") {
      MentionThroughMarker(url, u, "youtube.com/watch?v=", "youtube.com");
    } else if Contains(u, "youtu.be/") {
      MentionThroughMarker(url, u, "youtu.be/", "youtu.be");
    } else if Contains(u, "youtube.com/embed/") {
      MentionThroughMarker(url, u, "youtube.com/embed/", "youtube.com");
    }
  }

  /** The sample video plays exactly when there is no source, or a YouTube-looking one without a valid id. */
  lemma FallbackWhenNoPlayableSource(src: Option<string>)
    ensures SelectSource(src).fallbackUrl.Some? <==>
      !Truthy(src) || (LooksLikeYoutube(src.value) && GetYoutubeVideoId(src.value).None?)
  {
    if Truthy(src) && !LooksLikeYoutube(src.value) {
      OnlyYoutubeUrlsGiveIds(src.value);
    }
  }

  /** Any other non-empty url is played as it is. */
  lemma PlainUrlPlayedDirectly(src: string)
    requires src != "" && !LooksLikeYoutube(src)
    ensures SelectSource(Some(src)) == Source(None, Some(src), None)
    ensures VideoSrc(SelectSource(Some(src))) == src
  {
    OnlyYoutubeUrlsGiveIds(src);
  }

  /** The player always has something to show: an embedded video or a non-empty url. */
  lemma AlwaysSomethingToPlay(src: Option<string>)
    ensures SelectSource(src).youtubeId.Some? || VideoSrc(SelectSource(src)) != ""
  {
  }
}
