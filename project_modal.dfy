/**
 * The derivations behind the project-details modal: which media a project
 * shows, how video URLs become embeddable player URLs, which links appear and
 * in what order, and the quick facts. Rendering, the keyboard and scroll
 * effects and QR-code generation are outside the model.
 */
module ProjectModal {
  import opened Wrappers
  import opened Strings

  // ---------------------------------------------------------------------------
  // Data shapes
  // ---------------------------------------------------------------------------

  datatype MediaItem =
    | Image(src: string, alt: Option<string>)
    | Video(src: string, title: Option<string>)

  datatype Link = Link(caption: string, url: string)

  datatype Project = Project(
    name: string,
    repoUrl: Option<string>,
    playStoreUrl: Option<string>,
    liveUrl: Option<string>,
    image: Option<string>,
    media: Option<seq<MediaItem>>,
    links: Option<seq<Link>>)

  datatype UiVariant = Primary | Success | Warning | Error | Default

  datatype QuickFact = QuickFact(caption: string, value: string, variant: UiVariant)

  // ---------------------------------------------------------------------------
  // URL patterns
  // ---------------------------------------------------------------------------

  /** The two embed patterns: a host prefix followed by a captured id of at least six characters. */
  datatype Pattern = YouTube | Vimeo

  const MIN_ID_LENGTH: nat := 6

  /** The prefix alternatives, in the order the pattern tries them. */
  function Prefixes(pat: Pattern): (ps: seq<string>)
    ensures |ps| > 0
  {
    match pat
    case YouTube => ["youtu.be/", "youtube.com/watch?v=", "youtube.com/embed/"]
    case Vimeo => ["vimeo.com/"]
  }

  /** `[A-Za-z0-9_-]` for YouTube ids, `\d` for Vimeo ids. */
  predicate IdChar(pat: Pattern, c: char) {
    match pat
    case YouTube => 'A' <= c <= 'Z' || 'a' <= c <= 'z' || '0' <= c <= '9' || c == '_' || c == '-'
    case Vimeo => '0' <= c <= '9'
  }

  /** Length of the longest run of id characters starting at `j` (the greedy `{6,}`). */
  function RunFrom(s: string, j: int, pat: Pattern): (n: nat)
    requires 0 <= j <= |s|
    ensures j + n <= |s|
    ensures forall k :: j <= k < j + n ==> IdChar(pat, s[k])
    ensures j + n < |s| ==> !IdChar(pat, s[j + n])
    decreases |s| - j
  {
    if j < |s| && IdChar(pat, s[j]) then 1 + RunFrom(s, j + 1, pat) else 0
  }

  /** The capture when the pattern is tried at `i` with the alternatives `ps`, in order. */
  function MatchWith(s: string, i: int, pat: Pattern, ps: seq<string>): Option<string>
    requires 0 <= i <= |s|
  {
    if ps == [] then None
    else if StartsAt(s, i, ps[0]) && RunFrom(s, i + |ps[0]|, pat) >= MIN_ID_LENGTH then
      Some(s[i + |ps[0]|..i + |ps[0]| + RunFrom(s, i + |ps[0]|, pat)])
    else MatchWith(s, i, pat, ps[1..])
  }

  /** The capture of a match starting exactly at `i`, if there is one. */
  function MatchAt(s: string, i: int, pat: Pattern): Option<string>
    requires 0 <= i <= |s|
  {
    MatchWith(s, i, pat, Prefixes(pat))
  }

  /** `s.match(re)?.[1]` restricted to positions from `i`: the leftmost match wins. */
  function CaptureFrom(s: string, i: int, pat: Pattern): Option<string>
    requires 0 <= i <= |s|
    decreases |s| - i
  {
    if MatchAt(s, i, pat).Some? then MatchAt(s, i, pat)
    else if i == |s| then None
    else CaptureFrom(s, i + 1, pat)
  }

  /** Every character of `id` may appear in an id of the pattern. */
  predicate AllIdChars(pat: Pattern, id: string) {
    forall k | 0 <= k < |id| :: IdChar(pat, id[k])
  }

  /**
   * A match of the pattern at `i` through prefix `p`, capturing `id`: `p`
   * occurs at `i`, `id` follows it, has at least six id characters, and is not
   * followed by another id character.
   */
  ghost predicate MatchVia(s: string, i: int, pat: Pattern, p: string, id: string) {
    && StartsAt(s, i, p)
    && StartsAt(s, i + |p|, id)
    && |id| >= MIN_ID_LENGTH
    && AllIdChars(pat, id)
    && (i + |p| + |id| == |s| || !IdChar(pat, s[i + |p| + |id|]))
  }

  /** The pattern matches at `i` capturing `id`, through one of its prefixes. */
  ghost predicate IsMatch(s: string, i: int, pat: Pattern, id: string) {
    exists p | p in Prefixes(pat) :: MatchVia(s, i, pat, p, id)
  }

  /** The pattern matches at `i`. */
  ghost predicate MatchesAt(s: string, i: int, pat: Pattern) {
    exists id :: IsMatch(s, i, pat, id)
  }

  /** Whatever the matcher returns is a match through one of the prefixes it was given. */
  lemma {:induction false} MatchWithSound(s: string, i: int, pat: Pattern, ps: seq<string>)
    requires 0 <= i <= |s|
    ensures MatchWith(s, i, pat, ps).Some? ==>
      exists p | p in ps :: MatchVia(s, i, pat, p, MatchWith(s, i, pat, ps).value)
  {
    if ps != [] {
      var p, r := ps[0], MatchWith(s, i, pat, ps);
      if StartsAt(s, i, p) && RunFrom(s, i + |p|, pat) >= MIN_ID_LENGTH {
        RunAfterPrefixMatches(s, i, pat, p);
        assert p in ps && MatchVia(s, i, pat, p, r.value);
      } else {
        assert r == MatchWith(s, i, pat, ps[1..]);
        MatchWithSound(s, i, pat, ps[1..]);
        if r.Some? {
          var q :| q in ps[1..] && MatchVia(s, i, pat, q, r.value);
          assert q in ps;
        }
      }
    }
  }

  /** A prefix followed by a long enough run of id characters is a match capturing that run. */
  lemma RunAfterPrefixMatches(s: string, i: int, pat: Pattern, p: string)
    requires StartsAt(s, i, p)
    requires RunFrom(s, i + |p|, pat) >= MIN_ID_LENGTH
    ensures MatchVia(s, i, pat, p, s[i + |p|..i + |p| + RunFrom(s, i + |p|, pat)])
  {
    var j := i + |p|;
    var n := RunFrom(s, j, pat);
    var id := s[j..j + n];
    assert StartsAt(s, j, id);
    assert AllIdChars(pat, id) by {
      forall k | 0 <= k < |id| ensures IdChar(pat, id[k]) {
        assert id[k] == s[j + k];
      }
    }
  }

  /** A match found at `i` is the unique capture the prefix there allows. */
  lemma CapturedIdIsMaximal(s: string, i: int, pat: Pattern, p: string, id: string)
    requires 0 <= i <= |s|
    requires MatchVia(s, i, pat, p, id)
    ensures RunFrom(s, i + |p|, pat) == |id|
    ensures s[i + |p|..i + |p| + |id|] == id
  {
  }

  lemma {:induction false} MatchWithComplete(s: string, i: int, pat: Pattern, ps: seq<string>, p: string, id: string)
    requires 0 <= i <= |s|
    requires p in ps
    requires MatchVia(s, i, pat, p, id)
    ensures MatchWith(s, i, pat, ps).Some?
  {
    if ps[0] != p {
      if !(StartsAt(s, i, ps[0]) && RunFrom(s, i + |ps[0]|, pat) >= MIN_ID_LENGTH) {
        MatchWithComplete(s, i, pat, ps[1..], p, id);
      }
    } else {
      CapturedIdIsMaximal(s, i, pat, p, id);
    }
  }

  /** `MatchAt` finds exactly the matches `IsMatch` describes. */
  lemma MatchAtMeaning(s: string, i: int, pat: Pattern)
    requires 0 <= i <= |s|
    ensures MatchAt(s, i, pat).Some? ==> IsMatch(s, i, pat, MatchAt(s, i, pat).value)
    ensures MatchesAt(s, i, pat) <==> MatchAt(s, i, pat).Some?
  {
    MatchWithSound(s, i, pat, Prefixes(pat));
    if MatchAt(s, i, pat).Some? {
      var id := MatchAt(s, i, pat).value;
      var p :| p in Prefixes(pat) && MatchVia(s, i, pat, p, id);
      assert IsMatch(s, i, pat, id);
    }
    if MatchesAt(s, i, pat) {
      var id :| IsMatch(s, i, pat, id);
      var p :| p in Prefixes(pat) && MatchVia(s, i, pat, p, id);
      MatchWithComplete(s, i, pat, Prefixes(pat), p, id);
    }
  }

  /** The capture is the one at the leftmost position where the pattern matches. */
  lemma {:induction false} CaptureIsLeftmost(s: string, i: int, pat: Pattern)
    requires 0 <= i <= |s|
    ensures CaptureFrom(s, i, pat).None? <==> forall k | i <= k <= |s| :: MatchAt(s, k, pat).None?
    ensures CaptureFrom(s, i, pat).Some? ==>
      exists j | i <= j <= |s| ::
        && CaptureFrom(s, i, pat) == MatchAt(s, j, pat)
        && forall k | i <= k < j :: MatchAt(s, k, pat).None?
  {
    CaptureNoneIffNoMatch(s, i, pat);
    if CaptureFrom(s, i, pat).Some? {
      var j := CapturePosition(s, i, pat);
    }
  }

  /** No capture from `i` exactly when no position from `i` matches. */
  lemma {:induction false} CaptureNoneIffNoMatch(s: string, i: int, pat: Pattern)
    requires 0 <= i <= |s|
    ensures CaptureFrom(s, i, pat).None? <==> forall k | i <= k <= |s| :: MatchAt(s, k, pat).None?
    decreases |s| - i
  {
    var m := MatchAt(s, i, pat);
    if m.Some? {
      assert CaptureFrom(s, i, pat) == m;
    } else if i == |s| {
      forall k | i <= k <= |s| ensures MatchAt(s, k, pat).None? {
        assert k == i;
      }
    } else {
      assert CaptureFrom(s, i, pat) == CaptureFrom(s, i + 1, pat);
      CaptureNoneIffNoMatch(s, i + 1, pat);
      if CaptureFrom(s, i, pat).None? {
        forall k | i <= k <= |s| ensures MatchAt(s, k, pat).None? {
          if k > i {
            assert i + 1 <= k <= |s|;
          }
        }
      }
    }
  }

  /** The position a capture from `i` comes from: the leftmost matching one. */
  lemma {:induction false} CapturePosition(s: string, i: int, pat: Pattern) returns (j: int)
    requires 0 <= i <= |s|
    requires CaptureFrom(s, i, pat).Some?
    ensures i <= j <= |s|
    ensures CaptureFrom(s, i, pat) == MatchAt(s, j, pat)
    ensures forall k | i <= k < j :: MatchAt(s, k, pat).None?
    decreases |s| - i
  {
    if MatchAt(s, i, pat).Some? {
      j := i;
    } else {
      j := CapturePosition(s, i + 1, pat);
      forall k | i <= k < j ensures MatchAt(s, k, pat).None? {
        if k > i {
          assert i + 1 <= k < j;
        }
      }
    }
  }

  /** `getYouTubeId`: the id captured by the leftmost YouTube match, or null. */
  function GetYouTubeId(url: string): Option<string> {
    CaptureFrom(url, 0, YouTube)
  }

  /** `getVimeoId`: the digits captured by the leftmost Vimeo match, or null. */
  function GetVimeoId(url: string): Option<string> {
    CaptureFrom(url, 0, Vimeo)
  }

  /** A returned id is a match of the pattern somewhere in the URL, and no match lies further left. */
  lemma IdIsLeftmostMatch(url: string, pat: Pattern)
    ensures CaptureFrom(url, 0, pat).Some? ==>
      exists j | 0 <= j <= |url| ::
        && IsMatch(url, j, pat, CaptureFrom(url, 0, pat).value)
        && forall k | 0 <= k < j :: !MatchesAt(url, k, pat)
    ensures CaptureFrom(url, 0, pat).None? <==> forall k | 0 <= k <= |url| :: !MatchesAt(url, k, pat)
  {
    CaptureIsLeftmost(url, 0, pat);
    forall k | 0 <= k <= |url| {
      MatchAtMeaning(url, k, pat);
    }
  }

  const YOUTUBE_EMBED: string := "https://www.youtube.com/embed/"
  const VIMEO_PLAYER: string := "https://player.vimeo.com/video/"

  /** `toEmbedUrl`: YouTube is tried before Vimeo; a URL matching neither is returned unchanged. */
  function ToEmbedUrl(url: string): (r: string)
    ensures GetYouTubeId(url).Some? ==> r == YOUTUBE_EMBED + GetYouTubeId(url).value
    ensures GetYouTubeId(url).None? && GetVimeoId(url).Some? ==> r == VIMEO_PLAYER + GetVimeoId(url).value
    ensures GetYouTubeId(url).None? && GetVimeoId(url).None? ==> r == url
  {
    match GetYouTubeId(url)
    case Some(id) => YOUTUBE_EMBED + id
    case None =>
      match GetVimeoId(url)
      case Some(id) => VIMEO_PLAYER + id
      case None => url
  }

  /** The lower-case word `w` occurs in `s` at index `i` when letter case is ignored. */
  predicate StartsAtIgnoringCase(s: string, i: int, w: string) {
    0 <= i && i + |w| <= |s| && forall k | 0 <= k < |w| :: LowerChar(s[i + k]) == w[k]
  }

  /** Searching the lower-cased string finds exactly the case-insensitive occurrences. */
  lemma ContainsLowerMeaning(s: string, w: string)
    ensures Contains(Lower(s), w) <==> exists i :: StartsAtIgnoringCase(s, i, w)
  {
    if Contains(Lower(s), w) {
      var i :| 0 <= i <= |s| && StartsAt(Lower(s), i, w);
      forall k | 0 <= k < |w| ensures LowerChar(s[i + k]) == w[k] {
        assert Lower(s)[i..i + |w|][k] == Lower(s)[i + k];
      }
      assert StartsAtIgnoringCase(s, i, w);
    }
    if exists i :: StartsAtIgnoringCase(s, i, w) {
      var i :| StartsAtIgnoringCase(s, i, w);
      assert Lower(s)[i..i + |w|] == w;
      assert StartsAt(Lower(s), i, w);
    }
  }

  /** `isVideoUrl`: a case-insensitive search for one of the three video hosts. */
  function IsVideoUrl(url: string): (b: bool)
    ensures b <==> exists i ::
      || StartsAtIgnoringCase(url, i, "youtube.com")
      || StartsAtIgnoringCase(url, i, "youtu.be")
      || StartsAtIgnoringCase(url, i, "vimeo.com")
  {
    ContainsLowerMeaning(url, "youtube.com");
    ContainsLowerMeaning(url, "youtu.be");
    ContainsLowerMeaning(url, "vimeo.com");
    var u := Lower(url);
    Contains(u, "youtube.com") || Contains(u, "youtu.be") || Contains(u, "vimeo.com")
  }

  /** Detection does not depend on letter case. */
  lemma IsVideoUrlIgnoresCase(url: string)
    ensures IsVideoUrl(Lower(url)) == IsVideoUrl(url)
  {
    LowerIdempotent(url);
  }

  /** Lower-casing leaves an occurrence of an already lower-case word in place. */
  lemma LowerKeepsLowerWord(s: string, i: int, w: string)
    requires StartsAt(s, i, w)
    requires forall k | 0 <= k < |w| :: !('A' <= w[k] <= 'Z')
    ensures StartsAt(Lower(s), i, w)
  {
    forall k | 0 <= k < |w| ensures Lower(s)[i + k] == w[k] {
      assert s[i + k] == w[k];
    }
  }

  lemma StartsAtPrefix(s: string, i: int, p: string, q: string)
    requires StartsAt(s, i, p) && |q| <= |p| && p[..|q|] == q
    ensures StartsAt(s, i, q)
  {
    assert s[i..i + |q|] == s[i..i + |p|][..|q|];
  }

  /** The host name a prefix begins with. */
  function HostOf(p: string): string {
    if p == "youtu.be/" then "youtu.be" else if p == "vimeo.com/" then "vimeo.com" else "youtube.com"
  }

  lemma PrefixBeginsWithHost(pat: Pattern, p: string)
    requires p in Prefixes(pat)
    ensures |HostOf(p)| <= |p| && p[..|HostOf(p)|] == HostOf(p)
    ensures HostOf(p) in {"youtube.com", "youtu.be", "vimeo.com"}
    ensures forall k | 0 <= k < |HostOf(p)| :: !('A' <= HostOf(p)[k] <= 'Z')
  {
  }

  /** A match anywhere in the URL names one of the video hosts. */
  lemma MatchNamesHost(url: string, j: int, pat: Pattern, p: string, id: string)
    requires p in Prefixes(pat) && MatchVia(url, j, pat, p, id)
    ensures IsVideoUrl(url)
  {
    var w := HostOf(p);
    PrefixBeginsWithHost(pat, p);
    StartsAtPrefix(url, j, p, w);
    LowerKeepsLowerWord(url, j, w);
    assert StartsAt(Lower(url), j, w);
  }

  /** A returned id comes from a match at some position. */
  lemma CaptureHasMatch(url: string, pat: Pattern)
    requires CaptureFrom(url, 0, pat).Some?
    ensures exists j | 0 <= j <= |url| :: IsMatch(url, j, pat, CaptureFrom(url, 0, pat).value)
  {
    CaptureIsLeftmost(url, 0, pat);
    var j :| 0 <= j <= |url| && CaptureFrom(url, 0, pat) == MatchAt(url, j, pat);
    MatchAtMeaning(url, j, pat);
  }

  /** Every URL `toEmbedUrl` rewrites is one `isVideoUrl` accepts. */
  lemma EmbeddableIsVideo(url: string)
    requires GetYouTubeId(url).Some? || GetVimeoId(url).Some?
    ensures IsVideoUrl(url)
  {
    var pat := if GetYouTubeId(url).Some? then YouTube else Vimeo;
    CaptureHasMatch(url, pat);
    var id := CaptureFrom(url, 0, pat).value;
    var j :| 0 <= j <= |url| && IsMatch(url, j, pat, id);
    var p :| p in Prefixes(pat) && MatchVia(url, j, pat, p, id);
    MatchNamesHost(url, j, pat, p, id);
  }

  lemma NotStartsAt(s: string, i: int, p: string)
    requires |p| > 0 && (0 <= i < |s| ==> s[i] != p[0])
    ensures !StartsAt(s, i, p)
  {
    if 0 <= i && i + |p| <= |s| {
      assert s[i..i + |p|][0] == s[i];
    }
  }

  /** Without a lower-case `youtu` or `vimeo` no embed pattern can match: every prefix starts with one. */
  lemma NoHostNameNoEmbed(url: string)
    requires forall k | 0 <= k <= |url| :: !StartsAt(url, k, "youtu") && !StartsAt(url, k, "vimeo")
    ensures GetYouTubeId(url).None? && GetVimeoId(url).None?
    ensures ToEmbedUrl(url) == url
  {
    forall k, pat | 0 <= k <= |url| ensures MatchAt(url, k, pat).None? {
      forall p | p in Prefixes(pat) ensures !StartsAt(url, k, p) {
        if StartsAt(url, k, p) {
          StartsAtPrefix(url, k, p, if pat == Vimeo then "vimeo" else "youtu");
        }
      }
      MatchAtMeaning(url, k, pat);
    }
    CaptureIsLeftmost(url, 0, YouTube);
    CaptureIsLeftmost(url, 0, Vimeo);
  }

  /** Without a lower-case `y` or `v` no embed pattern can match. */
  lemma NoLowerHostLetterNoEmbed(url: string)
    requires forall k | 0 <= k < |url| :: url[k] != 'y' && url[k] != 'v'
    ensures GetYouTubeId(url).None? && GetVimeoId(url).None?
    ensures ToEmbedUrl(url) == url
  {
    forall k | 0 <= k <= |url| ensures !StartsAt(url, k, "youtu") && !StartsAt(url, k, "vimeo") {
      NotStartsAt(url, k, "youtu");
      NotStartsAt(url, k, "vimeo");
    }
    NoHostNameNoEmbed(url);
  }

  const UPPER_HOST: string := "YOUTUBE.COM"

  lemma LowerUpperHost()
    ensures Lower(UPPER_HOST) == "youtube.com"
  {
    var l := Lower(UPPER_HOST);
    assert l[0] == 'y' && l[1] == 'o' && l[2] == 'u' && l[3] == 't' && l[4] == 'u' && l[5] == 'b';
    assert l[6] == 'e' && l[7] == '.' && l[8] == 'c' && l[9] == 'o' && l[10] == 'm';
  }

  /** The host test ignores case but the embed patterns do not: an upper-case URL is a video that is not rewritten. */
  lemma UpperCaseYouTubeIsVideoButNotEmbedded(url: string, i: int)
    requires StartsAt(url, i, UPPER_HOST)
    requires forall k | 0 <= k <= |url| :: !StartsAt(url, k, "youtu") && !StartsAt(url, k, "vimeo")
    ensures IsVideoUrl(url)
    ensures ToEmbedUrl(url) == url
  {
    LowerUpperHost();
    forall k | 0 <= k < |UPPER_HOST| ensures Lower(url)[i + k] == Lower(UPPER_HOST)[k] {
      assert url[i + k] == UPPER_HOST[k];
    }
    assert StartsAt(Lower(url), i, "youtube.com");
    NoHostNameNoEmbed(url);
  }

  /** A YouTube watch URL whose host alone is in capitals. */
  const UPPER_WATCH_URL: string := "https://www." + UPPER_HOST + "/watch?v=dQw4w9WgXcQ"

  /** The only lower-case `v` of the URL is the one in `?v=`, and it has no lower-case `y`. */
  lemma UpperWatchUrlLetters()
    ensures |UPPER_WATCH_URL| == 43 && UPPER_WATCH_URL[31] == '='
    ensures forall k | 0 <= k < |UPPER_WATCH_URL| ::
      UPPER_WATCH_URL[k] != 'y' && (UPPER_WATCH_URL[k] == 'v' ==> k == 30)
  {
    var u, head, tail := UPPER_WATCH_URL, "https://www.", "/watch?v=dQw4w9WgXcQ";
    assert u == head + UPPER_HOST + tail;
    assert forall k | 0 <= k < |head| :: head[k] != 'y' && head[k] != 'v';
    assert forall k | 0 <= k < |UPPER_HOST| :: UPPER_HOST[k] != 'y' && UPPER_HOST[k] != 'v';
    assert forall k | 0 <= k < |tail| :: tail[k] != 'y' && (tail[k] == 'v' ==> k == 7);
    assert u[31] == tail[8];
    forall k | 0 <= k < |u| ensures u[k] != 'y' && (u[k] == 'v' ==> k == 30) {
      if k < 12 {
        assert u[k] == head[k];
      } else if k < 23 {
        assert u[k] == UPPER_HOST[k - 12];
      } else {
        assert u[k] == tail[k - 23];
      }
    }
  }

  lemma UpperCaseWatchUrl()
    ensures IsVideoUrl(UPPER_WATCH_URL)
    ensures ToEmbedUrl(UPPER_WATCH_URL) == UPPER_WATCH_URL
  {
    var u := UPPER_WATCH_URL;
    UpperWatchUrlLetters();
    assert u[12..23] == UPPER_HOST;
    forall k | 0 <= k <= |u| ensures !StartsAt(u, k, "youtu") && !StartsAt(u, k, "vimeo") {
      NotStartsAt(u, k, "youtu");
      if k == 30 {
        assert u[k..k + 5][1] == u[31];
      } else {
        NotStartsAt(u, k, "vimeo");
      }
    }
    UpperCaseYouTubeIsVideoButNotEmbedded(u, 12);
  }

  // ---------------------------------------------------------------------------
  // Media
  // ---------------------------------------------------------------------------

  /** `media`: explicit media first, else the primary image, else nothing. */
  function Media(project: Option<Project>): (ms: seq<MediaItem>)
    ensures project.None? ==> ms == []
    ensures project.Some? && project.value.media.Some? && |project.value.media.value| > 0 ==> ms == project.value.media.value
    ensures project.Some? && !(project.value.media.Some? && |project.value.media.value| > 0) ==>
      ms == (if Truthy(project.value.image)
             then [Image(project.value.image.value, Some(project.value.name + " preview"))]
             else [])
  {
    match project
    case None => []
    case Some(p) =>
      if p.media.Some? && |p.media.value| > 0 then p.media.value
      else if Truthy(p.image) then [Image(p.image.value, Some(p.name + " preview"))]
      else []
  }

  /** `media.filter((m) => m.type === 'video')` */
  function Videos(ms: seq<MediaItem>): (vs: seq<MediaItem>)
    ensures forall k | 0 <= k < |vs| :: vs[k].Video?
    ensures |vs| <= |ms|
  {
    if ms == [] then []
    else Videos(ms[..|ms| - 1]) + (if ms[|ms| - 1].Video? then [ms[|ms| - 1]] else [])
  }

  /** `media.filter((m) => m.type === 'image')` */
  function Images(ms: seq<MediaItem>): (imgs: seq<MediaItem>)
    ensures forall k | 0 <= k < |imgs| :: imgs[k].Image?
    ensures |imgs| <= |ms|
  {
    if ms == [] then []
    else Images(ms[..|ms| - 1]) + (if ms[|ms| - 1].Image? then [ms[|ms| - 1]] else [])
  }

  /** `a` is `b` with some elements left out, order kept. */
  ghost predicate IsSubsequence<T>(a: seq<T>, b: seq<T>)
    decreases |b|
  {
    if b == [] then a == []
    else
      || IsSubsequence(a, b[..|b| - 1])
      || (a != [] && a[|a| - 1] == b[|b| - 1] && IsSubsequence(a[..|a| - 1], b[..|b| - 1]))
  }

  lemma {:induction false} SubsequenceExtend<T>(a: seq<T>, b: seq<T>, x: T)
    requires IsSubsequence(a, b)
    ensures IsSubsequence(a, b + [x])
    ensures IsSubsequence(a + [x], b + [x])
  {
    assert (b + [x])[..|b|] == b;
    assert (a + [x])[..|a|] == a;
  }

  /** `videos` and `images` split `media` by type: together they hold each item exactly once. */
  lemma {:induction false} MediaPartition(ms: seq<MediaItem>)
    ensures multiset(Videos(ms)) + multiset(Images(ms)) == multiset(ms)
  {
    if ms != [] {
      var init := ms[..|ms| - 1];
      var last := ms[|ms| - 1];
      MediaPartition(init);
      assert ms == init + [last];
      assert multiset(ms) == multiset(init) + multiset{last};
      if last.Video? {
        assert Videos(ms) == Videos(init) + [last] && Images(ms) == Images(init);
        assert multiset(Videos(ms)) == multiset(Videos(init)) + multiset{last};
      } else {
        assert Images(ms) == Images(init) + [last] && Videos(ms) == Videos(init);
        assert multiset(Images(ms)) == multiset(Images(init)) + multiset{last};
      }
    }
  }

  /** `videos` holds exactly the video items of `media`, and `images` exactly the image items. */
  lemma {:induction false} MediaFilterMembers(ms: seq<MediaItem>)
    ensures forall m :: m in Videos(ms) <==> m in ms && m.Video?
    ensures forall m :: m in Images(ms) <==> m in ms && m.Image?
  {
    if ms != [] {
      var init := ms[..|ms| - 1];
      var last := ms[|ms| - 1];
      MediaFilterMembers(init);
      assert ms == init + [last];
    }
  }

  /** `videos` and `images` each keep the order the items have in `media`. */
  lemma {:induction false} MediaSplitKeepsOrder(ms: seq<MediaItem>)
    ensures IsSubsequence(Videos(ms), ms)
    ensures IsSubsequence(Images(ms), ms)
  {
    if ms != [] {
      var init := ms[..|ms| - 1];
      var last := ms[|ms| - 1];
      MediaSplitKeepsOrder(init);
      assert ms == init + [last];
      SubsequenceExtend(Videos(init), init, last);
      SubsequenceExtend(Images(init), init, last);
      if last.Video? {
        assert Videos(ms) == Videos(init) + [last] && Images(ms) == Images(init);
      } else {
        assert Images(ms) == Images(init) + [last] && Videos(ms) == Videos(init);
      }
    }
  }

  /** A project without media falls back to its image when it has one. */
  lemma ImageFallback(p: Project)
    requires p.media.None? || p.media == Some([])
    requires Truthy(p.image)
    ensures Images(Media(Some(p))) == [Image(p.image.value, Some(p.name + " preview"))]
    ensures Videos(Media(Some(p))) == []
  {
    var ms := Media(Some(p));
    assert ms[..0] == [];
  }

  /** What the demo pane plays for a video source. */
  datatype Player = Iframe(src: string) | NativeVideo(src: string)

  function PlayerFor(src: string): (pl: Player)
    ensures pl.Iframe? <==> IsVideoUrl(src)
    ensures pl.Iframe? ==> pl.src == ToEmbedUrl(src)
    ensures pl.NativeVideo? ==> pl.src == src
  {
    if IsVideoUrl(src) then Iframe(ToEmbedUrl(src)) else NativeVideo(src)
  }

  /** The thumbnail of a media item in `MediaThumbnail`; None draws a plain tile. */
  function ThumbUrl(item: MediaItem): (t: Option<string>)
    ensures item.Image? ==> t == Some(item.src)
    ensures item.Video? ==> (t.Some? <==> GetYouTubeId(item.src).Some?)
    ensures item.Video? && t.Some? ==> t.value == "https://img.youtube.com/vi/" + GetYouTubeId(item.src).value + "/hqdefault.jpg"
  {
    match item
    case Image(src, _) => Some(src)
    case Video(src, _) =>
      match GetYouTubeId(src)
      case Some(id) => Some("https://img.youtube.com/vi/" + id + "/hqdefault.jpg")
      case None => None
  }

  // ---------------------------------------------------------------------------
  // Links
  // ---------------------------------------------------------------------------

  /** The de-duplication key `${caption}|${url}`. */
  function Key(l: Link): string {
    l.caption + "|" + l.url
  }

  function Keys(ls: seq<Link>): set<string> {
    set l | l in ls :: Key(l)
  }

  /** The links derived from the project's own URLs, in a fixed order. */
  function DerivedLinks(p: Project): (ls: seq<Link>)
    ensures |ls| <= 3
    ensures ls ==
      (if Truthy(p.liveUrl) then [Link("Live Demo", p.liveUrl.value)] else []) +
      (if Truthy(p.repoUrl) then [Link("GitHub Repo", p.repoUrl.value)] else []) +
      (if Truthy(p.playStoreUrl) then [Link("Play Store", p.playStoreUrl.value)] else [])
  {
    var ls := [];
    var ls := if Truthy(p.liveUrl) then ls + [Link("Live Demo", p.liveUrl.value)] else ls;
    var ls := if Truthy(p.repoUrl) then ls + [Link("GitHub Repo", p.repoUrl.value)] else ls;
    if Truthy(p.playStoreUrl) then ls + [Link("Play Store", p.playStoreUrl.value)] else ls
  }

  /** The order-preserving de-duplication the `seen` set performs, one element at a time. */
  function FirstByKey(ls: seq<Link>): seq<Link> {
    if ls == [] then []
    else
      var kept := FirstByKey(ls[..|ls| - 1]);
      if Key(ls[|ls| - 1]) in Keys(kept) then kept else kept + [ls[|ls| - 1]]
  }

  /** `links`: derived links, then the custom ones, without repeated keys. */
  method DedupLinks(all: seq<Link>) returns (kept: seq<Link>)
    ensures kept == FirstByKey(all)
  {
    var seen: set<string> := {};
    kept := [];
    for i := 0 to |all|
      invariant kept == FirstByKey(all[..i])
      invariant seen == Keys(kept)
    {
      assert all[..i + 1][..i] == all[..i];
      var key := all[i].caption + "|" + all[i].url;
      if key !in seen {
        seen := seen + {key};
        kept := kept + [all[i]];
      }
    }
    assert all[..|all|] == all;
  }

  /** `links`: the derived links, then the custom ones, with repeated `caption|url` keys dropped. */
  function Links(project: Option<Project>): (links: seq<Link>)
    ensures project.None? ==> links == []
    ensures DistinctKeys(links)
    ensures project.Some? ==> Keys(links) == Keys(DerivedLinks(project.value) + project.value.links.GetOr([]))
    ensures project.Some? ==> IsSubsequence(links, DerivedLinks(project.value) + project.value.links.GetOr([]))
  {
    match project
    case None => []
    case Some(p) =>
      var all := DerivedLinks(p) + p.links.GetOr([]);
      FirstByKeyKeys(all);
      FirstByKeyDistinct(all);
      FirstByKeyKeepsOrder(all);
      FirstByKey(all)
  }

  predicate DistinctKeys(ls: seq<Link>) {
    forall i, j | 0 <= i < j < |ls| :: Key(ls[i]) != Key(ls[j])
  }

  lemma KeysSnoc(ls: seq<Link>, l: Link)
    ensures Keys(ls + [l]) == Keys(ls) + {Key(l)}
  {
    forall k | k in Keys(ls + [l]) ensures k in Keys(ls) + {Key(l)} {
      var m :| m in ls + [l] && Key(m) == k;
      if m != l {
        assert m in ls;
      }
    }
    forall k | k in Keys(ls) + {Key(l)} ensures k in Keys(ls + [l]) {
      if k == Key(l) {
        assert l in ls + [l];
      } else {
        var m :| m in ls && Key(m) == k;
        assert m in ls + [l];
      }
    }
  }

  lemma FirstByKeySnoc(ls: seq<Link>, l: Link)
    ensures FirstByKey(ls + [l]) ==
      if Key(l) in Keys(FirstByKey(ls)) then FirstByKey(ls) else FirstByKey(ls) + [l]
  {
    assert (ls + [l])[..|ls|] == ls;
  }

  /** Every input key is kept. */
  lemma {:induction false} FirstByKeyKeys(ls: seq<Link>)
    ensures Keys(FirstByKey(ls)) == Keys(ls)
  {
    if ls != [] {
      var init := ls[..|ls| - 1];
      var last := ls[|ls| - 1];
      assert ls == init + [last];
      FirstByKeyKeys(init);
      FirstByKeySnoc(init, last);
      KeysSnoc(init, last);
      KeysSnoc(FirstByKey(init), last);
    }
  }

  /** No two kept links share a key. */
  lemma {:induction false} FirstByKeyDistinct(ls: seq<Link>)
    ensures DistinctKeys(FirstByKey(ls))
  {
    if ls != [] {
      var init := ls[..|ls| - 1];
      var last := ls[|ls| - 1];
      assert ls == init + [last];
      FirstByKeyDistinct(init);
      FirstByKeySnoc(init, last);
      var kept := FirstByKey(init);
      if Key(last) !in Keys(kept) {
        forall i | 0 <= i < |kept| ensures Key(kept[i]) != Key(last) {
          assert kept[i] in kept;
        }
      }
    }
  }

  /** The kept links are a subsequence of the input. */
  lemma {:induction false} FirstByKeyKeepsOrder(ls: seq<Link>)
    ensures IsSubsequence(FirstByKey(ls), ls)
  {
    if ls != [] {
      var init := ls[..|ls| - 1];
      var last := ls[|ls| - 1];
      assert ls == init + [last];
      FirstByKeyKeepsOrder(init);
      FirstByKeySnoc(init, last);
      SubsequenceExtend(FirstByKey(init), init, last);
    }
  }

  /** `ls[i]` is the first link of `ls` with its key. */
  ghost predicate FirstWithKey(ls: seq<Link>, i: int) {
    0 <= i < |ls| && forall j | 0 <= j < i :: Key(ls[j]) != Key(ls[i])
  }

  /** Each kept link is the first input link with its key. */
  lemma {:induction false} FirstByKeyKeepsFirst(ls: seq<Link>)
    ensures forall l | l in FirstByKey(ls) :: exists i :: FirstWithKey(ls, i) && ls[i] == l
  {
    if ls != [] {
      var init := ls[..|ls| - 1];
      var last := ls[|ls| - 1];
      assert ls == init + [last];
      FirstByKeyKeepsFirst(init);
      FirstByKeyKeys(init);
      FirstByKeySnoc(init, last);
      var kept := FirstByKey(init);
      forall l | l in FirstByKey(ls) ensures exists i :: FirstWithKey(ls, i) && ls[i] == l {
        if l in kept {
          var i :| FirstWithKey(init, i) && init[i] == l;
          assert FirstWithKey(ls, i) && ls[i] == l;
        } else {
          forall j | 0 <= j < |init| ensures Key(ls[j]) != Key(last) {
            assert init[j] in init;
          }
          assert FirstWithKey(ls, |init|);
        }
      }
    }
  }

  /** The kept list only grows when more links are appended. */
  lemma {:induction false} FirstByKeyPrefix(a: seq<Link>, b: seq<Link>)
    ensures |FirstByKey(a)| <= |FirstByKey(a + b)|
    ensures FirstByKey(a + b)[..|FirstByKey(a)|] == FirstByKey(a)
    decreases |b|
  {
    if b == [] {
      assert a + b == a;
    } else {
      var init := b[..|b| - 1];
      FirstByKeyPrefix(a, init);
      assert (a + b)[..|a + b| - 1] == a + init;
    }
  }

  lemma {:induction false} DistinctKeysKeptWhole(ls: seq<Link>)
    requires DistinctKeys(ls)
    ensures FirstByKey(ls) == ls
  {
    if ls != [] {
      var init, last := ls[..|ls| - 1], ls[|ls| - 1];
      assert ls == init + [last];
      DistinctKeysSnoc(init, last);
      DistinctKeysKeptWhole(init);
      FirstByKeySnoc(init, last);
    }
  }

  /** Splitting the last link off a list without repeated keys. */
  lemma DistinctKeysSnoc(init: seq<Link>, last: Link)
    requires DistinctKeys(init + [last])
    ensures DistinctKeys(init)
    ensures Key(last) !in Keys(init)
  {
    var ls := init + [last];
    forall i, j | 0 <= i < j < |init| ensures Key(init[i]) != Key(init[j]) {
      assert init[i] == ls[i] && init[j] == ls[j];
    }
    forall l | l in init ensures Key(l) != Key(last) {
      var i :| 0 <= i < |init| && init[i] == l;
      assert ls[i] == l && ls[|init|] == last;
    }
  }

  /** Derived links come first, in the order Live Demo, GitHub Repo, Play Store; custom links follow. */
  lemma DerivedLinksFirst(p: Project)
    ensures |DerivedLinks(p)| <= |Links(Some(p))|
    ensures Links(Some(p))[..|DerivedLinks(p)|] == DerivedLinks(p)
  {
    var d := DerivedLinks(p);
    assert DistinctKeys(d) by {
      forall i, j | 0 <= i < j < |d| ensures Key(d[i]) != Key(d[j]) {
        LabelsDiffer(d[i].caption, d[j].caption, d[i].url, d[j].url);
      }
    }
    DistinctKeysKeptWhole(d);
    FirstByKeyPrefix(d, p.links.GetOr([]));
  }

  /** Keys of derived links differ because their labels differ before any `|`. */
  lemma LabelsDiffer(a: string, b: string, u: string, v: string)
    requires a in {"Live Demo", "GitHub Repo", "Play Store"} && b in {"Live Demo", "GitHub Repo", "Play Store"}
    requires a != b
    ensures a + "|" + u != b + "|" + v
  {
    var x := a + "|" + u;
    var y := b + "|" + v;
    if a == "Live Demo" {
      assert x[0] == 'L' && (b == "GitHub Repo" ==> y[0] == 'G') && (b == "Play Store" ==> y[0] == 'P');
    } else if a == "GitHub Repo" {
      assert x[0] == 'G' && (b == "Live Demo" ==> y[0] == 'L') && (b == "Play Store" ==> y[0] == 'P');
    } else {
      assert x[0] == 'P' && (b == "Live Demo" ==> y[0] == 'L') && (b == "GitHub Repo" ==> y[0] == 'G');
    }
  }

  /** The key is a joined string, so two different links can collide and the second is dropped. */
  lemma KeyCollision()
    ensures Link("a|b", "c") != Link("a", "b|c")
    ensures FirstByKey([Link("a|b", "c"), Link("a", "b|c")]) == [Link("a|b", "c")]
  {
    var x := Link("a|b", "c");
    var y := Link("a", "b|c");
    assert Key(x) == Key(y);
    assert [x, y][..1] == [x];
    assert [x][..0] == [];
  }

  // ---------------------------------------------------------------------------
  // Quick facts, QR and badges
  // ---------------------------------------------------------------------------

  /** `quickFacts`, with the current year passed in. */
  function QuickFacts(project: Option<Project>, year: string): (fs: seq<QuickFact>)
    ensures project.None? ==> fs == []
    ensures project.Some? ==>
      && |fs| == 4
      && fs[0].caption == "Status" && fs[1].caption == "Type" && fs[2].caption == "Role" && fs[3].caption == "Year"
      && (fs[0].value == "Live" <==> Truthy(project.value.liveUrl))
      && (fs[0].value == "Live" || fs[0].value == "Stable")
      && (fs[1].value == "Android App" <==> Truthy(project.value.playStoreUrl))
      && (fs[1].value == "Android App" || fs[1].value == "Web App")
      && fs[2].value == "Solo" && fs[3].value == year
  {
    match project
    case None => []
    case Some(p) =>
      [QuickFact("Status", if Truthy(p.liveUrl) then "Live" else "Stable", Success),
       QuickFact("Type", if Truthy(p.playStoreUrl) then "Android App" else "Web App", Primary),
       QuickFact("Role", "Solo", Warning),
       QuickFact("Year", year, Default)]
  }

  /** `qrUrl = project.liveUrl ?? null`; an empty string passes through but shows no code. */
  function QrUrl(project: Option<Project>): (q: Option<string>)
    ensures project.None? ==> q.None?
    ensures project.Some? ==> q == project.value.liveUrl
  {
    match project
    case None => None
    case Some(p) => p.liveUrl
  }

  /** A QR code is shown exactly when the status fact says Live. */
  lemma QrShownIffLive(p: Project, year: string)
    ensures Truthy(QrUrl(Some(p))) <==> QuickFacts(Some(p), year)[0].value == "Live"
  {
  }

  /** `variantToNesClass`; a missing variant reads as the default. */
  function VariantToNesClass(variant: Option<UiVariant>): (c: string)
    ensures variant == Some(Primary) ==> c == "is-primary"
    ensures variant == Some(Success) ==> c == "is-success"
    ensures variant == Some(Warning) ==> c == "is-warning"
    ensures variant == Some(Error) ==> c == "is-error"
    ensures variant.None? || variant == Some(Default) ==> c == "is-dark text-white"
  {
    match variant
    case Some(Primary) => "is-primary"
    case Some(Success) => "is-success"
    case Some(Warning) => "is-warning"
    case Some(Error) => "is-error"
    case _ => "is-dark text-white"
  }

  /** Distinct named variants get distinct classes. */
  lemma NesClassInjective(a: UiVariant, b: UiVariant)
    requires a != b
    ensures VariantToNesClass(Some(a)) != VariantToNesClass(Some(b))
  {
    var x := VariantToNesClass(Some(a));
    var y := VariantToNesClass(Some(b));
    assert x[3] != y[3] || |x| != |y|;
  }

  // ---------------------------------------------------------------------------
  // Modal state
  // ---------------------------------------------------------------------------

  /** The selected image and video of the open modal. */
  class ModalState {
    var activeImageIndex: nat
    var activeVideoIndex: nat

    constructor()
      ensures activeImageIndex == 0 && activeVideoIndex == 0
    {
      activeImageIndex := 0;
      activeVideoIndex := 0;
    }

    /** The effect on `open`: both selections go back to the first item. */
    method OnOpen()
      modifies this
      ensures activeImageIndex == 0 && activeVideoIndex == 0
    {
      activeImageIndex := 0;
      activeVideoIndex := 0;
    }

    /** A thumbnail click in the image strip. */
    method SelectImage(idx: nat)
      modifies this
      ensures activeImageIndex == idx && activeVideoIndex == old(activeVideoIndex)
    {
      activeImageIndex := idx;
    }

    /** A thumbnail click in the video strip. */
    method SelectVideo(idx: nat)
      modifies this
      ensures activeVideoIndex == idx && activeImageIndex == old(activeImageIndex)
    {
      activeVideoIndex := idx;
    }
  }
}
