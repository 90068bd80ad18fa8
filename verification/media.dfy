/** The derived properties of a gallery item: the URL of its content and
    the URL of its thumbnail, including the recognition of a YouTube video
    id inside a link.

    The two patterns the app searches for are `(?:A|B)([^&\s]+)` and
    `C([^&\s]+)`, with literal prefixes A, B and C. `Regex.find` returns the
    leftmost match; at one position the alternatives are tried in order;
    the greedy group then takes every following character up to the first
    `&` or white space, and needs at least one. */
module Media {
  import opened Outcomes
  import opened Text
  import opened Records

  /** `getContentUrl`: the uploaded file wins over the external link. */
  function ContentUrl(m: MediaItem): (r: Option<string>)
    ensures m.file.Some? ==> r == m.file
    ensures m.file.None? ==> r == m.url
  {
    match m.file
    case Some(_) => m.file
    case None => m.url
  }

  // ---------------------------------------------------------------------
  // Pattern search
  // ---------------------------------------------------------------------

  /** A character of the id group `[^&\s]`. */
  predicate IsIdChar(c: char)
  {
    c != '&' && !IsRegexSpace(c)
  }

  /** The length of the run of id characters starting at `i`. */
  function RunLength(s: string, i: nat): (n: nat)
    requires i <= |s|
    ensures i + n <= |s|
    ensures forall k :: i <= k < i + n ==> IsIdChar(s[k])
    ensures i + n == |s| || !IsIdChar(s[i + n])
    decreases |s| - i
  {
    if i < |s| && IsIdChar(s[i]) then 1 + RunLength(s, i + 1) else 0
  }

  /** `prefix([^&\s]+)` matches at position `i`. */
  predicate MatchesAt(s: string, prefix: string, i: nat)
  {
    OccursAt(s, prefix, i) && i + |prefix| < |s| && IsIdChar(s[i + |prefix|])
  }

  /** The index of the first alternative, from `m` on, that matches at `i`;
      `|alts|` when none does. */
  function FirstAlternative(s: string, alts: seq<string>, i: nat, m: nat): (k: nat)
    requires m <= |alts|
    ensures m <= k <= |alts|
    ensures forall j :: m <= j < k ==> !MatchesAt(s, alts[j], i)
    ensures k < |alts| ==> MatchesAt(s, alts[k], i)
    decreases |alts| - m
  {
    if m == |alts| then m
    else if MatchesAt(s, alts[m], i) then m
    else FirstAlternative(s, alts, i, m + 1)
  }

  /** Some alternative matches at `i`. */
  predicate AnchoredAt(s: string, alts: seq<string>, i: nat)
  {
    exists j :: 0 <= j < |alts| && MatchesAt(s, alts[j], i)
  }

  /** A match position and the alternative that matched there. */
  datatype Hit = Hit(at: nat, alt: nat)

  /** The leftmost position at or after `i` where some alternative matches. */
  function FindFrom(s: string, alts: seq<string>, i: nat): (h: Option<Hit>)
    requires i <= |s|
    ensures h.None? <==> forall p :: i <= p <= |s| ==> !AnchoredAt(s, alts, p)
    ensures h.Some? ==>
      && i <= h.value.at < |s|
      && h.value.alt < |alts|
      && MatchesAt(s, alts[h.value.alt], h.value.at)
      && (forall j :: 0 <= j < h.value.alt ==> !MatchesAt(s, alts[j], h.value.at))
      && (forall p :: i <= p < h.value.at ==> !AnchoredAt(s, alts, p))
    decreases |s| - i
  {
    var k := FirstAlternative(s, alts, i, 0);
    if k < |alts| then
      assert AnchoredAt(s, alts, i);
      assert i < |s| by { assert MatchesAt(s, alts[k], i); }
      Some(Hit(i, k))
    else
      NoAlternativeNotAnchored(s, alts, i);
      if i == |s| then None
      else FindFrom(s, alts, i + 1)
  }

  /** When no alternative matches at `i`, the pattern is not anchored there. */
  lemma NoAlternativeNotAnchored(s: string, alts: seq<string>, i: nat)
    requires FirstAlternative(s, alts, i, 0) == |alts|
    ensures !AnchoredAt(s, alts, i)
  {
  }

  /** `pattern.find(s)?.groupValues[1]`: the id group of the leftmost match. */
  function FindGroup(s: string, alts: seq<string>): (r: Option<string>)
    ensures r.None? <==> forall p :: 0 <= p <= |s| ==> !AnchoredAt(s, alts, p)
    ensures r.Some? ==> |r.value| >= 1 && forall k :: 0 <= k < |r.value| ==> IsIdChar(r.value[k])
  {
    match FindFrom(s, alts, 0)
    case None => None
    case Some(h) =>
      var start := h.at + |alts[h.alt]|;
      assert start < |s| by { assert MatchesAt(s, alts[h.alt], h.at); }
      var n := RunLength(s, start);
      var id := s[start..start + n];
      assert forall k :: 0 <= k < |id| ==> id[k] == s[start + k];
      assert n >= 1;
      Some(id)
  }

  const WatchOrShort: seq<string> := ["youtube.com/watch?v=", "youtu.be/"]
  const Embed: seq<string> := ["youtube.com/embed/"]

  /** `extractYouTubeId`: the first pattern anywhere in the link wins over
      the second. */
  function ExtractYouTubeId(url: string): (r: Option<string>)
    ensures r.Some? ==> |r.value| >= 1 && forall k :: 0 <= k < |r.value| ==> IsIdChar(r.value[k])
    ensures FindGroup(url, WatchOrShort).Some? ==> r == FindGroup(url, WatchOrShort)
    ensures FindGroup(url, WatchOrShort).None? ==> r == FindGroup(url, Embed)
    ensures r.None? <==>
      forall p :: 0 <= p <= |url| ==> !AnchoredAt(url, WatchOrShort, p) && !AnchoredAt(url, Embed, p)
  {
    match FindGroup(url, WatchOrShort)
    case Some(id) => Some(id)
    case None => FindGroup(url, Embed)
  }

  /** The id of a match is exactly the maximal run of id characters after
      the prefix of the leftmost match: it stops at the end of the link or
      right before an `&` or a white-space character. */
  lemma FindGroupIsMaximalRun(s: string, alts: seq<string>)
    requires FindFrom(s, alts, 0).Some?
    ensures var h := FindFrom(s, alts, 0).value;
      var start := h.at + |alts[h.alt]|;
      var id := FindGroup(s, alts).value;
      && start + |id| <= |s|
      && s[start..start + |id|] == id
      && (start + |id| == |s| || !IsIdChar(s[start + |id|]))
  {
  }

  // ---------------------------------------------------------------------
  // Thumbnails
  // ---------------------------------------------------------------------

  /** `isNullOrBlank`. */
  predicate IsNullOrBlank(x: Option<string>)
  {
    x.None? || IsBlank(x.value)
  }

  /** The YouTube still for a video id. */
  function YouTubeThumbnail(id: string): (r: string)
    ensures |r| == 27 + |id| + 18
    ensures r[..27] == "https://img.youtube.com/vi/" && r[27..27 + |id|] == id
    ensures r[27 + |id|..] == "/maxresdefault.jpg"
  {
    "https://img.youtube.com/vi/" + id + "/maxresdefault.jpg"
  }

  /** `getThumbnailUrl`. */
  function ThumbnailUrl(m: MediaItem): (r: Option<string>)
    ensures !IsNullOrBlank(m.thumbnail) ==> r == m.thumbnail
    ensures IsNullOrBlank(m.thumbnail) && m.kind == "image" ==> r == ContentUrl(m)
    ensures IsNullOrBlank(m.thumbnail) && m.kind != "image" && m.kind != "video" ==> r.None?
    ensures IsNullOrBlank(m.thumbnail) && m.kind == "video" && m.url.None? ==> r.None?
  {
    if !IsNullOrBlank(m.thumbnail) then m.thumbnail
    else if m.kind == "image" then ContentUrl(m)
    else if m.kind == "video" && m.url.Some? && (Contains(m.url.value, "youtube") || Contains(m.url.value, "youtu.be")) then
      match ExtractYouTubeId(m.url.value)
      case Some(id) => Some(YouTubeThumbnail(id))
      case None => None
    else None
  }

  /** A match inside a match: if `q` occurs at the start of `p` and `p`
      occurs at `i` in `s`, then `q` occurs at `i` in `s`. */
  lemma OccursAtPrefix(s: string, p: string, q: string, i: nat)
    requires OccursAt(s, p, i) && OccursAt(p, q, 0)
    ensures OccursAt(s, q, i)
  {
    assert s[i..i + |q|] == s[i..i + |p|][..|q|];
  }

  /** Every recognised link contains `"youtube"` or `"youtu.be"`, so the
      `contains` test in front of the extraction never changes the outcome. */
  lemma {:induction false} ExtractedLinkMentionsYouTube(url: string)
    requires ExtractYouTubeId(url).Some?
    ensures Contains(url, "youtube") || Contains(url, "youtu.be")
  {
    var alts, h;
    if FindGroup(url, WatchOrShort).Some? {
      alts := WatchOrShort;
    } else {
      alts := Embed;
    }
    h := FindFrom(url, alts, 0).value;
    var p := alts[h.alt];
    if p == "youtu.be/" {
      assert OccursAt(p, "youtu.be", 0);
      OccursAtPrefix(url, p, "youtu.be", h.at);
    } else {
      assert p == "youtube.com/watch?v=" || p == "youtube.com/embed/";
      assert OccursAt(p, "youtube", 0);
      OccursAtPrefix(url, p, "youtube", h.at);
    }
  }

  /** For a video without an explicit thumbnail, the thumbnail is the
      YouTube still exactly when an id can be extracted from its link; the
      uploaded file plays no part. */
  lemma VideoThumbnail(m: MediaItem)
    requires IsNullOrBlank(m.thumbnail) && m.kind == "video" && m.url.Some?
    ensures ThumbnailUrl(m).Some? <==> ExtractYouTubeId(m.url.value).Some?
    ensures ThumbnailUrl(m).Some? ==> ThumbnailUrl(m) == Some(YouTubeThumbnail(ExtractYouTubeId(m.url.value).value))
    ensures ThumbnailUrl(m) == ThumbnailUrl(m.(file := None))
  {
    if ExtractYouTubeId(m.url.value).Some? {
      ExtractedLinkMentionsYouTube(m.url.value);
    }
  }
}
