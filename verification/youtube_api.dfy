/** The pure parts of youtube_api.py: the "is a short" predicate and the
    filter-and-cap loop over a trending response. The network calls are not modelled. */
module YouTubeApi {
  import opened Wrappers
  import opened Chars
  import Duration

  /** The fields of one item of a `videos().list` response that the code reads.
      Optional fields are the ones read with `.get(key, default)`. */
  datatype ApiVideo = ApiVideo(
    id: string,
    title: string,
    description: Option<string>,
    channelTitle: string,
    publishedAt: string,
    tags: Option<seq<string>>,
    duration: string,
    viewCount: Option<nat>,
    likeCount: Option<nat>,
    commentCount: Option<nat>)

  const ShortsTag: string := "#shorts"

  const ShortsMaxSeconds: nat := 60

  /** `'#shorts' in text.lower()` */
  predicate MentionsShorts(text: string) {
    Contains(Lower(text), ShortsTag)
  }

  /** `is_shorts`: a duration the reader matches that is at most a minute, or the
      tag in the description (missing counts as empty) or the title, in any letter case. */
  predicate IsShorts(v: ApiVideo): (b: bool)
    ensures Duration.HasPrefixPT(v.duration) && Duration.DurationSeconds(v.duration) <= ShortsMaxSeconds ==> b
    ensures !Duration.HasPrefixPT(v.duration) ==>
              (b <==> MentionsShorts(v.description.GetOr("")) || MentionsShorts(v.title))
    ensures Duration.HasPrefixPT(v.duration) && Duration.DurationSeconds(v.duration) > ShortsMaxSeconds ==>
              (b <==> MentionsShorts(v.description.GetOr("")) || MentionsShorts(v.title))
    ensures MentionsShorts(v.title) || MentionsShorts(v.description.GetOr("")) ==> b
  {
    var m := Duration.MatchDuration(v.duration);
    || (m.Some? && m.value <= ShortsMaxSeconds)
    || MentionsShorts(v.description.GetOr(""))
    || MentionsShorts(v.title)
  }

  /** One entry of `shorts_data`. */
  datatype PeerRecord = PeerRecord(
    videoId: string,
    title: string,
    channelTitle: string,
    publishedAt: string,
    viewCount: nat,
    likeCount: nat,
    commentCount: nat,
    tags: seq<string>)

  function ToPeer(v: ApiVideo): (r: PeerRecord)
    ensures r.videoId == v.id && r.title == v.title
    ensures r.channelTitle == v.channelTitle && r.publishedAt == v.publishedAt
    ensures v.viewCount.Some? ==> r.viewCount == v.viewCount.value
    ensures v.likeCount.Some? ==> r.likeCount == v.likeCount.value
    ensures v.commentCount.Some? ==> r.commentCount == v.commentCount.value
    ensures v.tags.Some? ==> r.tags == v.tags.value
    ensures v.viewCount.None? ==> r.viewCount == 0
    ensures v.likeCount.None? ==> r.likeCount == 0
    ensures v.commentCount.None? ==> r.commentCount == 0
    ensures v.tags.None? ==> r.tags == []
  {
    PeerRecord(v.id, v.title, v.channelTitle, v.publishedAt,
               v.viewCount.GetOr(0), v.likeCount.GetOr(0), v.commentCount.GetOr(0),
               v.tags.GetOr([]))
  }

  /** The items that are shorts, in response order. */
  function ShortsOf(items: seq<ApiVideo>): (r: seq<ApiVideo>)
    ensures |r| <= |items|
    ensures forall i :: 0 <= i < |r| ==> IsShorts(r[i]) && r[i] in items
    ensures forall v :: v in items && IsShorts(v) ==> v in r
  {
    if items == [] then []
    else
      var init := items[..|items| - 1];
      var last := items[|items| - 1];
      assert forall v :: v in items ==> v in init || v == last;
      ShortsOf(init) + (if IsShorts(last) then [last] else [])
  }

  /** The first `n` elements, or all of them when there are fewer; none when `n <= 0`. */
  function Capped<T>(xs: seq<T>, n: int): (r: seq<T>)
    ensures |r| == if n <= 0 then 0 else if n < |xs| then n else |xs|
    ensures r == xs[..|r|]
  {
    if n <= 0 then [] else if n < |xs| then xs[..n] else xs
  }

  function ToPeers(vs: seq<ApiVideo>): (r: seq<PeerRecord>)
    ensures |r| == |vs| && forall i :: 0 <= i < |vs| ==> r[i] == ToPeer(vs[i])
  {
    seq(|vs|, i requires 0 <= i < |vs| => ToPeer(vs[i]))
  }

  lemma ShortsStep(items: seq<ApiVideo>, i: nat)
    requires i < |items|
    ensures ShortsOf(items[..i + 1]) == ShortsOf(items[..i]) + (if IsShorts(items[i]) then [items[i]] else [])
  {
    assert items[..i + 1][..i] == items[..i];
  }

  lemma CappedStep<T>(xs: seq<T>, x: T, keep: bool, n: int)
    ensures Capped(xs + (if keep then [x] else []), n)
         == if keep && |Capped(xs, n)| < n then Capped(xs, n) + [x] else Capped(xs, n)
  {
    if keep && n > |xs| {
      assert Capped(xs, n) == xs;
    } else if keep && n > 0 {
      assert (xs + [x])[..n] == xs[..n];
    } else if !keep {
      assert xs + [] == xs;
    }
  }

  lemma ToPeersSnoc(vs: seq<ApiVideo>, v: ApiVideo)
    ensures ToPeers(vs + [v]) == ToPeers(vs) + [ToPeer(v)]
  {
  }

  /** The filter loop of `get_trending_shorts`: keep the shorts, in response
      order, stopping at `maxResults` of them. */
  method TrendingShorts(items: seq<ApiVideo>, maxResults: int) returns (r: seq<PeerRecord>)
    ensures r == ToPeers(Capped(ShortsOf(items), maxResults))
    ensures |r| <= |ShortsOf(items)| && (maxResults >= 0 ==> |r| <= maxResults)
  {
    r := [];
    var i := 0;
    while i < |items|
      invariant 0 <= i <= |items|
      invariant r == ToPeers(Capped(ShortsOf(items[..i]), maxResults))
    {
      FilterStep(items, i, maxResults, r);
      if IsShorts(items[i]) && |r| < maxResults {
        r := r + [ToPeer(items[i])];
      }
      i := i + 1;
    }
    assert items[..i] == items;
  }

  /** One turn of the filter loop: the next item is appended exactly when it
      is a short and the cap is not yet reached. */
  lemma FilterStep(items: seq<ApiVideo>, i: nat, maxResults: int, r: seq<PeerRecord>)
    requires i < |items|
    requires r == ToPeers(Capped(ShortsOf(items[..i]), maxResults))
    ensures IsShorts(items[i]) && |r| < maxResults ==>
      ToPeers(Capped(ShortsOf(items[..i + 1]), maxResults)) == r + [ToPeer(items[i])]
    ensures !(IsShorts(items[i]) && |r| < maxResults) ==>
      ToPeers(Capped(ShortsOf(items[..i + 1]), maxResults)) == r
  {
    ShortsStep(items, i);
    CappedStep(ShortsOf(items[..i]), items[i], IsShorts(items[i]), maxResults);
    ToPeersSnoc(Capped(ShortsOf(items[..i]), maxResults), items[i]);
  }

  /** A duration of at most a minute in the declared format makes a short, whatever the text says. */
  lemma ShortDurationIsShort(v: ApiVideo, p: Duration.Declared)
    requires v.duration == Duration.Render(p) && Duration.TotalSeconds(p) <= ShortsMaxSeconds
    ensures IsShorts(v)
  {
    Duration.ParseRender(p, []);
    assert Duration.Render(p) + [] == Duration.Render(p);
  }

  /** A duration the reader does not match (no "PT" prefix, e.g. "P1D") falls through to the tag test. */
  lemma UnmatchedDurationUsesTag(v: ApiVideo)
    requires !Duration.HasPrefixPT(v.duration)
    ensures IsShorts(v) <==> MentionsShorts(v.description.GetOr("")) || MentionsShorts(v.title)
  {
  }

  /** The tag is found whatever the case of its letters, anywhere in the text. */
  lemma TagAnyCase(before: string, tag: string, after: string)
    requires |tag| == |ShortsTag| && Lower(tag) == ShortsTag
    ensures MentionsShorts(before + tag + after)
  {
    var t := before + tag + after;
    var lt := Lower(t);
    assert lt[|before|..|before| + |tag|] == Lower(tag);
    ContainsAt(lt, ShortsTag, |before|);
  }

  lemma {:induction false} ContainsAt(h: string, n: string, k: nat)
    requires k + |n| <= |h| && h[k..k + |n|] == n
    ensures Contains(h, n)
    decreases k
  {
    if k > 0 {
      assert h[1..][k - 1..k - 1 + |n|] == h[k..k + |n|];
      ContainsAt(h[1..], n, k - 1);
    }
  }
}
