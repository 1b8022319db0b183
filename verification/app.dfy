/** The page logic of app.py: the analyse step with its recently-analysed
    history, the comparison against trending peers, and the recommendation
    rules. Rendering is left out; what each panel would show is a value here. */
module App {
  import opened Wrappers
  import Utils
  import DataProcessor
  import Model
  import YouTubeApi

  // ---------------------------------------------------------------- history

  const HistoryLimit: nat := 5

  /** One card of the recently-analysed strip. */
  datatype HistoryEntry = HistoryEntry(videoId: string, title: string, thumbnail: string, score: real)

  function Min(a: int, b: int): int {
    if a <= b then a else b
  }

  function Ids(h: seq<HistoryEntry>): (r: seq<string>)
    ensures |r| == |h|
    ensures forall i :: 0 <= i < |h| ==> r[i] == h[i].videoId
  {
    if h == [] then [] else [h[0].videoId] + Ids(h[1..])
  }

  predicate DistinctIds(h: seq<HistoryEntry>) {
    forall i, j :: 0 <= i < j < |h| ==> h[i].videoId != h[j].videoId
  }

  /** The history the page keeps: at most five cards, no video twice. */
  predicate ValidHistory(h: seq<HistoryEntry>) {
    |h| <= HistoryLimit && DistinctIds(h)
  }

  /** A video already on the strip leaves it as it is (it is not moved to the
      front); a new one goes first and the strip is cut back to five. */
  function AddToHistory(h: seq<HistoryEntry>, e: HistoryEntry): (r: seq<HistoryEntry>)
    ensures e.videoId in Ids(h) ==> r == h
    ensures e.videoId !in Ids(h) ==> |r| == Min(|h| + 1, HistoryLimit)
    ensures e.videoId !in Ids(h) ==> r[0] == e && r[1..] == h[..Min(|h|, HistoryLimit - 1)]
    ensures e.videoId in Ids(r)
  {
    if e.videoId in Ids(h) then h
    else
      var grown := [e] + h;
      if |grown| > HistoryLimit then grown[..HistoryLimit] else grown
  }

  /** Adding keeps the history valid. */
  lemma AddKeepsValid(h: seq<HistoryEntry>, e: HistoryEntry)
    ensures ValidHistory(h) ==> ValidHistory(AddToHistory(h, e))
  {
    var r := AddToHistory(h, e);
    if ValidHistory(h) && e.videoId !in Ids(h) {
      forall i, j | 0 <= i < j < |r|
        ensures r[i].videoId != r[j].videoId
      {
        if i == 0 {
          assert r[j] == h[j - 1];
          assert Ids(h)[j - 1] == h[j - 1].videoId;
        } else {
          assert r[i] == h[i - 1] && r[j] == h[j - 1];
        }
      }
    }
  }

  /** Analysing the same video again does not change the history. */
  lemma AddIdempotent(h: seq<HistoryEntry>, e: HistoryEntry, again: HistoryEntry)
    requires again.videoId == e.videoId
    ensures AddToHistory(AddToHistory(h, e), again) == AddToHistory(h, e)
  {
  }

  /** The history after analysing a run of videos from an empty strip, oldest first. */
  function Replay(entries: seq<HistoryEntry>): seq<HistoryEntry> {
    if entries == [] then []
    else AddToHistory(Replay(entries[..|entries| - 1]), entries[|entries| - 1])
  }

  /** Whatever was analysed, the strip holds at most five distinct videos, the
      latest analysed among them. */
  lemma {:induction false} ReplayValid(entries: seq<HistoryEntry>)
    ensures ValidHistory(Replay(entries))
    ensures entries != [] ==> entries[|entries| - 1].videoId in Ids(Replay(entries))
  {
    if entries != [] {
      ReplayValid(entries[..|entries| - 1]);
      AddKeepsValid(Replay(entries[..|entries| - 1]), entries[|entries| - 1]);
    }
  }

  // ---------------------------------------------------------------- analyse

  /** What the three tabs show for one video. */
  datatype Analysis = Analysis(
    videoId: string,
    video: DataProcessor.Processed,
    features: DataProcessor.Features,
    prediction: Model.Prediction)

  datatype Outcome =
    | NoInput
    | InvalidUrl
    | NotFound(videoId: string)
    | Analyzed(analysis: Analysis)

  datatype Step = Step(outcome: Outcome, history: seq<HistoryEntry>)

  /** A press of the analyse button: an empty box does nothing; `fetch` stands
      for the video lookup against the provider and `elapsedSeconds` for the
      clock read during normalisation. */
  function Analyze(url: string, fetch: string -> Option<DataProcessor.RawVideo>, elapsedSeconds: int,
                   h: seq<HistoryEntry>): (s: Step)
    ensures s.outcome == NoInput <==> url == []
    ensures s.outcome == InvalidUrl <==> url != [] && !Utils.IsShortsUrl(url)
    ensures s.outcome.NotFound? <==> Utils.IsShortsUrl(url) && fetch(Utils.ExtractVideoId(url).value).None?
    ensures !s.outcome.Analyzed? ==> s.history == h
    ensures s.outcome.Analyzed? ==>
      && Utils.ExtractVideoId(url) == Some(s.outcome.analysis.videoId)
      && fetch(s.outcome.analysis.videoId) == Some(s.outcome.analysis.video.video)
      && s.outcome.analysis.features == DataProcessor.ExtractFeatures(s.outcome.analysis.video)
      && s.outcome.analysis.prediction == Model.Predict(s.outcome.analysis.features)
      && 0.35 <= s.outcome.analysis.prediction.score <= Model.Ceiling
      && s.outcome.analysis.video == DataProcessor.ProcessVideoData(s.outcome.analysis.video.video, elapsedSeconds)
      && s.history == AddToHistory(h, HistoryEntry(s.outcome.analysis.videoId, s.outcome.analysis.video.video.title,
                                                   s.outcome.analysis.video.video.thumbnailUrl,
                                                   s.outcome.analysis.prediction.score))
      && s.outcome.analysis.videoId in Ids(s.history)
    ensures s.outcome.Analyzed? && s.outcome.analysis.videoId in Ids(h) ==> s.history == h
    ensures ValidHistory(h) ==> ValidHistory(s.history)
  {
    if url == [] then Step(NoInput, h)
    else if !Utils.IsShortsUrl(url) then Step(InvalidUrl, h)
    else
      var id := Utils.ExtractVideoId(url).value;
      match fetch(id)
      case None => Step(NotFound(id), h)
      case Some(v) =>
        var processed := DataProcessor.ProcessVideoData(v, elapsedSeconds);
        var features := DataProcessor.ExtractFeatures(processed);
        var prediction := Model.Predict(features);
        var entry := HistoryEntry(id, v.title, v.thumbnailUrl, prediction.score);
        AddKeepsValid(h, entry);
        Step(Analyzed(Analysis(id, processed, features, prediction)), AddToHistory(h, entry))
  }

  // ------------------------------------------------------------- comparison

  function RealMax(a: real, b: real): real {
    if a >= b then a else b
  }

  function Sum(xs: seq<real>): real {
    if xs == [] then 0.0 else Sum(xs[..|xs| - 1]) + xs[|xs| - 1]
  }

  lemma {:induction false} SumNonNegative(xs: seq<real>)
    requires forall i :: 0 <= i < |xs| ==> xs[i] >= 0.0
    ensures Sum(xs) >= 0.0
  {
    if xs != [] {
      SumNonNegative(xs[..|xs| - 1]);
    }
  }

  /** `m` times the number of entries is `scale` times their total. */
  predicate IsMean(m: real, xs: seq<real>, scale: real) {
    m * |xs| as real == Sum(xs) * scale
  }

  /** The mean of a column of non-negative figures is non-negative. */
  lemma MeanNonNegative(xs: seq<real>, scale: real)
    requires xs != [] && scale >= 0.0
    requires forall i :: 0 <= i < |xs| ==> xs[i] >= 0.0
    ensures Mean(xs, scale) >= 0.0
  {
    SumNonNegative(xs);
    var q := Sum(xs) / |xs| as real;
    assert q >= 0.0;
    assert q * scale >= 0.0;
  }

  /** The arithmetic mean of a non-empty column, times `scale`. */
  function Mean(xs: seq<real>, scale: real): (m: real)
    requires xs != []
    ensures IsMean(m, xs, scale)
  {
    var n := |xs| as real;
    var q := Sum(xs) / n;
    assert q * n == Sum(xs);
    assert q * scale * n == (q * n) * scale;
    q * scale
  }

  function Views(peers: seq<YouTubeApi.PeerRecord>): (r: seq<real>)
    ensures |r| == |peers| && forall i :: 0 <= i < |peers| ==> r[i] == peers[i].viewCount as real
  {
    seq(|peers|, i requires 0 <= i < |peers| => peers[i].viewCount as real)
  }

  function Likes(peers: seq<YouTubeApi.PeerRecord>): (r: seq<real>)
    ensures |r| == |peers| && forall i :: 0 <= i < |peers| ==> r[i] == peers[i].likeCount as real
  {
    seq(|peers|, i requires 0 <= i < |peers| => peers[i].likeCount as real)
  }

  function Comments(peers: seq<YouTubeApi.PeerRecord>): (r: seq<real>)
    ensures |r| == |peers| && forall i :: 0 <= i < |peers| ==> r[i] == peers[i].commentCount as real
  {
    seq(|peers|, i requires 0 <= i < |peers| => peers[i].commentCount as real)
  }

  /** Each peer's likes over its views, views clipped below at 1. */
  function LikeRatios(peers: seq<YouTubeApi.PeerRecord>): (r: seq<real>)
    ensures |r| == |peers|
    ensures forall i :: 0 <= i < |peers| ==> r[i] >= 0.0 && r[i] * DataProcessor.Max(1, peers[i].viewCount) as real == peers[i].likeCount as real
  {
    seq(|peers|, i requires 0 <= i < |peers| => DataProcessor.PerAtLeastOne(peers[i].likeCount, peers[i].viewCount))
  }

  /** The four bars of the comparison chart and the averages behind them. Every
      bar is the video's figure as a percentage of the peers' average, the
      average floored at 1 (at 0.01 for the like ratio, itself a percentage). */
  datatype Comparison = Comparison(
    avgViews: real,
    avgLikes: real,
    avgComments: real,
    avgLikeRatio: real,
    likeRatio: real,
    bars: seq<real>)

  function Percent(value: real, average: real, floor: real): (r: real)
    requires floor > 0.0
    ensures r * RealMax(floor, average) == value * 100.0
  {
    value / RealMax(floor, average) * 100.0
  }

  /** Scaling by a positive factor keeps the order. */
  lemma ScaleOrder(a: real, b: real, m: real)
    requires m > 0.0
    ensures a > b <==> a * m > b * m
  {
    if a > b {
      assert (a - b) * m > 0.0;
    } else {
      assert (b - a) * m >= 0.0;
    }
  }

  /** A percentage bar tops the 100% line exactly when the figure beats the floored average. */
  lemma PercentAbove(value: real, average: real, floor: real)
    requires floor > 0.0
    ensures Percent(value, average, floor) > 100.0 <==> value > RealMax(floor, average)
    ensures value >= 0.0 ==> Percent(value, average, floor) >= 0.0
  {
    DivOrder(value, RealMax(floor, average));
  }

  /** Dividing by a positive `m` compares the dividend with `m`. */
  lemma DivOrder(value: real, m: real)
    requires m > 0.0
    ensures value / m > 1.0 <==> value > m
    ensures value >= 0.0 ==> value / m >= 0.0
  {
    var q := value / m;
    assert q * m == value;
    ScaleOrder(q, 1.0, m);
    ScaleOrder(0.0, q, m);
  }

  /** The peers' column means; the like ratio is averaged as a percentage. */
  datatype Averages = Averages(views: real, likes: real, comments: real, likeRatio: real)

  function PeerAverages(peers: seq<YouTubeApi.PeerRecord>): (a: Averages)
    requires peers != []
    ensures IsMean(a.views, Views(peers), 1.0)
    ensures IsMean(a.likes, Likes(peers), 1.0)
    ensures IsMean(a.comments, Comments(peers), 1.0)
    ensures IsMean(a.likeRatio, LikeRatios(peers), 100.0)
    ensures a.views >= 0.0 && a.likes >= 0.0 && a.comments >= 0.0 && a.likeRatio >= 0.0
  {
    MeanNonNegative(Views(peers), 1.0);
    MeanNonNegative(Likes(peers), 1.0);
    MeanNonNegative(Comments(peers), 1.0);
    MeanNonNegative(LikeRatios(peers), 100.0);
    Averages(Mean(Views(peers), 1.0), Mean(Likes(peers), 1.0), Mean(Comments(peers), 1.0), Mean(LikeRatios(peers), 100.0))
  }

  /** `r` is `likes` per 100 views, views clipped below at 1. */
  predicate PerHundred(r: real, likes: nat, views: nat) {
    r * DataProcessor.Max(1, views) as real == likes as real * 100.0
  }

  function LikePercent(likes: nat, views: nat): (r: real)
    ensures r >= 0.0
    ensures PerHundred(r, likes, views)
  {
    var q := DataProcessor.PerAtLeastOne(likes, views);
    assert q * 100.0 * DataProcessor.Max(1, views) as real == (q * DataProcessor.Max(1, views) as real) * 100.0;
    q * 100.0
  }

  /** Four bars: views, likes and comments as percentages of their averages
      floored at 1, the like ratio as a percentage of its average floored at 0.01. */
  predicate PercentBars(b: seq<real>, views: nat, likes: nat, comments: nat, likeRatio: real, a: Averages) {
    && |b| == 4
    && b[0] * RealMax(1.0, a.views) == views as real * 100.0
    && b[1] * RealMax(1.0, a.likes) == likes as real * 100.0
    && b[2] * RealMax(1.0, a.comments) == comments as real * 100.0
    && b[3] * RealMax(0.01, a.likeRatio) == likeRatio * 100.0
  }

  function Bars(views: nat, likes: nat, comments: nat, likeRatio: real, a: Averages): (b: seq<real>)
    ensures PercentBars(b, views, likes, comments, likeRatio, a)
  {
    [Percent(views as real, a.views, 1.0),
     Percent(likes as real, a.likes, 1.0),
     Percent(comments as real, a.comments, 1.0),
     Percent(likeRatio, a.likeRatio, 0.01)]
  }

  /** What a chart against `peers` holds: each average times the number of
      peers is that column's total, the like ratio is likes per 100 views with
      views clipped below at 1, and there are four bars, each the video's
      figure as a percentage of the matching average floored at 1 (at 0.01
      for the like ratio). */
  predicate Charted(c: Comparison, views: nat, likes: nat, comments: nat, peers: seq<YouTubeApi.PeerRecord>) {
    && IsMean(c.avgViews, Views(peers), 1.0)
    && IsMean(c.avgLikes, Likes(peers), 1.0)
    && IsMean(c.avgComments, Comments(peers), 1.0)
    && IsMean(c.avgLikeRatio, LikeRatios(peers), 100.0)
    && PerHundred(c.likeRatio, likes, views)
    && PercentBars(c.bars, views, likes, comments, c.likeRatio,
                   Averages(c.avgViews, c.avgLikes, c.avgComments, c.avgLikeRatio))
  }

  /** The chart for one video against its peers. */
  function Chart(views: nat, likes: nat, comments: nat, peers: seq<YouTubeApi.PeerRecord>): (c: Comparison)
    requires peers != []
    ensures Charted(c, views, likes, comments, peers)
  {
    var a := PeerAverages(peers);
    var likeRatio := LikePercent(likes, views);
    Comparison(a.views, a.likes, a.comments, a.likeRatio, likeRatio, Bars(views, likes, comments, likeRatio, a))
  }

  /** No trending data: nothing to compare against. */
  function Compare(views: nat, likes: nat, comments: nat, peers: seq<YouTubeApi.PeerRecord>): (c: Option<Comparison>)
    ensures c.None? <==> peers == []
    ensures c.Some? ==> Charted(c.value, views, likes, comments, peers)
  {
    if peers == [] then None
    else Some(Chart(views, likes, comments, peers))
  }

  /** What each bar means: non-negative, and above the line exactly when the
      video beats the floored peer average on that figure. */
  lemma CompareBars(views: nat, likes: nat, comments: nat, peers: seq<YouTubeApi.PeerRecord>)
    requires peers != []
    ensures var c := Compare(views, likes, comments, peers).value;
      && (forall k :: 0 <= k < 4 ==> c.bars[k] >= 0.0)
      && (c.bars[0] > 100.0 <==> views as real > RealMax(1.0, c.avgViews))
      && (c.bars[1] > 100.0 <==> likes as real > RealMax(1.0, c.avgLikes))
      && (c.bars[2] > 100.0 <==> comments as real > RealMax(1.0, c.avgComments))
      && (c.bars[3] > 100.0 <==> c.likeRatio > RealMax(0.01, c.avgLikeRatio))
  {
    var c := Compare(views, likes, comments, peers).value;
    PercentAbove(views as real, c.avgViews, 1.0);
    PercentAbove(likes as real, c.avgLikes, 1.0);
    PercentAbove(comments as real, c.avgComments, 1.0);
    PercentAbove(c.likeRatio, c.avgLikeRatio, 0.01);
    assert c.likeRatio >= 0.0;
  }

  /** The sentence under the chart. */
  datatype Standing = AboveInSeveral | AboveInOne | BelowAverage

  /** How many bars top the 100% line. */
  function CountAbove(bars: seq<real>): (n: nat)
    ensures n <= |bars|
  {
    if bars == [] then 0
    else CountAbove(bars[..|bars| - 1]) + (if bars[|bars| - 1] > 100.0 then 1 else 0)
  }

  predicate Above(bars: seq<real>, i: int) {
    0 <= i < |bars| && bars[i] > 100.0
  }

  lemma {:induction false} CountAboveZero(bars: seq<real>)
    ensures CountAbove(bars) == 0 <==> forall i :: 0 <= i < |bars| ==> !Above(bars, i)
  {
    if bars != [] {
      var last := |bars| - 1;
      var init := bars[..last];
      CountAboveZero(init);
      assert forall i :: 0 <= i < last ==> (Above(init, i) <==> Above(bars, i));
      if CountAbove(bars) != 0 {
        if !Above(bars, last) {
          var i :| 0 <= i < last && Above(init, i);
          assert Above(bars, i);
        }
      }
    }
  }

  lemma {:induction false} CountAboveTwo(bars: seq<real>)
    ensures CountAbove(bars) >= 2 <==> exists i, j :: i < j && Above(bars, i) && Above(bars, j)
  {
    if bars != [] {
      var last := |bars| - 1;
      var init := bars[..last];
      CountAboveTwo(init);
      CountAboveZero(init);
      assert forall i :: 0 <= i < last ==> (Above(init, i) <==> Above(bars, i));
      if CountAbove(bars) >= 2 {
        if CountAbove(init) >= 2 {
          var i, j :| i < j && Above(init, i) && Above(init, j);
          assert Above(bars, i) && Above(bars, j);
        } else {
          assert Above(bars, last);
          var i :| 0 <= i < last && Above(init, i);
          assert Above(bars, i);
        }
      }
      if exists i, j :: i < j && Above(bars, i) && Above(bars, j) {
        var i, j :| i < j && Above(bars, i) && Above(bars, j);
        if j < last {
          assert Above(init, i) && Above(init, j);
        } else {
          assert Above(init, i);
        }
      }
    }
  }

  /** Exactly one bar above the line. */
  lemma CountAboveOne(bars: seq<real>)
    ensures CountAbove(bars) == 1 <==> exists i :: Above(bars, i) && forall j :: Above(bars, j) ==> j == i
  {
    CountAboveZero(bars);
    CountAboveTwo(bars);
    if CountAbove(bars) == 1 {
      var i :| 0 <= i < |bars| && Above(bars, i);
      forall j | Above(bars, j)
        ensures j == i
      {
        if j < i || i < j {
          assert false;
        }
      }
    }
    if exists i :: Above(bars, i) && forall j :: Above(bars, j) ==> j == i {
      var i :| Above(bars, i) && forall j :: Above(bars, j) ==> j == i;
      assert CountAbove(bars) != 0;
      if CountAbove(bars) >= 2 {
        assert false;
      }
    }
  }

  /** `sum(val > 100 for val in bars)` read against 2 and 1. */
  function StandingOf(bars: seq<real>): (s: Standing)
    ensures s == BelowAverage <==> CountAbove(bars) == 0
  {
    var n := CountAbove(bars);
    if n >= 2 then AboveInSeveral else if n == 1 then AboveInOne else BelowAverage
  }

  /** Below average: no bar tops the line. */
  lemma StandingBelow(bars: seq<real>)
    ensures StandingOf(bars) == BelowAverage <==> forall i :: 0 <= i < |bars| ==> !Above(bars, i)
  {
    CountAboveZero(bars);
  }

  /** Several: two different bars top the line. */
  lemma StandingSeveral(bars: seq<real>)
    ensures StandingOf(bars) == AboveInSeveral <==> exists i, j :: i < j && Above(bars, i) && Above(bars, j)
  {
    CountAboveTwo(bars);
  }

  /** One: exactly one bar tops the line. */
  lemma StandingOne(bars: seq<real>)
    ensures StandingOf(bars) == AboveInOne <==> exists i :: Above(bars, i) && forall j :: Above(bars, j) ==> j == i
  {
    CountAboveOne(bars);
  }

  // -------------------------------------------------------- recommendations

  /** The recommendation texts, in the order the page lists them. */
  datatype Advice =
    | LongerTitle
    | ShorterTitle
    | MoreTags
    | StrongerHooks
    | InviteComments
    | StudyTrends
    | ImproveHook
    | PostConsistently
  {
    function Rank(): nat {
      match this
      case LongerTitle => 0
      case ShorterTitle => 1
      case MoreTags => 2
      case StrongerHooks => 3
      case InviteComments => 4
      case StudyTrends => 5
      case ImproveHook => 6
      case PostConsistently => 7
    }

    function Text(): string {
      match this
      case LongerTitle => "Consider using a slightly longer title (30-50 characters) that includes trending keywords to improve searchability."
      case ShorterTitle => "Your title is quite long. Consider a more concise title (30-50 characters) that still conveys the key message."
      case MoreTags => "Add more relevant tags (aim for 8-10) to improve discoverability."
      case StrongerHooks => "Your like-to-view ratio is lower than optimal. Try creating more engaging hooks and calls to action."
      case InviteComments => "Encourage more comments by asking questions or creating content that sparks discussion."
      case StudyTrends => "Consider trends analysis: Study currently viral Shorts for inspiration on content and style."
      case ImproveHook => "Improve hook: The first 3 seconds are crucial for retention - make them more compelling."
      case PostConsistently => "Consistency is key: Regular posting can help build momentum and improve algorithmic favor."
    }
  }

  const WellOptimized := "Your video is well optimized! Continue with your current strategy."

  /** Listed in page order, each at most once. */
  predicate Ordered(r: seq<Advice>) {
    forall i, j :: 0 <= i < j < |r| ==> r[i].Rank() < r[j].Rank()
  }

  /** Every entry ranks at `k` or later. */
  predicate From(r: seq<Advice>, k: nat) {
    forall i :: 0 <= i < |r| ==> k <= r[i].Rank()
  }

  /** Every entry ranks before `k`. */
  predicate Before(r: seq<Advice>, k: nat) {
    forall i :: 0 <= i < |r| ==> r[i].Rank() < k
  }

  lemma PrependOrdered(a: seq<Advice>, k: nat, rest: seq<Advice>)
    requires Ordered(a) && Ordered(rest) && From(rest, k)
    requires Before(a, k)
    ensures Ordered(a + rest)
  {
    forall i, j | 0 <= i < j < |a + rest|
      ensures (a + rest)[i].Rank() < (a + rest)[j].Rank()
    {
      if j >= |a| && i < |a| {
        assert (a + rest)[j] == rest[j - |a|];
      }
    }
  }

  function TitleAdvice(titleLength: nat): (r: seq<Advice>)
    ensures LongerTitle in r <==> titleLength < 30
    ensures ShorterTitle in r <==> titleLength > 60
    ensures forall x :: x in r ==> x == LongerTitle || x == ShorterTitle
    ensures |r| <= 1
    ensures Before(r, 2)
  {
    if titleLength < 30 then [LongerTitle] else if titleLength > 60 then [ShorterTitle] else []
  }

  function ScoreAdvice(score: real): (r: seq<Advice>)
    ensures StudyTrends in r <==> score < 0.3
    ensures ImproveHook in r <==> score < 0.3
    ensures PostConsistently in r <==> 0.3 <= score < 0.7
    ensures forall x :: x in r ==> x == StudyTrends || x == ImproveHook || x == PostConsistently
    ensures Ordered(r) && From(r, 5)
  {
    if score < 0.3 then [StudyTrends, ImproveHook] else if score < 0.7 then [PostConsistently] else []
  }

  function When(c: bool, a: Advice): (r: seq<Advice>)
    ensures a in r <==> c
    ensures forall x :: x in r ==> x == a
    ensures |r| <= 1
  {
    if c then [a] else []
  }

  /** Likes per view in percent below 5, as the page computes it. */
  predicate FewLikes(views: nat, likes: nat) {
    DataProcessor.PerAtLeastOne(likes, views) * 100.0 < 5.0
  }

  /** Comments per thousand views below 2, as the page computes it. */
  predicate FewComments(views: nat, comments: nat) {
    DataProcessor.PerAtLeastOne(comments, views) * 1000.0 < 2.0
  }

  /** The engagement rules in page order. */
  function EngagementAdvice(tagCount: nat, views: nat, likes: nat, comments: nat): (r: seq<Advice>)
    ensures MoreTags in r <==> tagCount < 5
    ensures StrongerHooks in r <==> likes * 100 < 5 * DataProcessor.Max(1, views)
    ensures InviteComments in r <==> comments * 1000 < 2 * DataProcessor.Max(1, views)
    ensures forall x :: x in r ==> x == MoreTags || x == StrongerHooks || x == InviteComments
    ensures Ordered(r) && From(r, 2) && Before(r, 5)
  {
    ScaledBelow(likes, views, 100.0, 5.0);
    ScaledBelow(comments, views, 1000.0, 2.0);
    When(tagCount < 5, MoreTags) + (When(FewLikes(views, likes), StrongerHooks) + When(FewComments(views, comments), InviteComments))
  }

  lemma FromConcat(a: seq<Advice>, b: seq<Advice>, k: nat)
    requires From(a, k) && From(b, k)
    ensures From(a + b, k)
  {
    forall i | 0 <= i < |a + b|
      ensures k <= (a + b)[i].Rank()
    {
      if i >= |a| {
        assert (a + b)[i] == b[i - |a|];
      }
    }
  }

  /** The page's rules, in page order; each ratio is computed as the page
      does, likes per view in percent and comments per thousand views. */
  function Recommendations(titleLength: nat, tagCount: nat, views: nat, likes: nat, comments: nat, score: real)
    : (r: seq<Advice>)
    ensures Ordered(r)
  {
    var t := TitleAdvice(titleLength);
    var e := EngagementAdvice(tagCount, views, likes, comments);
    var s := ScoreAdvice(score);
    PrependOrdered(e, 5, s);
    FromConcat(e, s, 2);
    PrependOrdered(t, 2, e + s);
    t + (e + s)
  }

  /** Where each rule's advice lands in the list. */
  lemma RecommendationMembers(titleLength: nat, tagCount: nat, views: nat, likes: nat, comments: nat, score: real, x: Advice)
    ensures x in Recommendations(titleLength, tagCount, views, likes, comments, score) <==>
      x in TitleAdvice(titleLength) || x in EngagementAdvice(tagCount, views, likes, comments) || x in ScoreAdvice(score)
  {
  }

  /** Which title and tag advice is given. */
  lemma TitleAndTagRules(titleLength: nat, tagCount: nat, views: nat, likes: nat, comments: nat, score: real)
    ensures var r := Recommendations(titleLength, tagCount, views, likes, comments, score);
      && (LongerTitle in r <==> titleLength < 30)
      && (ShorterTitle in r <==> titleLength > 60)
      && (MoreTags in r <==> tagCount < 5)
  {
    RecommendationMembers(titleLength, tagCount, views, likes, comments, score, LongerTitle);
    RecommendationMembers(titleLength, tagCount, views, likes, comments, score, ShorterTitle);
    RecommendationMembers(titleLength, tagCount, views, likes, comments, score, MoreTags);
  }

  /** Which engagement advice is given, in whole-number terms: under 5 likes
      per 100 views, under 2 comments per 1000 views. */
  lemma EngagementRules(titleLength: nat, tagCount: nat, views: nat, likes: nat, comments: nat, score: real)
    ensures var r := Recommendations(titleLength, tagCount, views, likes, comments, score);
      && (StrongerHooks in r <==> likes * 100 < 5 * DataProcessor.Max(1, views))
      && (InviteComments in r <==> comments * 1000 < 2 * DataProcessor.Max(1, views))
  {
    RecommendationMembers(titleLength, tagCount, views, likes, comments, score, StrongerHooks);
    RecommendationMembers(titleLength, tagCount, views, likes, comments, score, InviteComments);
  }

  /** Which score advice is given: the trends and hook advice below 0.3, the
      consistency advice from 0.3 up to 0.7. */
  lemma ScoreRules(titleLength: nat, tagCount: nat, views: nat, likes: nat, comments: nat, score: real)
    ensures var r := Recommendations(titleLength, tagCount, views, likes, comments, score);
      && (StudyTrends in r <==> score < 0.3)
      && (ImproveHook in r <==> score < 0.3)
      && (PostConsistently in r <==> 0.3 <= score < 0.7)
  {
    RecommendationMembers(titleLength, tagCount, views, likes, comments, score, StudyTrends);
    RecommendationMembers(titleLength, tagCount, views, likes, comments, score, ImproveHook);
    RecommendationMembers(titleLength, tagCount, views, likes, comments, score, PostConsistently);
  }

  /** Nothing to advise, so the page congratulates instead, exactly when every rule passes. */
  lemma NoAdvice(titleLength: nat, tagCount: nat, views: nat, likes: nat, comments: nat, score: real)
    ensures Recommendations(titleLength, tagCount, views, likes, comments, score) == [] <==>
      && 30 <= titleLength <= 60 && tagCount >= 5
      && likes * 100 >= 5 * DataProcessor.Max(1, views)
      && comments * 1000 >= 2 * DataProcessor.Max(1, views)
      && score >= 0.7
  {
    TitleAndTagRules(titleLength, tagCount, views, likes, comments, score);
    EngagementRules(titleLength, tagCount, views, likes, comments, score);
    ScoreRules(titleLength, tagCount, views, likes, comments, score);
    var r := Recommendations(titleLength, tagCount, views, likes, comments, score);
    if r != [] {
      assert r[0] in r;
      match r[0]
      case LongerTitle =>
      case ShorterTitle =>
      case MoreTags =>
      case StrongerHooks =>
      case InviteComments =>
      case StudyTrends =>
      case ImproveHook =>
      case PostConsistently =>
    }
  }

  /** `a / max(1, b) * scale < bound` in whole numbers. */
  lemma ScaledBelow(a: nat, b: nat, scale: real, bound: real)
    requires scale > 0.0
    ensures DataProcessor.PerAtLeastOne(a, b) * scale < bound <==> a as real * scale < bound * DataProcessor.Max(1, b) as real
  {
    var m := DataProcessor.Max(1, b) as real;
    var q := DataProcessor.PerAtLeastOne(a, b);
    assert q * m == a as real;
    assert q * scale * m == a as real * scale;
    if q * scale < bound {
      assert q * scale * m < bound * m;
    } else {
      assert q * scale * m >= bound * m;
    }
  }

  /** The advice the page gives for one analysis: the title length and tag
      count of the record as received, its counts, and the clamped score. */
  function AdviceFor(a: Analysis): seq<Advice> {
    Recommendations(a.video.title.length, a.video.tags.count, a.video.video.viewCount,
                    a.video.video.likeCount, a.video.video.commentCount, a.prediction.score)
  }

  /** The two low-score recommendations are never given: every prediction
      scores at least 0.35, above their 0.3 threshold, and every analysis that
      `Analyze` produces carries the prediction of its own features. */
  lemma TrendAdviceUnreachable(a: Analysis)
    requires a.prediction == Model.Predict(a.features)
    ensures StudyTrends !in AdviceFor(a) && ImproveHook !in AdviceFor(a)
  {
    ScoreRules(a.video.title.length, a.video.tags.count, a.video.video.viewCount,
               a.video.video.likeCount, a.video.video.commentCount, a.prediction.score);
  }
}
