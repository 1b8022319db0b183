/** `process_video_data` and `extract_features` of data_processor.py. Counts
    are exact; Python's float division is modelled as exact real division. */
module DataProcessor {
  import opened Wrappers
  import opened Chars
  import opened TextClean
  import Duration

  /** The record `get_video_data` builds from the provider's response. The fetcher
      substitutes `[]` for missing tags, so the tag list is always a list here. */
  datatype RawVideo = RawVideo(
    videoId: string,
    title: string,
    description: string,
    publishedAt: string,
    channelId: string,
    channelTitle: string,
    tags: seq<string>,
    categoryId: string,
    thumbnailUrl: string,
    duration: string,
    viewCount: nat,
    likeCount: nat,
    commentCount: nat,
    isShorts: bool)

  /** Measurements of the title. The cleaned title is stored for display; every
      measurement is taken on the title as received. */
  datatype TitleStats = TitleStats(
    cleanTitle: string,
    length: nat,
    wordCount: nat,
    hasQuestion: bool,
    hasExclamation: bool,
    hasNumber: bool,
    hasEmoji: bool)

  /** Tag count, total length and mean length. */
  datatype TagStats = TagStats(count: nat, totalLength: nat, avgLength: real)

  /** Engagement ratios against views and per-day rates. */
  datatype Rates = Rates(
    likeViewRatio: real,
    commentViewRatio: real,
    viewsPerDay: real,
    likesPerDay: real,
    commentsPerDay: real)

  /** The input record plus every derived field. */
  datatype Processed = Processed(
    video: RawVideo,
    title: TitleStats,
    tags: TagStats,
    daysSincePublished: nat,
    rates: Rates,
    durationSeconds: nat)

  const SecondsPerDay: nat := 86400

  function Max(a: int, b: int): int {
    if a >= b then a else b
  }

  /** `a / max(1, b)` as an exact quotient. */
  function PerAtLeastOne(a: nat, b: nat): (r: real)
    ensures r >= 0.0
    ensures r * Max(1, b) as real == a as real
  {
    a as real / Max(1, b) as real
  }

  /** `q` is `count` per `divisor`: the quotient times the divisor gives the count back. */
  predicate Per(q: real, count: nat, divisor: int) {
    q * divisor as real == count as real
  }

  /** `d` whole days fit into `elapsed` seconds and `d + 1` do not. */
  predicate WholeDays(d: nat, elapsed: int) {
    d * SecondsPerDay <= elapsed < (d + 1) * SecondsPerDay
  }

  /** `max(1, (now - published).days)`: `timedelta.days` floors, so a timestamp
      in the future gives a negative day count, which the floor of 1 absorbs.
      `elapsedSeconds` is the elapsed time in whole seconds, rounded down. */
  function DaysLive(elapsedSeconds: int): (d: nat)
    ensures d >= 1
    ensures d == 1 <==> elapsedSeconds < 2 * SecondsPerDay
    ensures d > 1 ==> WholeDays(d, elapsedSeconds)
  {
    var days := elapsedSeconds / SecondsPerDay;
    if days >= 1 then days else 1
  }

  predicate HasDigit(s: string) {
    exists i :: 0 <= i < |s| && IsDigit(s[i])
  }

  /** The title features of `process_video_data`. */
  function AnalyzeTitle(title: string): (s: TitleStats)
    ensures s.cleanTitle == CleanText(title)
    ensures s.length == |title| && s.wordCount == |Words(title)|
    ensures s.hasQuestion <==> '?' in title
    ensures s.hasExclamation <==> '!' in title
    ensures s.hasNumber <==> exists i :: 0 <= i < |title| && IsDigit(title[i])
    ensures s.hasEmoji <==> RemoveEmoji(title) != title
  {
    TitleStats(CleanText(title), |title|, |Words(title)|, '?' in title, '!' in title,
               HasDigit(title), ContainsEmoji(title))
  }

  /** `sum(len(tag) for tag in tags)` */
  function TotalLength(tags: seq<string>): (n: nat)
    ensures tags == [] ==> n == 0
    ensures |tags| == 1 ==> n == |tags[0]|
    ensures forall k :: 0 <= k < |tags| ==> |tags[k]| <= n
  {
    if tags == [] then 0 else TotalLength(tags[..|tags| - 1]) + |tags[|tags| - 1]|
  }

  /** The total over two lists of tags is the sum of their totals. */
  lemma {:induction false} TotalLengthConcat(a: seq<string>, b: seq<string>)
    ensures TotalLength(a + b) == TotalLength(a) + TotalLength(b)
    decreases |b|
  {
    if b != [] {
      var b' := b[..|b| - 1];
      assert (a + b)[..|a + b| - 1] == a + b';
      TotalLengthConcat(a, b');
    } else {
      assert a + b == a;
    }
  }

  /** The tag features: an empty list gives zeros, otherwise the mean tag length. */
  function AnalyzeTags(tags: seq<string>): (s: TagStats)
    ensures s.count == |tags| && s.totalLength == TotalLength(tags)
    ensures tags == [] ==> s.avgLength == 0.0
    ensures s.avgLength >= 0.0
    ensures tags != [] ==> Per(s.avgLength, s.totalLength, |tags|)
  {
    if tags == [] then TagStats(0, 0, 0.0)
    else TagStats(|tags|, TotalLength(tags), PerAtLeastOne(TotalLength(tags), |tags|))
  }

  /** The engagement features: ratios against `max(1, views)` and rates per day live. */
  function RatesOf(views: nat, likes: nat, comments: nat, days: nat): (r: Rates)
    requires days >= 1
    ensures r.likeViewRatio >= 0.0 && r.commentViewRatio >= 0.0 && r.viewsPerDay >= 0.0
    ensures Per(r.likeViewRatio, likes, Max(1, views)) && Per(r.commentViewRatio, comments, Max(1, views))
    ensures Per(r.viewsPerDay, views, days) && Per(r.likesPerDay, likes, days) && Per(r.commentsPerDay, comments, days)
  {
    Rates(PerAtLeastOne(likes, views), PerAtLeastOne(comments, views),
          PerAtLeastOne(views, days), PerAtLeastOne(likes, days), PerAtLeastOne(comments, days))
  }

  /** `process_video_data` with the clock read replaced by the elapsed seconds
      since publication: the title, tag and engagement features are those of
      the parts above, computed on the record as received. */
  function ProcessVideoData(v: RawVideo, elapsedSeconds: int): (p: Processed)
    ensures p.video == v
    ensures p.title.cleanTitle == CleanText(v.title)
    ensures p.title.length == |v.title| && p.title.wordCount == |Words(v.title)|
    ensures p.title.hasQuestion <==> '?' in v.title
    ensures p.title.hasExclamation <==> '!' in v.title
    ensures p.title.hasNumber <==> exists i :: 0 <= i < |v.title| && IsDigit(v.title[i])
    ensures p.title.hasEmoji <==> RemoveEmoji(v.title) != v.title
    ensures p.tags.count == |v.tags| && p.tags.totalLength == TotalLength(v.tags)
    ensures v.tags == [] ==> p.tags.avgLength == 0.0
    ensures v.tags != [] ==> Per(p.tags.avgLength, p.tags.totalLength, |v.tags|)
    ensures p.daysSincePublished >= 1
    ensures p.daysSincePublished == 1 <==> elapsedSeconds < 2 * SecondsPerDay
    ensures p.daysSincePublished > 1 ==> WholeDays(p.daysSincePublished, elapsedSeconds)
    ensures Per(p.rates.likeViewRatio, v.likeCount, Max(1, v.viewCount))
    ensures Per(p.rates.commentViewRatio, v.commentCount, Max(1, v.viewCount))
    ensures Per(p.rates.viewsPerDay, v.viewCount, p.daysSincePublished)
    ensures Per(p.rates.likesPerDay, v.likeCount, p.daysSincePublished)
    ensures Per(p.rates.commentsPerDay, v.commentCount, p.daysSincePublished)
    ensures !Duration.HasPrefixPT(v.duration) ==> p.durationSeconds == 0
    ensures Duration.HasPrefixPT(v.duration) ==> Duration.MatchDuration(v.duration) == Some(p.durationSeconds)
  {
    var days := DaysLive(elapsedSeconds);
    var title := AnalyzeTitle(v.title);
    var tags := AnalyzeTags(v.tags);
    var rates := RatesOf(v.viewCount, v.likeCount, v.commentCount, days);
    Processed(v, title, tags, days, rates, Duration.DurationSeconds(v.duration))
  }

  /** The 13 features, one field per key of the feature dictionary; the
      booleans are stored as 0 or 1. */
  datatype Features = Features(
    titleLength: nat,
    titleWordCount: nat,
    hasQuestion: nat,
    hasExclamation: nat,
    hasNumber: nat,
    hasEmoji: nat,
    tagCount: nat,
    avgTagLength: real,
    durationSeconds: nat,
    likeViewRatio: real,
    commentViewRatio: real,
    viewsPerDay: real,
    daysSincePublished: nat)

  const MaxViewsPerDay: real := 1_000_000.0

  const MaxDays: nat := 30

  /** `int(b)` */
  function Bit(b: bool): (n: nat)
    ensures n <= 1 && (n == 1 <==> b)
  {
    if b then 1 else 0
  }

  /** `extract_features`: every field copied, the flags as 0/1, views per day
      capped at a million and days live capped at 30. */
  function ExtractFeatures(p: Processed): (f: Features)
    ensures f.hasQuestion <= 1 && (f.hasQuestion == 1 <==> p.title.hasQuestion)
    ensures f.hasExclamation <= 1 && (f.hasExclamation == 1 <==> p.title.hasExclamation)
    ensures f.hasNumber <= 1 && (f.hasNumber == 1 <==> p.title.hasNumber)
    ensures f.hasEmoji <= 1 && (f.hasEmoji == 1 <==> p.title.hasEmoji)
    ensures f.viewsPerDay <= MaxViewsPerDay
    ensures f.viewsPerDay == p.rates.viewsPerDay
         || (f.viewsPerDay == MaxViewsPerDay && p.rates.viewsPerDay > MaxViewsPerDay)
    ensures f.daysSincePublished <= MaxDays
    ensures f.daysSincePublished == p.daysSincePublished
         || (f.daysSincePublished == MaxDays && p.daysSincePublished > MaxDays)
    ensures f.titleLength == p.title.length && f.titleWordCount == p.title.wordCount
    ensures f.tagCount == p.tags.count && f.avgTagLength == p.tags.avgLength
    ensures f.durationSeconds == p.durationSeconds
    ensures f.likeViewRatio == p.rates.likeViewRatio && f.commentViewRatio == p.rates.commentViewRatio
  {
    Features(
      p.title.length,
      p.title.wordCount,
      Bit(p.title.hasQuestion),
      Bit(p.title.hasExclamation),
      Bit(p.title.hasNumber),
      Bit(p.title.hasEmoji),
      p.tags.count,
      p.tags.avgLength,
      p.durationSeconds,
      p.rates.likeViewRatio,
      p.rates.commentViewRatio,
      if p.rates.viewsPerDay <= MaxViewsPerDay then p.rates.viewsPerDay else MaxViewsPerDay,
      if p.daysSincePublished <= MaxDays then p.daysSincePublished else MaxDays)
  }

  /** Whitespace only. */
  predicate Blank(s: string) {
    forall i :: 0 <= i < |s| ==> IsSpace(s[i])
  }

  /** A word padded by whitespace on both sides splits to the word alone. */
  lemma PaddedWords(pad: string, w: string)
    requires pad != [] && Blank(pad) && IsWord(w)
    ensures Words(pad + (w + pad)) == [w]
  {
    LeadingPad(pad, w);
    TrailingPad(pad, w);
  }

  lemma LeadingPad(pad: string, w: string)
    requires Blank(pad) && IsWord(w)
    ensures Words(pad + (w + pad)) == Words(w + pad)
  {
    assert (w + pad)[0] == w[0];
    DropPadding(pad, w + pad);
    WordsSkipSpaces(pad + (w + pad));
  }

  lemma TrailingPad(pad: string, w: string)
    requires pad != [] && Blank(pad) && IsWord(w)
    ensures Words(w + pad) == [w]
  {
    WordThenRest(w, pad);
    SpaceRun(pad);
    assert [w] + [] == [w];
  }

  /** The title measurements see the original title: a word padded by
      whitespace is measured with its padding, cleaned to the bare word, and
      counted as one word. */
  lemma PaddedTitle(pad: string, w: string)
    requires pad != [] && Blank(pad) && IsWord(w) && NoEmoji(pad + (w + pad))
    ensures var s := AnalyzeTitle(pad + (w + pad));
      && s.length == |w| + 2 * |pad|
      && s.cleanTitle == w
      && s.wordCount == 1
  {
    var t := pad + (w + pad);
    assert RemoveEmoji(t) == t;
    PaddedWords(pad, w);
    assert JoinWords([w]) == w;
  }

  /** The features stay in range whatever the record, and days live stays in 1..30. */
  lemma FeaturesInRange(v: RawVideo, elapsedSeconds: int)
    ensures var f := ExtractFeatures(ProcessVideoData(v, elapsedSeconds));
      && 1 <= f.daysSincePublished <= MaxDays
      && 0.0 <= f.viewsPerDay <= MaxViewsPerDay
      && f.likeViewRatio >= 0.0 && f.commentViewRatio >= 0.0 && f.avgTagLength >= 0.0
  {
  }
}
