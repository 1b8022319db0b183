/** `predict_engagement` of model.py: a fixed table of rules over the feature
    record, each adding or subtracting a fixed amount from a base of 0.5 and
    possibly naming a factor; the sum is clamped to [0.1, 0.99], bucketed
    into three tiers, and the three longest factor texts are reported.
    Amounts are exact reals rather than binary doubles. */
module Model {
  import opened Wrappers
  import opened DataProcessor
  import Ranking

  const Base: real := 0.5
  const Floor: real := 0.1
  const Ceiling: real := 0.99
  const KeyFactorCount: nat := 3

  const OptimalTitle := "Optimal title length (30-50 characters)"
  const EmojiFactor := "Title contains emoji which can increase engagement"
  const QuestionFactor := "Title contains a question which can drive curiosity"
  const NumberFactor := "Title contains numbers which can increase click-through rate"
  const ManyTags := "Good number of tags (8+) for discoverability"
  const OptimalLength := "Optimal video length (15-45 seconds) for viewer retention"
  const ExcellentLikes := "Excellent like-to-view ratio (>10%)"
  const GoodLikes := "Good like-to-view ratio (>5%)"
  const ManyComments := "High comment engagement"
  const StrongVelocity := "Strong daily view velocity"
  const GoodVelocity := "Good daily view velocity"
  const NoFactors := "No standout factors detected"

  /** What one rule does to the score, and the factor it reports if any. */
  datatype Effect = Effect(delta: real, factor: Option<string>)

  const Neutral := Effect(0.0, None)

  function Gain(delta: real, text: string): Effect {
    Effect(delta, Some(text))
  }

  function Penalty(delta: real): Effect {
    Effect(-delta, None)
  }

  /** A rule reports a factor exactly when it raises the score. */
  predicate Honest(e: Effect) {
    e.factor.Some? <==> e.delta > 0.0
  }

  function TitleRule(length: nat): (e: Effect)
    ensures Honest(e) && -0.05 <= e.delta <= 0.05
    ensures e.delta > 0.0 <==> 30 <= length <= 50
    ensures e.delta < 0.0 <==> length < 20
    ensures 30 <= length <= 50 ==> e == Gain(0.05, OptimalTitle)
    ensures length < 20 ==> e == Penalty(0.05)
  {
    if 30 <= length <= 50 then Gain(0.05, OptimalTitle)
    else if length < 20 then Penalty(0.05)
    else Neutral
  }

  /** A 0/1 feature used as a truth value. */
  function FlagRule(flag: nat, delta: real, text: string): (e: Effect)
    requires delta > 0.0
    ensures Honest(e) && 0.0 <= e.delta <= delta
    ensures e.delta > 0.0 <==> flag != 0
    ensures flag != 0 ==> e == Gain(delta, text)
    ensures flag == 0 ==> e == Neutral
  {
    if flag != 0 then Gain(delta, text) else Neutral
  }

  function TagRule(count: nat): (e: Effect)
    ensures Honest(e) && -0.05 <= e.delta <= 0.05
    ensures e.delta > 0.0 <==> count >= 8
    ensures e.delta < 0.0 <==> count <= 3
    ensures count >= 8 ==> e == Gain(0.05, ManyTags)
    ensures count <= 3 ==> e == Penalty(0.05)
  {
    if count >= 8 then Gain(0.05, ManyTags)
    else if count <= 3 then Penalty(0.05)
    else Neutral
  }

  function DurationRule(seconds: nat): (e: Effect)
    ensures Honest(e) && -0.05 <= e.delta <= 0.1
    ensures e.delta > 0.0 <==> 15 <= seconds <= 45
    ensures e.delta < 0.0 <==> seconds > 55
    ensures 15 <= seconds <= 45 ==> e == Gain(0.1, OptimalLength)
    ensures seconds > 55 ==> e == Penalty(0.05)
  {
    if 15 <= seconds <= 45 then Gain(0.1, OptimalLength)
    else if seconds > 55 then Penalty(0.05)
    else Neutral
  }

  function LikeRule(ratio: real): (e: Effect)
    ensures Honest(e) && 0.0 <= e.delta <= 0.15
    ensures e.delta > 0.0 <==> ratio > 0.05
    ensures ratio > 0.1 ==> e == Gain(0.15, ExcellentLikes)
    ensures 0.05 < ratio <= 0.1 ==> e == Gain(0.08, GoodLikes)
  {
    if ratio > 0.1 then Gain(0.15, ExcellentLikes)
    else if ratio > 0.05 then Gain(0.08, GoodLikes)
    else Neutral
  }

  function CommentRule(ratio: real): (e: Effect)
    ensures Honest(e) && 0.0 <= e.delta <= 0.1
    ensures e.delta > 0.0 <==> ratio > 0.01
    ensures ratio > 0.01 ==> e == Gain(0.1, ManyComments)
  {
    if ratio > 0.01 then Gain(0.1, ManyComments) else Neutral
  }

  function VelocityRule(viewsPerDay: real): (e: Effect)
    ensures Honest(e) && 0.0 <= e.delta <= 0.15
    ensures e.delta > 0.0 <==> viewsPerDay > 1000.0
    ensures viewsPerDay > 10000.0 ==> e == Gain(0.15, StrongVelocity)
    ensures 1000.0 < viewsPerDay <= 10000.0 ==> e == Gain(0.05, GoodVelocity)
  {
    if viewsPerDay > 10000.0 then Gain(0.15, StrongVelocity)
    else if viewsPerDay > 1000.0 then Gain(0.05, GoodVelocity)
    else Neutral
  }

  /** The nine rule outcomes, in the order the scorer evaluates them. */
  datatype Outcomes = Outcomes(
    title: Effect, emoji: Effect, question: Effect, number: Effect, tags: Effect,
    duration: Effect, likes: Effect, comments: Effect, velocity: Effect)
  {
    predicate AllHonest() {
      && Honest(title) && Honest(emoji) && Honest(question) && Honest(number) && Honest(tags)
      && Honest(duration) && Honest(likes) && Honest(comments) && Honest(velocity)
    }

    /** The adjustments of the four title rules. */
    function TitleTotal(): real {
      title.delta + emoji.delta + question.delta + number.delta
    }

    /** The adjustments of the five tag, duration and audience rules. */
    function AudienceTotal(): real {
      tags.delta + duration.delta + likes.delta + comments.delta + velocity.delta
    }

    /** The sum of the nine adjustments. */
    function Total(): real {
      TitleTotal() + AudienceTotal()
    }

    function TitleEmitted(): seq<string> {
      Reported(title) + Reported(emoji) + Reported(question) + Reported(number)
    }

    function AudienceEmitted(): seq<string> {
      Reported(tags) + Reported(duration) + Reported(likes) + Reported(comments) + Reported(velocity)
    }

    /** The reported factors, in evaluation order. */
    function Emitted(): seq<string> {
      TitleEmitted() + AudienceEmitted()
    }

    /** A text is reported exactly when one of the nine rules reports it. */
    lemma EmittedMembers(x: string)
      ensures x in Emitted() <==> (
        || x in Reported(title) || x in Reported(emoji) || x in Reported(question)
        || x in Reported(number) || x in Reported(tags) || x in Reported(duration)
        || x in Reported(likes) || x in Reported(comments) || x in Reported(velocity))
    {
    }
  }

  function Rules(f: Features): (o: Outcomes)
    ensures o.AllHonest()
    ensures -0.15 <= o.Total() <= 0.68
  {
    Outcomes(
      TitleRule(f.titleLength),
      FlagRule(f.hasEmoji, 0.03, EmojiFactor),
      FlagRule(f.hasQuestion, 0.03, QuestionFactor),
      FlagRule(f.hasNumber, 0.02, NumberFactor),
      TagRule(f.tagCount),
      DurationRule(f.durationSeconds),
      LikeRule(f.likeViewRatio),
      CommentRule(f.commentViewRatio),
      VelocityRule(f.viewsPerDay))
  }

  /** The factor a rule reports, as a list of zero or one texts. */
  function Reported(e: Effect): (r: seq<string>)
    ensures |r| <= 1
  {
    if e.factor.Some? then [e.factor.value] else []
  }

  /** `max(0.1, min(score, 0.99))` */
  function Clamp(x: real): (r: real)
    ensures Floor <= r <= Ceiling
    ensures Floor <= x <= Ceiling ==> r == x
    ensures x > Ceiling ==> r == Ceiling
    ensures x < Floor ==> r == Floor
  {
    if x > Ceiling then Ceiling else if x < Floor then Floor else x
  }

  /** The three explanation texts. */
  datatype Tier = High | Moderate | Low {
    function Explanation(): string {
      match this
      case High => "This video shows high viral potential! It has strong engagement metrics and follows best practices."
      case Moderate => "This video has moderate viral potential with decent engagement. Some aspects could be improved."
      case Low => "This video has lower viral potential. Consider improving key factors to boost engagement."
    }
  }

  function TierOf(score: real): (t: Tier)
    ensures t == High <==> score > 0.7
    ensures t == Moderate <==> 0.5 < score <= 0.7
    ensures t == Low <==> score <= 0.5
  {
    if score > 0.7 then High else if score > 0.5 then Moderate else Low
  }

  /** The three longest factors, ties kept in evaluation order; a sentinel when none fired. */
  function KeyFactors(factors: seq<string>): (r: seq<string>)
    ensures factors == [] ==> r == [NoFactors]
    ensures factors != [] ==> 1 <= |r| <= KeyFactorCount && (|r| == KeyFactorCount || |r| == |factors|)
    ensures factors != [] ==> multiset(r) <= multiset(factors)
    ensures factors != [] ==> forall y, x :: y in r && x in multiset(factors) - multiset(r) ==> |y| >= |x|
    ensures factors != [] ==> Ranking.Descending(r)
  {
    if factors == [] then [NoFactors] else Ranking.Top(factors, KeyFactorCount)
  }

  /** Among the reported factors of any one length, the key factors are the
      first ones in evaluation order. */
  lemma KeyFactorsStable(factors: seq<string>, n: nat)
    requires factors != []
    ensures Ranking.IsPrefix(Ranking.OfLength(KeyFactors(factors), n), Ranking.OfLength(factors, n))
  {
    Ranking.TopStable(factors, KeyFactorCount, n);
  }

  datatype Prediction = Prediction(score: real, tier: Tier, keyFactors: seq<string>) {
    function Explanation(): string {
      tier.Explanation()
    }
  }

  /** The rule table's prediction. */
  function Predict(f: Features): (p: Prediction)
    ensures 0.35 <= p.score <= Ceiling
    ensures p.tier == High <==> p.score > 0.7
    ensures p.tier == Moderate <==> 0.5 < p.score <= 0.7
    ensures p.tier == Low <==> p.score <= 0.5
  {
    var score := Clamp(Base + Rules(f).Total());
    Prediction(score, TierOf(score), KeyFactors(Rules(f).Emitted()))
  }

  /** One rule block of the scorer: the running score and factor list move
      by exactly the rule's effect. */
  predicate Stepped(score: real, factors: seq<string>, e: Effect, score': real, factors': seq<string>) {
    score' == score + e.delta && factors' == factors + Reported(e)
  }

  method ScoreTitle(length: nat, score: real, factors: seq<string>) returns (score': real, factors': seq<string>)
    ensures Stepped(score, factors, TitleRule(length), score', factors')
  {
    score', factors' := score, factors;
    if 30 <= length <= 50 {
      score' := score' + 0.05;
      factors' := factors' + [OptimalTitle];
    } else if length < 20 {
      score' := score' - 0.05;
    }
  }

  method ScoreFlag(flag: nat, delta: real, text: string, score: real, factors: seq<string>)
    returns (score': real, factors': seq<string>)
    requires delta > 0.0
    ensures Stepped(score, factors, FlagRule(flag, delta, text), score', factors')
  {
    score', factors' := score, factors;
    if flag != 0 {
      score' := score' + delta;
      factors' := factors' + [text];
    }
  }

  method ScoreTags(count: nat, score: real, factors: seq<string>) returns (score': real, factors': seq<string>)
    ensures Stepped(score, factors, TagRule(count), score', factors')
  {
    score', factors' := score, factors;
    if count >= 8 {
      score' := score' + 0.05;
      factors' := factors' + [ManyTags];
    } else if count <= 3 {
      score' := score' - 0.05;
    }
  }

  method ScoreDuration(seconds: nat, score: real, factors: seq<string>) returns (score': real, factors': seq<string>)
    ensures Stepped(score, factors, DurationRule(seconds), score', factors')
  {
    score', factors' := score, factors;
    if 15 <= seconds <= 45 {
      score' := score' + 0.1;
      factors' := factors' + [OptimalLength];
    } else if seconds > 55 {
      score' := score' - 0.05;
    }
  }

  method ScoreLikes(ratio: real, score: real, factors: seq<string>) returns (score': real, factors': seq<string>)
    ensures Stepped(score, factors, LikeRule(ratio), score', factors')
  {
    score', factors' := score, factors;
    if ratio > 0.1 {
      score' := score' + 0.15;
      factors' := factors' + [ExcellentLikes];
    } else if ratio > 0.05 {
      score' := score' + 0.08;
      factors' := factors' + [GoodLikes];
    }
  }

  method ScoreComments(ratio: real, score: real, factors: seq<string>) returns (score': real, factors': seq<string>)
    ensures Stepped(score, factors, CommentRule(ratio), score', factors')
  {
    score', factors' := score, factors;
    if ratio > 0.01 {
      score' := score' + 0.1;
      factors' := factors' + [ManyComments];
    }
  }

  method ScoreVelocity(viewsPerDay: real, score: real, factors: seq<string>) returns (score': real, factors': seq<string>)
    ensures Stepped(score, factors, VelocityRule(viewsPerDay), score', factors')
  {
    score', factors' := score, factors;
    if viewsPerDay > 10000.0 {
      score' := score' + 0.15;
      factors' := factors' + [StrongVelocity];
    } else if viewsPerDay > 1000.0 {
      score' := score' + 0.05;
      factors' := factors' + [GoodVelocity];
    }
  }

  /** The end of the scorer: clamp, pick the explanation, pick the key factors. */
  method Conclude(raw: real, factors: seq<string>) returns (p: Prediction)
    ensures Floor <= p.score <= Ceiling
    ensures Floor <= raw <= Ceiling ==> p.score == raw
    ensures raw > Ceiling ==> p.score == Ceiling
    ensures raw < Floor ==> p.score == Floor
    ensures p.tier == High <==> p.score > 0.7
    ensures p.tier == Moderate <==> 0.5 < p.score <= 0.7
    ensures p.tier == Low <==> p.score <= 0.5
    ensures p.keyFactors == KeyFactors(factors)
  {
    var score := if raw > Ceiling then Ceiling else if raw < Floor then Floor else raw;
    var tier := if score > 0.7 then High else if score > 0.5 then Moderate else Low;
    var keyFactors := if factors != [] then Ranking.Top(factors, KeyFactorCount) else [NoFactors];
    p := Prediction(score, tier, keyFactors);
  }

  /** The four title rule blocks. */
  method ScoreTitleRules(f: Features, score: real, factors: seq<string>) returns (score': real, factors': seq<string>)
    ensures score' == score + Rules(f).TitleTotal()
    ensures factors' == factors + Rules(f).TitleEmitted()
  {
    var o := Rules(f);
    var s1, f1 := ScoreTitle(f.titleLength, score, factors);
    var s2, f2 := ScoreFlag(f.hasEmoji, 0.03, EmojiFactor, s1, f1);
    var s3, f3 := ScoreFlag(f.hasQuestion, 0.03, QuestionFactor, s2, f2);
    score', factors' := ScoreFlag(f.hasNumber, 0.02, NumberFactor, s3, f3);
    assert factors' == factors + (Reported(o.title) + Reported(o.emoji) + Reported(o.question) + Reported(o.number));
  }

  /** The tag, duration, like, comment and velocity rule blocks. */
  method ScoreAudienceRules(f: Features, score: real, factors: seq<string>) returns (score': real, factors': seq<string>)
    ensures score' == score + Rules(f).AudienceTotal()
    ensures factors' == factors + Rules(f).AudienceEmitted()
  {
    var o := Rules(f);
    var s6, f6 := ScoreMediaRules(f, score, factors);
    score', factors' := ScoreEngagementRules(f, s6, f6);
    assert factors' == factors + (Reported(o.tags) + Reported(o.duration) + Reported(o.likes)
      + Reported(o.comments) + Reported(o.velocity));
  }

  /** The tag and duration blocks. */
  method ScoreMediaRules(f: Features, score: real, factors: seq<string>) returns (score': real, factors': seq<string>)
    ensures score' == score + (Rules(f).tags.delta + Rules(f).duration.delta)
    ensures factors' == factors + (Reported(Rules(f).tags) + Reported(Rules(f).duration))
  {
    var s5, f5 := ScoreTags(f.tagCount, score, factors);
    score', factors' := ScoreDuration(f.durationSeconds, s5, f5);
  }

  /** The like, comment and velocity blocks. */
  method ScoreEngagementRules(f: Features, score: real, factors: seq<string>) returns (score': real, factors': seq<string>)
    ensures score' == score + (Rules(f).likes.delta + Rules(f).comments.delta + Rules(f).velocity.delta)
    ensures factors' == factors + (Reported(Rules(f).likes) + Reported(Rules(f).comments) + Reported(Rules(f).velocity))
  {
    var s7, f7 := ScoreLikes(f.likeViewRatio, score, factors);
    var s8, f8 := ScoreComments(f.commentViewRatio, s7, f7);
    score', factors' := ScoreVelocity(f.viewsPerDay, s8, f8);
  }

  /** All nine rule blocks from the base score and an empty factor list. */
  method ScoreRules(f: Features) returns (score: real, factors: seq<string>)
    ensures score == Base + Rules(f).Total()
    ensures factors == Rules(f).Emitted()
  {
    var s, fs := ScoreTitleRules(f, Base, []);
    score, factors := ScoreAudienceRules(f, s, fs);
    assert [] + Rules(f).TitleEmitted() == Rules(f).TitleEmitted();
  }

  /** The scorer as written: one running score and one running factor list,
      updated rule block by rule block; it agrees with the rule table. */
  method PredictEngagement(f: Features) returns (p: Prediction)
    ensures p == Predict(f)
  {
    var score, factors := ScoreRules(f);
    p := Conclude(score, factors);
    var q := Predict(f);
    assert p.score == q.score;
    assert p.tier == q.tier;
    assert p.keyFactors == q.keyFactors;
  }

  /** The lowest the rules can take the score is 0.35, so the clamp's floor of
      0.1 never binds and every score is at least 0.35; the ceiling does bind. */
  lemma FloorNeverBinds(f: Features)
    ensures Base + Rules(f).Total() >= 0.35
    ensures Predict(f).score >= 0.35
  {
  }

  /** Every factor text is distinct, so each is reported exactly when its rule's
      condition holds; the two like tiers and the two velocity tiers exclude
      each other. */
  lemma TitleFactors(f: Features)
    ensures OptimalTitle in Rules(f).Emitted() <==> 30 <= f.titleLength <= 50
    ensures EmojiFactor in Rules(f).Emitted() <==> f.hasEmoji != 0
    ensures QuestionFactor in Rules(f).Emitted() <==> f.hasQuestion != 0
    ensures NumberFactor in Rules(f).Emitted() <==> f.hasNumber != 0
  {
    var o := Rules(f);
    o.EmittedMembers(OptimalTitle);
    o.EmittedMembers(EmojiFactor);
    o.EmittedMembers(QuestionFactor);
    o.EmittedMembers(NumberFactor);
  }

  lemma MediaFactors(f: Features)
    ensures ManyTags in Rules(f).Emitted() <==> f.tagCount >= 8
    ensures OptimalLength in Rules(f).Emitted() <==> 15 <= f.durationSeconds <= 45
    ensures ManyComments in Rules(f).Emitted() <==> f.commentViewRatio > 0.01
  {
    var o := Rules(f);
    o.EmittedMembers(ManyTags);
    o.EmittedMembers(OptimalLength);
    o.EmittedMembers(ManyComments);
  }

  lemma TieredFactors(f: Features)
    ensures ExcellentLikes in Rules(f).Emitted() <==> f.likeViewRatio > 0.1
    ensures GoodLikes in Rules(f).Emitted() <==> 0.05 < f.likeViewRatio <= 0.1
    ensures StrongVelocity in Rules(f).Emitted() <==> f.viewsPerDay > 10000.0
    ensures GoodVelocity in Rules(f).Emitted() <==> 1000.0 < f.viewsPerDay <= 10000.0
  {
    var o := Rules(f);
    o.EmittedMembers(ExcellentLikes);
    o.EmittedMembers(GoodLikes);
    o.EmittedMembers(StrongVelocity);
    o.EmittedMembers(GoodVelocity);
  }

  /** Only two factor texts reach 57 characters: the duration factor and the
      number factor. */
  lemma LongFactor(f: Features, x: string)
    requires x in Rules(f).Emitted() && |x| >= 57
    ensures x == OptimalLength || (x == NumberFactor && f.hasNumber != 0)
  {
    var o := Rules(f);
    o.EmittedMembers(x);
    if x in Reported(o.title) {
      assert false;
    } else if x in Reported(o.emoji) {
      assert false;
    } else if x in Reported(o.question) {
      assert false;
    } else if x in Reported(o.number) {
    } else if x in Reported(o.tags) {
      assert false;
    } else if x in Reported(o.duration) {
    } else if x in Reported(o.likes) {
      assert false;
    } else if x in Reported(o.comments) {
      assert false;
    } else {
      assert false;
    }
  }

  /** A factor list in which the duration factor is the only text of 57 or more characters. */
  lemma DurationLeadsList(e: seq<string>)
    requires OptimalLength in e
    requires forall x :: x in e && |x| >= 57 ==> x == OptimalLength
    ensures KeyFactors(e)[0] == OptimalLength
  {
    Ranking.TopLongest(e, KeyFactorCount);
    assert |OptimalLength| == 57;
  }

  /** The duration factor is the second-longest factor text, after the number
      factor: whenever it fires and the number factor does not, it leads the key
      factors. */
  lemma DurationFactorLeads(f: Features)
    requires 15 <= f.durationSeconds <= 45 && f.hasNumber == 0
    ensures Predict(f).keyFactors[0] == OptimalLength
  {
    var e := Rules(f).Emitted();
    MediaFactors(f);
    forall x | x in e && |x| >= 57
      ensures x == OptimalLength
    {
      LongFactor(f, x);
    }
    DurationLeadsList(e);
  }

  /** A video with a 25-character title holding a question and an emoji, 9 tags,
      30 seconds long, a 12% like ratio, a 1.2% comment ratio and 25,000 views a
      day fires seven factors and scores 1.11 before the cap. */
  lemma ViralExampleRules(f: Features)
    requires f.titleLength == 25 && f.hasEmoji == 1 && f.hasQuestion == 1 && f.hasNumber == 0
    requires f.tagCount == 9 && f.durationSeconds == 30
    requires f.likeViewRatio == 0.12 && f.commentViewRatio == 0.012 && f.viewsPerDay == 25000.0
    ensures Rules(f).Emitted()
      == [EmojiFactor, QuestionFactor, ManyTags, OptimalLength, ExcellentLikes, ManyComments, StrongVelocity]
    ensures Base + Rules(f).Total() == 1.11
  {
    var o := Rules(f);
    assert o.TitleEmitted() == [EmojiFactor, QuestionFactor];
    assert o.AudienceEmitted() == [ManyTags, OptimalLength, ExcellentLikes, ManyComments, StrongVelocity];
  }

  /** The same video: the score is capped at 0.99, the explanation is the high
      tier, and the duration factor leads the key factors. */
  lemma ViralExample(f: Features)
    requires f.titleLength == 25 && f.hasEmoji == 1 && f.hasQuestion == 1 && f.hasNumber == 0
    requires f.tagCount == 9 && f.durationSeconds == 30
    requires f.likeViewRatio == 0.12 && f.commentViewRatio == 0.012 && f.viewsPerDay == 25000.0
    ensures Predict(f).score == 0.99 && Predict(f).tier == High
    ensures Predict(f).keyFactors[0] == OptimalLength
  {
    ViralExampleRules(f);
    DurationFactorLeads(f);
  }
}
