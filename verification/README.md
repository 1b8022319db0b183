# YouTube Shorts analyzer — a Dafny model of its core

The analyzer takes the link to a YouTube Short and works through these steps:

1. Check the link against three accepted shapes and extract the 11-character video id.
2. Fetch the video's record from the provider.
3. Derive title, tag, engagement, age and duration measurements.
4. Reduce them to a 13-field feature record.
5. Score the record with a fixed table of rules. The result is a score clamped to [0.1, 0.99], a three-tier explanation and up to three "key factors".
6. Show the video against the current trending shorts, as four percentage bars and a one-line verdict.
7. List improvement advice.
8. Add the video to a five-card "recently analysed" strip.

This project models those steps as pure Dafny functions, with methods where the source runs a loop. It proves what the steps promise:

- Links: the link check and the id extractor accept exactly the same texts. Extraction inverts the rendering of a well-formed link.
- Durations: the duration reader inverts the ISO 8601 writer.
- Text: the text cleaner's output has no emoji, no padding and single spaces, and cleaning twice changes nothing.
- Scoring:
  - the step-by-step scorer agrees with the rule table;
  - every score is at least 0.35;
  - each factor is reported exactly when its rule fires;
  - the key factors are the longest ones; among equally long ones, the first reported.
- Trending filter: it keeps the shorts in response order up to the cap.
- Comparison: each bar tops 100% exactly when the video beats the floored peer average.
- Advice: each piece is given exactly when its rule's threshold is crossed.
- History: the strip never holds more than five cards, and never the same video twice.

Modules, one per concern:

- `Wrappers`: `Option`.
- `Chars`: character classes and ASCII lower-casing.
- `Decimal`: `str`/`int` on integers.
- `Utils`: links and `format_number`.
- `TextClean`: emoji removal, whitespace splitting, `clean_text`.
- `Duration`: the `PT…` reader.
- `YouTubeApi`: `is_shorts` and the trending filter.
- `DataProcessor`: `process_video_data` and `extract_features`.
- `Ranking`: the stable longest-first sort.
- `Model`: `predict_engagement`.
- `App`: analyse step, history, comparison and recommendations.

Behaviour of the code as written that is easy to misread; the model follows it:

- **Link tails.** The three patterns accept a tail after the id only when it starts with `?` for the `/shorts/` and `youtu.be` shapes, and with `&` for the `watch?v=` shape; any other tail, such as a further path segment, is rejected. The regexes are anchored only by `re.match` and `$`, so a link may end with one newline, and the tail may not contain a newline anywhere else.
- **Duration reader.** The `PT…` regex is anchored at the start only. "PT" with no parts matches and reads as 0 seconds, so `is_shorts` counts it as short. Text after the parts is ignored. A text without the "PT" prefix does not match: `process_video_data` then reads it as 0 seconds, and `is_shorts` falls through to the hashtag test.
- **Title measurements.** `process_video_data` takes the title length, word count and flags from the title as received, not from the cleaned title, which it only stores.
- **Score floor.** The clamp in `predict_engagement` has a floor of 0.1, but every rule combination leaves the raw score at 0.35 or more, so the floor never applies. The page's "score below 0.3" advice can therefore never be shown (`App.TrendAdviceUnreachable`).
- **Emoji class.** The emoji character class ends with the range U+24C2..U+1F251. That range swallows the CJK, Hangul and ideographic-space blocks, and `TextClean.EmojiIntervals` states it. The model keeps the class as written.

## Model

| member | source | states |
|---|---|---|
| Utils.MatchShape | utils.py:14-26 | A pattern that matches yields a link of that shape: an 11-character id from `[a-zA-Z0-9_-]` and a tail that is empty or opens with the shape's lead character. Rendering that link gives back the whole input. |
| Utils.ParseLink | utils.py:41-53 | The first of the three patterns that matches yields a well-formed link whose text is exactly the input. |
| Utils.ExtractVideoId | utils.py:30-55 | An id is returned exactly when the link check accepts the text, so the two functions agree on every input. The id is 11 id characters and is the id of a well-formed link whose text is the input; otherwise the result is None. |
| Utils.MatchShapeRender | utils.py:14-26 | Each pattern accepts the text of a link with a valid id exactly when the link has that pattern's shape and a valid tail, and then reads back the same link. |
| Utils.ParseRender | utils.py:41-53 | Extraction inverts rendering: a well-formed link's text parses back to the link and yields its id. |
| Utils.ExtractRendered | utils.py:30-55 | Any text equal to a well-formed link's text yields that link's id. |
| Utils.RejectBadSuffix | utils.py:14-28 | A valid id followed by a bad tail is rejected by the check and yields no id. Bad tails are an extra path segment, the wrong lead character, or an inner newline. |
| Utils.IsShortsUrl | utils.py:3-28 | Every text the link check accepts is the text of a well-formed link: a valid 11-character id in one of the three shapes, with a valid tail. |
| Utils.AcceptedLanguage | utils.py:3-28 | The link check accepts exactly the texts of well-formed links. |
| Utils.ShortsPathExample | utils.py:41-43 | `https://www.youtube.com/shorts/dQw4w9WgXcQ` yields `dQw4w9WgXcQ`. |
| Utils.ShortHostExample | utils.py:51-53 | `https://youtu.be/dQw4w9WgXcQ?si=abc` yields `dQw4w9WgXcQ`; the query is ignored. |
| Utils.OtherHostExample | utils.py:41-55 | A link to another host yields no id. |
| Utils.FormatNumber | utils.py:57-77 | None shows "0". A value below 1000, negatives included, shows as a canonical decimal text that reads back to the value, which `Decimal.IntTextUnique` shows is exactly `str` of the value. A larger value shows as an exact mantissa times 10^9, 10^6 or 10^3; the mantissa is at least 1 and, below a billion, under 1000. Hence the suffix is the largest one whose threshold is met. |
| Decimal.IntToString | utils.py:76-77 | `str` gives the canonical form: digits without a leading zero (except "0" itself), with a minus sign only before a non-zero number. |
| Decimal.ParseIntToString | utils.py:76-77 | `str` of any integer reads back to that integer. |
| Decimal.IntTextUnique | utils.py:76-77 | A text in canonical form that reads back to an integer is exactly `str` of that integer. |
| Chars.Lower | youtube_api.py:161 | Lower-casing keeps the length and maps each character on its own. |
| TextClean.EmojiIntervals | data_processor.py:115-129 | The eleven ranges of the emoji class amount to three intervals, one of them U+24C2..U+1F251. |
| TextClean.RemoveEmoji | data_processor.py:105-130 | The result holds no emoji, keeps only characters of the input, and is the input itself exactly when the input holds no emoji; otherwise it is strictly shorter. |
| TextClean.RemoveEmojiConcat | data_processor.py:105-130 | Removal works character by character: removing from a concatenation is removing from each part and concatenating, so the kept characters stay in order. |
| TextClean.RemoveEmojiOne | data_processor.py:105-130 | A single character is dropped exactly when it is an emoji, and kept otherwise. |
| TextClean.ContainsEmoji | data_processor.py:132-157 | Detection and removal agree: a text holds an emoji exactly when removal changes it. |
| TextClean.Words | data_processor.py:23 | Splitting on whitespace yields only non-empty words free of whitespace. |
| TextClean.WordsJoin | data_processor.py:101 | Joining words with single spaces and splitting again gives back the same words. |
| TextClean.CleanText | data_processor.py:87-103 | The cleaned text consists of the words of the emoji-free text joined by single spaces. It holds no emoji, does not start or end with whitespace, and has no two whitespace characters in a row. |
| TextClean.CleanTextIdempotent | data_processor.py:87-103 | Cleaning keeps the words of the emoji-free text, and cleaning a cleaned text changes nothing. |
| Duration.MatchDuration | data_processor.py:47-55 | The reader matches exactly the texts that begin with "PT". |
| Duration.DurationSeconds | data_processor.py:47-55 | An unmatched duration reads as 0 seconds; a matched one reads as the reader's total. |
| Duration.ParseRender | data_processor.py:47-53 | Any declared `PT[nH][nM][nS]` text reads as hours×3600 + minutes×60 + seconds, with absent parts counting 0. This holds whatever follows the text, as long as it does not start with a digit. |
| Duration.BarePrefix | data_processor.py:47-53 | "PT" alone matches and reads as 0 seconds. |
| YouTubeApi.IsShorts | youtube_api.py:137-164 | A video whose duration the processor reads as at most 60 seconds, after a matching "PT" prefix, is a short. Otherwise, whether the duration reads as longer or lacks the prefix, the video is a short exactly when the description (missing counts as empty) or the title mentions the tag. A mention in either always makes a short. |
| YouTubeApi.ShortDurationIsShort | youtube_api.py:147-158 | A declared duration of at most 60 seconds makes a video a short, whatever its text says. |
| YouTubeApi.UnmatchedDurationUsesTag | youtube_api.py:148-164 | Without the "PT" prefix, a video is a short exactly when its description or title mentions the tag. A missing description counts as empty. |
| YouTubeApi.TagAnyCase | youtube_api.py:161-162 | The tag counts in any mix of letter case, anywhere in the text. |
| YouTubeApi.ShortsOf | youtube_api.py:115-116 | The shorts among the items: every kept item is a short from the input, and every short in the input is kept. Order and repeats are given by `YouTubeApi.ShortsStep`. |
| YouTubeApi.ShortsStep | youtube_api.py:114-116 | Taking one more item appends it to the kept shorts exactly when it is a short, so the shorts stay in response order, repeats included. |
| YouTubeApi.ToPeer | youtube_api.py:117-126 | The peer record copies the id, title, channel and publication time. Each count is the reported one, or 0 when the response leaves it out, and the tags are the reported ones or none. |
| YouTubeApi.Capped | youtube_api.py:116 | The first `n` entries, or all of them when there are fewer, or none when `n` is not positive. |
| YouTubeApi.TrendingShorts | youtube_api.py:114-128 | The loop returns exactly the peer records of the first `max_results` shorts, in response order, and never more entries than that cap. |
| YouTubeApi.FilterStep | youtube_api.py:116-126 | One turn of the loop appends the next item's record exactly when that item is a short and the cap is not reached; otherwise it leaves the list as it is. |
| DataProcessor.PerAtLeastOne | data_processor.py:35-36 | The quotient times `max(1, b)` is `a`, and the quotient is never negative. |
| DataProcessor.DaysLive | data_processor.py:39-41 | Days live is at least 1. It is exactly 1 when less than two whole days have passed, the future included; otherwise it counts the whole days elapsed. |
| DataProcessor.AnalyzeTitle | data_processor.py:19-27 | Each measurement is taken on the title as received: its length, its number of words, and whether it has a question mark, an exclamation mark, an ASCII digit, or emoji (that is, whether emoji removal changes it). Only the stored clean title is cleaned. |
| DataProcessor.TotalLength | data_processor.py:31 | No tags sum to 0 and a single tag to its own length; the sum is at least the length of every single tag. |
| DataProcessor.TotalLengthConcat | data_processor.py:31 | The summed length is additive: over two lists one after the other it is the sum over each. With the single-tag case this pins the total as the sum of the tag lengths. |
| DataProcessor.AnalyzeTags | data_processor.py:30-32 | The tag count and total length, and a mean that times the count gives the total; no tags gives zeros. |
| DataProcessor.RatesOf | data_processor.py:35-44 | The like and comment ratios times `max(1, views)` give the counts back, and each per-day rate times days live gives its count back. |
| DataProcessor.ProcessVideoData | data_processor.py:6-57 | Stated on the video itself. The record keeps the video and its cleaned title. Title length and word count are those of the raw title; each flag is set exactly when the raw title has a `?`, a `!`, a digit or an emoji. The tag count is the number of tags, with their summed length, and a mean tag length 0 without tags, otherwise the mean. Days live is at least 1: exactly 1 below two whole days, otherwise the whole days elapsed. The like and comment ratios times `max(1, views)` give the counts back, and each per-day rate times days live gives its count back. The duration is 0 without a "PT" prefix, otherwise the reader's total. |
| DataProcessor.ExtractFeatures | data_processor.py:59-85 | The flags become 0 or 1 exactly as their truth values. Views per day and days live are copied unless above 1,000,000 and 30, in which case they are capped there. Every other field is copied. |
| DataProcessor.PaddedTitle | data_processor.py:19-23 | A word padded by whitespace keeps its padding in the measured length, cleans to the bare word and counts as one word. |
| DataProcessor.FeaturesInRange | data_processor.py:40-44 | For any record and any clock: days live is in 1..30, views per day is in 0..1,000,000, and the ratios and the mean tag length are non-negative. |
| Ranking.SortByLength | model.py:88 | The sort is a permutation of its input. |
| Ranking.SortDescending | model.py:88 | The sort puts longer texts first. |
| Ranking.SortStable | model.py:88 | The sort is stable: among the texts of any one length it keeps the input order, like Python's `sorted(..., reverse=True)`. |
| Ranking.Top | model.py:88 | `min(k, n)` entries from the input, longest first; none of the entries left out is longer than one taken. |
| Ranking.TopIsPrefix | model.py:88 | The entries taken are the first ones of the stable longest-first sort. |
| Ranking.TopStable | model.py:88 | Ties at the cut: among the texts of any one length, the ones taken are the first of that length in the input, in input order. |
| Ranking.TopLongest | model.py:88 | The first key entry is a longest text of the input. |
| Model.TitleRule | model.py:24-28 | +0.05 with the optimal-length factor for a title of 30 to 50 characters, -0.05 with no factor below 20, otherwise nothing. |
| Model.FlagRule | model.py:30-40 | A set flag adds exactly its amount and reports exactly its factor text; an unset one does nothing. |
| Model.TagRule | model.py:43-47 | +0.05 with the many-tags factor for 8 or more tags, -0.05 with no factor for 3 or fewer, otherwise nothing. |
| Model.DurationRule | model.py:50-54 | +0.1 with the optimal-duration factor for 15 to 45 seconds, -0.05 with no factor above 55, otherwise nothing. |
| Model.LikeRule | model.py:57-62 | +0.15 with the excellent-likes factor above 10%, +0.08 with the good-likes factor above 5% up to 10%, otherwise nothing; the score rises exactly when the ratio is above 5%. |
| Model.CommentRule | model.py:64-66 | +0.1 with the many-comments factor above 1%, otherwise nothing. |
| Model.VelocityRule | model.py:69-74 | +0.15 with the strong-velocity factor above 10,000 views a day, +0.05 with the good-velocity factor above 1000 up to 10,000, otherwise nothing. |
| Model.Rules | model.py:18-74 | Every rule reports a factor exactly when it raises the score, and the nine adjustments sum to between -0.15 and 0.68. |
| Model.Clamp | model.py:77 | The score lands in [0.1, 0.99]. A value in that range is kept; one outside it is pinned to the nearer bound. |
| Model.TierOf | model.py:80-85 | High above 0.7, Moderate above 0.5 up to 0.7, Low at 0.5 or below. |
| Model.KeyFactors | model.py:88 | No factors gives the single "no standout factors" text. Otherwise the result takes 1 to 3 of the reported factors, three unless fewer were reported, longest first. No factor left out is longer than one taken. |
| Model.KeyFactorsStable | model.py:88 | Among reported factors of equal length, the key factors are the first ones in evaluation order. |
| Model.Predict | model.py:7-94 | The score lies in [0.35, 0.99], and the tier matches the score's band. |
| Model.ScoreTitle | model.py:24-28 | The title block moves the running score by exactly `Model.TitleRule`'s amount and appends exactly its factor, if any. |
| Model.ScoreFlag | model.py:30-40 | Each of the emoji, question and number blocks moves the running score by exactly `Model.FlagRule`'s amount and appends exactly its factor, if any. |
| Model.ScoreTags | model.py:43-47 | The tag block moves the running score by exactly `Model.TagRule`'s amount and appends exactly its factor, if any. |
| Model.ScoreDuration | model.py:50-54 | The duration block moves the running score by exactly `Model.DurationRule`'s amount and appends exactly its factor, if any. |
| Model.ScoreLikes | model.py:57-62 | The like block moves the running score by exactly `Model.LikeRule`'s amount and appends exactly its factor, if any. |
| Model.ScoreComments | model.py:64-66 | The comment block moves the running score by exactly `Model.CommentRule`'s amount and appends exactly its factor, if any. |
| Model.ScoreVelocity | model.py:69-74 | The velocity block moves the running score by exactly `Model.VelocityRule`'s amount and appends exactly its factor, if any. |
| Model.ScoreTitleRules | model.py:24-40 | Built from the four title blocks above: they move the running score by the title rules' total and append their factors in order. |
| Model.ScoreMediaRules | model.py:43-54 | The tag and duration blocks move the running score by the sum of their rules' amounts and append their factors in order. |
| Model.ScoreEngagementRules | model.py:57-74 | The like, comment and velocity blocks move the running score by the sum of their rules' amounts and append their factors in order. |
| Model.ScoreAudienceRules | model.py:43-74 | Built from `Model.ScoreMediaRules` and `Model.ScoreEngagementRules`: the five blocks move the running score by their total and append their factors in order. |
| Model.ScoreRules | model.py:18-74 | Starting from 0.5 and no factors, the nine blocks reach the base plus the rule table's total, with the factors in evaluation order. |
| Model.Conclude | model.py:77-94 | The final score lies in [0.1, 0.99]: a raw score in that range is kept, one above is pinned to 0.99, one below to 0.1. The tier is High exactly above 0.7, Moderate exactly above 0.5 up to 0.7, and Low exactly at 0.5 or below. The key factors are the longest reported ones. |
| Model.PredictEngagement | model.py:7-94 | The scorer, written as one running score and one running list, agrees with the rule table's prediction on every feature record. |
| Model.FloorNeverBinds | model.py:18-77 | The raw score is at least 0.35 for every feature record, so the 0.1 floor never applies. |
| Model.TitleFactors | model.py:24-40 | Each title factor is reported exactly when its condition holds. |
| Model.MediaFactors | model.py:43-66 | The tag, duration and comment factors are reported exactly when their conditions hold. |
| Model.TieredFactors | model.py:57-74 | The two like tiers and the two velocity tiers are reported on disjoint bands. |
| Model.LongFactor | model.py:38-54 | Only the duration factor and the number factor reach 57 characters. |
| Model.DurationFactorLeads | model.py:50-54 | When the duration factor fires and the number factor does not, the duration factor leads the key factors. |
| Model.ViralExampleRules | model.py:18-74 | A short with a question, an emoji and 9 tags scores 1.11 raw and fires seven factors, in rule order. Its other figures are 30 seconds long, 12% likes, 1.2% comments and 25,000 views a day. |
| Model.ViralExample | model.py:77-88 | The same video is capped at 0.99, gets the high tier, and is led by the duration factor. |
| App.AddToHistory | app.py:276-285 | A video already on the strip leaves it untouched. A new one goes first and the strip is cut back to five. Either way the video is on the strip afterwards. |
| App.AddKeepsValid | app.py:276-285 | Adding keeps the strip to at most five distinct videos. |
| App.AddIdempotent | app.py:276 | Analysing the same video again does not change the strip. |
| App.ReplayValid | app.py:276-285 | After any run of analyses from an empty strip, it holds at most five distinct videos, the latest among them. |
| App.Analyze | app.py:248-285 | An empty box does nothing. A text the link check rejects is reported invalid, and an id the fetch misses is reported not found; the strip is untouched in all three cases. Otherwise the analysis holds the extracted id, the fetched video processed with the given elapsed time, its features and its prediction, with a score in [0.35, 0.99]. The strip becomes exactly the strip with a card for this video (id, title, thumbnail, score) added, so a video already on it leaves it unchanged; the strip stays valid. |
| App.Mean | app.py:143-146 | The mean times the number of entries is the column total, scaled. |
| App.LikeRatios | app.py:146 | Each peer's ratio times its views, clipped below at 1, gives its likes. |
| App.Percent | app.py:154-157 | The bar times the average, floored, is the figure times 100. |
| App.PercentAbove | app.py:153-158 | A bar tops 100% exactly when the figure beats the floored average, and a non-negative figure gives a non-negative bar. |
| App.MeanNonNegative | app.py:143-146 | The mean of a column of non-negative entries is non-negative. |
| App.PeerAverages | app.py:143-146 | Each average is the mean of its column, and none is negative. The like-ratio average is the mean of the per-peer ratios, as a percentage. |
| App.LikePercent | app.py:149 | The video's like ratio is likes per 100 views, with views clipped below at 1. |
| App.Bars | app.py:153-158 | Four bars: each bar times its peer average, floored at 1 (at 0.01 for the like ratio), is the video's views, likes, comments or like percentage times 100. |
| App.Chart | app.py:139-158 | Against a non-empty peer list, the chart holds the four column means and the video's like percentage. Each of its four bars times the matching mean, floored at 1 (at 0.01 for the like ratio), is the video's figure times 100. |
| App.Compare | app.py:132-158 | No trending data means no chart. Otherwise the chart of the video against its peers, with the four means and four bars as for `App.Chart`. |
| App.CompareBars | app.py:153-158 | Every bar is non-negative. Each bar is above 100 exactly when the video's figure beats the peer average, floored at 1 (at 0.01 for the like ratio). |
| App.StandingOf | app.py:199-204 | The below-average verdict is given exactly when no bar tops 100. |
| App.StandingBelow | app.py:203-204 | Below average exactly when no bar is above the line. |
| App.StandingSeveral | app.py:199-200 | "Several" exactly when two different bars are above the line. |
| App.StandingOne | app.py:201-202 | "One" exactly when exactly one bar is above the line. |
| App.TitleAdvice | app.py:213-217 | Longer-title advice below 30 characters, shorter-title advice above 60, otherwise none. |
| App.ScoreAdvice | app.py:234-238 | The trends and hook advice below 0.3; the consistency advice from 0.3 to below 0.7. |
| App.EngagementAdvice | app.py:220-231 | Tag advice below 5 tags. Hooks advice below 5 likes per 100 views, and comments advice below 2 comments per 1000 views, views floored at 1. The list is in page order. |
| App.Recommendations | app.py:207-238 | The advice is listed in page order, each item at most once. |
| App.RecommendationMembers | app.py:210-238 | An item is listed exactly when one of the rule groups gives it. |
| App.TitleAndTagRules | app.py:213-221 | Each title and tag item is listed exactly when its threshold is crossed. |
| App.EngagementRules | app.py:223-231 | Each engagement item is listed exactly when its threshold is crossed, in whole-number terms. |
| App.ScoreRules | app.py:233-238 | Each score item is listed exactly when the score is in its band. |
| App.NoAdvice | app.py:241-245 | The list is empty, and the page congratulates instead, exactly when every rule passes. |
| App.TrendAdviceUnreachable | app.py:234-236 | The trends and hook advice is never given for an analysis whose prediction is the model's prediction of its own features, because that score is at least 0.35. `App.Analyze` produces only such analyses. |

## Left out

- Network and provider client: `get_youtube_api`, `get_video_data` and the search and list calls of `get_trending_shorts` (youtube_api.py:10-113, 130-135) are I/O. The fetch is a function parameter of `App.Analyze`; the trending response is the item list given to `YouTubeApi.TrendingShorts`.
- Clock and timestamp parsing: `datetime.now()` and `strptime` (data_processor.py:39-40) are replaced by the elapsed whole seconds since publication, a parameter. A malformed timestamp, which raises in the source, is not modelled.
- The exception handler around the analysis (app.py:301-302) is not modelled, because no modelled step raises.
- Rendering: Streamlit layout, charts, metrics panels, the history display (app.py:305-317) and every other `st.` call are left out. The values they would show are results of the model.
- `EngagementModel` (model.py:97-138): the unused training scaffold is out of scope.
- Floating point: scores, ratios and means are exact reals. Binary doubles can round differently at a tier boundary (0.5 + 0.05 + 0.15 is just above 0.7 in doubles, exactly 0.7 here).
- Utils.FormatNumber: states the suffix choice and the exact mantissa, not the `.1f` rounding of the text. Rounding can show "1000.0K" just below a million, which the model does not describe.
- Unicode case and digits: `lower()` is modelled for ASCII letters only, which is exact for the lower-case tag searched for. `isdigit()` and `\d` are modelled as ASCII digits only, so other Unicode digits are not counted.
- `pandas` mean: modelled as the exact arithmetic mean of a non-empty column; an empty trending list is handled before the mean, as in the source.
- Model.Predict: the contract does not list the key factors; they are stated separately by `Model.KeyFactors`, the factor lemmas and `Model.DurationFactorLeads`.
- The `is_shorts` flag stored by `get_video_data` is carried in the record but not recomputed: the fetch is a parameter.
