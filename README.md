# Slack engagement pulse: the analysis core in Dafny

This project models the analysis core of a Slack "engagement pulse" service.
The service collects the messages of monitored channels and scores each one:
a VADER text score or a GPT score, plus emoji and reaction scores. It then
builds per-channel day records and trends, raises burnout alerts from those
records, and composes a weekly report. Settings come from a configuration
that merges defaults with a file and validates the rules.

Modules follow the source files:

- `Emoji`: logic both analyzers share word for word. It covers the emoji
  table, emoji extraction, the mean emoji score, the count-weighted reaction
  score and the five sentiment categories. The GPT analyzer's
  `analyze_emoji_sentiment_fallback` (src/gpt_sentiment_analyzer.py:40-48),
  `analyze_reaction_sentiment` (211-238) and `categorize_sentiment`
  (240-250) are the same code as the VADER analyzer's, so they are modelled
  once, here.
- `Sentiment` and `GptSentiment`: the two message analyzers.
- `Engagement`: the engagement tracker. It covers day buckets and day
  records, the engagement score, the least-squares trend, peak activity,
  and the summary with its sentiment distribution.
- `Burnout`: the burnout detector, a datatype holding the three thresholds.
- `Report`: the sections of the weekly report.
- `Config`: the configuration as a JSON-like value tree. It covers
  recursive merge, dotted-path set, the validation rules, and the
  `ConfigManager` class that holds the current configuration.
- `Dicts`, `Numeric`, `Messages`, `Wrappers`: shared helpers.

Modelling choices:

- Python dicts are insertion-ordered sequences of pairs (`Dict<K, V>`),
  because iteration order decides ties, list order and "first" results.
  `d[k] = v` replaces in place or appends.
- Dates are day numbers ordered as their `YYYY-MM-DD` text is. A timestamp's
  local date, hour and weekday come from a parameter `clock`.
- Floats are reals. Python's `round(x, n)` is modelled as half-even rounding
  of the real value, not of its binary double.
- Library calls are parameters: the emoji library's data and `emojize`,
  VADER, TextBlob, the text cleaner, and the GPT reply. The GPT reply is a
  datatype listing what the API call and `json.loads` can produce.
- Loops that accumulate (buckets, counters, appended lists, de-duplication,
  the streak counter) are methods with loop invariants. Each is proved equal
  to a specification function, and the properties are proved about that
  function.

Where the code and the prose description of the system disagree, the model
follows the code:

- The streak example (oldest first: -0.4 four times, then -0.2, then -0.4
  twice) counts 2 newest-first, not 1 (`StreakStopsAtBreak`).
- `engagement_drop_threshold` is stored but never read. The literal -50 at
  src/burnout_detector.py:72 applies.
- The negativity tiers use the literal 3, not `consecutive_negative_days`
  (src/burnout_detector.py:150, 234).
- `messages_per_day` always divides by 7, whatever the number of days
  (src/report_generator.py:225).
- Two medium-risk channels and no high-risk one give an overall `high`
  level whose summary counts 0 high-risk channels
  (src/burnout_detector.py:198, 207).
- The assessment of no alerts has no `priority_actions` key
  (src/burnout_detector.py:180-188).
- A day record on the sentiment band edge 0.1 reads "positive" in the
  summary text but is not counted as positive in the distribution
  (`BandEdgeAtPointOne`).
- In the GPT fallback parser, the "very positive" and "very negative"
  branches are only reached when both "positive" and "negative" occur.
  The plain branches come first.

## Model

| member | source | states |
|---|---|---|
| Emoji.EmojiScore | src/sentiment_analyzer.py:29-46 | every score in the emoji table lies in [-0.9, 0.9] |
| Emoji.ExtractEmojis | src/sentiment_analyzer.py:48-49 | each extracted item is one code point that the emoji data recognises and that occurs in the text, and every recognised code point of the text is extracted |
| Emoji.ExtractEmojisCounts | src/sentiment_analyzer.py:48-49 | each emoji occurs in the list exactly as often as in the text, so the list's length counts the emoji characters |
| Emoji.ExtractEmojisAppend | src/sentiment_analyzer.py:48-49 | extraction keeps text order: the emojis of a concatenation are those of the first part followed by those of the second |
| Emoji.EmojiSentimentAsWritten | src/sentiment_analyzer.py:51-59 | the emoji score as written: 0.0 for no emojis; otherwise its product with the count is the sum of the `.get(em, 0.0)` lookups, and it lies in [-0.9, 0.9] |
| Emoji.HeartMissedAsWritten | src/sentiment_analyzer.py:44-56 | as written, a red heart typed U+2764 U+FE0F scores 0.0, because neither code point alone is a table key |
| Emoji.ExtractedScore | src/sentiment_analyzer.py:55-57 | corrected lookup: an extracted emoji scores its own entry, else the entry of its variation-selector form, else 0.0, always within [-0.9, 0.9] |
| Emoji.EmojiSentiment | src/sentiment_analyzer.py:51-59 | 0.0 for no emojis; otherwise the mean of the corrected scores (mean times count equals their sum), so it lies in [-0.9, 0.9] |
| Emoji.HeartScoredWhenCorrected | src/sentiment_analyzer.py:44-56 | with the corrected lookup, the same heart scores its table value 0.9 |
| Emoji.SelectorKeys | src/sentiment_analyzer.py:44-56 | only U+263A, U+26A0 and U+2764 have a variation-selector form that is a table key |
| Emoji.AsWrittenAgreesWithoutSelectorBases | src/sentiment_analyzer.py:51-59 | on a message holding none of those three code points, the corrected mean equals the mean as written |
| Emoji.ReactionScore | src/sentiment_analyzer.py:152-159 | a reaction scores its emojized name's table entry, and 0.3 when the table has none |
| Emoji.AnalyzeReactionSentiment | src/sentiment_analyzer.py:141-168 | no reactions give (0.0, 0); otherwise the count is the sum of the counts and the sentiment is the count-weighted mean score |
| Emoji.WeighReactions | src/sentiment_analyzer.py:145-161 | the accumulator loop ends with the sum of score times count and the sum of counts |
| Emoji.ReactionMeanBounds | src/sentiment_analyzer.py:163 | the reaction sentiment lies in [-0.9, 0.9], and is 0.0 when the counts add up to 0 |
| Emoji.UnknownReactionDefault | src/sentiment_analyzer.py:159 | a reaction whose emoji is not in the table scores the default 0.3 |
| Emoji.Categorize | src/sentiment_analyzer.py:170-180 | the five categories, each exactly its interval with inclusive lower bounds 0.5, 0.1, -0.1 and -0.5 |
| Emoji.CategorizeMonotone | src/sentiment_analyzer.py:170-180 | a higher score never lands in a lower category |
| Sentiment.VaderOf | src/sentiment_analyzer.py:74-80 | a text that cleans to nothing gets the neutral VADER scores (0, 0, 1, 0) |
| Sentiment.BlobOf | src/sentiment_analyzer.py:82-91 | a text that cleans to nothing gets polarity and subjectivity 0 |
| Sentiment.VaderBlend | src/sentiment_analyzer.py:119-129 | the blended score always lies in [-1, 1] |
| Sentiment.VaderBlendUnclamped | src/sentiment_analyzer.py:119-129 | for in-range inputs the clamp never binds: the score is 0.6 times compound plus 0.4 times the emoji mean |
| Sentiment.VaderBlendWithoutEmojis | src/sentiment_analyzer.py:113-126 | a message without emojis scores 0.6 times its compound, because missing emojis count as a neutral 0.0 |
| Sentiment.AnalyzeMessageSentiment | src/sentiment_analyzer.py:93-139 | the method is `gpt` exactly when the GPT analyzer answers. The GPT path returns the GPT analyzer's text score, the score of `TextAnalysisOf` for the cleaned text and the reply, and blends it 70/30 with the emojis. It adds the compatibility fields (VADER 0/0/1, polarity = text score, subjectivity 0.5). A disabled or raising analyzer falls back to the VADER/TextBlob fields and the 60/40 blend. The overall score is in [-1, 1] and the emoji fields match the extracted emojis. The emoji score is the corrected mean, and it equals the as-written mean whenever the message holds none of U+263A, U+26A0, U+2764 |
| GptSentiment.FallbackAnalysis | src/gpt_sentiment_analyzer.py:141-179 | confidence is 0.5. Each category holds exactly under its keyword condition, with the branches taken in source order. An extracted number in [-1, 1] replaces the category's default score. The score lies in [-1, 1] |
| GptSentiment.ParseGptResponseFallback | src/gpt_sentiment_analyzer.py:141-179 | the step-by-step updates of score, confidence and category end in `FallbackAnalysis` of the reply |
| GptSentiment.TextAnalysisOf | src/gpt_sentiment_analyzer.py:63-139 | empty text, a failed request or JSON that is not an object give (0, 0, neutral). A JSON object's score is clamped to [-1, 1] (default 0) and its confidence to [0, 1] (default 0.5). Unparsable JSON gets exactly the fallback parser's result (`FallbackAnalysis` of the reply text and its first number). Score and confidence are always in range |
| GptSentiment.AnalyzeTextSentimentGpt | src/gpt_sentiment_analyzer.py:63-139 | the early return and the branches on the answer give exactly `TextAnalysisOf` of the cleaned text and the reply |
| GptSentiment.GptBlend | src/gpt_sentiment_analyzer.py:190-198 | the blended score always lies in [-1, 1] |
| GptSentiment.GptBlendUnclamped | src/gpt_sentiment_analyzer.py:190-198 | for in-range inputs, 0.7 times text plus 0.3 times emoji with emojis, the text score alone without |
| GptSentiment.GptBlendMonotone | src/gpt_sentiment_analyzer.py:190-198 | a better text score never lowers the blend |
| GptSentiment.AnalyzeMessageSentiment | src/gpt_sentiment_analyzer.py:181-209 | the text score, confidence and category are those of `TextAnalysisOf` for the cleaned text and the reply; the emoji count and score match the extracted emojis (the score is the corrected mean, equal to the as-written one when the message holds none of U+263A, U+26A0, U+2764), the overall score is the unclamped blend and lies in [-1, 1], and a text that cleans to nothing scores 0 with category neutral |
| GptSentiment.VeryPositiveContainsPositive | src/gpt_sentiment_analyzer.py:149-157 | a reply containing "very positive" also contains "positive", so that branch needs "negative" too |
| Engagement.BucketsOf | src/engagement_tracker.py:35-59 | the buckets have distinct dates, exactly the local dates of the messages |
| Engagement.BucketMessages | src/engagement_tracker.py:35-59 | the message loop builds exactly `BucketsOf` |
| Engagement.BucketOfDate | src/engagement_tracker.py:35-59 | each date's bucket is built from exactly that date's messages, in order |
| Engagement.BucketOverFacts | src/engagement_tracker.py:40-59 | a bucket counts each message once, collects the sentiments of analysed messages, holds exactly their hours, and counts at most one thread reply per message |
| Engagement.BucketsCountAll | src/engagement_tracker.py:35-59 | the bucket counts of a channel add up to its number of messages |
| Engagement.HoursAsc | src/engagement_tracker.py:71 | the active hours come out strictly ascending, exactly the set's hours, as many as the set has, at most 24 |
| Engagement.SampleVariance | src/engagement_tracker.py:67 | the spread is non-negative, and 0.0 with fewer than two sentiments |
| Engagement.ConstantVariance | src/engagement_tracker.py:67 | a day whose sentiments all agree has spread 0 |
| Engagement.ThreadParticipation | src/engagement_tracker.py:72 | with no more replies than messages the share lies in [0, 1]; the divisor is at least 1 |
| Engagement.FinalizeAll | src/engagement_tracker.py:62-79 | one day record per bucket, same dates, same order |
| Engagement.DayRecordFacts | src/engagement_tracker.py:35-79 | a date with messages has a record. Its message count is that day's number of messages, and its active hours are sorted, distinct and exactly the messages' hours (at most 24). Its thread share and engagement score lie in [0, 1]. Its mean sentiment is 0.0 when no message was analysed |
| Engagement.DailyMetricsOf | src/engagement_tracker.py:21-81 | channels without messages get no entry, so every entry has at least one day record |
| Engagement.CalculateDailyMetrics | src/engagement_tracker.py:21-81 | the two nested loops build exactly `DailyMetricsOf` |
| Engagement.EngagementScore | src/engagement_tracker.py:83-99 | for non-negative counts and at most 24 hours the score lies in [0, 1] |
| Engagement.EngagementSaturates | src/engagement_tracker.py:86-97 | 20 messages, 10 reactions, 15 emojis and 24 hours score exactly 1.0 |
| Engagement.EngagementCapped | src/engagement_tracker.py:86-88 | counts beyond their caps add nothing |
| Engagement.EngagementMonotone | src/engagement_tracker.py:86-99 | more activity of any kind never lowers the score, even after rounding |
| Engagement.AnalyzePeakActivityPatterns | src/engagement_tracker.py:101-120 | the distributions are tallies of all messages' hours and weekdays. The peaks are the first-inserted keys with the largest count, defaulting to 12 and Monday. The total is the number of messages |
| Engagement.PeakKey | src/engagement_tracker.py:111-112 | the default for no counters; otherwise the first key whose count is maximal |
| Engagement.Classify | src/engagement_tracker.py:184-189 | increasing exactly when slope > 0.05, decreasing exactly when slope < -0.05, and stable otherwise |
| Engagement.PercentChange | src/engagement_tracker.py:192-195 | 0 when the first value is 0 or the last equals the first; for a positive first value it is positive exactly when the last value is greater |
| Engagement.TrendDirection | src/engagement_tracker.py:163-201 | fewer than two values give stable with change 0 and no slope; otherwise the direction classifies the least-squares slope, with the change and slope rounded to 2 and 4 places |
| Engagement.DenominatorPositive | src/engagement_tracker.py:176-181 | with two or more values the least-squares denominator is positive, so the zero-slope default never applies |
| Engagement.LinearSlope | src/engagement_tracker.py:168-181 | values on a line a + b·i have least-squares slope exactly b |
| Engagement.LinearTrend | src/engagement_tracker.py:163-189 | a straight-line series is classified by its slope alone |
| Engagement.ConstantTrend | src/engagement_tracker.py:163-201 | a constant series is stable with change 0 and slope 0 |
| Engagement.RecentDates | src/engagement_tracker.py:129-130 | the window is a strictly ascending tail of the sorted dates, of length min(days, number of dates) for days ≥ 1 |
| Engagement.RecentAveragesWithin | src/engagement_tracker.py:142-158 | a full record's recent sentiment and engagement averages lie between the smallest and the largest value of the window's column |
| Engagement.SteadySentimentIsStable | src/engagement_tracker.py:142-158 | a window whose days all have the same sentiment c gives a stable sentiment trend with change 0 and recent average c |
| Engagement.TrendWindow | src/engagement_tracker.py:129-139 | for a window of at least 2 days, the full record comes exactly when the channel has two or more dates |
| Engagement.TrendsOf | src/engagement_tracker.py:122-161 | never more trend records than channels, since empty channels are skipped |
| Engagement.TrendsOfKeys | src/engagement_tracker.py:125-127 | the trend records are keyed by exactly the channels with day records, in order |
| Engagement.TrendsOfCovers | src/engagement_tracker.py:125-159 | every channel with day records has a trend record |
| Engagement.SentimentDistribution | src/engagement_tracker.py:225-237 | no scores give all zeros; every share lies in [0, 100] |
| Engagement.BandsPartition | src/engagement_tracker.py:229-231 | every score falls in exactly one band: above 0.1, below -0.1, or between them inclusive |
| Engagement.RawDistributionShares | src/engagement_tracker.py:229-231 | before rounding, neutral is the percentage of scores in [-0.1, 0.1], so the three add to 100, each in [0, 100] |
| Engagement.MostActive | src/engagement_tracker.py:221-222 | None exactly when there are no channels; otherwise the first channel with the largest summed message count |
| Engagement.GetEngagementSummary | src/engagement_tracker.py:203-223 | channel count, total messages over all day records, equal-weight means over all records, their distribution, and the most active channel |
| Burnout.ViewOf | src/burnout_detector.py:39-40 | a channel without a full trend record reads as stable trends, zero changes and average 0 |
| Burnout.RiskScore | src/burnout_detector.py:53-101 | the score lies in [0, 150] and is 0 exactly when no indicator holds |
| Burnout.RiskScoreMonotone | src/burnout_detector.py:53-101 | an extra indicator never lowers the score |
| Burnout.RiskLevelOf | src/burnout_detector.py:104-109 | high exactly at 70 and up, medium exactly in [40, 70), low below 40 |
| Burnout.HighNeedsTwoIndicators | src/burnout_detector.py:55-109 | high risk needs at least two indicators; a sustained negative streak alone already gives at least medium |
| Burnout.AccumulateRisk | src/burnout_detector.py:53-101 | the step-by-step additions and appends give the indicator-weight sum and the warning list |
| Burnout.WarningsOrdered | src/burnout_detector.py:55-93 | the warnings come in the fixed indicator order |
| Burnout.WarningsCount | src/burnout_detector.py:55-99 | one warning per true indicator among the first five; the two trend indicators add no text |
| Burnout.EngagementDropWarned | src/burnout_detector.py:70-76 | the engagement-drop text appears exactly when that indicator holds |
| Burnout.LowActivityWarned | src/burnout_detector.py:86-93 | the low-activity text appears exactly when that indicator holds |
| Burnout.BurnoutDetector.GetRecentDays | src/burnout_detector.py:116-119 | the last min(days, n) dates in sorted order, with their records unchanged from the input |
| Burnout.BurnoutDetector.CountConsecutiveNegativeDays | src/burnout_detector.py:121-134 | the newest-first run of days below the threshold, stopping at the first day at or above it, never more than the number of days |
| Burnout.LeadingBelow | src/burnout_detector.py:128-132 | the first n values are below the threshold and the next one, if any, is not |
| Burnout.StreakStopsAtBreak | src/burnout_detector.py:121-134 | oldest-first -0.4, -0.4, -0.4, -0.4, -0.2, -0.4, -0.4 with threshold -0.3 gives 2 |
| Burnout.BurnoutDetector.AlertFacts | src/burnout_detector.py:30-114 | the alert names its channel. Its level is the level of its score, in [0, 150]. No day records give low, 0, and no warnings or recommendations. Otherwise: the streak is at most 7 and the day count, at most five warnings come in indicator order, the recommendations are the tier candidates without duplicates in tier order, and the trends are the record's |
| Burnout.BurnoutDetector.AnalyzeChannelBurnout | src/burnout_detector.py:30-114 | the method builds exactly the alert `AlertOf` |
| Burnout.BurnoutDetector.GenerateRecommendations | src/burnout_detector.py:136-177 | the first-occurrence de-duplication of the tier-by-tier candidate list |
| Burnout.CandidatesInTierOrder | src/burnout_detector.py:141-167 | the candidates are in tier order and free of duplicates |
| Burnout.CandidatesDistinct | src/burnout_detector.py:169-177 | so de-duplication leaves the candidate list unchanged |
| Burnout.NegativityTier | src/burnout_detector.py:150-152 | the negativity tier is given exactly for a streak of 3 or more, the literal 3 |
| Burnout.EngagementTier | src/burnout_detector.py:154-156 | the engagement tier is given exactly when an engagement-drop warning is present |
| Burnout.ActivityTier | src/burnout_detector.py:158-160 | the activity tier is given exactly when a low-activity warning is present |
| Burnout.SentimentTier | src/burnout_detector.py:163-167 | the critical-morale item exactly below -0.5, the positive-focus item for [-0.5, 0), nothing otherwise |
| Burnout.HighRiskTier | src/burnout_detector.py:141-144 | the three high-risk items exactly at high risk |
| Burnout.AtRiskTier | src/burnout_detector.py:146-148 | the two items exactly at high or medium risk |
| Burnout.RemoveDuplicates | src/burnout_detector.py:170-177 | the `seen`-set loop keeps the first occurrence of each item: no duplicates, same members |
| Burnout.KeepAtRisk | src/burnout_detector.py:25-26 | the kept alerts have distinct channels and none is low |
| Burnout.BurnoutDetector.DetectBurnoutPatterns | src/burnout_detector.py:16-28 | the loop keeps exactly the non-low alerts of all channels, in channel order |
| Burnout.BurnoutDetector.DetectExactly | src/burnout_detector.py:16-28 | each channel maps to its alert when that alert is not low and is absent otherwise; no other channel appears |
| Burnout.ChannelsWhere | src/burnout_detector.py:190-191 | the filtered list holds exactly the channels whose alert satisfies the test |
| Burnout.ChannelsWhereAppend | src/burnout_detector.py:190-191 | the filter keeps dict order: filtering a dict split in two gives the two filtered lists one after the other |
| Burnout.GetPriorityActions | src/burnout_detector.py:223-247 | at most five actions |
| Burnout.PriorityActionsFacts | src/burnout_detector.py:223-247 | at most three actions in fixed order, each present exactly when some alert qualifies: high risk, a streak of 3 or more, or an engagement-drop warning |
| Burnout.GetOverallBurnoutAssessment | src/burnout_detector.py:179-221 | no alerts give the low, empty assessment without priority actions; otherwise every alert counts as at risk, the warnings of all alerts are totalled, and the priority actions are attached |
| Burnout.NoWarningsIffZeroTotal | src/burnout_detector.py:193 | the warning total is zero exactly when no alert carries a warning |
| Burnout.OverallRiskLevels | src/burnout_detector.py:195-211 | overall high exactly with a high-risk channel or two medium ones, medium exactly with one medium and no high, and low otherwise; two mediums alone report 0 high-risk channels |
| Burnout.AtRiskAlertsNeverLow | src/burnout_detector.py:179-211 | alerts that passed the detector's filter never give a low overall level or the low summary |
| Report.SentimentBands | src/report_generator.py:57-66 | the five descriptions, each exactly its interval, and ordered with the score |
| Report.EngagementBands | src/report_generator.py:69-74 | high exactly at 0.7 and up, moderate in [0.4, 0.7), low below, ordered with the score |
| Report.BandEdgeAtPointOne | src/report_generator.py:59 | a score of exactly 0.1 reads "positive" in the summary but counts as not positive in the distribution |
| Report.DistributionInsight | src/report_generator.py:84-87 | at most one insight: positivity exactly above 60 percent, otherwise negativity above 30 percent |
| Report.TrendInsight | src/report_generator.py:90-98 | improving when more channels increase, declining when more decrease, nothing when the counts tie |
| Report.BurnoutInsight | src/report_generator.py:101-109 | "no risks" exactly without alerts, the high-risk count when some alert is high, and otherwise the number of alerts |
| Report.KeyInsights | src/report_generator.py:77-109 | the appends build exactly the three sections in order |
| Report.InsightsShape | src/report_generator.py:77-109 | one to three insights, in section order, ending with the burnout insight |
| Report.BestChannelHighlight | src/report_generator.py:128-133 | a highlight exactly when some recent average exceeds 0.2, naming the first channel with the highest average |
| Report.ImprovingMembers | src/report_generator.py:136-138 | the improving list holds exactly the channels with a change above 20, with their changes |
| Report.ImprovementHighlight | src/report_generator.py:139-141 | a highlight exactly when some change exceeds 20, for a channel with the largest change; of equal largest changes the first improving channel wins, as Python's `max` picks it |
| Report.AttentionHighlight | src/report_generator.py:144-148 | the attention highlight lists the high-risk channels, and appears exactly when there is one |
| Report.ExtractWeeklyHighlights | src/report_generator.py:124-150 | the appends build exactly the three parts in order |
| Report.HighlightsShape | src/report_generator.py:124-150 | at most three highlights, one per kind, in kind order |
| Report.GenerateExecutiveSummary | src/report_generator.py:47-122 | the counts carried over, the key scores rounded to 3 places, their bands, the insights and the highlights |
| Report.PerChannelEntries | src/report_generator.py:155-157 | a section has an entry for exactly the channels with day records, each computed from its records |
| Report.PerChannelKeys | src/report_generator.py:155-157 | the section's channels are distinct and come from the input |
| Report.Dates | src/report_generator.py:159 | the dates sorted, exactly those of the records |
| Report.BestDay | src/report_generator.py:167 | the earliest date with the highest sentiment |
| Report.WorstDay | src/report_generator.py:168 | the earliest date with the lowest sentiment |
| Report.GenerateSentimentAnalysis | src/report_generator.py:152-174 | the loop fills the per-channel sentiment section |
| Report.EngagementAverageWithin | src/report_generator.py:217-223 | day scores in [0, 1] average, after rounding, into [0, 1] |
| Report.MessagesPerDayOverWeek | src/report_generator.py:225 | 14 messages give 2.0 per day whatever the number of days: the divisor is always 7 |
| Report.RankDescending | src/report_generator.py:230-232 | the ranking is non-increasing in score and a permutation of its input |
| Report.RankRankedUnchanged | src/report_generator.py:230-232 | ties keep their input order: an input already ranked, equal scores included, comes back unchanged, as Python's stable sort returns it |
| Report.GenerateEngagementMetrics | src/report_generator.py:206-233 | the section plus the ranking of its channels by average engagement score |
| Report.RankingIsOrderedPermutation | src/report_generator.py:228-232 | the ranking is a permutation of the (channel, score) pairs, non-increasing in score |
| Report.RankingNamesChannels | src/report_generator.py:230-232 | the ranking lists each channel of the section exactly as often as the section does |
| Report.TrendChannelsWhere | src/report_generator.py:259-260 | the filtered list holds exactly the channels whose trend satisfies the test |
| Report.TrendChannelsWhereAppend | src/report_generator.py:259-260 | the filter keeps dict order: filtering a dict split in two gives the two filtered lists one after the other |
| Report.GenerateRecommendations | src/report_generator.py:235-274 | the appends and extends, cut to ten |
| Report.RecommendationMembers | src/report_generator.py:235-272 | an item is in the list exactly when one of the four groups gives it |
| Report.ReportRecommendationsBound | src/report_generator.py:274 | at most seven items arise, so the cut to ten never removes one |
| Report.CheckInsIffHighRisk | src/report_generator.py:239-247 | the check-in item appears exactly when some channel is at high risk |
| Report.OneOnOnesIffMediumRisk | src/report_generator.py:250-256 | the one-on-one item appears exactly when some channel is at medium risk |
| Report.MonitorIffDeclining | src/report_generator.py:259-265 | the monitoring item appears exactly when some trend is decreasing |
| Report.ReportRecommendationsWithoutAlerts | src/report_generator.py:268-272 | the two general items appear exactly without alerts, and then only the monitoring item can accompany them |
| Report.FormatChannelDetails | src/report_generator.py:276-298 | the loop fills the per-channel detail section |
| Report.ChannelDetailsCounts | src/report_generator.py:288-289 | the day count is the number of records and the mean messages per day is non-negative |
| Report.ChannelDetailsSentimentWithin | src/report_generator.py:290 | day sentiments in [-1, 1] average into [-1, 1] |
| Report.ChannelDetailsEngagementWithin | src/report_generator.py:291 | day engagement scores in [0, 1] average into [0, 1] |
| Config.MergeIsPutAll | src/config_manager.py:71-80 | merging is storing the override's entries one by one, each combined with the current value |
| Config.MergeKeys | src/config_manager.py:71-80 | the keys are those of the default followed by the new keys of the override; distinct keys stay distinct; an empty override changes nothing |
| Config.MergeValues | src/config_manager.py:74-78 | a key only the default has keeps its value; two dicts merge recursively; any other override value replaces the default's |
| Config.MergeIntoEmpty | src/config_manager.py:71-80 | overriding an empty configuration gives the override |
| Config.JoinSplit | src/config_manager.py:106 | joining the dotted parts gives the path back |
| Config.SplitJoin | src/config_manager.py:106 | splitting a join of dot-free parts gives the parts back |
| Config.SetNestedFailsIffBlocked | src/config_manager.py:105-117 | setting fails exactly when some intermediate key of the path holds a value that is not a dict |
| Config.SetNestedThenGet | src/config_manager.py:105-117 | afterwards the path leads to the value, and every intermediate key leads to a dict, created when it was missing |
| Config.SetNestedOffPath | src/config_manager.py:105-117 | any path that leaves the set path at some step reads what it read before |
| Config.EmptyNotBlocked | src/config_manager.py:111-112 | a path into an empty dict is never blocked, since missing keys become empty dicts |
| Config.Validate | src/config_manager.py:119-131 | success exactly when the channels are given, analysis days ≥ 1, the threshold is in [-1, 1] and the delay is ≥ 0; the first failing rule names the error |
| Config.CheckNumber | src/config_manager.py:124-131 | a numeric rule passes exactly for a number meeting the bound; a non-numeric setting fails as not comparable |
| Config.MissingSettingsReadAsZero | src/config_manager.py:124 | a missing `analysis_days` reads as 0 and fails the rule |
| Config.PassesWith | src/config_manager.py:119-131 | settings of these kinds pass every rule |
| Config.DefaultConfigValid | src/config_manager.py:23-48 | the defaults pass every rule |
| Config.LoadConfig | src/config_manager.py:21-69 | a loaded configuration passes validation. Without a file it is the defaults. With a file, the load succeeds exactly when the defaults merged with the file pass validation; it then holds that merge, and otherwise fails with the validation's error |
| Config.LoadWithEmptyFile | src/config_manager.py:51-56 | an empty file object loads the defaults unchanged |
| Config.ConfigManager.constructor | src/config_manager.py:19 | a manager holds the loaded configuration, which passes validation |
| Config.ConfigManager.UpdateConfig | src/config_manager.py:202-205 | the stored configuration becomes the merge; the outcome is its validation, and a passing outcome means the rules hold |

## Left out

- The Slack client, SQLite storage, the Flask web app and the orchestration scripts: network, database, concurrency and I/O.
- The local-time conversion of `extract_timestamp_info` (src/engagement_tracker.py:11-19) is the parameter `clock`. Its `day_name` is the `Weekday` it returns.
- VADER, TextBlob, the regex text cleaner, `emoji.EMOJI_DATA`, `emoji.emojize`, the OpenAI call and `json.loads` are parameters or inputs. The GPT analyzer's construction and `use_gpt` become the three-way `GptPath`.
- The text of f-strings (warnings, insights, highlights, summaries, actions) is not modelled. The datatypes keep the numbers and channel lists the texts print.
- The `sentiment_std` standard deviation is modelled as the sample variance, without the square root.
- Floats are reals: no rounding error, no NaN and no infinities.
- `analyze_weekly_sentiment_patterns`, the weekday part of the sentiment section, is not modelled. It parses date strings with `strptime`.
- The report's `generate_weekly_report` wrapper and its `datetime.now()` stamp, and `save_report`, `save_csv_summary` and `save_html_dashboard`: clock and file output.
- Config file reading and JSON parsing are outside the model: `LoadConfig` takes the parsed file, or None when it is absent, does not parse, or holds JSON that is not an object (`override.items()` raises inside the same `try`).
- `apply_env_overrides`, the Slack-token check and the directory creation in `validate_config` (src/config_manager.py:133-142), `save_config`, the getters and `get_full_config` all read the environment or the filesystem.
- Config.SetNested: is a function on values. It does not capture that `set_nested_value` mutates the caller's dict in place and returns that same object, nor the aliasing of nested dicts that `merge_configs`' shallow copy shares with its input.
- Config.ConfigManager.UpdateConfig: a rejected update is modelled as a failing outcome rather than a raised ValueError. As in the source, the merged configuration stays stored.
- Burnout.GetPriorityActions: states only the bound of five, because at most three actions ever arise (`PriorityActionsFacts`).
- Engagement.TrendsOf: its own contract gives only the size bound. The keys and coverage are stated by `TrendsOfKeys` and `TrendsOfCovers`.
- Sentiment.AnalyzeMessageSentiment: blends the corrected emoji mean (`EmojiSentiment`), not the `.get(em, 0.0)` mean as written. The two differ only on messages holding U+263A, U+26A0 or U+2764 (`AsWrittenAgreesWithoutSelectorBases`). There, for "❤️", the source's emoji score is 0.0 where the model's is 0.9 (see Findings).
- GptSentiment.AnalyzeMessageSentiment: blends the corrected emoji mean in the same way, with the same difference on the same three code points.
- Input dicts are sequences of pairs, so distinct keys are a precondition where a property needs them rather than part of the type.

## Findings

| source | as written | input that shows it | evidently intended | confidence | as-written member | corrected member |
|---|---|---|---|---|---|---|
| src/sentiment_analyzer.py:44-56 | the emoji table has three keys written with a trailing U+FE0F (white smiling face, warning sign, red heart), but extraction yields single code points, so `.get(em, 0.0)` never finds them; the same holds for the GPT analyzer's fallback (src/gpt_sentiment_analyzer.py:33-45) | a message "❤️" (U+2764 U+FE0F) scores 0.0 | the red heart scores its table value 0.9 | not executed | Emoji.HeartMissedAsWritten | Emoji.HeartScoredWhenCorrected |
