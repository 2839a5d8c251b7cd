/** The engagement tracker: per-channel, per-date buckets of messages, the
    day records computed from them, the saturating engagement score, the
    least-squares trend over a trailing window of dates, peak activity,
    and the global summary with its sentiment distribution. Dates are day
    numbers (ordered as their 'YYYY-MM-DD' text is), and the conversion of
    a timestamp to local date, hour and weekday is the parameter `clock`. */
module Engagement {
  import opened Wrappers
  import opened Numeric
  import opened Dicts
  import opened Messages

  // ---------------------------------------------------------------------
  // Per-date buckets (the inner loop of calculate_daily_metrics)
  // ---------------------------------------------------------------------

  /** The accumulator `channel_daily_data[date]`, without `response_times`,
      which nothing fills. */
  datatype Bucket = Bucket(
    messageCount: nat,
    sentimentScores: seq<real>,
    emojiCounts: nat,
    reactionCounts: nat,
    activeHours: set<Hour>,
    threadMessages: nat)

  /** The `defaultdict` factory's fresh bucket. */
  const EmptyBucket := Bucket(0, [], 0, 0, {}, 0)

  /** `sum(r.get('count', 0) for r in message['reactions'])`. */
  function ReactionTotal(rs: seq<Reaction>): nat
  {
    if rs == [] then 0 else ReactionTotal(rs[..|rs| - 1]) + rs[|rs| - 1].count
  }

  /** One pass of the message loop on the message's bucket, `hour` being the
      message's local hour. */
  function AddMessage(b: Bucket, m: Message, hour: Hour): Bucket
  {
    Bucket(
      b.messageCount + 1,
      if m.sentiment.Some? then b.sentimentScores + [m.sentiment.value.overall] else b.sentimentScores,
      if m.sentiment.Some? then b.emojiCounts + m.sentiment.value.emojiCount else b.emojiCounts,
      b.reactionCounts + ReactionTotal(m.reactions),
      b.activeHours + {hour},
      if m.IsThreadReply() then b.threadMessages + 1 else b.threadMessages)
  }

  /** The local dates of the messages, in message order. */
  function DatesOf(msgs: seq<Message>, clock: Clock): (r: seq<int>)
    ensures |r| == |msgs| && forall i :: 0 <= i < |msgs| ==> r[i] == clock(msgs[i].ts).date
  {
    seq(|msgs|, i requires 0 <= i < |msgs| => clock(msgs[i].ts).date)
  }

  /** `channel_daily_data` after the message loop: one bucket per date, in
      order of each date's first message. */
  function BucketsOf(msgs: seq<Message>, clock: Clock): (r: Dict<int, Bucket>)
    ensures DistinctKeys(r)
    ensures forall d :: d in Keys(r) <==> d in DatesOf(msgs, clock)
    decreases |msgs|
  {
    if msgs == [] then []
    else
      var init := msgs[..|msgs| - 1];
      var m := msgs[|msgs| - 1];
      var t := clock(m.ts);
      var buckets := BucketsOf(init, clock);
      assert DatesOf(msgs, clock) == DatesOf(init, clock) + [t.date];
      Put(buckets, t.date, AddMessage(Get(buckets, t.date).GetOr(EmptyBucket), m, t.hour))
  }

  /** The messages whose local date is d, in order. */
  function OnDate(msgs: seq<Message>, clock: Clock, d: int): (r: seq<Message>)
    ensures |r| <= |msgs|
    decreases |msgs|
  {
    if msgs == [] then []
    else
      var init := OnDate(msgs[..|msgs| - 1], clock, d);
      if clock(msgs[|msgs| - 1].ts).date == d then init + [msgs[|msgs| - 1]] else init
  }

  /** The bucket the message loop would build from these messages alone. */
  function BucketOver(msgs: seq<Message>, clock: Clock): Bucket
    decreases |msgs|
  {
    if msgs == [] then EmptyBucket
    else
      var m := msgs[|msgs| - 1];
      AddMessage(BucketOver(msgs[..|msgs| - 1], clock), m, clock(m.ts).hour)
  }

  /** Each date's bucket is built from exactly the messages on that date, in
      their order; a date without messages has no bucket. */
  lemma {:induction false} BucketOfDate(msgs: seq<Message>, clock: Clock, d: int)
    ensures Get(BucketsOf(msgs, clock), d).GetOr(EmptyBucket) == BucketOver(OnDate(msgs, clock, d), clock)
    decreases |msgs|
  {
    if msgs != [] {
      var init := msgs[..|msgs| - 1];
      var m := msgs[|msgs| - 1];
      BucketOfDate(init, clock, d);
      var on := OnDate(init, clock, d);
      if clock(m.ts).date == d {
        assert OnDate(msgs, clock, d) == on + [m];
        assert (on + [m])[..|on|] == on;
      }
    }
  }

  /** The local hours of the messages. */
  function HoursOf(msgs: seq<Message>, clock: Clock): (r: seq<Hour>)
    ensures |r| == |msgs|
    decreases |msgs|
  {
    if msgs == [] then [] else HoursOf(msgs[..|msgs| - 1], clock) + [clock(msgs[|msgs| - 1].ts).hour]
  }

  /** The i-th hour is the hour of the i-th message. */
  lemma {:induction false} HourAt(msgs: seq<Message>, clock: Clock, i: nat)
    requires i < |msgs|
    ensures HoursOf(msgs, clock)[i] == clock(msgs[i].ts).hour
    decreases |msgs|
  {
    if i < |msgs| - 1 {
      HourAt(msgs[..|msgs| - 1], clock, i);
    }
  }

  /** `overall_sentiment` of the messages that carry a sentiment, in order. */
  function ScoresOf(msgs: seq<Message>): (r: seq<real>)
    ensures |r| <= |msgs|
    ensures (forall i :: 0 <= i < |msgs| ==> msgs[i].sentiment.None?) ==> r == []
    decreases |msgs|
  {
    if msgs == [] then []
    else
      var init := ScoresOf(msgs[..|msgs| - 1]);
      var m := msgs[|msgs| - 1];
      if m.sentiment.Some? then init + [m.sentiment.value.overall] else init
  }

  /** What a bucket holds: one count per message, the sentiments of those
      that carry one, the distinct local hours, and at most one thread reply
      per message. */
  lemma {:induction false} BucketOverFacts(msgs: seq<Message>, clock: Clock)
    ensures BucketOver(msgs, clock).messageCount == |msgs|
    ensures BucketOver(msgs, clock).sentimentScores == ScoresOf(msgs)
    ensures BucketOver(msgs, clock).threadMessages <= |msgs|
    ensures forall h :: h in BucketOver(msgs, clock).activeHours <==> h in HoursOf(msgs, clock)
    decreases |msgs|
  {
    if msgs != [] {
      var init := msgs[..|msgs| - 1];
      BucketOverFacts(init, clock);
      assert HoursOf(msgs, clock) == HoursOf(init, clock) + [clock(msgs[|msgs| - 1].ts).hour];
    }
  }

  // ---------------------------------------------------------------------
  // Day records
  // ---------------------------------------------------------------------

  /** One entry of `daily_metrics[channel][date]`. `sentimentVariance` stands
      for `sentiment_std`: the sample variance of the day's sentiments, 0.0
      with fewer than two. */
  datatype DayMetrics = DayMetrics(
    messageCount: nat,
    avgSentiment: real,
    sentimentVariance: real,
    emojiCount: nat,
    reactionCount: nat,
    activeHoursCount: nat,
    activeHours: seq<Hour>,
    threadParticipation: real,
    engagementScore: real)

  /** The hours of hs from h upwards, ascending. */
  function HoursFrom(hs: set<Hour>, h: nat): (r: seq<Hour>)
    requires h <= 24
    ensures |r| <= 24 - h
    ensures forall i :: 0 <= i < |r| ==> h <= r[i]
    ensures forall x: Hour :: x in r <==> x in hs && h <= x
    ensures StrictlySorted(r)
    decreases 24 - h
  {
    if h == 24 then []
    else
      var rest := HoursFrom(hs, h + 1);
      if (h as Hour) in hs then [h as Hour] + rest else rest
  }

  /** `sorted(list(active_hours))`: ascending, with no repeats, listing
      exactly the hours of the set. */
  function HoursAsc(hs: set<Hour>): (r: seq<Hour>)
    ensures StrictlySorted(r)
    ensures forall x: Hour :: x in r <==> x in hs
    ensures |r| == |hs| <= 24
  {
    var r := HoursFrom(hs, 0);
    HoursCard(r, hs);
    r
  }

  lemma HoursCard(r: seq<Hour>, hs: set<Hour>)
    requires StrictlySorted(r)
    requires forall x: Hour :: x in r <==> x in hs
    ensures |r| == |hs|
  {
    var s: seq<int> := r;
    StrictlySortedDistinct(s);
    DistinctCard<int>(s);
    assert (set x: int | x in s) == hs;
  }

  lemma StrictlySortedDistinct(s: seq<int>)
    requires StrictlySorted(s)
    ensures NoDuplicates(s)
  {
    forall i, j | 0 <= i < j < |s|
      ensures s[i] != s[j]
    {
      assert s[i] < s[j];
    }
  }

  /** The sum of squared deviations from m. */
  function SquaredDeviations(s: seq<real>, m: real): (r: real)
    ensures r >= 0.0
    decreases |s|
  {
    if s == [] then 0.0
    else
      var d := s[|s| - 1] - m;
      SquareNonNegative(d);
      SquaredDeviations(s[..|s| - 1], m) + d * d
  }

  /** The sample variance (n - 1 in the denominator, as `pandas.Series.std`
      squares it); 0.0 with fewer than two values, as the code defaults. */
  function SampleVariance(s: seq<real>): (v: real)
    ensures v >= 0.0
    ensures |s| <= 1 ==> v == 0.0
  {
    if |s| > 1 then SquaredDeviations(s, Mean(s)) / (|s| - 1) as real else 0.0
  }

  /** A day whose sentiments all agree shows no spread. */
  lemma ConstantVariance(s: seq<real>, c: real)
    requires forall i :: 0 <= i < |s| ==> s[i] == c
    ensures SampleVariance(s) == 0.0
  {
    if |s| > 1 {
      MeanConstant(s, c);
      ConstantDeviations(s, c);
    }
  }

  lemma {:induction false} ConstantDeviations(s: seq<real>, c: real)
    requires forall i :: 0 <= i < |s| ==> s[i] == c
    ensures SquaredDeviations(s, c) == 0.0
    decreases |s|
  {
    if s != [] {
      ConstantDeviations(s[..|s| - 1], c);
    }
  }

  /** `thread_messages / max(message_count, 1)`. */
  function ThreadParticipation(threads: nat, messages: nat): (p: real)
    ensures threads <= messages ==> 0.0 <= p <= 1.0
    ensures messages == 0 ==> p == threads as real
  {
    var denom := if messages >= 1 then messages else 1;
    var d := denom as real;
    var p := threads as real / d;
    if threads <= denom then
      QuotientMonotone(threads as real, d, d);
      SelfQuotient(d);
      p
    else p
  }

  /** The day record built from a bucket. */
  function Finalize(b: Bucket): DayMetrics
  {
    DayMetrics(
      b.messageCount,
      Mean(b.sentimentScores),
      SampleVariance(b.sentimentScores),
      b.emojiCounts,
      b.reactionCounts,
      |b.activeHours|,
      HoursAsc(b.activeHours),
      ThreadParticipation(b.threadMessages, b.messageCount),
      EngagementScore(b.messageCount, b.reactionCounts, b.emojiCounts, |b.activeHours|))
  }

  /** The channel's day records, one per bucket, in bucket order. */
  function FinalizeAll(buckets: Dict<int, Bucket>): (r: Dict<int, DayMetrics>)
    ensures |r| == |buckets| && Keys(r) == Keys(buckets)
    ensures forall i :: 0 <= i < |r| ==> r[i].1 == Finalize(buckets[i].1)
  {
    MapValues(buckets, Finalize)
  }

  /** `calculate_daily_metrics` for a whole `channel_data` dict: channels with
      no messages get no entry. */
  function DailyMetricsOf(channelData: Dict<string, seq<Message>>, clock: Clock): (r: Dict<string, Dict<int, DayMetrics>>)
    ensures forall i :: 0 <= i < |r| ==> r[i].1 != []
    decreases |channelData|
  {
    if channelData == [] then []
    else
      var init := DailyMetricsOf(channelData[..|channelData| - 1], clock);
      var (name, msgs) := channelData[|channelData| - 1];
      if msgs == [] then init
      else
        assert Get(BucketsOf(msgs, clock), clock(msgs[0].ts).date).Some?;
        init + [(name, FinalizeAll(BucketsOf(msgs, clock)))]
  }

  /** The day record of date d in a channel's messages, when d has any:
      its message count is the number of messages on d, its active hours are
      sorted, distinct and exactly the hours of those messages, its thread
      share and engagement score lie in [0, 1], and its mean sentiment is 0.0
      when no message of the day was analysed. */
  lemma DayRecordFacts(msgs: seq<Message>, clock: Clock, d: int)
    requires d in DatesOf(msgs, clock)
    ensures Get(FinalizeAll(BucketsOf(msgs, clock)), d).Some?
    ensures var m := Get(FinalizeAll(BucketsOf(msgs, clock)), d).value;
      var day := OnDate(msgs, clock, d);
      m.messageCount == |day| &&
      StrictlySorted(m.activeHours) && |m.activeHours| == m.activeHoursCount <= 24 &&
      (forall h: Hour :: h in m.activeHours <==> h in HoursOf(day, clock)) &&
      0.0 <= m.threadParticipation <= 1.0 &&
      0.0 <= m.engagementScore <= 1.0 &&
      ((forall i :: 0 <= i < |day| ==> day[i].sentiment.None?) ==> m.avgSentiment == 0.0)
  {
    DayRecordIs(msgs, clock, d);
    FinalizeFacts(OnDate(msgs, clock, d), clock);
  }

  /** The record of date d is the finalized bucket of d's messages. */
  lemma DayRecordIs(msgs: seq<Message>, clock: Clock, d: int)
    requires d in DatesOf(msgs, clock)
    ensures Get(FinalizeAll(BucketsOf(msgs, clock)), d) == Some(Finalize(BucketOver(OnDate(msgs, clock, d), clock)))
  {
    var buckets := BucketsOf(msgs, clock);
    var k :| 0 <= k < |buckets| && buckets[k].0 == d;
    GetAt(buckets, k);
    BucketOfDate(msgs, clock, d);
    var metrics := FinalizeAll(buckets);
    assert metrics[k].0 == d;
    GetAt(metrics, k);
  }

  lemma FinalizeFacts(day: seq<Message>, clock: Clock)
    ensures var m := Finalize(BucketOver(day, clock));
      m.messageCount == |day| &&
      StrictlySorted(m.activeHours) && |m.activeHours| == m.activeHoursCount <= 24 &&
      (forall h: Hour :: h in m.activeHours <==> h in HoursOf(day, clock)) &&
      0.0 <= m.threadParticipation <= 1.0 &&
      0.0 <= m.engagementScore <= 1.0 &&
      ((forall i :: 0 <= i < |day| ==> day[i].sentiment.None?) ==> m.avgSentiment == 0.0)
  {
    BucketOverFacts(day, clock);
  }

  function MessageCountOf(b: Bucket): int { b.messageCount }

  /** The channel's buckets count every message exactly once. */
  lemma {:induction false} BucketsCountAll(msgs: seq<Message>, clock: Clock)
    ensures SumBy(BucketsOf(msgs, clock), MessageCountOf) == |msgs|
    decreases |msgs|
  {
    if msgs != [] {
      var init := msgs[..|msgs| - 1];
      var m := msgs[|msgs| - 1];
      var t := clock(m.ts);
      var buckets := BucketsOf(init, clock);
      BucketsCountAll(init, clock);
      var b := Get(buckets, t.date).GetOr(EmptyBucket);
      SumByPut(buckets, t.date, AddMessage(b, m, t.hour), MessageCountOf);
    }
  }

  // ---------------------------------------------------------------------
  // Engagement score
  // ---------------------------------------------------------------------

  const MessageWeight: real := 0.4
  const ReactionWeight: real := 0.3
  const EmojiWeight: real := 0.2
  const HoursWeight: real := 0.1
  const MessageCap: real := 20.0
  const ReactionCap: real := 10.0
  const EmojiCap: real := 15.0
  const HoursInDay: real := 24.0

  /** The weighted combination before rounding; the hours term has no cap. */
  function EngagementRaw(messages: int, reactions: int, emojis: int, hours: int): real
  {
    MessageWeight * Min(messages as real / MessageCap, 1.0) +
    ReactionWeight * Min(reactions as real / ReactionCap, 1.0) +
    EmojiWeight * Min(emojis as real / EmojiCap, 1.0) +
    HoursWeight * (hours as real / HoursInDay)
  }

  /** `calculate_engagement_score`: in [0, 1] for non-negative counts and at
      most 24 active hours. */
  function EngagementScore(messages: int, reactions: int, emojis: int, hours: int): (s: real)
    ensures 0 <= messages && 0 <= reactions && 0 <= emojis && 0 <= hours <= 24 ==> 0.0 <= s <= 1.0
  {
    EngagementRawBounds(messages, reactions, emojis, hours);
    Round(EngagementRaw(messages, reactions, emojis, hours), 3)
  }

  lemma EngagementRawBounds(messages: int, reactions: int, emojis: int, hours: int)
    ensures 0 <= messages && 0 <= reactions && 0 <= emojis && 0 <= hours <= 24 ==>
      0.0 <= EngagementRaw(messages, reactions, emojis, hours) <= 1.0
  {
  }

  /** A day with at least 20 messages, 10 reactions, 15 emojis and activity
      in every hour scores exactly 1.0. */
  lemma EngagementSaturates(messages: int, reactions: int, emojis: int)
    requires messages >= 20 && reactions >= 10 && emojis >= 15
    ensures EngagementScore(messages, reactions, emojis, 24) == 1.0
  {
    assert EngagementRaw(messages, reactions, emojis, 24) == 1.0;
    RoundWhole(1, 3);
  }

  /** Counts beyond their caps add nothing. */
  lemma EngagementCapped(m1: int, m2: int, r1: int, r2: int, e1: int, e2: int, hours: int)
    requires m1 == m2 || (m1 >= 20 && m2 >= 20)
    requires r1 == r2 || (r1 >= 10 && r2 >= 10)
    requires e1 == e2 || (e1 >= 15 && e2 >= 15)
    ensures EngagementScore(m1, r1, e1, hours) == EngagementScore(m2, r2, e2, hours)
  {
    assert EngagementRaw(m1, r1, e1, hours) == EngagementRaw(m2, r2, e2, hours);
  }

  /** More activity of any kind never lowers the score. */
  lemma EngagementMonotone(m1: int, m2: int, r1: int, r2: int, e1: int, e2: int, h1: int, h2: int)
    requires m1 <= m2 && r1 <= r2 && e1 <= e2 && h1 <= h2
    ensures EngagementScore(m1, r1, e1, h1) <= EngagementScore(m2, r2, e2, h2)
  {
    assert EngagementRaw(m1, r1, e1, h1) <= EngagementRaw(m2, r2, e2, h2);
    RoundMonotone(EngagementRaw(m1, r1, e1, h1), EngagementRaw(m2, r2, e2, h2), 3);
  }

  // ---------------------------------------------------------------------
  // calculate_daily_metrics, step by step
  // ---------------------------------------------------------------------

  /** The message loop of `calculate_daily_metrics` for one channel. */
  method BucketMessages(messages: seq<Message>, clock: Clock) returns (buckets: Dict<int, Bucket>)
    ensures buckets == BucketsOf(messages, clock)
  {
    buckets := [];
    for i := 0 to |messages|
      invariant buckets == BucketsOf(messages[..i], clock)
    {
      var message := messages[i];
      var tsInfo := clock(message.ts);
      var date := tsInfo.date;
      var data := Get(buckets, date).GetOr(EmptyBucket);
      ghost var before := data;
      data := data.(messageCount := data.messageCount + 1);
      data := data.(activeHours := data.activeHours + {tsInfo.hour});
      if message.sentiment.Some? {
        data := data.(sentimentScores := data.sentimentScores + [message.sentiment.value.overall]);
        data := data.(emojiCounts := data.emojiCounts + message.sentiment.value.emojiCount);
      }
      if message.reactions != [] {
        data := data.(reactionCounts := data.reactionCounts + ReactionTotal(message.reactions));
      }
      if message.IsThreadReply() {
        data := data.(threadMessages := data.threadMessages + 1);
      }
      assert data == AddMessage(before, message, tsInfo.hour) by {
        assert message.reactions == [] ==> ReactionTotal(message.reactions) == 0;
      }
      NextBuckets(messages, i, clock);
      buckets := Put(buckets, date, data);
    }
    assert messages[..|messages|] == messages;
  }

  lemma NextBuckets(messages: seq<Message>, i: nat, clock: Clock)
    requires i < |messages|
    ensures var t := clock(messages[i].ts);
      var buckets := BucketsOf(messages[..i], clock);
      BucketsOf(messages[..i + 1], clock) ==
        Put(buckets, t.date, AddMessage(Get(buckets, t.date).GetOr(EmptyBucket), messages[i], t.hour))
  {
    assert messages[..i + 1][..i] == messages[..i];
  }

  /** `calculate_daily_metrics`: for every channel with messages, one day
      record per local date, in order of each date's first message. */
  method CalculateDailyMetrics(channelData: Dict<string, seq<Message>>, clock: Clock)
    returns (dailyMetrics: Dict<string, Dict<int, DayMetrics>>)
    ensures dailyMetrics == DailyMetricsOf(channelData, clock)
  {
    dailyMetrics := [];
    for c := 0 to |channelData|
      invariant dailyMetrics == DailyMetricsOf(channelData[..c], clock)
    {
      var (channelName, messages) := channelData[c];
      var channelDailyData := BucketMessages(messages, clock);
      var channelMetrics: Dict<int, DayMetrics> := [];
      for j := 0 to |channelDailyData|
        invariant channelMetrics == FinalizeAll(channelDailyData[..j])
      {
        FinalizeStep(channelDailyData, j);
        channelMetrics := channelMetrics + [(channelDailyData[j].0, Finalize(channelDailyData[j].1))];
      }
      assert channelDailyData[..|channelDailyData|] == channelDailyData;
      NextDaily(channelData, c, clock);
      if messages != [] {
        dailyMetrics := dailyMetrics + [(channelName, channelMetrics)];
      }
    }
    assert channelData[..|channelData|] == channelData;
  }

  lemma FinalizeStep(buckets: Dict<int, Bucket>, j: nat)
    requires j < |buckets|
    ensures FinalizeAll(buckets[..j + 1]) == FinalizeAll(buckets[..j]) + [(buckets[j].0, Finalize(buckets[j].1))]
  {
    MapValuesStep(buckets, Finalize, j);
  }


  lemma NextDaily(channelData: Dict<string, seq<Message>>, c: nat, clock: Clock)
    requires c < |channelData|
    ensures var (name, msgs) := channelData[c];
      DailyMetricsOf(channelData[..c + 1], clock) ==
        if msgs == [] then DailyMetricsOf(channelData[..c], clock)
        else DailyMetricsOf(channelData[..c], clock) + [(name, FinalizeAll(BucketsOf(msgs, clock)))]
  {
    assert channelData[..c + 1][..c] == channelData[..c];
  }

  // ---------------------------------------------------------------------
  // Trend direction (calculate_trend_direction)
  // ---------------------------------------------------------------------

  datatype Direction = Increasing | Decreasing | Stable

  /** `direction`, `change` and, for two or more values, `slope`. */
  datatype Trend = Trend(direction: Direction, change: real, slope: Option<real>)

  /** `sum(range(n))` as a real. */
  function IndexSum(n: nat): real
  {
    if n == 0 then 0.0 else IndexSum(n - 1) + (n - 1) as real
  }

  /** The least-squares numerator, over the first |v| positions. */
  function CrossSum(v: seq<real>, xMean: real, yMean: real): real
    decreases |v|
  {
    if v == [] then 0.0
    else CrossSum(v[..|v| - 1], xMean, yMean) + ((|v| - 1) as real - xMean) * (v[|v| - 1] - yMean)
  }

  /** The least-squares denominator, over the first n positions. */
  function SquareSum(n: nat, xMean: real): (r: real)
    ensures r >= 0.0
  {
    if n == 0 then 0.0
    else
      var d := (n - 1) as real - xMean;
      SquareNonNegative(d);
      SquareSum(n - 1, xMean) + d * d
  }

  /** The slope of the least-squares line through (i, v[i]), 0 when the
      denominator vanishes. */
  function OlsSlope(v: seq<real>): real
    requires v != []
  {
    var n := |v| as real;
    var xMean := IndexSum(|v|) / n;
    var yMean := Sum(v) / n;
    var denominator := SquareSum(|v|, xMean);
    if denominator == 0.0 then 0.0 else CrossSum(v, xMean, yMean) / denominator
  }

  const TrendThreshold: real := 0.05

  /** The three-way classification of a slope. */
  function Classify(slope: real): (d: Direction)
    ensures d == Increasing <==> slope > TrendThreshold
    ensures d == Decreasing <==> slope < -TrendThreshold
    ensures d == Stable <==> -TrendThreshold <= slope <= TrendThreshold
  {
    if slope > TrendThreshold then Increasing
    else if slope < -TrendThreshold then Decreasing
    else Stable
  }

  function Abs(x: real): real { if x < 0.0 then -x else x }

  /** The change from the first to the last value in percent of the first,
      0.0 when the first is 0. */
  function PercentChange(v: seq<real>): (c: real)
    requires v != []
    ensures v[0] == 0.0 ==> c == 0.0
    ensures v[0] != 0.0 && v[|v| - 1] == v[0] ==> c == 0.0
    ensures v[0] > 0.0 ==> (c > 0.0 <==> v[|v| - 1] > v[0])
  {
    if v[0] != 0.0 then (v[|v| - 1] - v[0]) / Abs(v[0]) * 100.0 else 0.0
  }

  /** `calculate_trend_direction`. */
  function TrendDirection(values: seq<real>): (t: Trend)
    ensures |values| < 2 ==> t == Trend(Stable, 0.0, None)
    ensures |values| >= 2 ==>
      t.direction == Classify(OlsSlope(values)) &&
      t.change == Round(PercentChange(values), 2) &&
      t.slope == Some(Round(OlsSlope(values), 4))
  {
    if |values| < 2 then Trend(Stable, 0.0, None)
    else
      var slope := OlsSlope(values);
      Trend(Classify(slope), Round(PercentChange(values), 2), Some(Round(slope, 4)))
  }

  /** With two or more points the denominator is positive, so the slope is
      never the division-by-zero default. */
  lemma DenominatorPositive(n: nat, xMean: real)
    requires n >= 2
    ensures SquareSum(n, xMean) > 0.0
    decreases n
  {
    if n == 2 {
      assert SquareSum(2, xMean) == (0.0 - xMean) * (0.0 - xMean) + (1.0 - xMean) * (1.0 - xMean);
      if xMean == 0.0 {
        assert (1.0 - xMean) * (1.0 - xMean) == 1.0;
        SquareNonNegative(0.0 - xMean);
      } else {
        SquarePositive(0.0 - xMean);
        SquareNonNegative(1.0 - xMean);
      }
    } else {
      DenominatorPositive(n - 1, xMean);
      SquareNonNegative((n - 1) as real - xMean);
    }
  }

  /** Values on a straight line a + b*i have slope exactly b. */
  lemma LinearSlope(v: seq<real>, a: real, b: real)
    requires |v| >= 2
    requires forall i :: 0 <= i < |v| ==> v[i] == a + b * i as real
    ensures OlsSlope(v) == b
  {
    var n := |v| as real;
    var xMean := IndexSum(|v|) / n;
    var yMean := Sum(v) / n;
    LinearMeans(v, a, b);
    CrossLinear(v, a, b, xMean, yMean);
    var den := SquareSum(|v|, xMean);
    DenominatorPositive(|v|, xMean);
    OlsSlopeIs(v, xMean, yMean);
    CancelScale(b, den);
  }

  /** The means of a straight line lie on it. */
  lemma LinearMeans(v: seq<real>, a: real, b: real)
    requires v != []
    requires forall i :: 0 <= i < |v| ==> v[i] == a + b * i as real
    ensures Sum(v) / |v| as real == a + b * (IndexSum(|v|) / |v| as real)
  {
    var n, s := |v| as real, IndexSum(|v|);
    SumLinear(v, a, b);
    assert Sum(v) == n * a + b * s;
    DivideLinear(n, a, b, s);
  }

  lemma OlsSlopeIs(v: seq<real>, xMean: real, yMean: real)
    requires v != []
    requires xMean == IndexSum(|v|) / |v| as real && yMean == Sum(v) / |v| as real
    requires SquareSum(|v|, xMean) != 0.0
    ensures OlsSlope(v) == CrossSum(v, xMean, yMean) / SquareSum(|v|, xMean)
  {
  }

  lemma DivideLinear(n: real, a: real, b: real, s: real)
    requires n > 0.0
    ensures (n * a + b * s) / n == a + b * (s / n)
  {
  }

  lemma {:induction false} SumLinear(v: seq<real>, a: real, b: real)
    requires forall i :: 0 <= i < |v| ==> v[i] == a + b * i as real
    ensures Sum(v) == |v| as real * a + b * IndexSum(|v|)
    decreases |v|
  {
    if v != [] {
      var k := |v| - 1;
      SumLinear(v[..k], a, b);
      assert Sum(v) == k as real * a + b * IndexSum(k) + (a + b * k as real);
      assert b * IndexSum(k) + b * k as real == b * (IndexSum(k) + k as real);
    }
  }

  lemma {:induction false} CrossLinear(v: seq<real>, a: real, b: real, xMean: real, yMean: real)
    requires forall i :: 0 <= i < |v| ==> v[i] == a + b * i as real
    requires yMean == a + b * xMean
    ensures CrossSum(v, xMean, yMean) == b * SquareSum(|v|, xMean)
    decreases |v|
  {
    if v != [] {
      var k := |v| - 1;
      CrossLinear(v[..k], a, b, xMean, yMean);
      var d := k as real - xMean;
      assert v[k] - yMean == b * d;
      assert d * (b * d) == b * (d * d);
      assert b * SquareSum(k, xMean) + b * (d * d) == b * (SquareSum(k, xMean) + d * d);
    }
  }

  /** A straight-line series is classified by its slope alone. */
  lemma LinearTrend(v: seq<real>, a: real, b: real)
    requires |v| >= 2
    requires forall i :: 0 <= i < |v| ==> v[i] == a + b * i as real
    ensures TrendDirection(v).direction == Classify(b)
  {
    LinearSlope(v, a, b);
  }

  /** A constant series is stable, with change 0 and slope 0. */
  lemma ConstantTrend(v: seq<real>, c: real)
    requires |v| >= 2
    requires forall i :: 0 <= i < |v| ==> v[i] == c
    ensures TrendDirection(v) == Trend(Stable, 0.0, Some(0.0))
  {
    LinearSlope(v, c, 0.0);
    RoundWhole(0, 2);
    RoundWhole(0, 4);
  }

  // ---------------------------------------------------------------------
  // calculate_engagement_trends
  // ---------------------------------------------------------------------

  /** A channel's entry of `calculate_engagement_trends`: the all-stable
      record (with `trend_strength` 0.0 and no change fields) when its window
      has fewer than two dates, otherwise the three directions and changes
      and the window means. */
  datatype ChannelTrend =
    | ShortTrend
    | FullTrend(
        sentimentTrend: Direction, sentimentChange: real,
        engagementTrend: Direction, engagementChange: real,
        messageTrend: Direction, messageChange: real,
        recentAvgSentiment: real, recentAvgEngagement: real)
  {
    /** `trend.get('sentiment_trend')`. */
    function SentimentDirection(): Direction
    {
      if ShortTrend? then Stable else sentimentTrend
    }

    /** `trend.get('sentiment_change', 0)`. */
    function SentimentChangeOrZero(): real
    {
      if ShortTrend? then 0.0 else sentimentChange
    }

    /** `trend.get('engagement_trend')`. */
    function EngagementDirection(): Direction
    {
      if ShortTrend? then Stable else engagementTrend
    }
  }

  function AvgSentimentOf(m: DayMetrics): real { m.avgSentiment }
  function EngagementScoreOf(m: DayMetrics): real { m.engagementScore }
  function MessageCountAsReal(m: DayMetrics): real { m.messageCount as real }

  /** `[channel_metrics[date][key] for date in dates]`. */
  function Column(cm: Dict<int, DayMetrics>, dates: seq<int>, f: DayMetrics -> real): (r: seq<real>)
    requires forall d :: d in dates ==> d in Keys(cm)
    ensures |r| == |dates|
    ensures forall i :: 0 <= i < |dates| ==> Get(cm, dates[i]).Some? && r[i] == f(Get(cm, dates[i]).value)
    decreases |dates|
  {
    if dates == [] then []
    else Column(cm, dates[..|dates| - 1], f) + [f(Get(cm, dates[|dates| - 1]).value)]
  }

  /** `recent_dates`: the last `days` of the sorted dates, under Python's
      reading of the slice. */
  function RecentDates(cm: Dict<int, DayMetrics>, days: int): (r: seq<int>)
    requires DistinctKeys(cm)
    ensures StrictlySorted(r)
    ensures forall d :: d in r ==> d in Keys(cm)
    ensures |r| <= |cm| && r == SortedKeys(cm)[|cm| - |r|..]
    ensures days >= 1 ==> |r| == if days <= |cm| then days else |cm|
  {
    var dates := SortedKeys(cm);
    var r := TailWindow(dates, days);
    assert forall i :: 0 <= i < |r| ==> r[i] == dates[|dates| - |r| + i];
    r
  }

  /** The trend record of one non-empty channel. */
  function ChannelTrendOf(cm: Dict<int, DayMetrics>, days: int): ChannelTrend
    requires DistinctKeys(cm)
  {
    var recent := RecentDates(cm, days);
    if |recent| < 2 then ShortTrend
    else
      var sentimentValues := Column(cm, recent, AvgSentimentOf);
      var engagementValues := Column(cm, recent, EngagementScoreOf);
      var messageValues := Column(cm, recent, MessageCountAsReal);
      var sentimentTrend := TrendDirection(sentimentValues);
      var engagementTrend := TrendDirection(engagementValues);
      var messageTrend := TrendDirection(messageValues);
      FullTrend(
        sentimentTrend.direction, sentimentTrend.change,
        engagementTrend.direction, engagementTrend.change,
        messageTrend.direction, messageTrend.change,
        Sum(sentimentValues) / |sentimentValues| as real,
        Sum(engagementValues) / |engagementValues| as real)
  }

  /** The recent averages of a full record lie between the smallest and the
      largest value of the window they average. */
  lemma RecentAveragesWithin(cm: Dict<int, DayMetrics>, days: int)
    requires DistinctKeys(cm)
    ensures var t := ChannelTrendOf(cm, days);
      var recent := RecentDates(cm, days);
      t.FullTrend? ==>
        |recent| >= 2 &&
        var sv := Column(cm, recent, AvgSentimentOf);
        var ev := Column(cm, recent, EngagementScoreOf);
        sv[FirstMinIndex(sv)] <= t.recentAvgSentiment <= sv[FirstMaxIndex(sv)] &&
        ev[FirstMinIndex(ev)] <= t.recentAvgEngagement <= ev[FirstMaxIndex(ev)]
  {
    var recent := RecentDates(cm, days);
    if |recent| >= 2 {
      var t := ChannelTrendOf(cm, days);
      var sv := Column(cm, recent, AvgSentimentOf);
      var ev := Column(cm, recent, EngagementScoreOf);
      assert t.recentAvgSentiment == Mean(sv) && t.recentAvgEngagement == Mean(ev);
      MeanBetweenExtremes(sv);
      MeanBetweenExtremes(ev);
    }
  }

  /** A window whose days all have the same average sentiment c shows a
      stable sentiment, with change 0 and recent average c. */
  lemma SteadySentimentIsStable(cm: Dict<int, DayMetrics>, days: int, c: real)
    requires DistinctKeys(cm)
    requires forall i :: 0 <= i < |cm| ==> cm[i].0 in RecentDates(cm, days) ==> cm[i].1.avgSentiment == c
    ensures var t := ChannelTrendOf(cm, days);
      t.FullTrend? ==> t.sentimentTrend == Stable && t.sentimentChange == 0.0 && t.recentAvgSentiment == c
  {
    var recent := RecentDates(cm, days);
    if |recent| >= 2 {
      var sv := Column(cm, recent, AvgSentimentOf);
      forall i | 0 <= i < |sv| ensures sv[i] == c {
        var v := Get(cm, recent[i]).value;
        var j :| 0 <= j < |cm| && cm[j] == (recent[i], v);
      }
      ConstantTrend(sv, c);
      MeanConstant(sv, c);
    }
  }

  /** With the default window of 7 days, a channel gets a full trend record
      exactly when it has two or more dates, and the window is its last
      min(7, n) dates. */
  lemma TrendWindow(cm: Dict<int, DayMetrics>, days: int)
    requires DistinctKeys(cm) && days >= 2
    ensures ChannelTrendOf(cm, days).FullTrend? <==> |cm| >= 2
    ensures |RecentDates(cm, days)| == if days <= |cm| then days else |cm|
  {
  }

  /** Every inner dict of a `daily_metrics` value has distinct dates. */
  predicate WellFormed(dm: Dict<string, Dict<int, DayMetrics>>)
  {
    forall e :: e in dm ==> DistinctKeys(e.1)
  }

  /** `calculate_engagement_trends`: one record per channel with day
      records, in channel order; channels without records are skipped. */
  function TrendsOf(dm: Dict<string, Dict<int, DayMetrics>>, days: int): (r: Dict<string, ChannelTrend>)
    requires WellFormed(dm)
    ensures |r| <= |dm|
    decreases |dm|
  {
    if dm == [] then []
    else
      var k := |dm| - 1;
      WellFormedPrefix(dm, k);
      var init := TrendsOf(dm[..k], days);
      var (name, cm) := dm[k];
      assert dm[k] in dm;
      if cm == [] then init else init + [(name, ChannelTrendOf(cm, days))]
  }

  lemma WellFormedPrefix(dm: Dict<string, Dict<int, DayMetrics>>, k: nat)
    requires WellFormed(dm) && k <= |dm|
    ensures WellFormed(dm[..k])
  {
    forall e | e in dm[..k] ensures DistinctKeys(e.1) { assert e in dm; }
  }

  /** Each record of `calculate_engagement_trends` is the trend of a channel
      with day records. */
  lemma {:induction false} TrendsOfEntries(dm: Dict<string, Dict<int, DayMetrics>>, days: int)
    requires WellFormed(dm)
    ensures forall c, t :: (c, t) in TrendsOf(dm, days) ==> exists cm :: (c, cm) in dm && cm != [] && t == ChannelTrendOf(cm, days)
    decreases |dm|
  {
    if dm != [] {
      var k := |dm| - 1;
      var head := dm[..k];
      WellFormedPrefix(dm, k);
      TrendsOfEntries(head, days);
      var init := TrendsOf(head, days);
      var (name, last) := dm[k];
      assert (name, last) in dm;
      forall c, t | (c, t) in TrendsOf(dm, days)
        ensures exists cm :: (c, cm) in dm && cm != [] && t == ChannelTrendOf(cm, days)
      {
        if (c, t) in init {
          var cm :| (c, cm) in head && cm != [] && t == ChannelTrendOf(cm, days);
          assert (c, cm) in dm;
        }
      }
    }
  }

  /** The last channel adds its name to the trend keys when it has day
      records. */
  lemma TrendsOfKeysStep(dm: Dict<string, Dict<int, DayMetrics>>, days: int)
    requires WellFormed(dm) && dm != []
    ensures WellFormed(dm[..|dm| - 1])
    ensures Keys(TrendsOf(dm, days)) ==
      Keys(TrendsOf(dm[..|dm| - 1], days)) + (if dm[|dm| - 1].1 != [] then [dm[|dm| - 1].0] else [])
  {
    var k := |dm| - 1;
    WellFormedPrefix(dm, k);
    var init := TrendsOf(dm[..k], days);
    var last := dm[k];
    if last.1 != [] {
      var t := ChannelTrendOf(last.1, days);
      assert TrendsOf(dm, days) == init + [(last.0, t)];
      KeysAppend(init, (last.0, t));
    }
  }

  /** The keys of d whose value is not empty, in d's order. */
  function KeysWithEntries<K, V>(d: Dict<K, seq<V>>): seq<K>
    decreases |d|
  {
    if d == [] then []
    else KeysWithEntries(d[..|d| - 1]) + (if d[|d| - 1].1 != [] then [d[|d| - 1].0] else [])
  }

  lemma {:induction false} KeysWithEntriesCover<K, V>(d: Dict<K, seq<V>>, j: nat)
    requires j < |d| && d[j].1 != []
    ensures d[j].0 in KeysWithEntries(d)
    decreases |d|
  {
    var k := |d| - 1;
    if j < k {
      assert d[..k][j] == d[j];
      KeysWithEntriesCover(d[..k], j);
    }
  }

  /** The trend records are keyed by the channels that have day records. */
  lemma {:induction false} TrendsOfKeys(dm: Dict<string, Dict<int, DayMetrics>>, days: int)
    requires WellFormed(dm)
    ensures Keys(TrendsOf(dm, days)) == KeysWithEntries(dm)
    decreases |dm|
  {
    if dm != [] {
      TrendsOfKeysStep(dm, days);
      TrendsOfKeys(dm[..|dm| - 1], days);
    }
  }

  /** Every channel with day records has a trend record. */
  lemma TrendsOfCovers(dm: Dict<string, Dict<int, DayMetrics>>, days: int)
    requires WellFormed(dm)
    ensures forall c, cm :: (c, cm) in dm && cm != [] ==> c in Keys(TrendsOf(dm, days))
  {
    TrendsOfKeys(dm, days);
    forall c, cm | (c, cm) in dm && cm != []
      ensures c in Keys(TrendsOf(dm, days))
    {
      var j :| 0 <= j < |dm| && dm[j] == (c, cm);
      KeysWithEntriesCover(dm, j);
    }
  }

  // ---------------------------------------------------------------------
  // analyze_peak_activity_patterns
  // ---------------------------------------------------------------------

  datatype PeakActivity = PeakActivity(
    peakHour: Hour,
    peakDay: Weekday,
    hourlyDistribution: Dict<Hour, int>,
    dailyDistribution: Dict<Weekday, int>,
    totalMessages: int)

  /** All messages of all channels, channel by channel. */
  function AllMessages(channelData: Dict<string, seq<Message>>): seq<Message>
    decreases |channelData|
  {
    if channelData == [] then []
    else AllMessages(channelData[..|channelData| - 1]) + channelData[|channelData| - 1].1
  }

  function WeekdaysOf(msgs: seq<Message>, clock: Clock): (r: seq<Weekday>)
    ensures |r| == |msgs|
    decreases |msgs|
  {
    if msgs == [] then [] else WeekdaysOf(msgs[..|msgs| - 1], clock) + [clock(msgs[|msgs| - 1].ts).weekday]
  }

  /** The i-th weekday is the weekday of the i-th message. */
  lemma {:induction false} WeekdayAt(msgs: seq<Message>, clock: Clock, i: nat)
    requires i < |msgs|
    ensures WeekdaysOf(msgs, clock)[i] == clock(msgs[i].ts).weekday
    decreases |msgs|
  {
    if i < |msgs| - 1 {
      WeekdayAt(msgs[..|msgs| - 1], clock, i);
    }
  }

  /** The counters as reals, for the first-wins maximum. */
  function CountsAsReals<K>(d: Dict<K, int>): (r: seq<real>)
    ensures |r| == |d| && forall i :: 0 <= i < |d| ==> r[i] == d[i].1 as real
  {
    seq(|d|, i requires 0 <= i < |d| => d[i].1 as real)
  }

  /** `max(d.items(), key=lambda x: x[1])[0] if d else default`: the first
      key, in insertion order, whose count is the largest. */
  function PeakKey<K>(d: Dict<K, int>, default: K): (k: K)
    ensures d == [] ==> k == default
    ensures d != [] ==> exists i :: 0 <= i < |d| && d[i].0 == k &&
                          (forall j :: 0 <= j < |d| ==> d[j].1 <= d[i].1) &&
                          (forall j :: 0 <= j < i ==> d[j].1 < d[i].1)
  {
    if d == [] then default
    else
      var i := FirstMaxIndex(CountsAsReals(d));
      assert forall j :: 0 <= j < |d| ==> CountsAsReals(d)[j] <= CountsAsReals(d)[i];
      d[i].0
  }

  lemma AllMessagesStep(channelData: Dict<string, seq<Message>>, c: nat)
    requires c < |channelData|
    ensures AllMessages(channelData[..c + 1]) == AllMessages(channelData[..c]) + channelData[c].1
  {
    assert channelData[..c + 1][..c] == channelData[..c];
  }

  lemma {:induction false} LocalTimesConcat(a: seq<Message>, b: seq<Message>, clock: Clock)
    ensures HoursOf(a + b, clock) == HoursOf(a, clock) + HoursOf(b, clock)
    ensures WeekdaysOf(a + b, clock) == WeekdaysOf(a, clock) + WeekdaysOf(b, clock)
    decreases |b|
  {
    if b == [] {
      assert a + b == a;
    } else {
      var b' := b[..|b| - 1];
      assert (a + b)[..|a + b| - 1] == a + b';
      LocalTimesConcat(a, b', clock);
    }
  }

  /** The message loop counts one more hour and weekday per message. */
  lemma {:induction false} PeakInnerStep(
    hours: Dict<Hour, int>, days: Dict<Weekday, int>, messages: seq<Message>, i: nat, clock: Clock)
    requires i < |messages|
    ensures var t := clock(messages[i].ts);
      CountInto(hours, HoursOf(messages[..i + 1], clock)) == Bump(CountInto(hours, HoursOf(messages[..i], clock)), t.hour) &&
      CountInto(days, WeekdaysOf(messages[..i + 1], clock)) == Bump(CountInto(days, WeekdaysOf(messages[..i], clock)), t.weekday)
  {
    assert messages[..i + 1][..i] == messages[..i];
    var hs := HoursOf(messages[..i + 1], clock);
    CountIntoStep(hours, hs, i);
    assert hs[..i + 1] == hs && hs[..i] == HoursOf(messages[..i], clock);
    var ws := WeekdaysOf(messages[..i + 1], clock);
    CountIntoStep(days, ws, i);
    assert ws[..i + 1] == ws && ws[..i] == WeekdaysOf(messages[..i], clock);
  }

  /** A channel's messages are counted after those of the channels before. */
  lemma PeakOuterStep(channelData: Dict<string, seq<Message>>, c: nat, clock: Clock)
    requires c < |channelData|
    ensures var before, msgs := AllMessages(channelData[..c]), channelData[c].1;
      Tally(HoursOf(AllMessages(channelData[..c + 1]), clock)) == CountInto(Tally(HoursOf(before, clock)), HoursOf(msgs, clock)) &&
      Tally(WeekdaysOf(AllMessages(channelData[..c + 1]), clock)) == CountInto(Tally(WeekdaysOf(before, clock)), WeekdaysOf(msgs, clock))
  {
    var before, msgs := AllMessages(channelData[..c]), channelData[c].1;
    AllMessagesStep(channelData, c);
    LocalTimesConcat(before, msgs, clock);
    CountIntoAppend([], HoursOf(before, clock), HoursOf(msgs, clock));
    CountIntoAppend([], WeekdaysOf(before, clock), WeekdaysOf(msgs, clock));
  }

  /** `analyze_peak_activity_patterns`. */
  method AnalyzePeakActivityPatterns(channelData: Dict<string, seq<Message>>, clock: Clock)
    returns (p: PeakActivity)
    ensures p.hourlyDistribution == Tally(HoursOf(AllMessages(channelData), clock))
    ensures p.dailyDistribution == Tally(WeekdaysOf(AllMessages(channelData), clock))
    ensures p.peakHour == PeakKey(p.hourlyDistribution, 12)
    ensures p.peakDay == PeakKey(p.dailyDistribution, Monday)
    ensures p.totalMessages == |AllMessages(channelData)|
    ensures AllMessages(channelData) == [] ==> p.peakHour == 12 && p.peakDay == Monday
  {
    var hourlyActivity: Dict<Hour, int> := [];
    var dailyActivity: Dict<Weekday, int> := [];
    for c := 0 to |channelData|
      invariant hourlyActivity == Tally(HoursOf(AllMessages(channelData[..c]), clock))
      invariant dailyActivity == Tally(WeekdaysOf(AllMessages(channelData[..c]), clock))
    {
      var messages := channelData[c].1;
      ghost var hoursBefore, daysBefore := hourlyActivity, dailyActivity;
      for i := 0 to |messages|
        invariant hourlyActivity == CountInto(hoursBefore, HoursOf(messages[..i], clock))
        invariant dailyActivity == CountInto(daysBefore, WeekdaysOf(messages[..i], clock))
      {
        var tsInfo := clock(messages[i].ts);
        PeakInnerStep(hoursBefore, daysBefore, messages, i, clock);
        hourlyActivity := Bump(hourlyActivity, tsInfo.hour);
        dailyActivity := Bump(dailyActivity, tsInfo.weekday);
      }
      assert messages[..|messages|] == messages;
      PeakOuterStep(channelData, c, clock);
    }
    assert channelData[..|channelData|] == channelData;
    var peakHour := PeakKey(hourlyActivity, 12);
    var peakDay := PeakKey(dailyActivity, Monday);
    TallyTotal(HoursOf(AllMessages(channelData), clock));
    p := PeakActivity(peakHour, peakDay, hourlyActivity, dailyActivity, Total(hourlyActivity));
  }

  // ---------------------------------------------------------------------
  // get_sentiment_distribution
  // ---------------------------------------------------------------------

  /** Percentages of positive, neutral and negative values. */
  datatype Distribution = Distribution(positive: real, neutral: real, negative: real)

  function CountAbove(s: seq<real>, t: real): (k: nat)
    ensures k <= |s|
    decreases |s|
  {
    if s == [] then 0 else CountAbove(s[..|s| - 1], t) + (if s[|s| - 1] > t then 1 else 0)
  }

  function CountBelow(s: seq<real>, t: real): (k: nat)
    ensures k <= |s|
    decreases |s|
  {
    if s == [] then 0 else CountBelow(s[..|s| - 1], t) + (if s[|s| - 1] < t then 1 else 0)
  }

  function CountWithin(s: seq<real>, lo: real, hi: real): (k: nat)
    ensures k <= |s|
    decreases |s|
  {
    if s == [] then 0 else CountWithin(s[..|s| - 1], lo, hi) + (if lo <= s[|s| - 1] <= hi then 1 else 0)
  }

  const PositiveBound: real := 0.1
  const NegativeBound: real := -0.1

  /** The three percentages before rounding; neutral is what remains. */
  function RawDistribution(s: seq<real>): Distribution
    requires s != []
  {
    var n := |s| as real;
    var positive := CountAbove(s, PositiveBound) as real / n * 100.0;
    var negative := CountBelow(s, NegativeBound) as real / n * 100.0;
    Distribution(positive, 100.0 - positive - negative, negative)
  }

  /** `get_sentiment_distribution`. */
  function SentimentDistribution(s: seq<real>): (d: Distribution)
    ensures s == [] ==> d == Distribution(0.0, 0.0, 0.0)
    ensures 0.0 <= d.positive <= 100.0 && 0.0 <= d.neutral <= 100.0 && 0.0 <= d.negative <= 100.0
  {
    if s == [] then Distribution(0.0, 0.0, 0.0)
    else
      var raw := RawDistribution(s);
      RawDistributionShares(s);
      RoundWithin(raw.positive, 1, 0, 100);
      RoundWithin(raw.neutral, 1, 0, 100);
      RoundWithin(raw.negative, 1, 0, 100);
      Distribution(Round(raw.positive, 1), Round(raw.neutral, 1), Round(raw.negative, 1))
  }

  /** Every value falls in exactly one band: above 0.1, below -0.1, or in
      [-0.1, 0.1]. */
  lemma {:induction false} BandsPartition(s: seq<real>)
    ensures CountAbove(s, PositiveBound) + CountBelow(s, NegativeBound) + CountWithin(s, NegativeBound, PositiveBound) == |s|
    decreases |s|
  {
    if s != [] {
      BandsPartition(s[..|s| - 1]);
    }
  }

  /** Before rounding, each share is the percentage of values in its band,
      so neutral is the share of [-0.1, 0.1], and all lie in [0, 100]. */
  lemma RawDistributionShares(s: seq<real>)
    requires s != []
    ensures RawDistribution(s).neutral == CountWithin(s, NegativeBound, PositiveBound) as real / |s| as real * 100.0
    ensures 0.0 <= RawDistribution(s).positive <= 100.0
    ensures 0.0 <= RawDistribution(s).neutral <= 100.0
    ensures 0.0 <= RawDistribution(s).negative <= 100.0
  {
    var n := |s| as real;
    var a, b, w := CountAbove(s, PositiveBound) as real, CountBelow(s, NegativeBound) as real,
      CountWithin(s, NegativeBound, PositiveBound) as real;
    BandsPartition(s);
    ShareOf(a, n);
    ShareOf(b, n);
    ShareOf(w, n);
    SharesAddUp(a, b, w, n);
  }

  /** Three parts of n, in percent, add up to 100. */
  lemma SharesAddUp(a: real, b: real, w: real, n: real)
    requires a + b + w == n && n > 0.0
    ensures 100.0 - a / n * 100.0 - b / n * 100.0 == w / n * 100.0
  {
    DivisionAdds(a + b, w, n);
    DivisionAdds(a, b, n);
    assert n / n == 1.0;
  }

  lemma DivisionAdds(a: real, b: real, n: real)
    requires n > 0.0
    ensures (a + b) / n == a / n + b / n
  {
  }

  /** k of n, in percent, lies in [0, 100]. */
  lemma ShareOf(k: real, n: real)
    requires 0.0 <= k <= n && n > 0.0
    ensures 0.0 <= k / n * 100.0 <= 100.0
  {
    QuotientMonotone(0.0, k, n);
    QuotientMonotone(k, n, n);
  }

  // ---------------------------------------------------------------------
  // get_engagement_summary
  // ---------------------------------------------------------------------

  datatype Summary = Summary(
    totalChannelsMonitored: nat,
    totalMessagesAnalyzed: int,
    overallAvgSentiment: real,
    overallAvgEngagement: real,
    sentimentDistribution: Distribution,
    mostActiveChannel: Option<string>)

  /** Every day record of every channel, channel by channel. */
  function AllDays(dm: Dict<string, Dict<int, DayMetrics>>): seq<DayMetrics>
    decreases |dm|
  {
    if dm == [] then [] else AllDays(dm[..|dm| - 1]) + Values(dm[|dm| - 1].1)
  }

  function MessageTotal(days: seq<DayMetrics>): int
    decreases |days|
  {
    if days == [] then 0 else MessageTotal(days[..|days| - 1]) + days[|days| - 1].messageCount
  }

  function SentimentsOf(days: seq<DayMetrics>): (r: seq<real>)
    ensures |r| == |days| && forall i :: 0 <= i < |days| ==> r[i] == days[i].avgSentiment
  {
    seq(|days|, i requires 0 <= i < |days| => days[i].avgSentiment)
  }

  function EngagementsOf(days: seq<DayMetrics>): (r: seq<real>)
    ensures |r| == |days| && forall i :: 0 <= i < |days| ==> r[i] == days[i].engagementScore
  {
    seq(|days|, i requires 0 <= i < |days| => days[i].engagementScore)
  }

  function DayMessageCount(m: DayMetrics): int { m.messageCount }

  /** Each channel's message count summed over its days, as reals. */
  function ChannelTotals(dm: Dict<string, Dict<int, DayMetrics>>): (r: seq<real>)
    ensures |r| == |dm| && forall i :: 0 <= i < |dm| ==> r[i] == SumBy(dm[i].1, DayMessageCount) as real
  {
    seq(|dm|, i requires 0 <= i < |dm| => SumBy(dm[i].1, DayMessageCount) as real)
  }

  /** `most_active_channel`: the first channel with the largest summed
      message count, None when there are no channels. */
  function MostActive(dm: Dict<string, Dict<int, DayMetrics>>): (c: Option<string>)
    ensures c.None? <==> dm == []
    ensures c.Some? ==> exists i :: 0 <= i < |dm| && dm[i].0 == c.value &&
                          (forall j :: 0 <= j < |dm| ==> SumBy(dm[j].1, DayMessageCount) <= SumBy(dm[i].1, DayMessageCount)) &&
                          (forall j :: 0 <= j < i ==> SumBy(dm[j].1, DayMessageCount) < SumBy(dm[i].1, DayMessageCount))
  {
    if dm == [] then None
    else
      var i := FirstMaxIndex(ChannelTotals(dm));
      assert forall j :: 0 <= j < |dm| ==> ChannelTotals(dm)[j] <= ChannelTotals(dm)[i];
      Some(dm[i].0)
  }

  /** One more day record adds its count and its two scores. */
  lemma DayStep(days: seq<DayMetrics>, m: DayMetrics)
    ensures MessageTotal(days + [m]) == MessageTotal(days) + m.messageCount
    ensures SentimentsOf(days + [m]) == SentimentsOf(days) + [m.avgSentiment]
    ensures EngagementsOf(days + [m]) == EngagementsOf(days) + [m.engagementScore]
  {
    assert (days + [m])[..|days|] == days;
  }

  lemma ValuesStep<K, V>(d: Dict<K, V>, j: nat)
    requires j < |d|
    ensures Values(d[..j + 1]) == Values(d[..j]) + [d[j].1]
  {
  }

  /** `get_engagement_summary`. */
  method GetEngagementSummary(dm: Dict<string, Dict<int, DayMetrics>>) returns (s: Summary)
    ensures s.totalChannelsMonitored == |dm|
    ensures s.totalMessagesAnalyzed == MessageTotal(AllDays(dm))
    ensures s.overallAvgSentiment == Mean(SentimentsOf(AllDays(dm)))
    ensures s.overallAvgEngagement == Mean(EngagementsOf(AllDays(dm)))
    ensures s.sentimentDistribution == SentimentDistribution(SentimentsOf(AllDays(dm)))
    ensures s.mostActiveChannel == MostActive(dm)
  {
    var totalMessages := 0;
    var sentimentScores: seq<real> := [];
    var engagementScores: seq<real> := [];
    ghost var seen: seq<DayMetrics> := [];
    for c := 0 to |dm|
      invariant seen == AllDays(dm[..c])
      invariant totalMessages == MessageTotal(seen)
      invariant sentimentScores == SentimentsOf(seen) && engagementScores == EngagementsOf(seen)
    {
      var channelMetrics := dm[c].1;
      ghost var before := seen;
      for j := 0 to |channelMetrics|
        invariant seen == before + Values(channelMetrics[..j])
        invariant totalMessages == MessageTotal(seen)
        invariant sentimentScores == SentimentsOf(seen) && engagementScores == EngagementsOf(seen)
      {
        var metrics := channelMetrics[j].1;
        DayStep(seen, metrics);
        ValuesStep(channelMetrics, j);
        totalMessages := totalMessages + metrics.messageCount;
        sentimentScores := sentimentScores + [metrics.avgSentiment];
        engagementScores := engagementScores + [metrics.engagementScore];
        seen := seen + [metrics];
      }
      assert channelMetrics[..|channelMetrics|] == channelMetrics;
      assert dm[..c + 1][..c] == dm[..c];
    }
    assert dm[..|dm|] == dm;
    s := Summary(
      |dm|,
      totalMessages,
      if sentimentScores != [] then Sum(sentimentScores) / |sentimentScores| as real else 0.0,
      if engagementScores != [] then Sum(engagementScores) / |engagementScores| as real else 0.0,
      SentimentDistribution(sentimentScores),
      MostActive(dm));
  }
}
