/** The report generator's summarising logic: the sentiment and engagement
    bands, the key insights, the weekly highlights, the per-channel
    sentiment, engagement and detail sections, the engagement ranking and
    the capped recommendation list. Insight, highlight and recommendation
    texts are datatypes carrying the numbers and channel lists their
    f-strings print. */
module Report {
  import opened Wrappers
  import opened Numeric
  import opened Dicts
  import opened Engagement
  import opened Burnout

  // ---------------------------------------------------------------------
  // generate_executive_summary
  // ---------------------------------------------------------------------

  /** The words of `sentiment_description`. */
  datatype SentimentBand = VeryPositive | Positive | Neutral | Negative | VeryNegative
  {
    /** The bands from the most negative (-2) to the most positive (2). */
    function Level(): int
    {
      match this
      case VeryNegative => -2
      case Negative => -1
      case Neutral => 0
      case Positive => 1
      case VeryPositive => 2
    }
  }

  /** The words of `engagement_description`. */
  datatype EngagementBand = HighEngagement | ModerateEngagement | LowEngagement
  {
    function Level(): int
    {
      match this
      case LowEngagement => 0
      case ModerateEngagement => 1
      case HighEngagement => 2
    }
  }

  /** The sentiment bands: 0.3 and up, 0.1 and up, -0.1 and up, -0.3 and
      up, and below; each lower bound belongs to its band. */
  function DescribeSentiment(score: real): (b: SentimentBand)
  {
    if score >= 0.3 then VeryPositive
    else if score >= 0.1 then Positive
    else if score >= -0.1 then Neutral
    else if score >= -0.3 then Negative
    else VeryNegative
  }

  /** The engagement bands: 0.7 and up is high, 0.4 and up moderate. */
  function DescribeEngagement(score: real): (b: EngagementBand)
  {
    if score >= 0.7 then HighEngagement
    else if score >= 0.4 then ModerateEngagement
    else LowEngagement
  }

  /** Each band is the interval its thresholds bound, and a higher score
      never gets a lower band. */
  lemma SentimentBands(score: real, other: real)
    ensures DescribeSentiment(score) == VeryPositive <==> 0.3 <= score
    ensures DescribeSentiment(score) == Positive <==> 0.1 <= score < 0.3
    ensures DescribeSentiment(score) == Neutral <==> -0.1 <= score < 0.1
    ensures DescribeSentiment(score) == Negative <==> -0.3 <= score < -0.1
    ensures DescribeSentiment(score) == VeryNegative <==> score < -0.3
    ensures score <= other ==> DescribeSentiment(score).Level() <= DescribeSentiment(other).Level()
  {
  }

  lemma EngagementBands(score: real, other: real)
    ensures DescribeEngagement(score) == HighEngagement <==> 0.7 <= score
    ensures DescribeEngagement(score) == ModerateEngagement <==> 0.4 <= score < 0.7
    ensures DescribeEngagement(score) == LowEngagement <==> score < 0.4
    ensures score <= other ==> DescribeEngagement(score).Level() <= DescribeEngagement(other).Level()
  {
  }

  /** The summary's bands and the distribution's share disagree at 0.1: a
      team averaging exactly 0.1 is described as positive, while a message
      scoring 0.1 counts as neutral in the distribution (which needs more
      than 0.1). */
  lemma BandEdgeAtPointOne()
    ensures DescribeSentiment(PositiveBound) == Positive
    ensures SentimentDistribution([PositiveBound]).positive == 0.0
  {
    assert CountAbove([PositiveBound], PositiveBound) == 0;
    assert CountBelow([PositiveBound], NegativeBound) == 0;
  }

  /** One entry of `key_insights`. */
  datatype Insight =
    | StrongPositivity(positivePercent: real)
    | ConcerningNegativity(negativePercent: real)
    | ImprovingSentiment(channels: nat)
    | DecliningSentiment(channels: nat)
    | HighBurnoutRisk(channels: nat)
    | ChannelsNeedAttention(channels: nat)
    | NoBurnoutRisks
  {
    /** 0 for the distribution insights, 1 for the trend insights and 2 for
        the burnout insights. */
    function Kind(): nat
    {
      match this
      case StrongPositivity(_) => 0
      case ConcerningNegativity(_) => 0
      case ImprovingSentiment(_) => 1
      case DecliningSentiment(_) => 1
      case _ => 2
    }
  }

  /** How many trend records have the given sentiment direction. */
  function CountDirection(trends: Dict<string, ChannelTrend>, d: Direction): (n: nat)
    ensures n <= |trends|
    decreases |trends|
  {
    if trends == [] then 0
    else CountDirection(trends[..|trends| - 1], d) + (if trends[|trends| - 1].1.SentimentDirection() == d then 1 else 0)
  }

  /** The distribution insight: strong positivity above 60%, otherwise
      concerning negativity above 30%, otherwise none. */
  function DistributionInsight(positive: real, negative: real): (r: seq<Insight>)
    ensures |r| <= 1 && forall x :: x in r ==> x.Kind() == 0
    ensures StrongPositivity(positive) in r <==> positive > 60.0
    ensures ConcerningNegativity(negative) in r <==> positive <= 60.0 && negative > 30.0
    ensures r != [] <==> positive > 60.0 || negative > 30.0
  {
    if positive > 60.0 then [StrongPositivity(positive)]
    else if negative > 30.0 then [ConcerningNegativity(negative)]
    else []
  }

  /** The trend insight: the larger of the improving and declining counts
      wins, and a tie gives none. */
  function TrendInsight(up: nat, down: nat): (r: seq<Insight>)
    ensures |r| <= 1 && forall x :: x in r ==> x.Kind() == 1
    ensures ImprovingSentiment(up) in r <==> up > down
    ensures DecliningSentiment(down) in r <==> down > up
    ensures r == [] <==> up == down
  {
    if up > down then [ImprovingSentiment(up)]
    else if down > up then [DecliningSentiment(down)]
    else []
  }

  /** The burnout insight: the number of high-risk channels when there is
      one, otherwise the number of channels with an alert, or the all-clear
      when none has one. */
  function BurnoutInsight(alerts: Dict<string, Alert>): (r: Insight)
    ensures r.Kind() == 2
    ensures r == NoBurnoutRisks <==> alerts == []
    ensures r == HighBurnoutRisk(|ChannelsWhere(alerts, IsHigh)|) <==> ChannelsWhere(alerts, IsHigh) != []
    ensures r == ChannelsNeedAttention(|alerts|) <==> alerts != [] && ChannelsWhere(alerts, IsHigh) == []
  {
    if alerts == [] then NoBurnoutRisks
    else
      var highRisk := |ChannelsWhere(alerts, IsHigh)|;
      if highRisk > 0 then HighBurnoutRisk(highRisk) else ChannelsNeedAttention(|alerts|)
  }

  /** `key_insights`: the three parts in order. */
  function InsightsOf(summary: Summary, trends: Dict<string, ChannelTrend>, alerts: Dict<string, Alert>): seq<Insight>
  {
    DistributionInsight(summary.sentimentDistribution.positive, summary.sentimentDistribution.negative) +
    TrendInsight(CountDirection(trends, Increasing), CountDirection(trends, Decreasing)) +
    [BurnoutInsight(alerts)]
  }

  /** The insights, built by appending. */
  method KeyInsights(summary: Summary, trends: Dict<string, ChannelTrend>, alerts: Dict<string, Alert>)
    returns (insights: seq<Insight>)
    ensures insights == InsightsOf(summary, trends, alerts)
  {
    insights := [];
    var positivePct := summary.sentimentDistribution.positive;
    var negativePct := summary.sentimentDistribution.negative;
    if positivePct > 60.0 {
      insights := insights + [StrongPositivity(positivePct)];
    } else if negativePct > 30.0 {
      insights := insights + [ConcerningNegativity(negativePct)];
    }
    assert insights == DistributionInsight(positivePct, negativePct);
    var positiveTrends := CountDirection(trends, Increasing);
    var negativeTrends := CountDirection(trends, Decreasing);
    if positiveTrends > negativeTrends {
      insights := insights + [ImprovingSentiment(positiveTrends)];
    } else if negativeTrends > positiveTrends {
      insights := insights + [DecliningSentiment(negativeTrends)];
    }
    assert insights == DistributionInsight(positivePct, negativePct) + TrendInsight(positiveTrends, negativeTrends);
    if alerts != [] {
      var highRisk := |ChannelsWhere(alerts, IsHigh)|;
      if highRisk > 0 {
        insights := insights + [HighBurnoutRisk(highRisk)];
      } else {
        insights := insights + [ChannelsNeedAttention(|alerts|)];
      }
    } else {
      insights := insights + [NoBurnoutRisks];
    }
  }

  /** One to three insights, at most one per kind and in kind order, the
      burnout insight always last. */
  lemma InsightsShape(summary: Summary, trends: Dict<string, ChannelTrend>, alerts: Dict<string, Alert>)
    ensures var r := InsightsOf(summary, trends, alerts);
      1 <= |r| <= 3 && r[|r| - 1] == BurnoutInsight(alerts) &&
      (forall i, j :: 0 <= i < j < |r| ==> r[i].Kind() < r[j].Kind())
  {
    var d := DistributionInsight(summary.sentimentDistribution.positive, summary.sentimentDistribution.negative);
    var t := TrendInsight(CountDirection(trends, Increasing), CountDirection(trends, Decreasing));
    var r := d + t + [BurnoutInsight(alerts)];
    forall i, j | 0 <= i < j < |r|
      ensures r[i].Kind() < r[j].Kind()
    {
      assert i < |d| ==> r[i] in d;
      assert |d| <= i < |d| + |t| ==> r[i] == t[i - |d|];
      assert j < |d| + |t| ==> j >= |d| && r[j] == t[j - |d|];
    }
  }

  // ---------------------------------------------------------------------
  // extract_weekly_highlights
  // ---------------------------------------------------------------------

  /** One entry of `weekly_highlights`. */
  datatype Highlight =
    | MostPositiveChannel(channel: string, sentiment: real)
    | BiggestImprovement(channel: string, change: real)
    | NeedsImmediateAttention(channels: seq<string>)
  {
    function Kind(): nat
    {
      match this
      case MostPositiveChannel(_, _) => 0
      case BiggestImprovement(_, _) => 1
      case NeedsImmediateAttention(_) => 2
    }
  }

  /** `trend.get('recent_avg_sentiment', 0)`. */
  function RecentSentimentOf(t: ChannelTrend): real
  {
    if t.ShortTrend? then 0.0 else t.recentAvgSentiment
  }

  function RecentSentiments(trends: Dict<string, ChannelTrend>): (r: seq<real>)
    ensures |r| == |trends| && forall i :: 0 <= i < |trends| ==> r[i] == RecentSentimentOf(trends[i].1)
  {
    seq(|trends|, i requires 0 <= i < |trends| => RecentSentimentOf(trends[i].1))
  }

  /** `improving_channels`: the channels whose sentiment change exceeds 20,
      in order, with their change. */
  function Improving(trends: Dict<string, ChannelTrend>): (r: seq<(string, real)>)
    ensures |r| <= |trends|
    decreases |trends|
  {
    if trends == [] then []
    else
      var k := |trends| - 1;
      var change := trends[k].1.SentimentChangeOrZero();
      if change > 20.0 then Improving(trends[..k]) + [(trends[k].0, change)] else Improving(trends[..k])
  }

  /** The improving list holds exactly the channels with a change above
      20, each with its change. */
  lemma {:induction false} ImprovingMembers(trends: Dict<string, ChannelTrend>)
    ensures forall p :: p in Improving(trends) <==>
      exists i :: 0 <= i < |trends| && trends[i].0 == p.0 && trends[i].1.SentimentChangeOrZero() == p.1 && p.1 > 20.0
    decreases |trends|
  {
    if trends != [] {
      var k := |trends| - 1;
      ImprovingMembers(trends[..k]);
      assert forall i :: 0 <= i < k ==> trends[..k][i] == trends[i];
    }
  }

  function Changes(improving: seq<(string, real)>): (r: seq<real>)
    ensures |r| == |improving| && forall i :: 0 <= i < |improving| ==> r[i] == improving[i].1
  {
    seq(|improving|, i requires 0 <= i < |improving| => improving[i].1)
  }

  /** The most positive channel, the first with the largest recent
      sentiment, when that sentiment exceeds 0.2. */
  function BestChannelHighlight(trends: Dict<string, ChannelTrend>): (r: seq<Highlight>)
    ensures |r| <= 1 && forall h :: h in r ==> h.MostPositiveChannel?
    ensures r != [] <==> exists j :: 0 <= j < |trends| && RecentSentimentOf(trends[j].1) > 0.2
    ensures forall h :: h in r ==>
      h.sentiment > 0.2 &&
      (exists j :: 0 <= j < |trends| && trends[j].0 == h.channel && RecentSentimentOf(trends[j].1) == h.sentiment &&
        forall k :: 0 <= k < j ==> RecentSentimentOf(trends[k].1) < h.sentiment) &&
      (forall k :: 0 <= k < |trends| ==> RecentSentimentOf(trends[k].1) <= h.sentiment)
  {
    if trends == [] then []
    else
      var sentiments := RecentSentiments(trends);
      var best := FirstMaxIndex(sentiments);
      if sentiments[best] > 0.2 then [MostPositiveChannel(trends[best].0, sentiments[best])] else []
  }

  /** The biggest improvement, the first largest change, when some change
      exceeds 20. */
  function ImprovementHighlight(trends: Dict<string, ChannelTrend>): (r: seq<Highlight>)
    ensures |r| <= 1 && forall h :: h in r ==> h.BiggestImprovement?
    ensures r != [] <==> Improving(trends) != []
    ensures forall h :: h in r ==>
      (h.channel, h.change) in Improving(trends) &&
      (forall k :: 0 <= k < |trends| ==> trends[k].1.SentimentChangeOrZero() <= h.change)
    ensures forall h :: h in r ==>
      exists j :: 0 <= j < |Improving(trends)| && Improving(trends)[j] == (h.channel, h.change) &&
        forall k :: 0 <= k < j ==> Improving(trends)[k].1 < h.change
  {
    var improving := Improving(trends);
    if improving == [] then []
    else
      var best := FirstMaxIndex(Changes(improving));
      PeakChange(trends, improving[best].1, best);
      [BiggestImprovement(improving[best].0, improving[best].1)]
  }

  lemma PeakChange(trends: Dict<string, ChannelTrend>, top: real, best: nat)
    requires best < |Improving(trends)| && Improving(trends)[best].1 == top
    requires forall j :: 0 <= j < |Improving(trends)| ==> Improving(trends)[j].1 <= top
    ensures forall k :: 0 <= k < |trends| ==> trends[k].1.SentimentChangeOrZero() <= top
  {
    var improving := Improving(trends);
    ImprovingMembers(trends);
    assert improving[best] in improving;
    forall k | 0 <= k < |trends|
      ensures trends[k].1.SentimentChangeOrZero() <= top
    {
      var change := trends[k].1.SentimentChangeOrZero();
      if change > 20.0 {
        assert (trends[k].0, change) in improving;
        var j :| 0 <= j < |improving| && improving[j] == (trends[k].0, change);
      }
    }
  }

  /** The channels at high risk, when there are any. */
  function AttentionHighlight(alerts: Dict<string, Alert>): (r: seq<Highlight>)
    ensures r == [] || r == [NeedsImmediateAttention(ChannelsWhere(alerts, IsHigh))]
    ensures r != [] <==> exists i :: 0 <= i < |alerts| && IsHigh(alerts[i].1)
  {
    NonEmptyIffSome(alerts, IsHigh);
    if alerts == [] then []
    else
      var highRiskChannels := ChannelsWhere(alerts, IsHigh);
      if highRiskChannels != [] then [NeedsImmediateAttention(highRiskChannels)] else []
  }

  /** `weekly_highlights`: the three parts in order. */
  function HighlightsOf(trends: Dict<string, ChannelTrend>, alerts: Dict<string, Alert>): seq<Highlight>
  {
    BestChannelHighlight(trends) + ImprovementHighlight(trends) + AttentionHighlight(alerts)
  }

  /** The highlights, built by appending. */
  method ExtractWeeklyHighlights(trends: Dict<string, ChannelTrend>, alerts: Dict<string, Alert>)
    returns (highlights: seq<Highlight>)
    ensures highlights == HighlightsOf(trends, alerts)
  {
    highlights := [];
    if trends != [] {
      var sentiments := RecentSentiments(trends);
      var best := FirstMaxIndex(sentiments);
      var bestSentiment := sentiments[best];
      if bestSentiment > 0.2 {
        highlights := highlights + [MostPositiveChannel(trends[best].0, bestSentiment)];
      }
    }
    assert highlights == BestChannelHighlight(trends);
    var improvingChannels := Improving(trends);
    if improvingChannels != [] {
      var best := FirstMaxIndex(Changes(improvingChannels));
      highlights := highlights + [BiggestImprovement(improvingChannels[best].0, improvingChannels[best].1)];
    }
    assert highlights == BestChannelHighlight(trends) + ImprovementHighlight(trends);
    if alerts != [] {
      var highRiskChannels := ChannelsWhere(alerts, IsHigh);
      if highRiskChannels != [] {
        highlights := highlights + [NeedsImmediateAttention(highRiskChannels)];
      }
    }
  }

  /** At most three highlights, one per kind, in kind order. */
  lemma HighlightsShape(trends: Dict<string, ChannelTrend>, alerts: Dict<string, Alert>)
    ensures var r := HighlightsOf(trends, alerts);
      |r| <= 3 && forall i, j :: 0 <= i < j < |r| ==> r[i].Kind() < r[j].Kind()
  {
    var b, m, a := BestChannelHighlight(trends), ImprovementHighlight(trends), AttentionHighlight(alerts);
    var r := b + m + a;
    forall i, j | 0 <= i < j < |r|
      ensures r[i].Kind() < r[j].Kind()
    {
      assert i < |b| ==> r[i] in b;
      assert |b| <= i < |b| + |m| ==> r[i] == m[i - |b|];
      assert j < |b| + |m| ==> j >= |b| && r[j] == m[j - |b|];
      assert j >= |b| + |m| ==> r[j] == a[j - |b| - |m|];
    }
  }

  /** The dictionary `generate_executive_summary` returns; the two f-string
      summaries are their band and score. */
  datatype ExecutiveSummary = ExecutiveSummary(
    channelsMonitored: nat,
    totalMessages: int,
    overallSentimentScore: real,
    overallEngagementScore: real,
    sentimentDescription: SentimentBand,
    sentimentScore: real,
    engagementDescription: EngagementBand,
    engagementScore: real,
    keyInsights: seq<Insight>,
    weeklyHighlights: seq<Highlight>)

  /** `generate_executive_summary`: the summary's numbers, rounded to three
      places for the key metrics, their bands, the insights and the
      highlights. */
  method GenerateExecutiveSummary(summary: Summary, trends: Dict<string, ChannelTrend>, alerts: Dict<string, Alert>)
    returns (r: ExecutiveSummary)
    ensures r.channelsMonitored == summary.totalChannelsMonitored && r.totalMessages == summary.totalMessagesAnalyzed
    ensures r.overallSentimentScore == Round(summary.overallAvgSentiment, 3)
    ensures r.overallEngagementScore == Round(summary.overallAvgEngagement, 3)
    ensures r.sentimentDescription == DescribeSentiment(summary.overallAvgSentiment)
    ensures r.engagementDescription == DescribeEngagement(summary.overallAvgEngagement)
    ensures r.sentimentScore == summary.overallAvgSentiment && r.engagementScore == summary.overallAvgEngagement
    ensures r.keyInsights == InsightsOf(summary, trends, alerts)
    ensures r.weeklyHighlights == HighlightsOf(trends, alerts)
  {
    var overallSentiment := summary.overallAvgSentiment;
    var overallEngagement := summary.overallAvgEngagement;
    var insights := KeyInsights(summary, trends, alerts);
    var highlights := ExtractWeeklyHighlights(trends, alerts);
    r := ExecutiveSummary(
      summary.totalChannelsMonitored, summary.totalMessagesAnalyzed,
      Round(overallSentiment, 3), Round(overallEngagement, 3),
      DescribeSentiment(overallSentiment), overallSentiment,
      DescribeEngagement(overallEngagement), overallEngagement,
      insights, highlights);
  }

  // ---------------------------------------------------------------------
  // The per-channel sections
  // ---------------------------------------------------------------------

  /** `{name: f(name, metrics) for name, metrics in daily_metrics.items() if
      metrics}`: the channels with day records, in order. */
  function PerChannel<V>(dailyMetrics: Dict<string, Dict<int, DayMetrics>>, f: (string, Dict<int, DayMetrics>) -> V)
    : (r: Dict<string, V>)
    ensures |r| <= |dailyMetrics|
    decreases |dailyMetrics|
  {
    if dailyMetrics == [] then []
    else
      var k := |dailyMetrics| - 1;
      var (name, metrics) := dailyMetrics[k];
      if metrics != [] then PerChannel(dailyMetrics[..k], f) + [(name, f(name, metrics))]
      else PerChannel(dailyMetrics[..k], f)
  }

  /** An entry of a section is a channel with day records and the value for
      its records, and every such channel has its entry. */
  lemma {:induction false} PerChannelEntries<V>(dailyMetrics: Dict<string, Dict<int, DayMetrics>>, f: (string, Dict<int, DayMetrics>) -> V)
    ensures forall e :: e in PerChannel(dailyMetrics, f) <==>
      exists i :: 0 <= i < |dailyMetrics| && dailyMetrics[i].1 != [] && e == (dailyMetrics[i].0, f(dailyMetrics[i].0, dailyMetrics[i].1))
    decreases |dailyMetrics|
  {
    if dailyMetrics != [] {
      var k := |dailyMetrics| - 1;
      PerChannelEntries(dailyMetrics[..k], f);
      assert forall i :: 0 <= i < k ==> dailyMetrics[..k][i] == dailyMetrics[i];
    }
  }

  /** A section's channel names are its channels' names with the empty
      channels left out, so they stay distinct. */
  lemma {:induction false} PerChannelKeys<V>(dailyMetrics: Dict<string, Dict<int, DayMetrics>>, f: (string, Dict<int, DayMetrics>) -> V)
    requires DistinctKeys(dailyMetrics)
    ensures DistinctKeys(PerChannel(dailyMetrics, f))
    ensures forall c :: c in Keys(PerChannel(dailyMetrics, f)) ==> c in Keys(dailyMetrics)
    decreases |dailyMetrics|
  {
    if dailyMetrics != [] {
      var k := |dailyMetrics| - 1;
      var head := dailyMetrics[..k];
      assert Keys(head) == Keys(dailyMetrics)[..k];
      PerChannelKeys(head, f);
      var init := PerChannel(head, f);
      var (name, metrics) := dailyMetrics[k];
      assert name !in Keys(init) by {
        forall j | 0 <= j < k
          ensures Keys(head)[j] != name
        {
          assert Keys(dailyMetrics)[j] != Keys(dailyMetrics)[k];
        }
      }
      assert Keys(dailyMetrics)[k] == name;
      if metrics != [] {
        KeysAppend(init, (name, f(name, metrics)));
      }
    }
  }

  /** The loop the three sections share: skip a channel without day
      records, otherwise store the channel's value under its name. */
  method FillPerChannel<V>(dailyMetrics: Dict<string, Dict<int, DayMetrics>>, f: (string, Dict<int, DayMetrics>) -> V)
    returns (section: Dict<string, V>)
    ensures section == PerChannel(dailyMetrics, f)
  {
    section := [];
    for i := 0 to |dailyMetrics|
      invariant section == PerChannel(dailyMetrics[..i], f)
    {
      var (channelName, channelMetrics) := dailyMetrics[i];
      assert dailyMetrics[..i + 1][..i] == dailyMetrics[..i];
      if channelMetrics == [] {
        continue;
      }
      section := section + [(channelName, f(channelName, channelMetrics))];
    }
    assert dailyMetrics[..|dailyMetrics|] == dailyMetrics;
  }

  /** `sorted(channel_metrics.keys())`. */
  function Dates(metrics: Dict<int, DayMetrics>): (r: seq<int>)
    ensures |r| == |metrics| && Sorted(r)
    ensures forall d :: d in r <==> d in Keys(metrics)
  {
    var r := Sort(Keys(metrics));
    assert forall d :: d in r <==> d in multiset(Keys(metrics));
    r
  }

  /** `engagement_trends.get(channel_name, {})` read as a trend record. */
  function TrendOf(trends: Dict<string, ChannelTrend>, name: string): ChannelTrend
  {
    Get(trends, name).GetOr(ShortTrend)
  }

  /** One channel of `generate_sentiment_analysis`'s `by_channel`. */
  datatype ChannelSentiment = ChannelSentiment(
    dailyScores: Dict<int, real>,
    weeklyAverage: real,
    trend: Direction,
    trendChange: real,
    bestDay: int,
    worstDay: int)

  /** `dates[daily_sentiments.index(max(daily_sentiments))]`: the earliest
      date with the highest sentiment; 0 stands for the None of a channel
      without records, which the section never contains. */
  function BestDay(dates: seq<int>, v: seq<real>): (d: int)
    requires |dates| == |v|
    ensures v != [] ==>
      exists i :: 0 <= i < |v| && dates[i] == d &&
        (forall j :: 0 <= j < |v| ==> v[j] <= v[i]) && (forall j :: 0 <= j < i ==> v[j] < v[i])
  {
    if v == [] then 0 else dates[FirstMaxIndex(v)]
  }

  /** The earliest date with the lowest sentiment. */
  function WorstDay(dates: seq<int>, v: seq<real>): (d: int)
    requires |dates| == |v|
    ensures v != [] ==>
      exists i :: 0 <= i < |v| && dates[i] == d &&
        (forall j :: 0 <= j < |v| ==> v[i] <= v[j]) && (forall j :: 0 <= j < i ==> v[i] < v[j])
  {
    if v == [] then 0 else dates[FirstMinIndex(v)]
  }

  /** The channel's sentiments in date order, their mean, its sentiment
      trend (stable and 0 without a full trend record), and its first best
      and first worst date. */
  function ChannelSentimentOf(trends: Dict<string, ChannelTrend>, name: string, metrics: Dict<int, DayMetrics>): ChannelSentiment
  {
    var dates := Dates(metrics);
    var dailySentiments := Column(metrics, dates, AvgSentimentOf);
    var trend := TrendOf(trends, name);
    ChannelSentiment(
      seq(|dates|, i requires 0 <= i < |dates| => (dates[i], dailySentiments[i])),
      Mean(dailySentiments),
      trend.SentimentDirection(),
      trend.SentimentChangeOrZero(),
      BestDay(dates, dailySentiments),
      WorstDay(dates, dailySentiments))
  }

  /** `generate_sentiment_analysis`'s `by_channel`. */
  method GenerateSentimentAnalysis(dailyMetrics: Dict<string, Dict<int, DayMetrics>>, trends: Dict<string, ChannelTrend>)
    returns (byChannel: Dict<string, ChannelSentiment>)
    ensures byChannel == PerChannel(dailyMetrics, (name, metrics) => ChannelSentimentOf(trends, name, metrics))
  {
    byChannel := FillPerChannel(dailyMetrics, (name, metrics) => ChannelSentimentOf(trends, name, metrics));
  }

  // ---------------------------------------------------------------------
  // generate_engagement_metrics
  // ---------------------------------------------------------------------

  /** One channel of `generate_engagement_metrics`'s `by_channel`. */
  datatype ChannelEngagement = ChannelEngagement(
    totalMessages: int,
    totalReactions: int,
    totalEmojis: int,
    averageEngagementScore: real,
    trend: Direction,
    messagesPerDay: real)

  function DayReactionCount(m: DayMetrics): int { m.reactionCount }

  function DayEmojiCount(m: DayMetrics): int { m.emojiCount }

  /** The channel's totals, its mean engagement score rounded to three
      places, its engagement trend (stable without a full trend record) and
      its messages per day: the total over 7, whatever the number of days,
      rounded to one place. */
  function ChannelEngagementOf(trends: Dict<string, ChannelTrend>, name: string, metrics: Dict<int, DayMetrics>): ChannelEngagement
  {
    var totalMessages := SumBy(metrics, DayMessageCount);
    ChannelEngagement(
      totalMessages,
      SumBy(metrics, DayReactionCount),
      SumBy(metrics, DayEmojiCount),
      Round(Mean(EngagementsOf(Values(metrics))), 3),
      TrendOf(trends, name).EngagementDirection(),
      Round(totalMessages as real / 7.0, 1))
  }

  /** A channel whose days all score in [0, 1] keeps its rounded average in
      [0, 1]. */
  lemma EngagementAverageWithin(trends: Dict<string, ChannelTrend>, name: string, metrics: Dict<int, DayMetrics>)
    requires metrics != []
    requires forall i :: 0 <= i < |metrics| ==> 0.0 <= metrics[i].1.engagementScore <= 1.0
    ensures 0.0 <= ChannelEngagementOf(trends, name, metrics).averageEngagementScore <= 1.0
  {
    var v := EngagementsOf(Values(metrics));
    assert forall i :: 0 <= i < |v| ==> v[i] == metrics[i].1.engagementScore;
    MeanWithin(v, 0.0, 1.0);
  }

  /** Messages per day divide by a fixed week: a channel with 14 messages
      reports 2.0 however few days they fell on. */
  lemma MessagesPerDayOverWeek(trends: Dict<string, ChannelTrend>, name: string, metrics: Dict<int, DayMetrics>)
    requires SumBy(metrics, DayMessageCount) == 14
    ensures ChannelEngagementOf(trends, name, metrics).messagesPerDay == 2.0
  {
    assert 14 as real / 7.0 == 2 as real;
    RoundWhole(2, 1);
  }

  /** A channel name with its rounded average engagement score. */
  type Ranked = (string, real)

  predicate NonIncreasing(s: seq<Ranked>)
  {
    forall i, j :: 0 <= i < j < |s| ==> s[i].1 >= s[j].1
  }

  /** Where `x` goes in a non-increasing list: after every entry scoring at
      least as much, so that equal scores keep their order. */
  function SlotFor(x: Ranked, s: seq<Ranked>): (i: nat)
    requires NonIncreasing(s)
    ensures i <= |s|
    ensures forall j :: 0 <= j < i ==> s[j].1 >= x.1
    ensures forall j :: i <= j < |s| ==> s[j].1 < x.1
  {
    if s == [] || s[|s| - 1].1 >= x.1 then |s| else SlotFor(x, s[..|s| - 1])
  }

  /** `s` with `x` placed at position i. */
  function InsertAt<T>(x: T, s: seq<T>, i: nat): (r: seq<T>)
    requires i <= |s|
    ensures |r| == |s| + 1
    ensures forall j :: 0 <= j < |r| ==> r[j] == if j < i then s[j] else if j == i then x else s[j - 1]
    ensures multiset(r) == multiset(s) + multiset{x}
  {
    assert s == s[..i] + s[i..];
    s[..i] + [x] + s[i..]
  }

  function InsertRanked(x: Ranked, s: seq<Ranked>): (r: seq<Ranked>)
    requires NonIncreasing(s)
    ensures NonIncreasing(r)
    ensures multiset(r) == multiset(s) + multiset{x}
  {
    InsertAt(x, s, SlotFor(x, s))
  }

  /** `sorted(..., key=score, reverse=True)`: Python's sort is stable under
      `reverse=True`, and inserting each entry after the equal ones before
      it keeps that order. */
  function RankDescending(s: seq<Ranked>): (r: seq<Ranked>)
    ensures NonIncreasing(r)
    ensures multiset(r) == multiset(s)
    decreases |s|
  {
    if s == [] then []
    else
      assert s == s[..|s| - 1] + [s[|s| - 1]];
      InsertRanked(s[|s| - 1], RankDescending(s[..|s| - 1]))
  }

  /** Ties keep their input order: a list already ranked, equal scores
      included, comes back unchanged. */
  lemma {:induction false} RankRankedUnchanged(s: seq<Ranked>)
    requires NonIncreasing(s)
    ensures RankDescending(s) == s
    decreases |s|
  {
    if s != [] {
      var init := s[..|s| - 1];
      assert s == init + [s[|s| - 1]];
      RankRankedUnchanged(init);
      assert SlotFor(s[|s| - 1], init) == |init|;
    }
  }

  lemma KeysInsertAt<K, V>(x: (K, V), s: seq<(K, V)>, i: nat)
    requires i <= |s|
    ensures Keys(InsertAt(x, s, i)) == InsertAt(x.0, Keys(s), i)
  {
    var l, r := Keys(InsertAt(x, s, i)), InsertAt(x.0, Keys(s), i);
    assert |l| == |r|;
    forall j | 0 <= j < |l|
      ensures l[j] == r[j]
    {
    }
  }

  lemma InsertRankedKeys(x: Ranked, s: seq<Ranked>)
    requires NonIncreasing(s)
    ensures multiset(Keys(InsertRanked(x, s))) == multiset(Keys(s)) + multiset{x.0}
  {
    KeysInsertAt(x, s, SlotFor(x, s));
  }

  /** The ranking holds each name as often as its input does. */
  lemma {:induction false} RankedKeys(s: seq<Ranked>)
    ensures multiset(Keys(RankDescending(s))) == multiset(Keys(s))
    decreases |s|
  {
    if s != [] {
      var init := s[..|s| - 1];
      assert s == init + [s[|s| - 1]];
      RankedKeys(init);
      InsertRankedKeys(s[|s| - 1], RankDescending(init));
      KeysAppend(init, s[|s| - 1]);
    }
  }

  /** `generate_engagement_metrics`: the section and its ranking. */
  datatype EngagementMetrics = EngagementMetrics(
    byChannel: Dict<string, ChannelEngagement>,
    engagementRanking: seq<string>)

  function Scores(byChannel: Dict<string, ChannelEngagement>): (r: seq<Ranked>)
    ensures |r| == |byChannel| &&
      forall i :: 0 <= i < |byChannel| ==> r[i] == (byChannel[i].0, byChannel[i].1.averageEngagementScore)
  {
    seq(|byChannel|, i requires 0 <= i < |byChannel| => (byChannel[i].0, byChannel[i].1.averageEngagementScore))
  }

  method GenerateEngagementMetrics(dailyMetrics: Dict<string, Dict<int, DayMetrics>>, trends: Dict<string, ChannelTrend>)
    returns (r: EngagementMetrics)
    ensures r.byChannel == PerChannel(dailyMetrics, (name, metrics) => ChannelEngagementOf(trends, name, metrics))
    ensures r.engagementRanking == Keys(RankDescending(Scores(r.byChannel)))
  {
    var byChannel := FillPerChannel(dailyMetrics, (name, metrics) => ChannelEngagementOf(trends, name, metrics));
    r := EngagementMetrics(byChannel, Keys(RankDescending(Scores(byChannel))));
  }

  /** The ranking lists every channel of the section once per entry, with
      the scores non-increasing along it. */
  lemma RankingIsOrderedPermutation(byChannel: Dict<string, ChannelEngagement>)
    ensures var ranked := RankDescending(Scores(byChannel));
      multiset(ranked) == multiset(Scores(byChannel)) &&
      |ranked| == |byChannel| &&
      (forall i, j :: 0 <= i < j < |ranked| ==> ranked[i].1 >= ranked[j].1) &&
      (forall i :: 0 <= i < |ranked| ==> exists j :: 0 <= j < |byChannel| && ranked[i] == (byChannel[j].0, byChannel[j].1.averageEngagementScore))
  {
    var ranked := RankDescending(Scores(byChannel));
    var scores := Scores(byChannel);
    assert |ranked| == |multiset(ranked)| == |multiset(scores)| == |scores|;
    forall i | 0 <= i < |ranked|
      ensures exists j :: 0 <= j < |byChannel| && ranked[i] == (byChannel[j].0, byChannel[j].1.averageEngagementScore)
    {
      assert ranked[i] in multiset(scores);
      var j :| 0 <= j < |scores| && scores[j] == ranked[i];
    }
  }

  /** `engagement_ranking` is a permutation of the section's channels. */
  lemma RankingNamesChannels(byChannel: Dict<string, ChannelEngagement>)
    ensures multiset(Keys(RankDescending(Scores(byChannel)))) == multiset(Keys(byChannel))
  {
    RankedKeys(Scores(byChannel));
    assert Keys(Scores(byChannel)) == Keys(byChannel);
  }

  // ---------------------------------------------------------------------
  // generate_recommendations and format_channel_details
  // ---------------------------------------------------------------------

  /** One entry of the report's `recommendations`. */
  datatype ReportRecommendation =
    | CheckInsFor(channels: seq<string>)
    | ReviewWorkloadAndDeadlines
    | StressReductionInitiatives
    | OneOnOnesIn(channels: seq<string>)
    | MonitorDecliningSentiment(channels: seq<string>)
    | ContinueCurrentPractices
    | RecognitionPrograms

  predicate Declining(t: ChannelTrend) { t.SentimentDirection() == Decreasing }

  /** `[ch for ch, trend in engagement_trends.items() if p(trend)]`. */
  function TrendChannelsWhere(trends: Dict<string, ChannelTrend>, p: ChannelTrend -> bool): (r: seq<string>)
    ensures |r| <= |trends|
    ensures forall c :: c in r <==> exists i :: 0 <= i < |trends| && trends[i].0 == c && p(trends[i].1)
    decreases |trends|
  {
    if trends == [] then []
    else
      var k := |trends| - 1;
      var init := TrendChannelsWhere(trends[..k], p);
      assert forall i :: 0 <= i < k ==> trends[..k][i] == trends[i];
      if p(trends[k].1) then init + [trends[k].0] else init
  }

  /** The filter keeps dict order: filtering two dicts one after the other
      gives the two filtered lists one after the other. */
  lemma {:induction false} TrendChannelsWhereAppend(
    a: Dict<string, ChannelTrend>, b: Dict<string, ChannelTrend>, p: ChannelTrend -> bool)
    ensures TrendChannelsWhere(a + b, p) == TrendChannelsWhere(a, p) + TrendChannelsWhere(b, p)
    decreases |b|
  {
    if b == [] {
      assert a + b == a;
    } else {
      var k := |b| - 1;
      TrendChannelsWhereAppend(a, b[..k], p);
      assert (a + b)[..|a| + k] == a + b[..k];
      assert (a + b)[|a| + k] == b[k];
    }
  }

  /** The high-risk items: a check-in for the channels, then the workload
      and stress items, when any channel is at high risk. */
  function HighRiskItems(high: seq<string>): (r: seq<ReportRecommendation>)
    ensures |r| <= 3
    ensures forall x :: x in r <==>
      high != [] && (x == CheckInsFor(high) || x == ReviewWorkloadAndDeadlines || x == StressReductionInitiatives)
  {
    if high != [] then [CheckInsFor(high), ReviewWorkloadAndDeadlines, StressReductionInitiatives] else []
  }

  function MediumRiskItems(medium: seq<string>): (r: seq<ReportRecommendation>)
    ensures |r| <= 1
    ensures forall x :: x in r <==> medium != [] && x == OneOnOnesIn(medium)
  {
    if medium != [] then [OneOnOnesIn(medium)] else []
  }

  function DecliningItems(declining: seq<string>): (r: seq<ReportRecommendation>)
    ensures |r| <= 1
    ensures forall x :: x in r <==> declining != [] && x == MonitorDecliningSentiment(declining)
  {
    if declining != [] then [MonitorDecliningSentiment(declining)] else []
  }

  /** The two general items, given only when there are no alerts at all. */
  function NoAlertItems(noAlerts: bool): (r: seq<ReportRecommendation>)
    ensures |r| <= 2
    ensures forall x :: x in r <==> noAlerts && (x == ContinueCurrentPractices || x == RecognitionPrograms)
  {
    if noAlerts then [ContinueCurrentPractices, RecognitionPrograms] else []
  }

  /** The list generate_recommendations builds before its cut to ten. */
  function ReportRecommendationsOf(alerts: Dict<string, Alert>, trends: Dict<string, ChannelTrend>): seq<ReportRecommendation>
  {
    HighRiskItems(ChannelsWhere(alerts, IsHigh)) +
    MediumRiskItems(ChannelsWhere(alerts, IsMedium)) +
    DecliningItems(TrendChannelsWhere(trends, Declining)) +
    NoAlertItems(alerts == [])
  }

  /** `generate_recommendations`, built by appending and cut to ten. */
  method GenerateRecommendations(alerts: Dict<string, Alert>, trends: Dict<string, ChannelTrend>)
    returns (recommendations: seq<ReportRecommendation>)
    ensures recommendations == Take(ReportRecommendationsOf(alerts, trends), 10)
  {
    recommendations := [];
    var highRiskChannels := ChannelsWhere(alerts, IsHigh);
    if highRiskChannels != [] {
      recommendations := recommendations + [CheckInsFor(highRiskChannels), ReviewWorkloadAndDeadlines, StressReductionInitiatives];
    }
    assert recommendations == HighRiskItems(highRiskChannels);
    var mediumRiskChannels := ChannelsWhere(alerts, IsMedium);
    if mediumRiskChannels != [] {
      recommendations := recommendations + [OneOnOnesIn(mediumRiskChannels)];
    }
    assert recommendations == HighRiskItems(highRiskChannels) + MediumRiskItems(mediumRiskChannels);
    var decliningChannels := TrendChannelsWhere(trends, Declining);
    if decliningChannels != [] {
      recommendations := recommendations + [MonitorDecliningSentiment(decliningChannels)];
    }
    assert recommendations == HighRiskItems(highRiskChannels) + MediumRiskItems(mediumRiskChannels) + DecliningItems(decliningChannels);
    if alerts == [] {
      recommendations := recommendations + [ContinueCurrentPractices, RecognitionPrograms];
    }
    recommendations := Take(recommendations, 10);
  }

  /** Some trend entry satisfies p exactly when the filtered list is non-empty. */
  lemma TrendNonEmptyIffSome(trends: Dict<string, ChannelTrend>, p: ChannelTrend -> bool)
    ensures TrendChannelsWhere(trends, p) != [] <==> exists i :: 0 <= i < |trends| && p(trends[i].1)
  {
    var r := TrendChannelsWhere(trends, p);
    if r != [] {
      assert r[0] in r;
    }
    if i :| 0 <= i < |trends| && p(trends[i].1) {
      assert trends[i].0 in r;
    }
  }

  /** The four groups' items are the list's items. */
  lemma RecommendationMembers(alerts: Dict<string, Alert>, trends: Dict<string, ChannelTrend>, x: ReportRecommendation)
    ensures x in ReportRecommendationsOf(alerts, trends) <==>
      x in HighRiskItems(ChannelsWhere(alerts, IsHigh)) ||
      x in MediumRiskItems(ChannelsWhere(alerts, IsMedium)) ||
      x in DecliningItems(TrendChannelsWhere(trends, Declining)) ||
      x in NoAlertItems(alerts == [])
  {
    var a, b := HighRiskItems(ChannelsWhere(alerts, IsHigh)), MediumRiskItems(ChannelsWhere(alerts, IsMedium));
    var c, d := DecliningItems(TrendChannelsWhere(trends, Declining)), NoAlertItems(alerts == []);
    assert ReportRecommendationsOf(alerts, trends) == a + b + c + d;
  }

  /** At most seven items arise, so the cut to ten never applies. */
  lemma ReportRecommendationsBound(alerts: Dict<string, Alert>, trends: Dict<string, ChannelTrend>)
    ensures |ReportRecommendationsOf(alerts, trends)| <= 7
    ensures Take(ReportRecommendationsOf(alerts, trends), 10) == ReportRecommendationsOf(alerts, trends)
  {
    var a, b := HighRiskItems(ChannelsWhere(alerts, IsHigh)), MediumRiskItems(ChannelsWhere(alerts, IsMedium));
    var c, d := DecliningItems(TrendChannelsWhere(trends, Declining)), NoAlertItems(alerts == []);
    assert |a + b + c + d| == |a| + |b| + |c| + |d|;
  }

  /** The check-in item comes exactly when some channel is at high risk. */
  lemma CheckInsIffHighRisk(alerts: Dict<string, Alert>, trends: Dict<string, ChannelTrend>)
    ensures CheckInsFor(ChannelsWhere(alerts, IsHigh)) in ReportRecommendationsOf(alerts, trends) <==>
      exists i :: 0 <= i < |alerts| && IsHigh(alerts[i].1)
  {
    NonEmptyIffSome(alerts, IsHigh);
    RecommendationMembers(alerts, trends, CheckInsFor(ChannelsWhere(alerts, IsHigh)));
  }

  /** The one-on-one item comes exactly when some channel is at medium risk. */
  lemma OneOnOnesIffMediumRisk(alerts: Dict<string, Alert>, trends: Dict<string, ChannelTrend>)
    ensures OneOnOnesIn(ChannelsWhere(alerts, IsMedium)) in ReportRecommendationsOf(alerts, trends) <==>
      exists i :: 0 <= i < |alerts| && IsMedium(alerts[i].1)
  {
    NonEmptyIffSome(alerts, IsMedium);
    RecommendationMembers(alerts, trends, OneOnOnesIn(ChannelsWhere(alerts, IsMedium)));
  }

  /** The monitoring item comes exactly when some channel's sentiment trend
      is decreasing. */
  lemma MonitorIffDeclining(alerts: Dict<string, Alert>, trends: Dict<string, ChannelTrend>)
    ensures MonitorDecliningSentiment(TrendChannelsWhere(trends, Declining)) in ReportRecommendationsOf(alerts, trends) <==>
      exists i :: 0 <= i < |trends| && Declining(trends[i].1)
  {
    TrendNonEmptyIffSome(trends, Declining);
    RecommendationMembers(alerts, trends, MonitorDecliningSentiment(TrendChannelsWhere(trends, Declining)));
  }

  /** The two general items come exactly when there are no alerts, and then
      only the declining-sentiment item can stand beside them. */
  lemma ReportRecommendationsWithoutAlerts(alerts: Dict<string, Alert>, trends: Dict<string, ChannelTrend>)
    ensures ContinueCurrentPractices in ReportRecommendationsOf(alerts, trends) <==> alerts == []
    ensures RecognitionPrograms in ReportRecommendationsOf(alerts, trends) <==> alerts == []
    ensures alerts == [] ==> forall x :: x in ReportRecommendationsOf(alerts, trends) ==>
      x.MonitorDecliningSentiment? || x == ContinueCurrentPractices || x == RecognitionPrograms
  {
    RecommendationMembers(alerts, trends, ContinueCurrentPractices);
    RecommendationMembers(alerts, trends, RecognitionPrograms);
    if alerts == [] {
      forall x | x in ReportRecommendationsOf(alerts, trends)
        ensures x.MonitorDecliningSentiment? || x == ContinueCurrentPractices || x == RecognitionPrograms
      {
        RecommendationMembers(alerts, trends, x);
      }
    }
  }

  /** `summary_stats` of one channel. */
  datatype SummaryStats = SummaryStats(
    totalDaysAnalyzed: nat,
    avgDailyMessages: real,
    avgDailySentiment: real,
    avgEngagementScore: real,
    totalEmojiUsage: int,
    totalReactions: int)

  /** One channel of `format_channel_details`; `trends` is the channel's
      trend record, None when it has none. */
  datatype ChannelDetails = ChannelDetails(
    dailyBreakdown: Dict<int, DayMetrics>,
    summaryStats: SummaryStats,
    trends: Option<ChannelTrend>)

  /** The channel's records, its day count, its three per-day means and its
      two totals. */
  function ChannelDetailsOf(trends: Dict<string, ChannelTrend>, name: string, metrics: Dict<int, DayMetrics>): ChannelDetails
  {
    var days := Values(metrics);
    ChannelDetails(
      metrics,
      SummaryStats(
        |Dates(metrics)|,
        Mean(MessageCounts(metrics)),
        Mean(SentimentsOf(days)),
        Mean(EngagementsOf(days)),
        SumBy(metrics, DayEmojiCount),
        SumBy(metrics, DayReactionCount)),
      Get(trends, name))
  }

  method FormatChannelDetails(dailyMetrics: Dict<string, Dict<int, DayMetrics>>, trends: Dict<string, ChannelTrend>)
    returns (details: Dict<string, ChannelDetails>)
    ensures details == PerChannel(dailyMetrics, (name, metrics) => ChannelDetailsOf(trends, name, metrics))
  {
    details := FillPerChannel(dailyMetrics, (name, metrics) => ChannelDetailsOf(trends, name, metrics));
  }

  /** The day count is the number of records and the message mean is not
      negative. */
  lemma ChannelDetailsCounts(trends: Dict<string, ChannelTrend>, name: string, metrics: Dict<int, DayMetrics>)
    ensures var st := ChannelDetailsOf(trends, name, metrics).summaryStats;
      st.totalDaysAnalyzed == |metrics| && 0.0 <= st.avgDailyMessages
  {
    SumNonNegative(MessageCounts(metrics));
  }

  /** Daily sentiments in [-1, 1] average into [-1, 1]. */
  lemma ChannelDetailsSentimentWithin(trends: Dict<string, ChannelTrend>, name: string, metrics: Dict<int, DayMetrics>)
    requires metrics != []
    requires forall i :: 0 <= i < |metrics| ==> -1.0 <= metrics[i].1.avgSentiment <= 1.0
    ensures -1.0 <= ChannelDetailsOf(trends, name, metrics).summaryStats.avgDailySentiment <= 1.0
  {
    var days := Values(metrics);
    assert forall i :: 0 <= i < |days| ==> days[i] == metrics[i].1;
    MeanWithin(SentimentsOf(days), -1.0, 1.0);
  }

  /** Daily engagement scores in [0, 1] average into [0, 1]. */
  lemma ChannelDetailsEngagementWithin(trends: Dict<string, ChannelTrend>, name: string, metrics: Dict<int, DayMetrics>)
    requires metrics != []
    requires forall i :: 0 <= i < |metrics| ==> 0.0 <= metrics[i].1.engagementScore <= 1.0
    ensures 0.0 <= ChannelDetailsOf(trends, name, metrics).summaryStats.avgEngagementScore <= 1.0
  {
    var days := Values(metrics);
    assert forall i :: 0 <= i < |days| ==> days[i] == metrics[i].1;
    MeanWithin(EngagementsOf(days), 0.0, 1.0);
  }

}
