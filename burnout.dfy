/** The burnout detector: the streak of negative days ending at the newest
    day, seven weighted risk indicators, the low/medium/high classification,
    the de-duplicated recommendation list, the filter that keeps the
    channels at risk, and the overall assessment with its priority actions.
    Warning texts, summaries and actions are datatypes carrying the numbers
    and channel lists their f-strings print. */
module Burnout {
  import opened Wrappers
  import opened Numeric
  import opened Dicts
  import opened Engagement

  datatype RiskLevel = Low | Medium | High

  /** One entry of `warning_indicators`, in the order the detector appends
      them. */
  datatype Warning =
    | SustainedNegative(days: nat)
    | SharpSentimentDecline(percent: real)
    | EngagementDrop(percent: real)
    | VeryLowSentiment(average: real)
    | LowMessagingActivity(messagesPerDay: real)
  {
    function Rank(): nat
    {
      match this
      case SustainedNegative(_) => 0
      case SharpSentimentDecline(_) => 1
      case EngagementDrop(_) => 2
      case VeryLowSentiment(_) => 3
      case LowMessagingActivity(_) => 4
    }
  }

  /** The burnout alert dictionary of one channel. */
  datatype Alert = Alert(
    channel: string,
    riskLevel: RiskLevel,
    riskScore: real,
    warningIndicators: seq<Warning>,
    recommendations: seq<Recommendation>,
    consecutiveNegativeDays: nat,
    sentimentTrend: Direction,
    engagementTrend: Direction)

  /** What the detector reads from a channel's trend record, with the
      defaults `.get` supplies: a channel without a record, or with the
      record for fewer than two dates, has stable trends, changes of 0 and a
      recent average sentiment of 0. */
  datatype TrendView = TrendView(
    sentimentTrend: Direction,
    engagementTrend: Direction,
    sentimentChange: real,
    engagementChange: real,
    recentAvgSentiment: real)

  function ViewOf(trend: Option<ChannelTrend>): (v: TrendView)
    ensures trend.None? || trend.value.ShortTrend? ==> v == TrendView(Stable, Stable, 0.0, 0.0, 0.0)
    ensures trend.Some? && trend.value.FullTrend? ==>
      var t := trend.value;
      v == TrendView(t.sentimentTrend, t.engagementTrend, t.sentimentChange, t.engagementChange, t.recentAvgSentiment)
  {
    match trend
    case None => TrendView(Stable, Stable, 0.0, 0.0, 0.0)
    case Some(ShortTrend) => TrendView(Stable, Stable, 0.0, 0.0, 0.0)
    case Some(FullTrend(st, sc, et, ec, _, _, rs, _)) => TrendView(st, et, sc, ec, rs)
  }

  /** The seven indicators, in the order they add to the risk score. */
  datatype Indicators = Indicators(
    sustainedNegative: bool,
    sharpDecline: bool,
    engagementDrop: bool,
    lowSentiment: bool,
    lowActivity: bool,
    sentimentDecreasing: bool,
    engagementDecreasing: bool)
  {
    /** How many indicators hold. */
    function Count(): nat
    {
      (if sustainedNegative then 1 else 0) + (if sharpDecline then 1 else 0) +
      (if engagementDrop then 1 else 0) + (if lowSentiment then 1 else 0) +
      (if lowActivity then 1 else 0) + (if sentimentDecreasing then 1 else 0) +
      (if engagementDecreasing then 1 else 0)
    }

    /** Every indicator that holds here holds in `other` too. */
    predicate Within(other: Indicators)
    {
      (sustainedNegative ==> other.sustainedNegative) && (sharpDecline ==> other.sharpDecline) &&
      (engagementDrop ==> other.engagementDrop) && (lowSentiment ==> other.lowSentiment) &&
      (lowActivity ==> other.lowActivity) && (sentimentDecreasing ==> other.sentimentDecreasing) &&
      (engagementDecreasing ==> other.engagementDecreasing)
    }
  }

  /** `risk_score`: the weights 40, 30, 25, 20, 15, 10 and 10 of the
      indicators that hold. */
  function RiskScore(ind: Indicators): (score: real)
    ensures 0.0 <= score <= 150.0
    ensures score == 0.0 <==> ind.Count() == 0
  {
    (if ind.sustainedNegative then 40.0 else 0.0) +
    (if ind.sharpDecline then 30.0 else 0.0) +
    (if ind.engagementDrop then 25.0 else 0.0) +
    (if ind.lowSentiment then 20.0 else 0.0) +
    (if ind.lowActivity then 15.0 else 0.0) +
    (if ind.sentimentDecreasing then 10.0 else 0.0) +
    (if ind.engagementDecreasing then 10.0 else 0.0)
  }

  /** An extra indicator never lowers the score. */
  lemma RiskScoreMonotone(a: Indicators, b: Indicators)
    requires a.Within(b)
    ensures RiskScore(a) <= RiskScore(b)
  {
  }

  /** The risk level of a score: 70 and up is high, 40 and up medium. */
  function RiskLevelOf(score: real): (level: RiskLevel)
    ensures level == High <==> score >= 70.0
    ensures level == Medium <==> 40.0 <= score < 70.0
    ensures level == Low <==> score < 40.0
  {
    if score >= 70.0 then High else if score >= 40.0 then Medium else Low
  }

  /** No single indicator weighs 70, so a high risk needs two of them, and the
      sustained-negativity indicator alone already makes a medium risk. */
  lemma HighNeedsTwoIndicators(ind: Indicators)
    ensures RiskLevelOf(RiskScore(ind)) == High ==> ind.Count() >= 2
    ensures ind.sustainedNegative ==> RiskLevelOf(RiskScore(ind)) != Low
    ensures RiskLevelOf(RiskScore(ind)) != Low ==> ind.Count() >= 2 || ind.sustainedNegative
  {
  }

  /** The warnings indicators 1 to 5 append; the two trend indicators add to
      the score but append nothing. */
  function WarningsOf(ind: Indicators, streak: nat, view: TrendView, avgMessages: real): seq<Warning>
  {
    (if ind.sustainedNegative then [SustainedNegative(streak)] else []) +
    (if ind.sharpDecline then [SharpSentimentDecline(Abs(view.sentimentChange))] else []) +
    (if ind.engagementDrop then [EngagementDrop(Abs(view.engagementChange))] else []) +
    (if ind.lowSentiment then [VeryLowSentiment(view.recentAvgSentiment)] else []) +
    (if ind.lowActivity then [LowMessagingActivity(avgMessages)] else [])
  }

  /** The warnings are in strictly increasing indicator order. */
  predicate Ranked(ws: seq<Warning>)
  {
    forall i, j :: 0 <= i < j < |ws| ==> ws[i].Rank() < ws[j].Rank()
  }

  /** `'engagement drop' in ' '.join(warnings).lower()`: of the five warning
      texts only the engagement-drop one contains the phrase, and no two
      joined texts form it across the separating space. */
  predicate HasEngagementDrop(ws: seq<Warning>)
  {
    exists i :: 0 <= i < |ws| && ws[i].EngagementDrop?
  }

  /** `'low messaging activity' in ' '.join(warnings).lower()`, likewise. */
  predicate HasLowActivity(ws: seq<Warning>)
  {
    exists i :: 0 <= i < |ws| && ws[i].LowMessagingActivity?
  }

  /** The warnings come in the fixed indicator order. */
  lemma WarningsOrdered(ind: Indicators, streak: nat, view: TrendView, avgMessages: real)
    ensures Ranked(WarningsOf(ind, streak, view, avgMessages))
  {
    var e1 := if ind.sustainedNegative then [SustainedNegative(streak)] else [];
    var e2 := if ind.sharpDecline then [SharpSentimentDecline(Abs(view.sentimentChange))] else [];
    var e3 := if ind.engagementDrop then [EngagementDrop(Abs(view.engagementChange))] else [];
    var e4 := if ind.lowSentiment then [VeryLowSentiment(view.recentAvgSentiment)] else [];
    var e5 := if ind.lowActivity then [LowMessagingActivity(avgMessages)] else [];
    AppendRanked(e1, e2, 1);
    AppendRanked(e1 + e2, e3, 2);
    AppendRanked(e1 + e2 + e3, e4, 3);
    AppendRanked(e1 + e2 + e3 + e4, e5, 4);
    assert WarningsOf(ind, streak, view, avgMessages) == e1 + e2 + e3 + e4 + e5;
  }

  /** One warning per indicator that holds among the first five. */
  lemma WarningsCount(ind: Indicators, streak: nat, view: TrendView, avgMessages: real)
    ensures |WarningsOf(ind, streak, view, avgMessages)| ==
      ind.Count() - (if ind.sentimentDecreasing then 1 else 0) - (if ind.engagementDecreasing then 1 else 0)
  {
    var e1 := if ind.sustainedNegative then [SustainedNegative(streak)] else [];
    var e2 := if ind.sharpDecline then [SharpSentimentDecline(Abs(view.sentimentChange))] else [];
    var e3 := if ind.engagementDrop then [EngagementDrop(Abs(view.engagementChange))] else [];
    var e4 := if ind.lowSentiment then [VeryLowSentiment(view.recentAvgSentiment)] else [];
    var e5 := if ind.lowActivity then [LowMessagingActivity(avgMessages)] else [];
    assert WarningsOf(ind, streak, view, avgMessages) == e1 + e2 + e3 + e4 + e5;
    assert |e1 + e2 + e3 + e4 + e5| == |e1| + |e2| + |e3| + |e4| + |e5|;
  }

  lemma AppendRanked(ws: seq<Warning>, extra: seq<Warning>, k: nat)
    requires Ranked(ws) && forall i :: 0 <= i < |ws| ==> ws[i].Rank() < k
    requires |extra| <= 1 && forall i :: 0 <= i < |extra| ==> extra[i].Rank() == k
    ensures Ranked(ws + extra) && forall i :: 0 <= i < |ws + extra| ==> (ws + extra)[i].Rank() < k + 1
  {
  }

  /** The recommendation tiers that read the warnings see exactly the
      engagement-drop indicator ... */
  lemma EngagementDropWarned(ind: Indicators, streak: nat, view: TrendView, avgMessages: real)
    ensures HasEngagementDrop(WarningsOf(ind, streak, view, avgMessages)) <==> ind.engagementDrop
  {
    var e1 := if ind.sustainedNegative then [SustainedNegative(streak)] else [];
    var e2 := if ind.sharpDecline then [SharpSentimentDecline(Abs(view.sentimentChange))] else [];
    var e3 := if ind.engagementDrop then [EngagementDrop(Abs(view.engagementChange))] else [];
    var e4 := if ind.lowSentiment then [VeryLowSentiment(view.recentAvgSentiment)] else [];
    var e5 := if ind.lowActivity then [LowMessagingActivity(avgMessages)] else [];
    assert WarningsOf(ind, streak, view, avgMessages) == (e1 + e2) + e3 + (e4 + e5);
    OnlyMiddleDrops(e1 + e2, e3, e4 + e5);
    assert HasEngagementDrop(e3) <==> ind.engagementDrop by {
      if ind.engagementDrop { assert e3[0].EngagementDrop?; }
    }
  }

  /** Only the middle part can hold the engagement-drop warning. */
  lemma OnlyMiddleDrops(head: seq<Warning>, mid: seq<Warning>, rest: seq<Warning>)
    requires forall i :: 0 <= i < |head| ==> !head[i].EngagementDrop?
    requires forall i :: 0 <= i < |rest| ==> !rest[i].EngagementDrop?
    ensures HasEngagementDrop(head + mid + rest) <==> HasEngagementDrop(mid)
  {
    var ws := head + mid + rest;
    if HasEngagementDrop(mid) {
      var i :| 0 <= i < |mid| && mid[i].EngagementDrop?;
      assert ws[|head| + i] == mid[i];
    }
    if HasEngagementDrop(ws) {
      var i :| 0 <= i < |ws| && ws[i].EngagementDrop?;
      assert |head| <= i < |head| + |mid| && mid[i - |head|] == ws[i];
    }
  }

  /** ... and the low-activity indicator. */
  lemma LowActivityWarned(ind: Indicators, streak: nat, view: TrendView, avgMessages: real)
    ensures HasLowActivity(WarningsOf(ind, streak, view, avgMessages)) <==> ind.lowActivity
  {
    var e1 := if ind.sustainedNegative then [SustainedNegative(streak)] else [];
    var e2 := if ind.sharpDecline then [SharpSentimentDecline(Abs(view.sentimentChange))] else [];
    var e3 := if ind.engagementDrop then [EngagementDrop(Abs(view.engagementChange))] else [];
    var e4 := if ind.lowSentiment then [VeryLowSentiment(view.recentAvgSentiment)] else [];
    var e5 := if ind.lowActivity then [LowMessagingActivity(avgMessages)] else [];
    assert WarningsOf(ind, streak, view, avgMessages) == (e1 + e2 + e3 + e4) + e5;
    OnlyLastLowActivity(e1 + e2 + e3 + e4, e5);
    assert HasLowActivity(e5) <==> ind.lowActivity by {
      if ind.lowActivity { assert e5[0].LowMessagingActivity?; }
    }
  }

  /** Only the last part can hold the low-activity warning. */
  lemma OnlyLastLowActivity(init: seq<Warning>, last: seq<Warning>)
    requires forall i :: 0 <= i < |init| ==> !init[i].LowMessagingActivity?
    ensures HasLowActivity(init + last) <==> HasLowActivity(last)
  {
    var ws := init + last;
    if HasLowActivity(last) {
      var i :| 0 <= i < |last| && last[i].LowMessagingActivity?;
      assert ws[|init| + i] == last[i];
    }
  }

  /** One recommendation of `generate_recommendations`; `Text` is the
      string the detector appends. */
  datatype Recommendation =
    | ImmediateCheckIn
    | WorkloadReview
    | StressReduction
    | OneOnOnes
    | ReviewDeadlines
    | AddressConcerns
    | TeamBuilding
    | InvestigateEngagementCauses
    | AdjustMeetings
    | OfferSupport
    | UseChannelsEffectively
    | AddressCriticalMorale
    | FocusOnPositive
  {
    /** The position of the recommendation in the candidate list. */
    function Ord(): nat
    {
      match this
      case ImmediateCheckIn => 0
      case WorkloadReview => 1
      case StressReduction => 2
      case OneOnOnes => 3
      case ReviewDeadlines => 4
      case AddressConcerns => 5
      case TeamBuilding => 6
      case InvestigateEngagementCauses => 7
      case AdjustMeetings => 8
      case OfferSupport => 9
      case UseChannelsEffectively => 10
      case AddressCriticalMorale => 11
      case FocusOnPositive => 12
    }

    function Text(): string
    {
      match this
      case ImmediateCheckIn => "🚨 Immediate attention required - schedule team check-in"
      case WorkloadReview => "Consider workload review and redistribution"
      case StressReduction => "Implement stress-reduction initiatives"
      case OneOnOnes => "Schedule one-on-one meetings with team members"
      case ReviewDeadlines => "Review recent project demands and deadlines"
      case AddressConcerns => "Address ongoing concerns causing negative sentiment"
      case TeamBuilding => "Consider team building or morale-boosting activities"
      case InvestigateEngagementCauses => "Investigate causes of reduced team engagement"
      case AdjustMeetings => "Consider adjusting meeting schedules or communication methods"
      case OfferSupport => "Check if team members need additional support or resources"
      case UseChannelsEffectively => "Ensure communication channels are being used effectively"
      case AddressCriticalMorale => "Address critical team morale issues immediately"
      case FocusOnPositive => "Focus on positive team interactions and recognition"
    }
  }

  /** The recommendations come in strictly increasing list position. */
  predicate InTierOrder(rs: seq<Recommendation>)
  {
    forall i, j :: 0 <= i < j < |rs| ==> rs[i].Ord() < rs[j].Ord()
  }

  /** A tier in order whose positions lie in [lo, hi). */
  predicate TierWithin(t: seq<Recommendation>, lo: nat, hi: nat)
  {
    InTierOrder(t) && forall i :: 0 <= i < |t| ==> lo <= t[i].Ord() < hi
  }

  function HighRiskTier(level: RiskLevel): (t: seq<Recommendation>)
    ensures TierWithin(t, 0, 3) && (t != [] <==> level == High)
  {
    if level == High then [ImmediateCheckIn, WorkloadReview, StressReduction] else []
  }

  function AtRiskTier(level: RiskLevel): (t: seq<Recommendation>)
    ensures TierWithin(t, 3, 5) && (t != [] <==> level == High || level == Medium)
  {
    if level == High || level == Medium then [OneOnOnes, ReviewDeadlines] else []
  }

  /** The literal 3, not the configured minimum. */
  function NegativityTier(consecutive: nat): (t: seq<Recommendation>)
    ensures TierWithin(t, 5, 7) && (t != [] <==> consecutive >= 3)
  {
    if consecutive >= 3 then [AddressConcerns, TeamBuilding] else []
  }

  function EngagementTier(warnings: seq<Warning>): (t: seq<Recommendation>)
    ensures TierWithin(t, 7, 9) && (t != [] <==> HasEngagementDrop(warnings))
  {
    if HasEngagementDrop(warnings) then [InvestigateEngagementCauses, AdjustMeetings] else []
  }

  function ActivityTier(warnings: seq<Warning>): (t: seq<Recommendation>)
    ensures TierWithin(t, 9, 11) && (t != [] <==> HasLowActivity(warnings))
  {
    if HasLowActivity(warnings) then [OfferSupport, UseChannelsEffectively] else []
  }

  /** At most one of the two sentiment recommendations, the critical one
      below -0.5. */
  function SentimentTier(recentSentiment: real): (t: seq<Recommendation>)
    ensures TierWithin(t, 11, 13) && (t != [] <==> recentSentiment < 0.0)
    ensures |t| <= 1 && (t == [AddressCriticalMorale] <==> recentSentiment < -0.5)
  {
    if recentSentiment < -0.5 then [AddressCriticalMorale]
    else if recentSentiment < 0.0 then [FocusOnPositive]
    else []
  }

  /** The candidate list of `generate_recommendations`, tier by tier. */
  function RecommendationCandidates(level: RiskLevel, consecutive: nat, warnings: seq<Warning>, recentSentiment: real): seq<Recommendation>
  {
    HighRiskTier(level) + AtRiskTier(level) + NegativityTier(consecutive) +
    EngagementTier(warnings) + ActivityTier(warnings) + SentimentTier(recentSentiment)
  }

  /** The detector's thresholds. Only `burnoutThreshold` and
      `consecutiveNegativeDays` are read; the engagement-drop indicator uses
      the literal -50 instead of `engagementDropThreshold`. */
  datatype BurnoutDetector = BurnoutDetector(
    burnoutThreshold: real,
    consecutiveNegativeDays: int,
    engagementDropThreshold: real)
  {
    /** `get_recent_days`: the entries of the last min(days, n) dates in date
        order, each with its value from `channelMetrics`. */
    function GetRecentDays(channelMetrics: Dict<int, DayMetrics>, days: int): (r: Dict<int, DayMetrics>)
      requires DistinctKeys(channelMetrics)
      ensures Keys(r) == RecentDates(channelMetrics, days)
      ensures |r| <= |channelMetrics| && Keys(r) == SortedKeys(channelMetrics)[|channelMetrics| - |r|..]
      ensures days >= 1 ==> |r| == if days <= |channelMetrics| then days else |channelMetrics|
      ensures forall i :: 0 <= i < |r| ==> Get(channelMetrics, r[i].0) == Some(r[i].1)
      ensures DistinctKeys(r)
    {
      var dates := RecentDates(channelMetrics, days);
      var r := seq(|dates|, i requires 0 <= i < |dates| => (dates[i], Get(channelMetrics, dates[i]).value));
      assert Keys(r) == dates;
      r
    }

    /** The average sentiments of `recentDays`, newest date first. */
    function NewestFirst(recentDays: Dict<int, DayMetrics>): (s: seq<real>)
      requires DistinctKeys(recentDays)
      ensures |s| == |recentDays|
    {
      var dates := Reverse(SortedKeys(recentDays));
      ReverseMembers(SortedKeys(recentDays));
      Column(recentDays, dates, AvgSentimentOf)
    }

    /** `count_consecutive_negative_days`: the days below the threshold
        counted from the newest, stopping at the first one that is not. */
    method CountConsecutiveNegativeDays(recentDays: Dict<int, DayMetrics>) returns (count: nat)
      requires DistinctKeys(recentDays)
      ensures count == LeadingBelow(NewestFirst(recentDays), burnoutThreshold)
      ensures count <= |recentDays|
    {
      if recentDays == [] {
        return 0;
      }
      var sortedDates := Reverse(SortedKeys(recentDays));
      ReverseMembers(SortedKeys(recentDays));
      ghost var values := NewestFirst(recentDays);
      var consecutiveCount := 0;
      var i := 0;
      while i < |sortedDates|
        invariant 0 <= i <= |sortedDates| && consecutiveCount == i
        invariant forall j :: 0 <= j < i ==> values[j] < burnoutThreshold
      {
        var day := Get(recentDays, sortedDates[i]).value;
        if day.avgSentiment < burnoutThreshold {
          consecutiveCount := consecutiveCount + 1;
        } else {
          LeadingBelowIs(values, burnoutThreshold, i);
          return consecutiveCount;
        }
        i := i + 1;
      }
      LeadingBelowIs(values, burnoutThreshold, i);
      count := consecutiveCount;
    }

    /** The seven indicators of a channel. */
    function IndicatorsOf(streak: nat, view: TrendView, avgMessages: real): Indicators
    {
      Indicators(
        streak >= consecutiveNegativeDays,
        view.sentimentChange < -30.0,
        view.engagementChange < -50.0,
        view.recentAvgSentiment < burnoutThreshold,
        avgMessages < 2.0,
        view.sentimentTrend == Decreasing,
        view.engagementTrend == Decreasing)
    }

    /** `analyze_channel_burnout` as a value. */
    function AlertOf(channelName: string, channelMetrics: Dict<int, DayMetrics>, trend: Option<ChannelTrend>): Alert
      requires DistinctKeys(channelMetrics)
    {
      var view := ViewOf(trend);
      if channelMetrics == [] then
        Alert(channelName, Low, 0.0, [], [], 0, view.sentimentTrend, view.engagementTrend)
      else
        var recent := GetRecentDays(channelMetrics, 7);
        var streak := LeadingBelow(NewestFirst(recent), burnoutThreshold);
        var avgMessages := Mean(MessageCounts(recent));
        var ind := IndicatorsOf(streak, view, avgMessages);
        var score := RiskScore(ind);
        var level := RiskLevelOf(score);
        var warnings := WarningsOf(ind, streak, view, avgMessages);
        Alert(channelName, level, score, warnings,
          Dedup(RecommendationCandidates(level, streak, warnings, view.recentAvgSentiment)),
          streak, view.sentimentTrend, view.engagementTrend)
    }

    /** What every alert satisfies: its level is the classification of its
        score, which lies in [0, 150]; a channel without day records is at
        low risk with nothing to report; the streak covers at most the seven
        recent days; the warnings come in indicator order and the
        recommendations without repetition. */
    lemma AlertFacts(channelName: string, channelMetrics: Dict<int, DayMetrics>, trend: Option<ChannelTrend>)
      requires DistinctKeys(channelMetrics)
      ensures var a := AlertOf(channelName, channelMetrics, trend);
        a.channel == channelName &&
        a.riskLevel == RiskLevelOf(a.riskScore) && 0.0 <= a.riskScore <= 150.0 &&
        (channelMetrics == [] ==>
          a.riskLevel == Low && a.riskScore == 0.0 && a.warningIndicators == [] &&
          a.recommendations == [] && a.consecutiveNegativeDays == 0) &&
        a.consecutiveNegativeDays <= 7 && a.consecutiveNegativeDays <= |channelMetrics| &&
        Ranked(a.warningIndicators) && |a.warningIndicators| <= 5 &&
        (channelMetrics != [] ==>
          a.recommendations == RecommendationCandidates(a.riskLevel, a.consecutiveNegativeDays, a.warningIndicators,
                                                        ViewOf(trend).recentAvgSentiment)) &&
        InTierOrder(a.recommendations) && NoDuplicates(a.recommendations) &&
        a.sentimentTrend == ViewOf(trend).sentimentTrend && a.engagementTrend == ViewOf(trend).engagementTrend
    {
      if channelMetrics != [] {
        var view := ViewOf(trend);
        var recent := GetRecentDays(channelMetrics, 7);
        var streak := LeadingBelow(NewestFirst(recent), burnoutThreshold);
        var avgMessages := Mean(MessageCounts(recent));
        var ind := IndicatorsOf(streak, view, avgMessages);
        var warnings := WarningsOf(ind, streak, view, avgMessages);
        WarningsOrdered(ind, streak, view, avgMessages);
        WarningsCount(ind, streak, view, avgMessages);
        CandidatesInTierOrder(RiskLevelOf(RiskScore(ind)), streak, warnings, view.recentAvgSentiment);
        CandidatesDistinct(RiskLevelOf(RiskScore(ind)), streak, warnings, view.recentAvgSentiment);
      }
    }

    /** `analyze_channel_burnout`: a channel without day records is at low
        risk; otherwise the recent week is scored indicator by indicator and
        classified, and the recommendations are attached. */
    method AnalyzeChannelBurnout(channelName: string, channelMetrics: Dict<int, DayMetrics>, channelTrends: Option<ChannelTrend>)
      returns (alerts: Alert)
      requires DistinctKeys(channelMetrics)
      ensures alerts == AlertOf(channelName, channelMetrics, channelTrends)
    {
      var view := ViewOf(channelTrends);
      alerts := Alert(channelName, Low, 0.0, [], [], 0, view.sentimentTrend, view.engagementTrend);
      if channelMetrics == [] {
        return;
      }
      var recentDays := GetRecentDays(channelMetrics, 7);
      var consecutiveNegative := CountConsecutiveNegativeDays(recentDays);
      var recentMessageCounts := MessageCounts(recentDays);
      var avgMessages := if recentMessageCounts != [] then Sum(recentMessageCounts) / |recentMessageCounts| as real else 0.0;
      var riskScore, warnings := AccumulateRisk(IndicatorsOf(consecutiveNegative, view, avgMessages), consecutiveNegative, view, avgMessages);
      var riskLevel;
      if riskScore >= 70.0 {
        riskLevel := High;
      } else if riskScore >= 40.0 {
        riskLevel := Medium;
      } else {
        riskLevel := Low;
      }
      assert avgMessages == Mean(MessageCounts(recentDays));
      assert riskLevel == RiskLevelOf(riskScore);
      alerts := Alert(channelName, riskLevel, riskScore, warnings, [], consecutiveNegative, view.sentimentTrend, view.engagementTrend);
      var recommendations := GenerateRecommendations(alerts, view);
      alerts := alerts.(recommendations := recommendations);
    }

    /** `generate_recommendations`: the candidate list, then the `seen`-set
        loop. */
    method GenerateRecommendations(alerts: Alert, channelTrends: TrendView) returns (uniqueRecommendations: seq<Recommendation>)
      ensures uniqueRecommendations == Dedup(RecommendationCandidates(alerts.riskLevel, alerts.consecutiveNegativeDays,
                                                                      alerts.warningIndicators, channelTrends.recentAvgSentiment))
    {
      var recommendations := RecommendationCandidates(alerts.riskLevel, alerts.consecutiveNegativeDays,
                                                      alerts.warningIndicators, channelTrends.recentAvgSentiment);
      uniqueRecommendations := RemoveDuplicates(recommendations);
    }

    /** Each channel's alert, in channel order. */
    function AnalyzeAll(dailyMetrics: Dict<string, Dict<int, DayMetrics>>, trends: Dict<string, ChannelTrend>): (r: Dict<string, Alert>)
      requires WellFormed(dailyMetrics)
      ensures Keys(r) == Keys(dailyMetrics)
    {
      var r := seq(|dailyMetrics|, i requires 0 <= i < |dailyMetrics| => (dailyMetrics[i].0, AlertAt(dailyMetrics, trends, i)));
      assert Keys(r) == Keys(dailyMetrics);
      r
    }

    /** `analyze_channel_burnout(name, metrics, trends.get(name, {}))` of the
        i-th channel. */
    function AlertAt(dailyMetrics: Dict<string, Dict<int, DayMetrics>>, trends: Dict<string, ChannelTrend>, i: nat): Alert
      requires WellFormed(dailyMetrics) && i < |dailyMetrics|
    {
      assert dailyMetrics[i] in dailyMetrics;
      AlertOf(dailyMetrics[i].0, dailyMetrics[i].1, Get(trends, dailyMetrics[i].0))
    }

    /** `detect_burnout_patterns`. */
    method DetectBurnoutPatterns(dailyMetrics: Dict<string, Dict<int, DayMetrics>>, engagementTrends: Dict<string, ChannelTrend>)
      returns (burnoutAlerts: Dict<string, Alert>)
      requires WellFormed(dailyMetrics)
      ensures burnoutAlerts == KeepAtRisk(AnalyzeAll(dailyMetrics, engagementTrends))
    {
      ghost var analyzed := AnalyzeAll(dailyMetrics, engagementTrends);
      burnoutAlerts := [];
      for i := 0 to |dailyMetrics|
        invariant burnoutAlerts == KeepAtRisk(analyzed[..i])
      {
        var (channelName, channelMetrics) := dailyMetrics[i];
        assert dailyMetrics[i] in dailyMetrics;
        var channelAlerts := AnalyzeChannelBurnout(channelName, channelMetrics, Get(engagementTrends, channelName));
        assert analyzed[i] == (channelName, channelAlerts);
        KeepWhereStep(analyzed, AtRisk, i);
        if channelAlerts.riskLevel != Low {
          burnoutAlerts := Put(burnoutAlerts, channelName, channelAlerts);
        }
      }
      assert analyzed[..|dailyMetrics|] == analyzed;
    }

    /** In a dict of channels, exactly the channels not at low risk have an
        alert, it is the channel's own, and no other name has one. */
    lemma DetectExactly(dailyMetrics: Dict<string, Dict<int, DayMetrics>>, trends: Dict<string, ChannelTrend>)
      requires WellFormed(dailyMetrics) && DistinctKeys(dailyMetrics)
      ensures var r := KeepAtRisk(AnalyzeAll(dailyMetrics, trends));
        (forall i :: 0 <= i < |dailyMetrics| ==>
          Get(r, dailyMetrics[i].0) ==
            if AlertAt(dailyMetrics, trends, i).riskLevel != Low then Some(AlertAt(dailyMetrics, trends, i)) else None) &&
        (forall c :: c in Keys(r) ==> c in Keys(dailyMetrics))
    {
      var analyzed := AnalyzeAll(dailyMetrics, trends);
      forall i | 0 <= i < |dailyMetrics|
        ensures Get(KeepAtRisk(analyzed), dailyMetrics[i].0) ==
          if AlertAt(dailyMetrics, trends, i).riskLevel != Low then Some(AlertAt(dailyMetrics, trends, i)) else None
      {
        KeepWhereGet(analyzed, AtRisk, i);
      }
      KeepWhereKeys(analyzed, AtRisk);
    }
  }

  /** The score and warning accumulation of `analyze_channel_burnout`, one
      indicator at a time. */
  method AccumulateRisk(ind: Indicators, streak: nat, view: TrendView, avgMessages: real)
    returns (riskScore: real, warnings: seq<Warning>)
    ensures riskScore == RiskScore(ind)
    ensures warnings == WarningsOf(ind, streak, view, avgMessages)
  {
    riskScore := 0.0;
    warnings := [];
    if ind.sustainedNegative {
      riskScore := riskScore + 40.0;
      warnings := warnings + [SustainedNegative(streak)];
    }
    ghost var w1 := if ind.sustainedNegative then [SustainedNegative(streak)] else [];
    assert warnings == w1;
    if ind.sharpDecline {
      riskScore := riskScore + 30.0;
      warnings := warnings + [SharpSentimentDecline(Abs(view.sentimentChange))];
    }
    ghost var w2 := w1 + if ind.sharpDecline then [SharpSentimentDecline(Abs(view.sentimentChange))] else [];
    assert warnings == w2;
    if ind.engagementDrop {
      riskScore := riskScore + 25.0;
      warnings := warnings + [EngagementDrop(Abs(view.engagementChange))];
    }
    ghost var w3 := w2 + if ind.engagementDrop then [EngagementDrop(Abs(view.engagementChange))] else [];
    assert warnings == w3;
    if ind.lowSentiment {
      riskScore := riskScore + 20.0;
      warnings := warnings + [VeryLowSentiment(view.recentAvgSentiment)];
    }
    ghost var w4 := w3 + if ind.lowSentiment then [VeryLowSentiment(view.recentAvgSentiment)] else [];
    assert warnings == w4;
    if ind.lowActivity {
      riskScore := riskScore + 15.0;
      warnings := warnings + [LowMessagingActivity(avgMessages)];
    }
    if ind.sentimentDecreasing {
      riskScore := riskScore + 10.0;
    }
    if ind.engagementDecreasing {
      riskScore := riskScore + 10.0;
    }
  }

  /** The detector with its default thresholds. */
  const DefaultDetector := BurnoutDetector(-0.3, 3, 0.5)

  /** How many leading values lie below the threshold. */
  function LeadingBelow(s: seq<real>, threshold: real): (n: nat)
    ensures n <= |s|
    ensures forall j :: 0 <= j < n ==> s[j] < threshold
    ensures n < |s| ==> s[n] >= threshold
    decreases |s|
  {
    if s == [] || s[0] >= threshold then 0 else 1 + LeadingBelow(s[1..], threshold)
  }

  /** The streak is determined by where the first day at or above the
      threshold stands. */
  lemma LeadingBelowIs(s: seq<real>, threshold: real, k: nat)
    requires k <= |s|
    requires forall j :: 0 <= j < k ==> s[j] < threshold
    requires k < |s| ==> s[k] >= threshold
    ensures LeadingBelow(s, threshold) == k
  {
  }

  /** A week oldest first of -0.4, -0.4, -0.4, -0.4, -0.2, -0.4, -0.4 has a
      streak of 2 at the default threshold: the -0.2 day breaks it. */
  lemma StreakStopsAtBreak()
    ensures LeadingBelow(Reverse([-0.4, -0.4, -0.4, -0.4, -0.2, -0.4, -0.4]), DefaultDetector.burnoutThreshold) == 2
  {
    var s := Reverse([-0.4, -0.4, -0.4, -0.4, -0.2, -0.4, -0.4]);
    assert s[0] == -0.4 && s[1] == -0.4 && s[2] == -0.2;
    LeadingBelowIs(s, -0.3, 2);
  }

  /** `[day['message_count'] for day in recent_days.values()]`. */
  function MessageCounts(days: Dict<int, DayMetrics>): (s: seq<real>)
    ensures |s| == |days|
    ensures forall i :: 0 <= i < |s| ==> s[i] == days[i].1.messageCount as real
  {
    seq(|days|, i requires 0 <= i < |days| => days[i].1.messageCount as real)
  }

  lemma {:induction false} DedupStep<T>(s: seq<T>, i: nat)
    requires i < |s|
    ensures Dedup(s[..i + 1]) == if s[i] in Dedup(s[..i]) then Dedup(s[..i]) else Dedup(s[..i]) + [s[i]]
  {
    assert s[..i + 1][..i] == s[..i];
  }



  /** The `seen`-set loop of `generate_recommendations`: each item is kept
      at its first occurrence. */
  method RemoveDuplicates<T(==)>(items: seq<T>) returns (unique: seq<T>)
    ensures unique == Dedup(items)
    ensures NoDuplicates(unique)
    ensures forall x :: x in unique <==> x in items
  {
    var seen: set<T> := {};
    unique := [];
    for i := 0 to |items|
      invariant unique == Dedup(items[..i])
      invariant forall x :: x in seen <==> x in unique
    {
      var item := items[i];
      DedupStep(items, i);
      if item !in seen {
        seen := seen + {item};
        unique := unique + [item];
      }
    }
    assert items[..|items|] == items;
    DedupMembers(items);
  }

  /** The candidates come in strictly increasing list position, so no
      recommendation repeats. */
  lemma CandidatesInTierOrder(level: RiskLevel, consecutive: nat, warnings: seq<Warning>, recentSentiment: real)
    ensures InTierOrder(RecommendationCandidates(level, consecutive, warnings, recentSentiment))
    ensures NoDuplicates(RecommendationCandidates(level, consecutive, warnings, recentSentiment))
  {
    TiersInOrder(HighRiskTier(level), AtRiskTier(level), NegativityTier(consecutive),
                 EngagementTier(warnings), ActivityTier(warnings), SentimentTier(recentSentiment));
  }

  /** Hence the de-duplication of `generate_recommendations` removes
      nothing. */
  lemma CandidatesDistinct(level: RiskLevel, consecutive: nat, warnings: seq<Warning>, recentSentiment: real)
    ensures Dedup(RecommendationCandidates(level, consecutive, warnings, recentSentiment)) ==
      RecommendationCandidates(level, consecutive, warnings, recentSentiment)
  {
    CandidatesInTierOrder(level, consecutive, warnings, recentSentiment);
    DedupIdentity(RecommendationCandidates(level, consecutive, warnings, recentSentiment));
  }

  /** Six tiers whose positions fall in consecutive ranges concatenate in
      order and without repetition. */
  lemma TiersInOrder(t1: seq<Recommendation>, t2: seq<Recommendation>, t3: seq<Recommendation>,
                     t4: seq<Recommendation>, t5: seq<Recommendation>, t6: seq<Recommendation>)
    requires TierWithin(t1, 0, 3)
    requires TierWithin(t2, 3, 5)
    requires TierWithin(t3, 5, 7)
    requires TierWithin(t4, 7, 9)
    requires TierWithin(t5, 9, 11)
    requires TierWithin(t6, 11, 13)
    ensures InTierOrder(t1 + t2 + t3 + t4 + t5 + t6) && NoDuplicates(t1 + t2 + t3 + t4 + t5 + t6)
  {
    AppendTier(t1, t2, 3, 5);
    AppendTier(t1 + t2, t3, 5, 7);
    AppendTier(t1 + t2 + t3, t4, 7, 9);
    AppendTier(t1 + t2 + t3 + t4, t5, 9, 11);
    AppendTier(t1 + t2 + t3 + t4 + t5, t6, 11, 13);
  }

  lemma AppendTier(rs: seq<Recommendation>, tier: seq<Recommendation>, lo: nat, hi: nat)
    requires TierWithin(rs, 0, lo) && lo <= hi && TierWithin(tier, lo, hi)
    ensures TierWithin(rs + tier, 0, hi)
    ensures NoDuplicates(rs + tier)
  {
    var s := rs + tier;
    forall i, j | 0 <= i < j < |s|
      ensures s[i] != s[j]
    {
      assert s[i].Ord() < s[j].Ord();
    }
  }

  predicate AtRisk(a: Alert) { a.riskLevel != Low }

  /** `burnout_alerts[channel_name] = channel_alerts` for each alert not at
      low risk. */
  function KeepAtRisk(alerts: Dict<string, Alert>): (r: Dict<string, Alert>)
    ensures DistinctKeys(r)
    ensures forall i :: 0 <= i < |r| ==> r[i].1.riskLevel != Low
  {
    var r := KeepWhere(alerts, AtRisk);
    assert forall i :: 0 <= i < |r| ==> AtRisk(r[i].1);
    r
  }

  // ---------------------------------------------------------------------
  // get_overall_burnout_assessment and get_priority_actions
  // ---------------------------------------------------------------------

  /** The `summary` text, by the numbers it prints. */
  datatype AssessmentSummary =
    | NoRisksDetected
    | HighRiskDetected(highRiskChannels: nat)
    | ModerateRisk(mediumRiskChannels: nat)
    | LowOverallRisk

  /** The three action texts, by the channel lists they join. */
  datatype PriorityAction =
    | ReviewTeams(channels: seq<string>)
    | AddressSustainedNegativity(channels: seq<string>)
    | InvestigateEngagement(channels: seq<string>)
  {
    function Rank(): nat
    {
      match this
      case ReviewTeams(_) => 0
      case AddressSustainedNegativity(_) => 1
      case InvestigateEngagement(_) => 2
    }
  }

  /** The assessment dictionary; `priorityActions` is None for an empty
      alert dict, whose dictionary has no such key. */
  datatype Assessment = Assessment(
    overallRiskLevel: RiskLevel,
    channelsAtRisk: nat,
    highRiskChannels: seq<string>,
    mediumRiskChannels: seq<string>,
    totalWarnings: nat,
    summary: AssessmentSummary,
    priorityActions: Option<seq<PriorityAction>>)

  predicate IsHigh(a: Alert) { a.riskLevel == High }

  predicate IsMedium(a: Alert) { a.riskLevel == Medium }

  /** The literal 3 of `get_priority_actions`, not the configured minimum. */
  predicate HasSustainedNegativity(a: Alert) { a.consecutiveNegativeDays >= 3 }

  predicate HasEngagementIssue(a: Alert) { HasEngagementDrop(a.warningIndicators) }

  /** `[ch for ch, alert in alerts.items() if p(alert)]`. */
  function ChannelsWhere(alerts: Dict<string, Alert>, p: Alert -> bool): (r: seq<string>)
    ensures |r| <= |alerts|
    ensures forall c :: c in r <==> exists i :: 0 <= i < |alerts| && alerts[i].0 == c && p(alerts[i].1)
    decreases |alerts|
  {
    if alerts == [] then []
    else
      var k := |alerts| - 1;
      var init := ChannelsWhere(alerts[..k], p);
      assert forall i :: 0 <= i < k ==> alerts[..k][i] == alerts[i];
      if p(alerts[k].1) then init + [alerts[k].0] else init
  }

  /** The filter keeps dict order: filtering two dicts one after the other
      gives the two filtered lists one after the other. */
  lemma {:induction false} ChannelsWhereAppend(a: Dict<string, Alert>, b: Dict<string, Alert>, p: Alert -> bool)
    ensures ChannelsWhere(a + b, p) == ChannelsWhere(a, p) + ChannelsWhere(b, p)
    decreases |b|
  {
    if b == [] {
      assert a + b == a;
    } else {
      var k := |b| - 1;
      ChannelsWhereAppend(a, b[..k], p);
      assert (a + b)[..|a| + k] == a + b[..k];
      assert (a + b)[|a| + k] == b[k];
    }
  }

  /** `sum(len(alert['warning_indicators']) for alert in alerts.values())`. */
  function TotalWarnings(alerts: Dict<string, Alert>): nat
    decreases |alerts|
  {
    if alerts == [] then 0
    else TotalWarnings(alerts[..|alerts| - 1]) + |alerts[|alerts| - 1].1.warningIndicators|
  }

  /** The total is zero exactly when no alert carries a warning. */
  lemma {:induction false} NoWarningsIffZeroTotal(alerts: Dict<string, Alert>)
    ensures TotalWarnings(alerts) == 0 <==> forall i :: 0 <= i < |alerts| ==> alerts[i].1.warningIndicators == []
    decreases |alerts|
  {
    if alerts != [] {
      var init := alerts[..|alerts| - 1];
      NoWarningsIffZeroTotal(init);
      assert forall i :: 0 <= i < |init| ==> init[i] == alerts[i];
    }
  }

  /** The overall level: high for any high channel or two medium ones,
      medium for one medium channel, low otherwise. */
  function OverallRisk(high: seq<string>, medium: seq<string>): RiskLevel
  {
    if high != [] then High
    else if |medium| >= 2 then High
    else if medium != [] then Medium
    else Low
  }

  /** The actions before the cut: one per non-empty channel list, in the
      order high risk, sustained negativity, engagement. */
  function ActionList(high: seq<string>, negative: seq<string>, engagement: seq<string>): seq<PriorityAction>
  {
    (if high != [] then [ReviewTeams(high)] else []) +
    (if negative != [] then [AddressSustainedNegativity(negative)] else []) +
    (if engagement != [] then [InvestigateEngagement(engagement)] else [])
  }

  /** `get_priority_actions`, cut to five. */
  function GetPriorityActions(alerts: Dict<string, Alert>): (r: seq<PriorityAction>)
    ensures |r| <= 5
  {
    var high := ChannelsWhere(alerts, IsHigh);
    var negative := ChannelsWhere(alerts, HasSustainedNegativity);
    var engagement := ChannelsWhere(alerts, HasEngagementIssue);
    Take(ActionList(high, negative, engagement), 5)
  }

  /** At most three actions, in pattern order, each present exactly when its
      channel list is non-empty. */
  lemma ActionListFacts(high: seq<string>, negative: seq<string>, engagement: seq<string>)
    ensures var r := ActionList(high, negative, engagement);
      |r| <= 3 &&
      (forall i, j :: 0 <= i < j < |r| ==> r[i].Rank() < r[j].Rank()) &&
      (ReviewTeams(high) in r <==> high != []) &&
      (AddressSustainedNegativity(negative) in r <==> negative != []) &&
      (InvestigateEngagement(engagement) in r <==> engagement != [])
  {
    var a1 := if high != [] then [ReviewTeams(high)] else [];
    var a2 := if negative != [] then [AddressSustainedNegativity(negative)] else [];
    var a3 := if engagement != [] then [InvestigateEngagement(engagement)] else [];
    assert forall x :: x in a1 + a2 + a3 <==> x in a1 || x in a2 || x in a3;
  }

  /** The cut to five never applies; the actions come in pattern order,
      and each appears exactly when some alert shows its pattern. */
  lemma PriorityActionsFacts(alerts: Dict<string, Alert>)
    ensures var r := GetPriorityActions(alerts);
      |r| <= 3 &&
      r == ActionList(ChannelsWhere(alerts, IsHigh), ChannelsWhere(alerts, HasSustainedNegativity),
                      ChannelsWhere(alerts, HasEngagementIssue)) &&
      (forall i, j :: 0 <= i < j < |r| ==> r[i].Rank() < r[j].Rank()) &&
      (ReviewTeams(ChannelsWhere(alerts, IsHigh)) in r <==>
        exists i :: 0 <= i < |alerts| && IsHigh(alerts[i].1)) &&
      (AddressSustainedNegativity(ChannelsWhere(alerts, HasSustainedNegativity)) in r <==>
        exists i :: 0 <= i < |alerts| && HasSustainedNegativity(alerts[i].1)) &&
      (InvestigateEngagement(ChannelsWhere(alerts, HasEngagementIssue)) in r <==>
        exists i :: 0 <= i < |alerts| && HasEngagementIssue(alerts[i].1))
  {
    var high := ChannelsWhere(alerts, IsHigh);
    var negative := ChannelsWhere(alerts, HasSustainedNegativity);
    var engagement := ChannelsWhere(alerts, HasEngagementIssue);
    ActionListFacts(high, negative, engagement);
    NonEmptyIffSome(alerts, IsHigh);
    NonEmptyIffSome(alerts, HasSustainedNegativity);
    NonEmptyIffSome(alerts, HasEngagementIssue);
  }

  /** A filtered channel list is non-empty exactly when some alert passes
      the filter. */
  lemma NonEmptyIffSome(alerts: Dict<string, Alert>, p: Alert -> bool)
    ensures ChannelsWhere(alerts, p) != [] <==> exists i :: 0 <= i < |alerts| && p(alerts[i].1)
  {
    var r := ChannelsWhere(alerts, p);
    if r != [] {
      assert r[0] in r;
    }
    if exists i :: 0 <= i < |alerts| && p(alerts[i].1) {
      var i :| 0 <= i < |alerts| && p(alerts[i].1);
      assert alerts[i].0 in r;
    }
  }

  /** `get_overall_burnout_assessment`. */
  function GetOverallBurnoutAssessment(alerts: Dict<string, Alert>): (r: Assessment)
    ensures alerts == [] ==> r == Assessment(Low, 0, [], [], 0, NoRisksDetected, None)
    ensures alerts != [] ==> r.channelsAtRisk == |alerts| && r.priorityActions == Some(GetPriorityActions(alerts))
    ensures alerts != [] ==> r.totalWarnings == TotalWarnings(alerts)
  {
    if alerts == [] then Assessment(Low, 0, [], [], 0, NoRisksDetected, None)
    else
      var high := ChannelsWhere(alerts, IsHigh);
      var medium := ChannelsWhere(alerts, IsMedium);
      var overall := OverallRisk(high, medium);
      var summary :=
        if overall == High then HighRiskDetected(|high|)
        else if overall == Medium then ModerateRisk(|medium|)
        else LowOverallRisk;
      Assessment(overall, |alerts|, high, medium, TotalWarnings(alerts), summary, Some(GetPriorityActions(alerts)))
  }

  /** The overall level is high exactly when some channel is high or at
      least two are medium, and medium exactly when one is medium and none
      is high. Two medium channels and no high one give the high-risk
      summary with a count of 0 high-risk channels. */
  lemma OverallRiskLevels(alerts: Dict<string, Alert>)
    requires alerts != []
    ensures var r := GetOverallBurnoutAssessment(alerts);
      var someHigh := exists i :: 0 <= i < |alerts| && IsHigh(alerts[i].1);
      var mediums := |ChannelsWhere(alerts, IsMedium)|;
      (r.overallRiskLevel == High <==> someHigh || mediums >= 2) &&
      (r.overallRiskLevel == Medium <==> !someHigh && mediums == 1) &&
      (r.overallRiskLevel == Low <==> !someHigh && mediums == 0) &&
      (!someHigh && mediums >= 2 ==> r.summary == HighRiskDetected(0))
  {
    NonEmptyIffSome(alerts, IsHigh);
  }

  /** The alerts `detect_burnout_patterns` returns are never at low risk,
      so for them the low-risk summary is unreachable. */
  lemma AtRiskAlertsNeverLow(alerts: Dict<string, Alert>)
    requires alerts != []
    requires forall i :: 0 <= i < |alerts| ==> alerts[i].1.riskLevel != Low
    ensures GetOverallBurnoutAssessment(alerts).overallRiskLevel != Low
    ensures GetOverallBurnoutAssessment(alerts).summary != LowOverallRisk
  {
    NonEmptyIffSome(alerts, IsHigh);
    NonEmptyIffSome(alerts, IsMedium);
    assert IsHigh(alerts[0].1) || IsMedium(alerts[0].1);
  }
}
