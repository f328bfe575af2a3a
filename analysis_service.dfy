/**
 * The client's subscription tables and analysis history
 * (services/analysisService.ts): the free/premium plan table, the
 * tier-derived limits and feature flags reported by getUserStatus, the
 * usage figures of the fixed mock results, and the ten-entry history kept by
 * saveAnalysisResult.
 *
 * The network (fetch), storage, clocks and Math.random are parameters: a
 * server reply is an Option (None when the request throws), a random draw is
 * an argument in the range it can take, a date is an opaque string.
 */
module AnalysisService {
  import opened Wrappers
  import ScoreNormalizer

  datatype Tier = Free | Premium

  datatype Features = Features(basicAnalysis: bool, detailedSuggestions: bool, progressTracking: bool,
                               exportResults: bool, priorityProcessing: bool)

  datatype PlanLimits = PlanLimits(maxImagesPerAnalysis: nat, maxAnalysesPerMonth: nat, maxImageSizeMB: nat)

  /** A plan; the price is kept in cents (9.99 is 999). */
  datatype Plan = Plan(name: string, priceCents: nat, features: Features, limits: PlanLimits)

  datatype Plans = Plans(free: Plan, premium: Plan)
  {
    function For(t: Tier): Plan
    {
      match t
      case Free => free
      case Premium => premium
    }
  }

  // ---------------------------------------------------------------------
  // getPlans

  /** The table getPlans returns in development. */
  function DevelopmentPlans(): Plans
  {
    Plans(
      Plan("Free", 0,
           Features(basicAnalysis := true, detailedSuggestions := false, progressTracking := false,
                    exportResults := false, priorityProcessing := false),
           PlanLimits(maxImagesPerAnalysis := 2, maxAnalysesPerMonth := 3, maxImageSizeMB := 5)),
      Plan("Premium", 999,
           Features(basicAnalysis := true, detailedSuggestions := true, progressTracking := true,
                    exportResults := true, priorityProcessing := true),
           PlanLimits(maxImagesPerAnalysis := 4, maxAnalysesPerMonth := 50, maxImageSizeMB := 10)))
  }

  /** The table getPlans returns when the request to /plans fails. */
  function FallbackPlans(): Plans
  {
    Plans(
      Plan("Free", 0,
           Features(basicAnalysis := true, detailedSuggestions := false, progressTracking := false,
                    exportResults := false, priorityProcessing := false),
           PlanLimits(maxImagesPerAnalysis := 2, maxAnalysesPerMonth := 3, maxImageSizeMB := 5)),
      Plan("Premium", 999,
           Features(basicAnalysis := true, detailedSuggestions := true, progressTracking := true,
                    exportResults := true, priorityProcessing := true),
           PlanLimits(maxImagesPerAnalysis := 4, maxAnalysesPerMonth := 50, maxImageSizeMB := 10)))
  }

  /**
   * getPlans: the development table; otherwise the server's reply, or the
   * fallback table when the request fails.
   */
  function GetPlans(development: bool, reply: Option<Plans>): (plans: Plans)
    ensures development || reply.None? ==> plans == DevelopmentPlans()
    ensures !development && reply.Some? ==> plans == reply.value
  {
    if development then DevelopmentPlans()
    else match reply
      case Some(p) => p
      case None => FallbackPlans()
  }

  /** The fallback table is the development table, entry for entry. */
  lemma FallbackIsDevelopmentTable()
    ensures FallbackPlans() == DevelopmentPlans()
  {
  }

  /** Free: 2 images, 3 analyses a month, 5 MB; premium: 4, 50, 10. */
  lemma PlanTableLimits()
    ensures DevelopmentPlans().For(Free).limits == PlanLimits(2, 3, 5)
    ensures DevelopmentPlans().For(Premium).limits == PlanLimits(4, 50, 10)
  {
  }

  /** Basic analysis is in both plans; the other four features only in premium. */
  lemma PlanTableFeatures(t: Tier)
    ensures DevelopmentPlans().For(t).features.basicAnalysis
    ensures DevelopmentPlans().For(t).features == Features(true, t == Premium, t == Premium, t == Premium, t == Premium)
  {
  }

  predicate LimitsAtLeast(a: PlanLimits, b: PlanLimits)
  {
    && a.maxImagesPerAnalysis >= b.maxImagesPerAnalysis
    && a.maxAnalysesPerMonth >= b.maxAnalysesPerMonth
    && a.maxImageSizeMB >= b.maxImageSizeMB
  }

  predicate FeaturesAtLeast(a: Features, b: Features)
  {
    && (b.basicAnalysis ==> a.basicAnalysis)
    && (b.detailedSuggestions ==> a.detailedSuggestions)
    && (b.progressTracking ==> a.progressTracking)
    && (b.exportResults ==> a.exportResults)
    && (b.priorityProcessing ==> a.priorityProcessing)
  }

  /** Premium gives at least what free gives, whatever getPlans returned locally. */
  lemma PremiumDominatesFree(development: bool)
    ensures var p := GetPlans(development, None);
      LimitsAtLeast(p.premium.limits, p.free.limits) && FeaturesAtLeast(p.premium.features, p.free.features)
  {
  }

  // ---------------------------------------------------------------------
  // getUserStatus

  /** `Math.floor(Math.random() * 3)` */
  type Draw = x: int | 0 <= x < 3

  datatype SubscriptionData = SubscriptionData(startDate: string, endDate: Option<string>, plan: Tier)

  datatype Usage = Usage(analysesThisMonth: int, maxAnalysesPerMonth: int, remainingAnalyses: int)

  datatype StatusLimits = StatusLimits(maxImagesPerAnalysis: nat, maxImageSizeMB: nat)

  datatype UserStatus = UserStatus(userId: string, subscription: Tier, subscriptionData: SubscriptionData,
                                   usage: Usage, limits: StatusLimits, features: Features)

  function TierOf(isPremium: bool): Tier
  {
    if isPremium then Premium else Free
  }

  /**
   * The development branch: `isPremium` is `Math.random() > 0.7`; the used
   * count and the remaining count come from two separate draws.
   */
  function DevelopmentStatus(userId: string, isPremium: bool, used: Draw, otherDraw: Draw,
                             now: string, monthLater: string): UserStatus
  {
    UserStatus(
      userId,
      TierOf(isPremium),
      SubscriptionData(now, if isPremium then Some(monthLater) else None, TierOf(isPremium)),
      Usage(used, if isPremium then 50 else 3, if isPremium then 50 - otherDraw else 3 - otherDraw),
      StatusLimits(if isPremium then 4 else 2, if isPremium then 10 else 5),
      Features(basicAnalysis := true, detailedSuggestions := isPremium, progressTracking := isPremium,
               exportResults := isPremium, priorityProcessing := isPremium))
  }

  /** The free-tier status returned when the request to /user/:id/status fails. */
  function FallbackStatus(userId: string, now: string): UserStatus
  {
    UserStatus(
      userId,
      Free,
      SubscriptionData(now, None, Free),
      Usage(0, 3, 3),
      StatusLimits(2, 5),
      Features(basicAnalysis := true, detailedSuggestions := false, progressTracking := false,
               exportResults := false, priorityProcessing := false))
  }

  /**
   * getUserStatus for an already resolved user id: development data,
   * otherwise the server's reply, or the free fallback when it fails.
   */
  function GetUserStatus(userId: string, development: bool, isPremium: bool, used: Draw, otherDraw: Draw,
                         reply: Option<UserStatus>, now: string, monthLater: string): (s: UserStatus)
    ensures development ==> s.subscription == TierOf(isPremium) && s.userId == userId
    ensures !development && reply.Some? ==> s == reply.value
    ensures !development && reply.None? ==> s.subscription == Free && s.userId == userId
  {
    if development then DevelopmentStatus(userId, isPremium, used, otherDraw, now, monthLater)
    else match reply
      case Some(status) => status
      case None => FallbackStatus(userId, now)
  }

  /** The limits and features a locally built status reports are those of its tier's plan. */
  predicate MatchesPlan(s: UserStatus, plans: Plans)
  {
    var plan := plans.For(s.subscription);
    && s.subscriptionData.plan == s.subscription
    && s.usage.maxAnalysesPerMonth == plan.limits.maxAnalysesPerMonth
    && s.limits.maxImagesPerAnalysis == plan.limits.maxImagesPerAnalysis
    && s.limits.maxImageSizeMB == plan.limits.maxImageSizeMB
    && s.features == plan.features
  }

  /**
   * Whenever getUserStatus builds the status itself, its limits and
   * features agree with the plan table for its tier.
   */
  lemma LocalStatusMatchesPlanTable(userId: string, development: bool, isPremium: bool, used: Draw,
                                    otherDraw: Draw, now: string, monthLater: string)
    ensures MatchesPlan(GetUserStatus(userId, development, isPremium, used, otherDraw, None, now, monthLater),
                        DevelopmentPlans())
  {
  }

  /** In development the limits and features depend on the tier alone. */
  lemma DevelopmentLimitsDependOnTierOnly(id1: string, id2: string, isPremium: bool,
                                          used1: Draw, other1: Draw, used2: Draw, other2: Draw,
                                          now1: string, later1: string, now2: string, later2: string)
    ensures var s1 := DevelopmentStatus(id1, isPremium, used1, other1, now1, later1);
            var s2 := DevelopmentStatus(id2, isPremium, used2, other2, now2, later2);
      s1.limits == s2.limits && s1.features == s2.features
      && s1.usage.maxAnalysesPerMonth == s2.usage.maxAnalysesPerMonth
  {
  }

  /** Only premium carries an end date. */
  lemma EndDateOnlyForPremium(userId: string, isPremium: bool, used: Draw, otherDraw: Draw,
                              now: string, monthLater: string)
    ensures DevelopmentStatus(userId, isPremium, used, otherDraw, now, monthLater).subscriptionData.endDate.Some?
            <==> isPremium
  {
  }

  /** remaining = max - used, where usage is fixed. */
  predicate Consistent(u: Usage)
  {
    u.remainingAnalyses == u.maxAnalysesPerMonth - u.analysesThisMonth
  }

  /** The fallback status: nothing used, all 3 analyses remaining. */
  lemma FallbackUsageConsistent(userId: string, now: string)
    ensures FallbackStatus(userId, now).usage == Usage(0, 3, 3)
    ensures Consistent(FallbackStatus(userId, now).usage)
  {
  }

  /**
   * In development both counts stay in range, but since they come from two
   * separate draws they need not agree: used 0 with remaining 2 of 3.
   */
  lemma DevelopmentUsageFromSeparateDraws(userId: string, isPremium: bool, used: Draw, otherDraw: Draw,
                                          now: string, monthLater: string)
    ensures var u := DevelopmentStatus(userId, isPremium, used, otherDraw, now, monthLater).usage;
      && 0 <= u.analysesThisMonth <= 2
      && u.maxAnalysesPerMonth - 2 <= u.remainingAnalyses <= u.maxAnalysesPerMonth
      && (Consistent(u) <==> used == otherDraw)
  {
  }

  // ---------------------------------------------------------------------
  // The fixed mock results

  /** The score part of mockAnalysisResult (and of its premium variant). */
  function MockScores(): ScoreNormalizer.AnalysisResult
  {
    ScoreNormalizer.AnalysisResult(
      78,
      ScoreNormalizer.Breakdown(18, 16, 15, 14, 15),
      ScoreNormalizer.Suggestions(
        "Great facial symmetry! Consider a hairstyle that adds height to balance your face shape.",
        "A fade haircut or short textured sides would enhance your jawline definition.",
        "Your skin looks healthy. Consider a gentle exfoliator twice a week for even smoother texture.",
        "Opt for more structured fits on top to broaden your shoulders and improve proportions.",
        "Improving posture would make your silhouette stronger and more confident."))
  }

  function MockUsage(t: Tier): Usage
  {
    match t
    case Free => Usage(1, 3, 2)
    case Premium => Usage(1, 50, 49)
  }

  /** The mocks' usage figures add up and follow the plan table. */
  lemma MockUsageConsistent(t: Tier)
    ensures Consistent(MockUsage(t))
    ensures MockUsage(t).maxAnalysesPerMonth == DevelopmentPlans().For(t).limits.maxAnalysesPerMonth
  {
  }

  /** The mock scores lie in their bands and add up to the total 78. */
  lemma MockScoresAreSettled()
    ensures ScoreNormalizer.Settled(MockScores())
  {
    var m := MockScores();
    assert m.breakdown.Sum() == 78;
    forall c ensures 0 < m.breakdown.Get(c) <= ScoreNormalizer.BandMax(c) && m.suggestions.Get(c) != "" {
      assert |m.suggestions.Get(c)| > 0;
    }
  }

  /**
   * Cross-check between the client's mock and the server's rules: the client returns the mock
   * directly, without normalising it, and this shows that normalising it would change nothing.
   */
  lemma MockScoresAreFixedPoint()
    ensures ScoreNormalizer.Normalized(ScoreNormalizer.AsRaw(MockScores())) == MockScores()
  {
    MockScoresAreSettled();
    ScoreNormalizer.SettledIsFixedPoint(MockScores());
  }

  // ---------------------------------------------------------------------
  // saveAnalysisResult

  const HistoryLimit: nat := 10

  datatype HistoryEntry = HistoryEntry(id: string, timestamp: string, result: ScoreNormalizer.AnalysisResult)

  /** The history after one save: the new entry first, then the older ones, at most ten in all. */
  function Saved(history: seq<HistoryEntry>, entry: HistoryEntry): seq<HistoryEntry>
  {
    ([entry] + history)[..ScoreNormalizer.Min(|history| + 1, HistoryLimit)]
  }

  /**
   * The stored array is read, `unshift` puts the new entry in front and
   * `slice(0, 10)` keeps the first ten; the id and timestamp come from the
   * clock, so the entry arrives built.
   */
  method SaveAnalysisResult(history: seq<HistoryEntry>, entry: HistoryEntry) returns (trimmed: seq<HistoryEntry>)
    ensures trimmed == Saved(history, entry)
    ensures |trimmed| == ScoreNormalizer.Min(|history| + 1, HistoryLimit)
    ensures trimmed[0] == entry
    ensures trimmed[1..] == history[..ScoreNormalizer.Min(|history|, HistoryLimit - 1)]
  {
    var historyArray := history;
    historyArray := [entry] + historyArray;
    trimmed := historyArray[..ScoreNormalizer.Min(|historyArray|, HistoryLimit)];
  }

  /** The history built by saving `entries` in order, starting from none. */
  function HistoryAfter(entries: seq<HistoryEntry>): seq<HistoryEntry>
  {
    if entries == [] then []
    else Saved(HistoryAfter(entries[..|entries| - 1]), entries[|entries| - 1])
  }

  /** After any run of saves the history holds the newest ten, newest first. */
  lemma {:induction false} HistoryKeepsNewestTen(entries: seq<HistoryEntry>)
    ensures |HistoryAfter(entries)| == ScoreNormalizer.Min(|entries|, HistoryLimit)
    ensures forall i :: 0 <= i < |HistoryAfter(entries)| ==>
      HistoryAfter(entries)[i] == entries[|entries| - 1 - i]
  {
    if entries != [] {
      var older := entries[..|entries| - 1];
      HistoryKeepsNewestTen(older);
      var h := HistoryAfter(older);
      assert HistoryAfter(entries) == Saved(h, entries[|entries| - 1]);
      forall i | 0 <= i < |HistoryAfter(entries)|
        ensures HistoryAfter(entries)[i] == entries[|entries| - 1 - i]
      {
        if i > 0 {
          assert HistoryAfter(entries)[i] == h[i - 1];
          assert h[i - 1] == older[|older| - 1 - (i - 1)];
        }
      }
    }
  }
}
