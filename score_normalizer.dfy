/**
 * The server's analysis-result normaliser (validateAndNormalizeAnalysis in
 * backend/server.js): clamps the total and the five sub-scores into their
 * bands, substitutes defaults and fallback suggestions for missing fields,
 * and nudges the first categories by one point toward the total.
 *
 * Raw fields follow JavaScript's `||`: a missing field, a zero score and an
 * empty suggestion are all replaced by the default.
 */
module ScoreNormalizer {
  import opened Wrappers

  datatype Category = Face | Hair | Skin | Style | Body

  /** The order in which Object.keys visits the breakdown object. */
  const Keys: seq<Category> := [Face, Hair, Skin, Style, Body]

  /** Upper end of each category's band; every band starts at 0. */
  function BandMax(c: Category): int
  {
    match c
    case Face => 25
    case Hair => 25
    case Skin => 20
    case Style => 20
    case Body => 20
  }

  /** The sub-score used when the raw one is missing or zero. */
  function DefaultScore(c: Category): int
  {
    match c
    case Face => 15
    case Hair => 15
    case Skin => 12
    case Style => 12
    case Body => 12
  }

  /** The suggestion used when the raw one is missing or empty. */
  function FallbackSuggestion(c: Category): string
  {
    match c
    case Face => "Consider different angles and lighting to showcase your features."
    case Hair => "A fresh haircut or beard trim could enhance your look."
    case Skin => "A basic skincare routine could improve your complexion."
    case Style => "Experiment with different clothing styles and fits."
    case Body => "Good posture can significantly improve your appearance."
  }

  const DefaultTotal := 70
  const MaxTotal := 100

  // ---------------------------------------------------------------------
  // Raw input: the object JSON.parse produced from the model's reply

  datatype RawScores = RawScores(face: Option<int>, hair: Option<int>, skin: Option<int>,
                                 style: Option<int>, body: Option<int>)
  {
    function Get(c: Category): Option<int>
    {
      match c
      case Face => face
      case Hair => hair
      case Skin => skin
      case Style => style
      case Body => body
    }
  }

  datatype RawTexts = RawTexts(face: Option<string>, hair: Option<string>, skin: Option<string>,
                               style: Option<string>, body: Option<string>)
  {
    function Get(c: Category): Option<string>
    {
      match c
      case Face => face
      case Hair => hair
      case Skin => skin
      case Style => style
      case Body => body
    }
  }

  datatype RawAnalysis = RawAnalysis(score: Option<int>, breakdown: Option<RawScores>,
                                     suggestions: Option<RawTexts>)
  {
    /** `result.breakdown?.[c]` */
    function SubScore(c: Category): Option<int>
    {
      match breakdown
      case None => None
      case Some(b) => b.Get(c)
    }

    /** `result.suggestions?.[c]` */
    function Suggestion(c: Category): Option<string>
    {
      match suggestions
      case None => None
      case Some(s) => s.Get(c)
    }
  }

  /** The raw input with no fields at all, what `{}` parses to. */
  const EmptyRaw := RawAnalysis(None, None, None)

  // ---------------------------------------------------------------------
  // Normalised output

  datatype Breakdown = Breakdown(face: int, hair: int, skin: int, style: int, body: int)
  {
    function Get(c: Category): int
    {
      match c
      case Face => face
      case Hair => hair
      case Skin => skin
      case Style => style
      case Body => body
    }

    function With(c: Category, v: int): Breakdown
    {
      match c
      case Face => this.(face := v)
      case Hair => this.(hair := v)
      case Skin => this.(skin := v)
      case Style => this.(style := v)
      case Body => this.(body := v)
    }

    /** The `reduce` over Object.values of the breakdown. */
    function Sum(): int
    {
      face + hair + skin + style + body
    }
  }

  datatype Suggestions = Suggestions(face: string, hair: string, skin: string,
                                     style: string, body: string)
  {
    function Get(c: Category): string
    {
      match c
      case Face => face
      case Hair => hair
      case Skin => skin
      case Style => style
      case Body => body
    }
  }

  datatype AnalysisResult = AnalysisResult(score: int, breakdown: Breakdown, suggestions: Suggestions)

  // ---------------------------------------------------------------------
  // The pure part: defaults and clamps

  function Min(a: int, b: int): int { if a <= b then a else b }
  function Max(a: int, b: int): int { if a >= b then a else b }
  function Abs(x: int): int { if x < 0 then -x else x }

  /** `Math.max(lo, Math.min(hi, x))` */
  function Clamp(lo: int, hi: int, x: int): int
  {
    Max(lo, Min(hi, x))
  }

  /** JavaScript `x || d` on a number: undefined and 0 are falsy. */
  function OrNumber(x: Option<int>, d: int): int
  {
    match x
    case Some(v) => if v != 0 then v else d
    case None => d
  }

  /** JavaScript `x || d` on a string: undefined and "" are falsy. */
  function OrText(x: Option<string>, d: string): string
  {
    match x
    case Some(v) => if v != "" then v else d
    case None => d
  }

  function InitialScore(raw: RawAnalysis): int
  {
    Clamp(0, MaxTotal, OrNumber(raw.score, DefaultTotal))
  }

  function InitialSubScore(raw: RawAnalysis, c: Category): int
  {
    Clamp(0, BandMax(c), OrNumber(raw.SubScore(c), DefaultScore(c)))
  }

  function InitialBreakdown(raw: RawAnalysis): Breakdown
  {
    Breakdown(InitialSubScore(raw, Face), InitialSubScore(raw, Hair), InitialSubScore(raw, Skin),
              InitialSubScore(raw, Style), InitialSubScore(raw, Body))
  }

  function NormalizedSuggestion(raw: RawAnalysis, c: Category): string
  {
    OrText(raw.Suggestion(c), FallbackSuggestion(c))
  }

  function NormalizedSuggestions(raw: RawAnalysis): Suggestions
  {
    Suggestions(NormalizedSuggestion(raw, Face), NormalizedSuggestion(raw, Hair),
                NormalizedSuggestion(raw, Skin), NormalizedSuggestion(raw, Style),
                NormalizedSuggestion(raw, Body))
  }

  /** The `normalized` object as built, before the reconciliation loop runs. */
  function Initial(raw: RawAnalysis): AnalysisResult
  {
    AnalysisResult(InitialScore(raw), InitialBreakdown(raw), NormalizedSuggestions(raw))
  }

  // ---------------------------------------------------------------------
  // Specification of the reconciliation

  /**
   * What the reconciliation adds to the category at position `index` of Keys
   * when the total differs from the sum by `adjustment`: one point toward the
   * total for each of the first |adjustment| categories, and only when the
   * discrepancy exceeds one.
   */
  function Step(adjustment: int, index: int): int
  {
    if Abs(adjustment) > 1 && index < Abs(adjustment) then
      (if adjustment > 0 then 1 else -1)
    else 0
  }

  function Reconciled(b: Breakdown, score: int): Breakdown
  {
    var adjustment := score - b.Sum();
    Breakdown(b.face + Step(adjustment, 0), b.hair + Step(adjustment, 1),
              b.skin + Step(adjustment, 2), b.style + Step(adjustment, 3),
              b.body + Step(adjustment, 4))
  }

  /** The result of validateAndNormalizeAnalysis on `raw`. */
  function Normalized(raw: RawAnalysis): AnalysisResult
  {
    var n := Initial(raw);
    n.(breakdown := Reconciled(n.breakdown, n.score))
  }

  /** The breakdown once the loop has visited the first `visited` keys. */
  function PartlyReconciled(b: Breakdown, adjustment: int, visited: int): Breakdown
  {
    Breakdown(b.face + (if 0 < visited then Step(adjustment, 0) else 0),
              b.hair + (if 1 < visited then Step(adjustment, 1) else 0),
              b.skin + (if 2 < visited then Step(adjustment, 2) else 0),
              b.style + (if 3 < visited then Step(adjustment, 3) else 0),
              b.body + (if 4 < visited then Step(adjustment, 4) else 0))
  }

  /** One iteration of the loop extends the visited prefix by one key. */
  lemma VisitOneKey(b: Breakdown, current: Breakdown, adjustment: int, index: nat)
    requires index < |Keys|
    requires current == PartlyReconciled(b, adjustment, index)
    ensures Step(adjustment, index) != 0 ==>
      current.With(Keys[index], current.Get(Keys[index]) + Step(adjustment, index))
        == PartlyReconciled(b, adjustment, index + 1)
    ensures Step(adjustment, index) == 0 ==> current == PartlyReconciled(b, adjustment, index + 1)
  {
  }

  // ---------------------------------------------------------------------
  // The operation

  /**
   * The reconciliation loop (the second half of validateAndNormalizeAnalysis):
   * walks the keys in order and moves each of the first |adjustment|
   * sub-scores one point toward the total, in place. The
   * Math.round(adjustment / keys.length) the code computes is never used.
   */
  method Reconcile(built: AnalysisResult) returns (normalized: AnalysisResult)
    ensures normalized == built.(breakdown := Reconciled(built.breakdown, built.score))
  {
    normalized := built;
    var currentSum := normalized.breakdown.Sum();
    var adjustment := normalized.score - currentSum;
    if Abs(adjustment) > 1 {
      var keys := Keys;
      var index := 0;
      while index < |keys|
        invariant 0 <= index <= |keys|
        invariant normalized == built.(breakdown := PartlyReconciled(built.breakdown, adjustment, index))
      {
        VisitOneKey(built.breakdown, normalized.breakdown, adjustment, index);
        if index < Abs(adjustment) {
          var key := keys[index];
          var delta := if adjustment > 0 then 1 else -1;
          normalized := normalized.(breakdown := normalized.breakdown.With(key, normalized.breakdown.Get(key) + delta));
        }
        index := index + 1;
      }
    }
  }

  /** Builds the clamped and defaulted object, then reconciles it. */
  method ValidateAndNormalizeAnalysis(raw: RawAnalysis) returns (normalized: AnalysisResult)
    ensures normalized == Normalized(raw)
    ensures 0 <= normalized.score <= MaxTotal
  {
    normalized := Initial(raw);
    normalized := Reconcile(normalized);
  }

  // ---------------------------------------------------------------------
  // Properties of the normalisation

  /** Total minus sum of the clamped sub-scores, before the loop. */
  function Discrepancy(raw: RawAnalysis): int
  {
    Initial(raw).score - Initial(raw).breakdown.Sum()
  }

  /** Field-wise view of the object built before the loop. */
  lemma InitialAt(raw: RawAnalysis, c: Category)
    ensures Initial(raw).score == InitialScore(raw)
    ensures Initial(raw).breakdown.Get(c) == InitialSubScore(raw, c)
    ensures Initial(raw).suggestions.Get(c) == NormalizedSuggestion(raw, c)
  {
  }

  /** The loop changes nothing but the breakdown. */
  lemma NormalizedIsReconciledInitial(raw: RawAnalysis)
    ensures Normalized(raw).score == Initial(raw).score
    ensures Normalized(raw).suggestions == Initial(raw).suggestions
    ensures Normalized(raw).breakdown == Reconciled(Initial(raw).breakdown, Initial(raw).score)
  {
  }

  /** The reconciliation, key by key. */
  lemma ReconciledAt(b: Breakdown, score: int, i: nat)
    requires i < |Keys|
    ensures var d := score - b.Sum();
      Reconciled(b, score).Get(Keys[i])
        == b.Get(Keys[i]) + (if Abs(d) > 1 && i < Min(Abs(d), |Keys|) then (if d > 0 then 1 else -1) else 0)
  {
  }

  /**
   * The total is the raw total clamped into [0, 100]; a missing or zero raw
   * total becomes 70. The reconciliation never touches it.
   */
  lemma TotalIsClampedRawTotal(raw: RawAnalysis)
    ensures 0 <= Normalized(raw).score <= MaxTotal
    ensures Normalized(raw).score == Initial(raw).score
    ensures raw.score.None? || raw.score.value == 0 ==> Normalized(raw).score == DefaultTotal
    ensures raw.score.Some? && raw.score.value != 0 ==>
      Normalized(raw).score == (if raw.score.value < 0 then 0
                                else if raw.score.value > MaxTotal then MaxTotal
                                else raw.score.value)
  {
    NormalizedIsReconciledInitial(raw);
    InitialAt(raw, Face);
  }

  /**
   * Before the loop each sub-score is its raw value clamped into its band;
   * a missing or zero raw value becomes the category default.
   */
  lemma InitialSubScoreIsBandClamp(raw: RawAnalysis, c: Category)
    ensures 0 <= Initial(raw).breakdown.Get(c) <= BandMax(c)
    ensures raw.SubScore(c).None? || raw.SubScore(c).value == 0 ==>
      Initial(raw).breakdown.Get(c) == DefaultScore(c)
    ensures raw.SubScore(c).Some? && raw.SubScore(c).value != 0 ==>
      Initial(raw).breakdown.Get(c) == (if raw.SubScore(c).value < 0 then 0
                                        else if raw.SubScore(c).value > BandMax(c) then BandMax(c)
                                        else raw.SubScore(c).value)
  {
    InitialAt(raw, c);
  }

  /** A discrepancy of at most one point leaves the breakdown as clamped. */
  lemma SmallDiscrepancyLeftAlone(raw: RawAnalysis)
    requires Abs(Discrepancy(raw)) <= 1
    ensures Normalized(raw) == Initial(raw)
  {
    NormalizedIsReconciledInitial(raw);
  }

  /**
   * Otherwise exactly the first min(|discrepancy|, 5) categories, in the
   * order face, hair, skin, style, body, move one point toward the total,
   * and the others keep their clamped value.
   */
  lemma FirstKeysMoveTowardTotal(raw: RawAnalysis, i: nat)
    requires i < |Keys|
    ensures var d := Discrepancy(raw);
      Normalized(raw).breakdown.Get(Keys[i])
        == Initial(raw).breakdown.Get(Keys[i])
           + (if Abs(d) > 1 && i < Min(Abs(d), |Keys|) then (if d > 0 then 1 else -1) else 0)
  {
    NormalizedIsReconciledInitial(raw);
    ReconciledAt(Initial(raw).breakdown, Initial(raw).score, i);
  }

  /** A discrepancy of two to five points is removed completely. */
  lemma ModerateDiscrepancyResolved(raw: RawAnalysis)
    requires 2 <= Abs(Discrepancy(raw)) <= 5
    ensures Normalized(raw).breakdown.Sum() == Normalized(raw).score
  {
    NormalizedIsReconciledInitial(raw);
  }

  /** A larger discrepancy moves the sum by five points and no more. */
  lemma LargeDiscrepancyPartlyResolved(raw: RawAnalysis)
    requires Abs(Discrepancy(raw)) > 5
    ensures Normalized(raw).breakdown.Sum()
            == Initial(raw).breakdown.Sum() + (if Discrepancy(raw) > 0 then 5 else -5)
    ensures Normalized(raw).breakdown.Sum() != Normalized(raw).score
  {
    NormalizedIsReconciledInitial(raw);
  }

  /**
   * There is no clamp after the adjustment: a sub-score is only guaranteed
   * to lie within one point of its band.
   */
  lemma SubScoreWithinOneOfBand(raw: RawAnalysis, c: Category)
    ensures -1 <= Normalized(raw).breakdown.Get(c) <= BandMax(c) + 1
  {
    InitialSubScoreIsBandClamp(raw, c);
    var i := match c case Face => 0 case Hair => 1 case Skin => 2 case Style => 3 case Body => 4;
    assert Keys[i] == c;
    FirstKeysMoveTowardTotal(raw, i);
  }

  /** With the clamped total and breakdown known, the result is their reconciliation. */
  lemma NormalizedFromClamped(raw: RawAnalysis, score: int, b: Breakdown)
    requires InitialScore(raw) == score && InitialBreakdown(raw) == b
    ensures Normalized(raw).score == score
    ensures Normalized(raw).breakdown == Reconciled(b, score)
  {
    NormalizedIsReconciledInitial(raw);
  }

  /** Total 100, face 25, the rest 1: face ends one point above its band. */
  const HighFaceRaw := RawAnalysis(Some(100), Some(RawScores(Some(25), Some(1), Some(1), Some(1), Some(1))), None)

  /** Total 1, face -3 (truthy, so clamped to 0), the rest at their maximum: face ends at -1. */
  const LowFaceRaw := RawAnalysis(Some(1), Some(RawScores(Some(-3), Some(25), Some(20), Some(20), Some(20))), None)

  lemma HighFaceClamped()
    ensures InitialScore(HighFaceRaw) == 100 && InitialBreakdown(HighFaceRaw) == Breakdown(25, 1, 1, 1, 1)
  {
  }

  lemma LowFaceClamped()
    ensures InitialScore(LowFaceRaw) == 1 && InitialBreakdown(LowFaceRaw) == Breakdown(0, 25, 20, 20, 20)
  {
  }

  /** The upper end of the widened band is reached. */
  lemma SubScoreCanExceedBand()
    ensures Normalized(HighFaceRaw).breakdown.face == BandMax(Face) + 1
  {
    HighFaceClamped();
    NormalizedFromClamped(HighFaceRaw, 100, Breakdown(25, 1, 1, 1, 1));
  }

  /** The lower end of the widened band is reached. */
  lemma SubScoreCanGoNegative()
    ensures Normalized(LowFaceRaw).breakdown.face == -1
  {
    LowFaceClamped();
    NormalizedFromClamped(LowFaceRaw, 1, Breakdown(0, 25, 20, 20, 20));
  }

  /** Every suggestion is the raw one if non-empty, else the category's fallback; never empty. */
  lemma SuggestionsNeverEmpty(raw: RawAnalysis, c: Category)
    ensures Normalized(raw).suggestions.Get(c) != ""
    ensures raw.Suggestion(c).Some? && raw.Suggestion(c).value != "" ==>
      Normalized(raw).suggestions.Get(c) == raw.Suggestion(c).value
    ensures raw.Suggestion(c).None? || raw.Suggestion(c).value == "" ==>
      Normalized(raw).suggestions.Get(c) == FallbackSuggestion(c)
  {
    NormalizedIsReconciledInitial(raw);
    InitialAt(raw, c);
  }

  lemma EmptyObjectClamped()
    ensures InitialScore(EmptyRaw) == 70 && InitialBreakdown(EmptyRaw) == Breakdown(15, 15, 12, 12, 12)
  {
  }

  /** `{}`: total 70, breakdown 15/15/12/12/12 nudged to 16/16/13/13/12. */
  lemma EmptyObjectScenario()
    ensures Normalized(EmptyRaw).score == 70
    ensures Normalized(EmptyRaw).breakdown == Breakdown(16, 16, 13, 13, 12)
    ensures Normalized(EmptyRaw).breakdown.Sum() == Normalized(EmptyRaw).score
    ensures forall c :: Normalized(EmptyRaw).suggestions.Get(c) == FallbackSuggestion(c)
  {
    EmptyObjectClamped();
    NormalizedFromClamped(EmptyRaw, 70, Breakdown(15, 15, 12, 12, 12));
    forall c ensures Normalized(EmptyRaw).suggestions.Get(c) == FallbackSuggestion(c) {
      SuggestionsNeverEmpty(EmptyRaw, c);
    }
  }

  /** Total 90, face 30, the rest 20. */
  const OverBandRaw := RawAnalysis(Some(90), Some(RawScores(Some(30), Some(20), Some(20), Some(20), Some(20))), None)

  lemma OverBandClamped()
    ensures InitialScore(OverBandRaw) == 90 && InitialBreakdown(OverBandRaw) == Breakdown(25, 20, 20, 20, 20)
  {
  }

  /**
   * Face clamps to 25, the sum is 105, and the fifteen-point surplus loses
   * only five: the breakdown ends at 100, not at the total 90.
   */
  lemma OverBandScenario()
    ensures Normalized(OverBandRaw).score == 90
    ensures Normalized(OverBandRaw).breakdown == Breakdown(24, 19, 19, 19, 19)
    ensures Normalized(OverBandRaw).breakdown.Sum() == 100
  {
    OverBandClamped();
    NormalizedFromClamped(OverBandRaw, 90, Breakdown(25, 20, 20, 20, 20));
  }

  /** A normalised result read back as raw input. */
  function AsRaw(r: AnalysisResult): RawAnalysis
  {
    RawAnalysis(Some(r.score),
                Some(RawScores(Some(r.breakdown.face), Some(r.breakdown.hair), Some(r.breakdown.skin),
                               Some(r.breakdown.style), Some(r.breakdown.body))),
                Some(RawTexts(Some(r.suggestions.face), Some(r.suggestions.hair), Some(r.suggestions.skin),
                              Some(r.suggestions.style), Some(r.suggestions.body))))
  }

  /**
   * A result that normalisation leaves as it is: positive total and
   * sub-scores inside their bands (zero would be replaced by the default),
   * non-empty suggestions, and a sum within one point of the total.
   */
  predicate Settled(r: AnalysisResult)
  {
    && 0 < r.score <= MaxTotal
    && (forall c :: 0 < r.breakdown.Get(c) <= BandMax(c))
    && (forall c :: r.suggestions.Get(c) != "")
    && Abs(r.score - r.breakdown.Sum()) <= 1
  }

  lemma {:induction false} SettledSubScoresKept(r: AnalysisResult)
    requires Settled(r)
    ensures InitialScore(AsRaw(r)) == r.score
    ensures InitialBreakdown(AsRaw(r)) == r.breakdown
  {
    var raw := AsRaw(r);
    assert InitialSubScore(raw, Face) == r.breakdown.Get(Face);
    assert InitialSubScore(raw, Hair) == r.breakdown.Get(Hair);
    assert InitialSubScore(raw, Skin) == r.breakdown.Get(Skin);
    assert InitialSubScore(raw, Style) == r.breakdown.Get(Style);
    assert InitialSubScore(raw, Body) == r.breakdown.Get(Body);
  }

  lemma {:induction false} SettledSuggestionsKept(r: AnalysisResult)
    requires Settled(r)
    ensures Normalized(AsRaw(r)).suggestions == r.suggestions
  {
    var raw := AsRaw(r);
    NormalizedIsReconciledInitial(raw);
    assert NormalizedSuggestion(raw, Face) == r.suggestions.Get(Face);
    assert NormalizedSuggestion(raw, Hair) == r.suggestions.Get(Hair);
    assert NormalizedSuggestion(raw, Skin) == r.suggestions.Get(Skin);
    assert NormalizedSuggestion(raw, Style) == r.suggestions.Get(Style);
    assert NormalizedSuggestion(raw, Body) == r.suggestions.Get(Body);
  }

  /** Normalising a settled result again returns it unchanged. */
  lemma {:induction false} SettledIsFixedPoint(r: AnalysisResult)
    requires Settled(r)
    ensures Normalized(AsRaw(r)) == r
  {
    SettledSubScoresKept(r);
    NormalizedFromClamped(AsRaw(r), r.score, r.breakdown);
    SettledSuggestionsKept(r);
  }

  /** A result with a zero face sub-score, read back as raw input. */
  const ZeroFaceRaw := RawAnalysis(Some(80), Some(RawScores(Some(0), Some(20), Some(20), Some(20), Some(20))), None)

  lemma ZeroFaceClamped()
    ensures InitialScore(ZeroFaceRaw) == 80 && InitialBreakdown(ZeroFaceRaw) == Breakdown(15, 20, 20, 20, 20)
  {
  }

  /**
   * A zero sub-score is read as missing: face 0 becomes 15, the sum 95
   * overshoots the total 80, and the breakdown ends at 14/19/19/19/19.
   */
  lemma ZeroSubScoreIsNotKept()
    ensures Normalized(ZeroFaceRaw).breakdown == Breakdown(14, 19, 19, 19, 19)
  {
    ZeroFaceClamped();
    NormalizedFromClamped(ZeroFaceRaw, 80, Breakdown(15, 20, 20, 20, 20));
  }
}
