/** What the decision function promises over all applicants, rule sets, thresholds and faithful roundings. */
module DecisionProperties {
  import opened Common
  import opened Confidence
  import opened Decisions
  import opened Host
  import opened Json
  import opened RuleSets
  import opened Rules
  import opened Scoring
  import opened ServiceResults

  function Rank(d: Decision): nat {
    match d
    case DECLINE => 0
    case NEEDS_REVIEW => 1
    case APPROVE => 2
  }

  /** False, unknown, True. */
  function GstRank(gst: Option<bool>): nat {
    match gst
    case Some(b) => if b then 2 else 0
    case None => 1
  }

  /** `better` is at least as good on every input; the data quality is the same. */
  predicate AtLeastAsGood(worse: Features, better: Features) {
    && EffectiveCredit(worse.credit) <= EffectiveCredit(better.credit)
    && EffectiveStability(worse.stability) <= EffectiveStability(better.stability)
    && worse.dti >= better.dti
    && GstRank(worse.gst) <= GstRank(better.gst)
    && worse.failures == better.failures
    && worse.fallbackCredit == better.fallbackCredit
  }

  lemma MulMonotone(x: real, y: real, w: real)
    requires x <= y && 0.0 <= w
    ensures x * w <= y * w
  {
    assert 0.0 <= (y - x) * w;
  }

  lemma ClampedRoundMonotone(h: Host, x: real, y: real, lower: real, upper: real)
    requires RoundsToHundredths(h) && x <= y
    ensures h.round(Clamp(x, lower, upper)) <= h.round(Clamp(y, lower, upper))
  {
    assert Clamp(x, lower, upper) <= Clamp(y, lower, upper);
  }

  lemma WeightedClampMonotone(x: real, y: real, w: real)
    requires x <= y && 0.0 <= w
    ensures Clamp(x, 0.0, 1.0) * w <= Clamp(y, 0.0, 1.0) * w
  {
    MulMonotone(Clamp(x, 0.0, 1.0), Clamp(y, 0.0, 1.0), w);
  }

  lemma WeightedGapMonotone(x: real, y: real, w: real)
    requires x >= y && 0.0 <= w
    ensures Max(0.0, 1.0 - x) * w <= Max(0.0, 1.0 - y) * w
  {
    MulMonotone(Max(0.0, 1.0 - x), Max(0.0, 1.0 - y), w);
  }

  lemma RatioMonotone(m: int, n: int)
    requires m <= n
    ensures m as real / 900.0 <= n as real / 900.0
  {
  }

  lemma ComponentsImprove(f: Features, g: Features, rs: RuleSet)
    requires NonNegativeWeights(rs) && AtLeastAsGood(f, g)
    ensures CreditComponent(f.credit, rs) <= CreditComponent(g.credit, rs)
    ensures StabilityComponent(f.stability, rs) <= StabilityComponent(g.stability, rs)
    ensures DtiComponent(f.dti, rs) <= DtiComponent(g.dti, rs)
    ensures GstComponent(f.gst, rs) <= GstComponent(g.gst, rs)
  {
    RatioMonotone(EffectiveCredit(f.credit), EffectiveCredit(g.credit));
    WeightedClampMonotone(EffectiveCredit(f.credit) as real / 900.0, EffectiveCredit(g.credit) as real / 900.0,
                          rs.creditWeight);
    WeightedClampMonotone(EffectiveStability(f.stability), EffectiveStability(g.stability), rs.stabilityWeight);
    WeightedGapMonotone(f.dti, g.dti, rs.dtiWeight);
  }

  lemma ScoreImproves(h: Host, f: Features, g: Features, rs: RuleSet)
    requires RoundsToHundredths(h) && NonNegativeWeights(rs) && AtLeastAsGood(f, g)
    ensures RiskScoreOf(h, f, rs) <= RiskScoreOf(h, g, rs)
  {
    ComponentsImprove(f, g, rs);
    ClampedRoundMonotone(h, WeightedScore(f.credit, f.stability, f.dti, f.gst, |f.failures|, rs),
                         WeightedScore(g.credit, g.stability, g.dti, g.gst, |g.failures|, rs), 0.0, 100.0);
  }

  lemma ReliabilityInUnit(h: Host, fs: seq<FailureType>, fallback: bool)
    requires RoundsToHundredths(h)
    ensures 0.0 <= Reliability(h, fs, fallback) <= 1.0
  {
    UnitEndpointsRound(h);
  }

  lemma UnitEndpointsRound(h: Host)
    requires RoundsToHundredths(h)
    ensures h.round(0.0) == 0.0 && h.round(0.5) == 0.5 && h.round(1.0) == 1.0
  {
    assert Hundredth(0.0) && Hundredth(0.5) && Hundredth(1.0);
  }

  /** Before the confidence override, a better profile is never ranked lower. */
  lemma {:induction false} BaseDecisionImproves(h: Host, f: Features, g: Features, rs: RuleSet)
    requires RoundsToHundredths(h) && NonNegativeWeights(rs) && AtLeastAsGood(f, g)
    ensures var n := |f.failures|;
            Rank(Evaluate(RiskScoreOf(h, f, rs), f.dti, n, f.gst, rs).0)
            <= Rank(Evaluate(RiskScoreOf(h, g, rs), g.dti, n, g.gst, rs).0)
  {
    ScoreImproves(h, f, g, rs);
    assert EffectiveScore(RiskScoreOf(h, f, rs), f.gst, rs) <= EffectiveScore(RiskScoreOf(h, g, rs), g.gst, rs);
  }

  lemma BoundaryFactorFollowsScore(lo: real, hi: real)
    requires lo <= hi
    ensures BoundaryFactor(lo, APPROVE) <= BoundaryFactor(hi, APPROVE)
    ensures BoundaryFactor(hi, DECLINE) <= BoundaryFactor(lo, DECLINE)
  {
  }

  lemma ProductMonotone(x: real, y: real, v: real, w: real)
    requires 0.0 <= x <= y && 0.0 <= v <= w
    ensures x * v <= y * w
  {
    MulMonotone(x, y, v);
    MulMonotone(v, w, y);
    assert y * v == v * y && y * w == w * y;
  }

  lemma RoundedProductMonotone(h: Host, x: real, y: real, v: real, w: real)
    requires RoundsToHundredths(h) && 0.0 <= x <= y && 0.0 <= v <= w
    ensures h.round(Clamp(x * v, 0.0, 1.0)) <= h.round(Clamp(y * w, 0.0, 1.0))
  {
    ProductMonotone(x, y, v, w);
    ClampedRoundMonotone(h, x * v, y * w, 0.0, 1.0);
  }

  lemma ConfidenceMonotone(h: Host, score1: real, d1: Decision, r1: real, score2: real, d2: Decision, r2: real)
    requires RoundsToHundredths(h) && 0.0 <= r1 <= r2
    requires 0.0 <= BoundaryFactor(score1, d1) <= BoundaryFactor(score2, d2)
    ensures DecisionConfidence(h, score1, d1, r1) <= DecisionConfidence(h, score2, d2, r2)
  {
    RoundedProductMonotone(h, r1, r2, BoundaryFactor(score1, d1), BoundaryFactor(score2, d2));
  }

  /** Confidence in an approval grows with the score; confidence in a decline shrinks with it. */
  lemma ConfidenceFollowsScore(h: Host, lo: real, hi: real, reliability: real)
    requires RoundsToHundredths(h) && lo <= hi && 0.0 <= reliability <= 1.0
    ensures DecisionConfidence(h, lo, APPROVE, reliability) <= DecisionConfidence(h, hi, APPROVE, reliability)
    ensures DecisionConfidence(h, hi, DECLINE, reliability) <= DecisionConfidence(h, lo, DECLINE, reliability)
  {
    BoundaryFactorFollowsScore(lo, hi);
    ConfidenceMonotone(h, lo, APPROVE, reliability, hi, APPROVE, reliability);
    ConfidenceMonotone(h, hi, DECLINE, reliability, lo, DECLINE, reliability);
  }

  /** The decision after the confidence override. */
  function Overridden(h: Host, base: Decision, riskScore: real, reliability: real, threshold: real): Decision {
    if DecisionConfidence(h, riskScore, base, reliability) < threshold then NEEDS_REVIEW else base
  }

  lemma OverrideKeepsOrder(h: Host, lo: real, hi: real, worse: Decision, better: Decision, reliability: real,
                           threshold: real)
    requires RoundsToHundredths(h) && lo <= hi && 0.0 <= reliability <= 1.0 && Rank(worse) <= Rank(better)
    ensures Rank(Overridden(h, worse, lo, reliability, threshold))
            <= Rank(Overridden(h, better, hi, reliability, threshold))
  {
    ConfidenceFollowsScore(h, lo, hi, reliability);
  }

  /**
   End-to-end monotonicity: through clamping, rounding, the GST cap, rule order and the confidence override,
   a better applicant never gets a worse decision.
   */
  lemma {:induction false} BetterProfileNeverWorse(h: Host, worse: Features, better: Features, threshold: real,
                                                   rs: RuleSet)
    requires RoundsToHundredths(h) && NonNegativeWeights(rs) && AtLeastAsGood(worse, better)
    ensures Rank(Decide(h, worse, threshold, rs).decision) <= Rank(Decide(h, better, threshold, rs).decision)
  {
    ScoreImproves(h, worse, better, rs);
    BaseDecisionImproves(h, worse, better, rs);
    ReliabilityInUnit(h, worse.failures, worse.fallbackCredit);
    var lo, hi, n := RiskScoreOf(h, worse, rs), RiskScoreOf(h, better, rs), |worse.failures|;
    OverrideKeepsOrder(h, lo, hi, Evaluate(lo, worse.dti, n, worse.gst, rs).0,
                       Evaluate(hi, better.dti, n, better.gst, rs).0,
                       Reliability(h, worse.failures, worse.fallbackCredit), threshold);
  }

  // ----- degradation -----

  lemma {:induction false} PenaltySumRemove(fs: seq<FailureType>, i: nat)
    requires i < |fs|
    ensures PenaltySum(fs) == PenaltySum(fs[..i] + fs[i + 1..]) + Penalty(fs[i])
  {
    var last := |fs| - 1;
    if i == last {
      assert fs[..i] + fs[i + 1..] == fs[..last];
    } else {
      var shorter := fs[..last];
      PenaltySumRemove(shorter, i);
      assert (fs[..i] + fs[i + 1..])[..last - 1] == shorter[..i] + shorter[i + 1..];
    }
  }

  lemma {:induction false} FewerFailuresPenalizeLess(few: seq<FailureType>, many: seq<FailureType>)
    requires multiset(few) <= multiset(many)
    ensures PenaltySum(few) <= PenaltySum(many) && |few| <= |many|
    decreases |few|
  {
    if few != [] {
      var last := |few| - 1;
      assert few == few[..last] + [few[last]];
      assert few[last] in multiset(many);
      var i :| 0 <= i < |many| && many[i] == few[last];
      var rest := many[..i] + many[i + 1..];
      assert many == many[..i] + [many[i]] + many[i + 1..];
      assert multiset(rest) == multiset(many) - multiset{many[i]};
      FewerFailuresPenalizeLess(few[..last], rest);
      PenaltySumRemove(many, i);
    }
  }

  /** `degraded` differs from `clean` only by extra failures or a credit fallback. */
  predicate DegradedFrom(clean: Features, degraded: Features) {
    && degraded.(failures := clean.failures, fallbackCredit := clean.fallbackCredit) == clean
    && multiset(clean.failures) <= multiset(degraded.failures)
    && (clean.fallbackCredit ==> degraded.fallbackCredit)
  }

  lemma MoreFailuresCostMore(few: nat, many: nat, rs: RuleSet)
    requires few <= many && rs.dataQualityPenalty >= 0.0
    ensures DataQualityPenalty(few, rs) <= DataQualityPenalty(many, rs)
  {
    MulMonotone(few as real, many as real, rs.dataQualityPenalty);
    MinMonotone(few as real * rs.dataQualityPenalty, many as real * rs.dataQualityPenalty, rs.maxDataQualityPenalty);
  }

  lemma MinMonotone(x: real, y: real, cap: real)
    requires x <= y
    ensures Min(x, cap) <= Min(y, cap)
  {
  }

  lemma DegradationLowersScore(h: Host, clean: Features, degraded: Features, rs: RuleSet)
    requires RoundsToHundredths(h) && rs.dataQualityPenalty >= 0.0 && DegradedFrom(clean, degraded)
    ensures RiskScoreOf(h, degraded, rs) <= RiskScoreOf(h, clean, rs)
  {
    FewerFailuresPenalizeLess(clean.failures, degraded.failures);
    var few, many := |clean.failures|, |degraded.failures|;
    MoreFailuresCostMore(few, many, rs);
    ClampedRoundMonotone(h, WeightedScore(clean.credit, clean.stability, clean.dti, clean.gst, many, rs),
                         WeightedScore(clean.credit, clean.stability, clean.dti, clean.gst, few, rs), 0.0, 100.0);
  }

  lemma DegradationLowersReliability(h: Host, clean: Features, degraded: Features)
    requires RoundsToHundredths(h) && DegradedFrom(clean, degraded)
    ensures Reliability(h, degraded.failures, degraded.fallbackCredit)
            <= Reliability(h, clean.failures, clean.fallbackCredit)
  {
    FewerFailuresPenalizeLess(clean.failures, degraded.failures);
  }

  lemma DegradationNeverRaisesBase(h: Host, clean: Features, degraded: Features, rs: RuleSet)
    requires RoundsToHundredths(h) && rs.dataQualityPenalty >= 0.0 && DegradedFrom(clean, degraded)
    requires Evaluate(RiskScoreOf(h, degraded, rs), degraded.dti, |degraded.failures|, degraded.gst, rs).0 == APPROVE
    ensures Evaluate(RiskScoreOf(h, clean, rs), clean.dti, |clean.failures|, clean.gst, rs).0 == APPROVE
  {
    FewerFailuresPenalizeLess(clean.failures, degraded.failures);
    DegradationLowersScore(h, clean, degraded, rs);
  }

  /** With the extracted values unchanged, failures alone never turn a profile into an approval. */
  lemma DegradationNeverApproves(h: Host, clean: Features, degraded: Features, threshold: real, rs: RuleSet)
    requires RoundsToHundredths(h) && rs.dataQualityPenalty >= 0.0 && DegradedFrom(clean, degraded)
    requires Decide(h, degraded, threshold, rs).decision == APPROVE
    ensures Decide(h, clean, threshold, rs).decision == APPROVE
  {
    DegradationNeverRaisesBase(h, clean, degraded, rs);
    DegradationLowersScore(h, clean, degraded, rs);
    DegradationLowersReliability(h, clean, degraded);
    ReliabilityInUnit(h, degraded.failures, degraded.fallbackCredit);
    ReliabilityInUnit(h, clean.failures, clean.fallbackCredit);
    BoundaryFactorFollowsScore(RiskScoreOf(h, degraded, rs), RiskScoreOf(h, clean, rs));
    ConfidenceMonotone(h, RiskScoreOf(h, degraded, rs), APPROVE,
                       Reliability(h, degraded.failures, degraded.fallbackCredit),
                       RiskScoreOf(h, clean, rs), APPROVE, Reliability(h, clean.failures, clean.fallbackCredit));
  }

  // ----- GST gate and manual review -----

  /** An explicit GST failure blocks approval under every rule set whose thresholds are ordered. */
  lemma GstFailureNeverApproves(h: Host, f: Features, threshold: real, rs: RuleSet)
    requires rs.approveHigh >= rs.approveModerate && f.gst == Some(false)
    ensures Decide(h, f, threshold, rs).decision != APPROVE
  {
    assert EffectiveScore(RiskScoreOf(h, f, rs), f.gst, rs) < rs.approveModerate;
  }

  /** Above one half, review is decided by low confidence alone: the ManualAssessment rule always lands there too. */
  lemma ReviewIffLowConfidence(h: Host, f: Features, threshold: real, rs: RuleSet)
    requires RoundsToHundredths(h) && threshold > 0.5
    ensures var out := Decide(h, f, threshold, rs); out.decision == NEEDS_REVIEW <==> out.requiresManualReview
  {
    ReliabilityInUnit(h, f.failures, f.fallbackCredit);
    UnitEndpointsRound(h);
  }

  /** At one half or below the two come apart. */
  lemma ReviewWithoutLowConfidence(h: Host, threshold: real) returns (f: Features)
    requires RoundsToHundredths(h) && threshold <= 0.5
    ensures var out := Decide(h, f, threshold, RULE_SET_V1);
            out.decision == NEEDS_REVIEW && !out.requiresManualReview
  {
    f := Features(Some(450), Some(0.5), 0.4, None, [], false);
    assert Hundredth(45.0);
    assert RiskScoreOf(h, f, RULE_SET_V1) == 45.0;
    UnitEndpointsRound(h);
    assert Reliability(h, f.failures, f.fallbackCredit) == 1.0;
  }

  predicate Coupled(h: Host, f: Features, threshold: real, rs: RuleSet) {
    var out := Decide(h, f, threshold, rs); out.decision == NEEDS_REVIEW <==> out.requiresManualReview
  }

  /** The threshold couples review and low confidence for every applicant exactly when it is above one half. */
  lemma CoupledIffAboveHalf(h: Host, threshold: real)
    requires RoundsToHundredths(h)
    ensures (forall f: Features, rs: RuleSet :: Coupled(h, f, threshold, rs)) <==> threshold > 0.5
  {
    if threshold > 0.5 {
      forall f: Features, rs: RuleSet ensures Coupled(h, f, threshold, rs) {
        ReviewIffLowConfidence(h, f, threshold, rs);
      }
    } else {
      var f := ReviewWithoutLowConfidence(h, threshold);
      assert !Coupled(h, f, threshold, RULE_SET_V1);
    }
  }

  /** Each source failed in a mode an application may declare for it (api/schemas/application.py), or was down. */
  predicate AllSourcesFailed(c: ResultValue, b: ResultValue, g: ResultValue) {
    && (c.failure == Some(TIMEOUT) || c.failure == Some(STALE_DATA) || c.failure == Some(SERVICE_DOWN))
    && (b.failure == Some(PARTIAL_DATA) || b.failure == Some(FORMAT_ERROR) || b.failure == Some(SERVICE_DOWN))
    && (g.failure == Some(PAN_MISMATCH) || g.failure == Some(NO_RECORD) || g.failure == Some(SERVICE_DOWN))
  }

  /** Penalties of one half or more push any profile below every threshold above one half. */
  lemma HalfPenaltyReviews(h: Host, f: Features, threshold: real, rs: RuleSet)
    requires RoundsToHundredths(h) && threshold > 0.5
    requires PenaltySum(f.failures) + (if f.fallbackCredit then FALLBACK_CREDIT_PENALTY else 0.0) >= 0.5
    ensures var out := Decide(h, f, threshold, rs); out.decision == NEEDS_REVIEW && out.requiresManualReview
  {
    UnitEndpointsRound(h);
    var reliability := Reliability(h, f.failures, f.fallbackCredit);
    assert 0.0 <= reliability <= 0.5;
    forall score: real, d: Decision
      ensures DecisionConfidence(h, score, d, reliability) <= 0.5
    {
      assert Clamp(reliability * BoundaryFactor(score, d), 0.0, 1.0) <= 0.5;
    }
  }

  lemma ThreePenalties(a: FailureType, b: FailureType, c: FailureType)
    ensures PenaltySum([a, b, c]) == Penalty(a) + Penalty(b) + Penalty(c)
  {
    assert [a, b, c][..2] == [a, b] && [a, b][..1] == [a] && [a][..0] == [];
    assert PenaltySum([a]) == Penalty(a);
    assert PenaltySum([a, b]) == PenaltySum([a]) + Penalty(b);
    assert PenaltySum([a, b, c]) == PenaltySum([a, b]) + Penalty(c);
  }

  /** When all three sources fail, every applicant goes to review. */
  lemma TotalOutageAlwaysReviews(h: Host, c: ResultValue, b: ResultValue, g: ResultValue, user: Dict,
                                 threshold: real, rs: RuleSet)
    requires RoundsToHundredths(h) && AllSourcesFailed(c, b, g) && threshold > 0.5
    requires ComputeDecision(h, c, b, g, user, threshold, rs).Ok?
    ensures ComputeDecision(h, c, b, g, user, threshold, rs).value.decision == NEEDS_REVIEW
    ensures ComputeDecision(h, c, b, g, user, threshold, rs).value.requiresManualReview
  {
    OutageCostsHalf(c, b, g);
    HalfPenaltyReviews(h, ExtractFeatures(h, c, b, g, user).value, threshold, rs);
  }

  lemma OutageCostsHalf(c: ResultValue, b: ResultValue, g: ResultValue)
    requires AllSourcesFailed(c, b, g)
    ensures var fallback := if UsedFallbackCredit(c) then FALLBACK_CREDIT_PENALTY else 0.0;
            PenaltySum(CollectFailureTypes(c, b, g)) + fallback >= 0.5
  {
    assert CollectFailureTypes(c, b, g) == [c.failure.value, b.failure.value, g.failure.value];
    ThreePenalties(c.failure.value, b.failure.value, g.failure.value);
  }

  // ----- decisions on clean data -----

  lemma CleanConfidence(h: Host, riskScore: real, d: Decision, reliability: real)
    requires RoundsToHundredths(h) && reliability == 1.0
    ensures DecisionConfidence(h, riskScore, d, reliability) == BoundaryFactor(riskScore, d)
  {
    assert Hundredth(1.0) && Hundredth(0.9) && Hundredth(0.7) && Hundredth(0.6);
    assert Hundredth(0.85) && Hundredth(0.75) && Hundredth(0.5);
  }

  /**
   With all data verified, the active rule set and the default threshold decide by score, DTI and GST alone: confidence
   overrides neither an approval nor a decline, and its outcome is exactly this table.
   */
  lemma CleanDataDecidesByScore(h: Host, f: Features)
    requires RoundsToHundredths(h) && f.failures == [] && !f.fallbackCredit
    ensures var out := Decide(h, f, 0.6, RULE_SET_V1);
            var s := RiskScoreOf(h, f, RULE_SET_V1);
            && out.riskScore == s && out.reliability == 1.0
            && (out.decision == APPROVE <==> f.gst != Some(false) && (s >= 70.0 || (s >= 55.0 && f.dti < 0.5)))
            && (out.decision == DECLINE <==> out.decision != APPROVE && (s < 35.0 || f.dti > 0.6))
            && (out.decision == NEEDS_REVIEW ==> out.confidence == 0.5 && out.requiresManualReview)
            && (out.decision == APPROVE ==> out.confidence == if s >= 80.0 then 1.0 else if s >= 70.0 then 0.9 else 0.7)
            && (out.decision == DECLINE ==> out.confidence >= 0.75)
  {
    UnitEndpointsRound(h);
    assert Reliability(h, f.failures, f.fallbackCredit) == 1.0;
    var s := RiskScoreOf(h, f, RULE_SET_V1);
    CleanConfidence(h, s, Evaluate(s, f.dti, 0, f.gst, RULE_SET_V1).0, 1.0);
  }

  // ----- decisions on degraded data -----

  function Tenths(f: FailureType): nat {
    match f
    case TIMEOUT => 3
    case STALE_DATA => 2
    case SERVICE_DOWN => 3
    case PARTIAL_DATA => 2
    case FORMAT_ERROR => 3
    case PAN_MISMATCH => 2
    case NO_RECORD => 1
    case SUCCESS => 0
  }

  /** What the failures and a credit fallback take from reliability, in tenths. */
  function Lost(f: Features): nat {
    LostTo(f.failures) + if f.fallbackCredit then 1 else 0
  }

  function LostTo(fs: seq<FailureType>): nat {
    if fs == [] then 0 else LostTo(fs[..|fs| - 1]) + Tenths(fs[|fs| - 1])
  }

  lemma {:induction false} PenaltiesAreTenths(fs: seq<FailureType>)
    ensures PenaltySum(fs) == LostTo(fs) as real / 10.0
  {
    if fs != [] { PenaltiesAreTenths(fs[..|fs| - 1]); }
  }

  lemma ReliabilityIsExact(h: Host, f: Features)
    requires RoundsToHundredths(h)
    ensures Reliability(h, f.failures, f.fallbackCredit) == RemainingAfter(Lost(f))
  {
    PenaltiesAreTenths(f.failures);
    UnitEndpointsRound(h);
    var n := Lost(f);
    if n < 10 {
      var x := 1.0 - n as real / 10.0;
      assert x * 100.0 == (100 - 10 * n) as real;
      assert Hundredth(x);
    }
  }

  /** Where rounding cannot move a value across the default threshold. */
  lemma ThresholdSides(h: Host, x: real)
    requires RoundsToHundredths(h)
    ensures x >= 0.6 ==> h.round(x) >= 0.6
    ensures x <= 0.59 ==> h.round(x) < 0.6
  {
    assert Hundredth(0.6) && Hundredth(0.59);
  }

  lemma RoundsHigh(h: Host, low: real, x: real)
    requires RoundsToHundredths(h) && 0.6 <= low <= x
    ensures h.round(Clamp(x, 0.0, 1.0)) >= 0.6
  {
    ThresholdSides(h, Clamp(x, 0.0, 1.0));
  }

  lemma RoundsLow(h: Host, x: real, high: real)
    requires RoundsToHundredths(h) && x <= high <= 0.59
    ensures h.round(Clamp(x, 0.0, 1.0)) < 0.6
  {
    ThresholdSides(h, Clamp(x, 0.0, 1.0));
  }

  /** How many tenths a decision survives; 0.7 * 0.85 stands between two hundredths. */
  predicate Survives(h: Host, d: Decision, s: real, lost: nat) {
    match d
    case APPROVE => lost <= if s >= 80.0 then 4 else if s >= 70.0 then 3 else if s >= 55.0 then 1 else 0
    case DECLINE =>
      lost <= (if s <= 20.0 then 4 else 2) || (20.0 < s <= 34.0 && lost == 3 && h.round(0.595) >= 0.6)
    case NEEDS_REVIEW => false
  }

  function RemainingAfter(lost: nat): real {
    if lost >= 10 then 0.0 else 1.0 - lost as real / 10.0
  }

  /** A reliability of `floor` or more is confident enough ... */
  lemma Confident(h: Host, reliability: real, factor: real, floor: real)
    requires RoundsToHundredths(h) && reliability >= floor && 0.0 <= factor && floor * factor >= 0.6
    ensures h.round(Clamp(reliability * factor, 0.0, 1.0)) >= 0.6
  {
    MulMonotone(floor, reliability, factor);
    RoundsHigh(h, floor * factor, reliability * factor);
  }

  /** ... and one of `ceiling` or less is not. */
  lemma Unconfident(h: Host, reliability: real, factor: real, ceiling: real)
    requires RoundsToHundredths(h) && reliability <= ceiling && 0.0 <= factor && ceiling * factor <= 0.59
    ensures h.round(Clamp(reliability * factor, 0.0, 1.0)) < 0.6
  {
    MulMonotone(reliability, ceiling, factor);
    RoundsLow(h, reliability * factor, ceiling * factor);
  }

  lemma ConfidentIff(h: Host, lost: nat, factor: real, most: nat)
    requires RoundsToHundredths(h) && 0.0 <= factor && most < 9
    requires RemainingAfter(most) * factor >= 0.6 && RemainingAfter(most + 1) * factor <= 0.59
    ensures h.round(Clamp(RemainingAfter(lost) * factor, 0.0, 1.0)) >= 0.6 <==> lost <= most
  {
    if lost <= most { Confident(h, RemainingAfter(lost), factor, RemainingAfter(most)); }
    else { Unconfident(h, RemainingAfter(lost), factor, RemainingAfter(most + 1)); }
  }

  lemma ApprovalSurvives(h: Host, s: real, lost: nat)
    requires RoundsToHundredths(h)
    ensures DecisionConfidence(h, s, APPROVE, RemainingAfter(lost)) >= 0.6 <==> Survives(h, APPROVE, s, lost)
  {
    if s >= 80.0 { ConfidentIff(h, lost, 1.0, 4); }
    else if s >= 70.0 { ConfidentIff(h, lost, 0.9, 3); }
    else if s >= 55.0 { ConfidentIff(h, lost, 0.7, 1); }
    else { ConfidentIff(h, lost, 0.6, 0); }
  }

  lemma DeclineSurvives(h: Host, s: real, lost: nat)
    requires RoundsToHundredths(h)
    ensures DecisionConfidence(h, s, DECLINE, RemainingAfter(lost)) >= 0.6 <==> Survives(h, DECLINE, s, lost)
  {
    if s <= 20.0 { ConfidentIff(h, lost, 1.0, 4); }
    else if s > 34.0 { ConfidentIff(h, lost, 0.75, 2); }
    else { NarrowDecline(h, lost); }
  }

  /** Between 20 and 34 three tenths lost leave 0.595, which rounds as the host rounds it. */
  lemma NarrowDecline(h: Host, lost: nat)
    requires RoundsToHundredths(h)
    ensures h.round(Clamp(RemainingAfter(lost) * 0.85, 0.0, 1.0)) >= 0.6 <==>
              lost <= 2 || (lost == 3 && h.round(0.595) >= 0.6)
  {
    if lost <= 2 { Confident(h, RemainingAfter(lost), 0.85, 0.8); }
    if lost >= 4 { Unconfident(h, RemainingAfter(lost), 0.85, 0.6); }
  }

  lemma SurvivesIffConfident(h: Host, d: Decision, s: real, lost: nat, reliability: real)
    requires RoundsToHundredths(h) && reliability == RemainingAfter(lost)
    ensures DecisionConfidence(h, s, d, reliability) >= 0.6 <==> Survives(h, d, s, lost)
  {
    match d
    case APPROVE => ApprovalSurvives(h, s, lost);
    case DECLINE => DeclineSurvives(h, s, lost);
    case NEEDS_REVIEW => Unconfident(h, reliability, 0.5, 1.0);
  }

  /** The rules before the confidence override, for the active rule set. */
  predicate Approvable(f: Features, s: real) {
    f.gst != Some(false) && ((s >= 70.0 && f.failures == []) || (s >= 55.0 && f.dti < 0.5))
  }

  /**
   The exact decision table of the active rule set at the default threshold, for every applicant and every pattern of
   failures: the tenths of reliability lost decide how strong a score an approval or a decline needs.
   */
  lemma DegradedDataTable(h: Host, f: Features)
    requires RoundsToHundredths(h)
    ensures var d := Decide(h, f, 0.6, RULE_SET_V1).decision;
            var s := RiskScoreOf(h, f, RULE_SET_V1);
            && (d == APPROVE <==> Approvable(f, s) && Survives(h, APPROVE, s, Lost(f)))
            && (d == DECLINE <==> !Approvable(f, s) && (s < 35.0 || f.dti > 0.6) && Survives(h, DECLINE, s, Lost(f)))
  {
    var s := RiskScoreOf(h, f, RULE_SET_V1);
    var base := Evaluate(s, f.dti, |f.failures|, f.gst, RULE_SET_V1).0;
    BaseTable(f, s);
    ReliabilityIsExact(h, f);
    SurvivesIffConfident(h, base, s, Lost(f), Reliability(h, f.failures, f.fallbackCredit));
  }

  lemma BaseTable(f: Features, s: real)
    ensures var base := Evaluate(s, f.dti, |f.failures|, f.gst, RULE_SET_V1).0;
            && (base == APPROVE <==> Approvable(f, s))
            && (base == DECLINE <==> !Approvable(f, s) && (s < 35.0 || f.dti > 0.6))
  {
  }

  // ----- what a change can and cannot do to the decision -----

  lemma ScoreBounds(h: Host, f: Features, x: real)
    requires RoundsToHundredths(h) && Hundredth(x) && 0.0 <= x <= 100.0
    ensures var w := WeightedScore(f.credit, f.stability, f.dti, f.gst, |f.failures|, RULE_SET_V1);
            && (w >= x ==> RiskScoreOf(h, f, RULE_SET_V1) >= x)
            && (w <= x ==> RiskScoreOf(h, f, RULE_SET_V1) <= x)
  {
  }

  lemma LostDataKeepsScore(h: Host, clean: Features, degraded: Features)
    requires RoundsToHundredths(h) && clean.failures == [] && DegradedFrom(clean, degraded)
    requires RiskScoreOf(h, clean, RULE_SET_V1) >= 55.0
    ensures RiskScoreOf(h, degraded, RULE_SET_V1) >= 39.99
  {
    assert Hundredth(54.99) && Hundredth(39.99);
    ScoreBounds(h, clean, 54.99);
    ScoreBounds(h, degraded, 39.99);
    assert DataQualityPenalty(|degraded.failures|, RULE_SET_V1) <= 15.0;
    assert DataQualityPenalty(0, RULE_SET_V1) == 0.0;
  }

  /**
   With the extracted values unchanged, failures turn a clean approval into a DECLINE exactly when the DTI is above the
   decline threshold, which only an undisturbed strong score had outweighed, and at most 0.2 is lost.
   */
  lemma LostDataDeclinesIff(h: Host, clean: Features, degraded: Features)
    requires RoundsToHundredths(h) && clean.failures == [] && !clean.fallbackCredit
    requires DegradedFrom(clean, degraded) && degraded.failures != []
    requires Decide(h, clean, 0.6, RULE_SET_V1).decision == APPROVE
    ensures Decide(h, degraded, 0.6, RULE_SET_V1).decision == DECLINE <==> clean.dti > 0.6 && Lost(degraded) <= 2
  {
    DegradedDataTable(h, clean);
    LostDataKeepsScore(h, clean, degraded);
    DegradedDataTable(h, degraded);
  }

  lemma ComplianceAddsFifteen(h: Host, f: Features)
    requires RoundsToHundredths(h) && f.gst != Some(true) && RiskScoreOf(h, f, RULE_SET_V1) < 35.0
    ensures RiskScoreOf(h, f.(gst := Some(true)), RULE_SET_V1) <= 50.0
  {
    assert Hundredth(35.0) && Hundredth(50.0);
    ScoreBounds(h, f, 35.0);
    ScoreBounds(h, f.(gst := Some(true)), 50.0);
  }

  /**
   GST compliance alone turns a DECLINE into an APPROVE exactly for an over-indebted applicant with no failing source
   whose score with it is strong; a DECLINE for a low score never becomes an approval that way.
   */
  lemma ComplianceRescuesIff(h: Host, f: Features)
    requires RoundsToHundredths(h) && f.gst != Some(true) && Decide(h, f, 0.6, RULE_SET_V1).decision == DECLINE
    ensures var g := f.(gst := Some(true));
            Decide(h, g, 0.6, RULE_SET_V1).decision == APPROVE <==>
              f.dti > 0.6 && f.failures == [] && RiskScoreOf(h, g, RULE_SET_V1) >= 70.0
  {
    DegradedDataTable(h, f);
    DegradedDataTable(h, f.(gst := Some(true)));
    if RiskScoreOf(h, f, RULE_SET_V1) < 35.0 { ComplianceAddsFifteen(h, f); }
  }
}
