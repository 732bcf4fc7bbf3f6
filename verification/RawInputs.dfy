/**
 The decision on raw inputs: the points each input is worth under the active rule set, counted case by case, and the
 debt ratio. Scores, reliabilities and confidences are rounded to hundredths, so what is said of points holds to within
 one hundredth.
 */
module RawInputs {
  import opened Common
  import opened Confidence
  import opened DecisionProperties
  import opened Decisions
  import opened Degradation
  import opened Host
  import opened Json
  import opened RuleSets
  import opened Rules
  import opened Scoring
  import opened ServiceResults

  // ----- points -----

  /** Up to 40; a missing score counts as 600 of 900. */
  function CreditPoints(credit: Option<int>): real {
    match credit
    case None => 80.0 / 3.0
    case Some(n) => if n <= 0 then 0.0 else if n >= 900 then 40.0 else n as real * 40.0 / 900.0
  }

  /** Up to 20; a missing stability is worth half of them. */
  function StabilityPoints(stability: Option<real>): real {
    match stability
    case None => 10.0
    case Some(x) => if x <= 0.0 then 0.0 else if x >= 1.0 then 20.0 else 20.0 * x
  }

  /** 25 without debt, nothing once the EMIs eat the income; there is no upper bound for a negative ratio. */
  function DtiPoints(dti: real): real {
    if dti >= 1.0 then 0.0 else 25.0 - 25.0 * dti
  }

  function GstPoints(gst: Option<bool>): real {
    match gst
    case Some(compliant) => if compliant then 15.0 else 0.0
    case None => 0.0
  }

  function FailurePoints(failures: nat): real {
    match failures
    case 0 => 0.0
    case 1 => 5.0
    case 2 => 10.0
    case _ => 15.0
  }

  function Points(f: Features): real {
    CreditPoints(f.credit) + StabilityPoints(f.stability) + DtiPoints(f.dti) + GstPoints(f.gst)
    - FailurePoints(|f.failures|)
  }

  function Clipped(points: real): real {
    if points <= 0.0 then 0.0 else if points >= 100.0 then 100.0 else points
  }

  lemma CreditIsPoints(credit: Option<int>)
    ensures CreditComponent(credit, RULE_SET_V1) == CreditPoints(credit)
  {
    var n := EffectiveCredit(credit);
    if 0 < n < 900 { assert 0.0 < n as real / 900.0 < 1.0; }
    else if n >= 900 { assert n as real / 900.0 >= 1.0; }
    else { assert n as real / 900.0 <= 0.0; }
  }

  lemma OthersArePoints(stability: Option<real>, dti: real, gst: Option<bool>, failures: nat)
    ensures StabilityComponent(stability, RULE_SET_V1) == StabilityPoints(stability)
    ensures DtiComponent(dti, RULE_SET_V1) == DtiPoints(dti)
    ensures GstComponent(gst, RULE_SET_V1) == GstPoints(gst)
    ensures DataQualityPenalty(failures, RULE_SET_V1) == FailurePoints(failures)
  {
  }

  lemma ScoreCountsPoints(f: Features)
    ensures Weighted(f) == Points(f)
  {
    CreditIsPoints(f.credit);
    OthersArePoints(f.stability, f.dti, f.gst, |f.failures|);
  }

  lemma RoundsBetween(h: Host, low: real, x: real, high: real)
    requires RoundsToHundredths(h) && Hundredth(low) && Hundredth(high) && low <= x <= high
    ensures low <= h.round(x) <= high
  {
  }

  /** A faithful rounding moves no value by a whole hundredth. */
  lemma RoundsNear(h: Host, x: real)
    requires RoundsToHundredths(h)
    ensures -0.01 < h.round(x) - x < 0.01
  {
    var k := (x * 100.0).Floor;
    var low, high := k as real / 100.0, (k + 1) as real / 100.0;
    assert low * 100.0 == k as real && high * 100.0 == (k + 1) as real;
    RoundsBetween(h, low, x, high);
    if x == low { RoundsBetween(h, x, x, x); }
  }

  /** The risk score is the points, clipped to 0..100 and rounded; no rounding carries it across a hundredth. */
  lemma RiskScoreIsPoints(h: Host, f: Features, x: real)
    requires RoundsToHundredths(h) && Hundredth(x)
    ensures -0.01 < RiskScoreOf(h, f, RULE_SET_V1) - Clipped(Points(f)) < 0.01
    ensures Clipped(Points(f)) >= x ==> RiskScoreOf(h, f, RULE_SET_V1) >= x
    ensures Clipped(Points(f)) <= x ==> RiskScoreOf(h, f, RULE_SET_V1) <= x
  {
    ScoreCountsPoints(f);
    RoundsNear(h, Clipped(Points(f)));
    assert Clamp(Weighted(f), 0.0, 100.0) == Clipped(Points(f));
  }

  lemma ScoreOnThresholds(h: Host, f: Features, x: real)
    requires RoundsToHundredths(h) && Hundredth(x) && Hundredth(x - 0.01) && 0.01 <= x <= 99.0
    ensures var s, p := RiskScoreOf(h, f, RULE_SET_V1), Points(f);
            (p >= x ==> s >= x) && (s >= x ==> p + 0.01 > x) && (p <= x ==> s <= x) && (s <= x ==> p - 0.01 < x)
  {
    RiskScoreIsPoints(h, f, x);
  }

  lemma ThresholdsAreHundredths(x: real)
    requires x == 20.0 || x == 34.0 || x == 35.0 || x == 55.0 || x == 70.0 || x == 80.0
    ensures Hundredth(x) && Hundredth(x - 0.01)
  {
    assert (x - 0.01) * 100.0 == x * 100.0 - 1.0;
  }

  /**
   The decision of the active rule set at the default threshold, read off the points: the table of DegradedDataTable
   holds for the points themselves, to within one hundredth, whatever failed.
   */
  lemma PointsDecide(h: Host, f: Features)
    requires RoundsToHundredths(h)
    ensures var d, p, lost := Decide(h, f, 0.6, RULE_SET_V1).decision, Points(f), Lost(f);
            && (Approvable(f, p) && Survives(h, APPROVE, p, lost) ==> d == APPROVE)
            && (d == APPROVE ==> Approvable(f, p + 0.01) && Survives(h, APPROVE, p + 0.01, lost))
            && (Declinable(f, p + 0.01) && Survives(h, DECLINE, p + 0.01, lost) ==> d == DECLINE)
            && (d == DECLINE ==> Declinable(f, p) && Survives(h, DECLINE, p - 0.01, lost))
  {
    DegradedDataTable(h, f);
    var s := RiskScoreOf(h, f, RULE_SET_V1);
    OnThreshold(h, f, 20.0);
    OnThreshold(h, f, 34.0);
    OnThreshold(h, f, 35.0);
    OnThreshold(h, f, 55.0);
    OnThreshold(h, f, 70.0);
    OnThreshold(h, f, 80.0);
    TableOnPoints(h, f, s, Points(f), Lost(f));
  }

  lemma OnThreshold(h: Host, f: Features, x: real)
    requires RoundsToHundredths(h)
    requires x == 20.0 || x == 34.0 || x == 35.0 || x == 55.0 || x == 70.0 || x == 80.0
    ensures SameSide(RiskScoreOf(h, f, RULE_SET_V1), Points(f), x)
  {
    ThresholdsAreHundredths(x);
    ScoreOnThresholds(h, f, x);
  }

  predicate SameSide(s: real, p: real, x: real) {
    (p >= x ==> s >= x) && (s >= x ==> p + 0.01 > x) && (p <= x ==> s <= x) && (s <= x ==> p - 0.01 < x)
  }

  predicate Declinable(f: Features, s: real) {
    !Approvable(f, s) && (s < 35.0 || f.dti > 0.6)
  }

  lemma TableOnPoints(h: Host, f: Features, s: real, p: real, lost: nat)
    requires SameSide(s, p, 20.0) && SameSide(s, p, 34.0) && SameSide(s, p, 35.0)
    requires SameSide(s, p, 55.0) && SameSide(s, p, 70.0) && SameSide(s, p, 80.0)
    ensures Approvable(f, p) && Survives(h, APPROVE, p, lost) ==> Approvable(f, s) && Survives(h, APPROVE, s, lost)
    ensures Approvable(f, s) && Survives(h, APPROVE, s, lost) ==>
              Approvable(f, p + 0.01) && Survives(h, APPROVE, p + 0.01, lost)
    ensures Declinable(f, p + 0.01) && Survives(h, DECLINE, p + 0.01, lost) ==>
              Declinable(f, s) && Survives(h, DECLINE, s, lost)
    ensures Declinable(f, s) && Survives(h, DECLINE, s, lost) ==>
              Declinable(f, p) && Survives(h, DECLINE, p - 0.01, lost)
  {
  }

  /** Four verified inputs within their ranges, in plain numbers. */
  lemma VerifiedApplicantDecided(h: Host, credit: int, stability: real, dti: real, compliant: bool)
    requires RoundsToHundredths(h) && 0 <= credit <= 900 && 0.0 <= stability <= 1.0 && 0.0 <= dti <= 1.0
    ensures var f := Features(Some(credit), Some(stability), dti, Some(compliant), [], false);
            var out := Decide(h, f, 0.6, RULE_SET_V1);
            var sum := credit as real * 40.0 / 900.0 + stability * 20.0 + (1.0 - dti) * 25.0
                       + if compliant then 15.0 else 0.0;
            && -0.01 < out.riskScore - sum < 0.01 && out.ruleVersion == "RULE_SET_V1"
            && (compliant && (sum >= 70.0 || (sum >= 55.0 && dti < 0.5)) ==> out.decision == APPROVE)
            && (!compliant || sum <= 54.99 || (sum <= 69.99 && dti >= 0.5) ==> out.decision != APPROVE)
            && (sum <= 34.99 || (dti > 0.6 && (sum <= 69.99 || !compliant)) ==> out.decision == DECLINE)
            && (sum >= 35.0 && dti <= 0.6 ==> out.decision != DECLINE)
  {
    var f := Features(Some(credit), Some(stability), dti, Some(compliant), [], false);
    RiskScoreIsPoints(h, f, 0.0);
    PointsDecide(h, f);
    assert LostTo([]) == 0;
  }

  // ----- what the output says of itself -----

  /** The rules of any rule set, as one table; `s` is the risk score. */
  lemma RulesDecide(s: real, dti: real, failures: nat, gst: Option<bool>, rs: RuleSet)
    requires rs.approveHigh >= rs.approveModerate
    ensures var (d, rule) := Evaluate(s, dti, failures, gst, rs);
            && (rule == Strong <==> gst != Some(false) && s >= rs.approveHigh && failures == 0)
            && (rule == Moderate <==>
                  rule != Strong && gst != Some(false) && s >= rs.approveModerate && dti < rs.moderateMaxDti)
            && (rule == DeclineThreshold <==>
                  rule != Strong && rule != Moderate
                  && (s < rs.decline || dti > rs.declineDti
                      || (gst == Some(false) && rs.approveModerate - 1.0 < rs.decline)))
            && d == match rule
                    case Strong => APPROVE
                    case Moderate => APPROVE
                    case DeclineThreshold => DECLINE
                    case ManualAssessment => NEEDS_REVIEW
  {
  }

  /** How sure the score is of a decision. */
  function Factor(d: Decision, s: real): real {
    match d
    case APPROVE => if s < 55.0 then 0.6 else if s < 70.0 then 0.7 else if s < 80.0 then 0.9 else 1.0
    case DECLINE => if s > 34.0 then 0.75 else if s > 20.0 then 0.85 else 1.0
    case NEEDS_REVIEW => 0.5
  }

  /** The decision is that of the rule unless the confidence is below the threshold. */
  lemma RuleUnlessUnsure(h: Host, f: Features, threshold: real, rs: RuleSet)
    ensures var out := Decide(h, f, threshold, rs);
            var (d, rule) := Evaluate(out.riskScore, f.dti, |f.failures|, f.gst, rs);
            && out.riskScore == RiskScoreOf(h, f, rs) && out.rule == rule && out.ruleVersion == rs.version
            && (out.requiresManualReview <==> out.confidence < threshold)
            && out.decision == if out.confidence < threshold then NEEDS_REVIEW else d
  {
  }

  /** Reliability is what the failures leave of ten tenths, whatever the rule set. */
  lemma ReliabilityIsWhatIsLeft(h: Host, f: Features, threshold: real, rs: RuleSet)
    requires RoundsToHundredths(h)
    ensures Decide(h, f, threshold, rs).reliability
            == if Lost(f) >= 10 then 0.0 else (10 - Lost(f)) as real / 10.0
  {
    ReliabilityIsExact(h, f);
  }

  /** Confidence is worked out from the risk score, the rule's decision and the reliability the output shows. */
  lemma ConfidenceOfOutput(h: Host, f: Features, threshold: real, rs: RuleSet)
    requires RoundsToHundredths(h)
    ensures var out := Decide(h, f, threshold, rs);
            && 0.0 <= out.reliability <= 1.0
            && out.confidence == DecisionConfidence(h, out.riskScore,
                                   Evaluate(out.riskScore, f.dti, |f.failures|, f.gst, rs).0, out.reliability)
  {
    ReliabilityInUnit(h, f.failures, f.fallbackCredit);
  }

  /** The reasons name every failure with its price, the credit fallback, both factors, and the failures again. */
  lemma ReasonsNameTheCosts(h: Host, f: Features, threshold: real, rs: RuleSet)
    ensures var out := Decide(h, f, threshold, rs);
            var d := Evaluate(out.riskScore, f.dti, |f.failures|, f.gst, rs).0;
            && |out.reasons| >= |f.failures|
            && (forall i | 0 <= i < |f.failures| ::
                  out.reasons[i] == FailurePenalty(f.failures[i], Tenths(f.failures[i]) as real / 10.0))
            && out.reasons[|f.failures|..]
               == (if f.fallbackCredit then [FallbackCreditPenalty(0.1)] else [])
                  + [ReliabilityIs(out.reliability), BoundaryFactorIs(Factor(d, out.riskScore))]
                  + (if |f.failures| > 0 then [FailuresAre(f.failures)] else [])
  {
    var out := Decide(h, f, threshold, rs);
    var d := Evaluate(out.riskScore, f.dti, |f.failures|, f.gst, rs).0;
    FactorIsBoundaryFactor(out.riskScore, d);
    ReasonsInOrder(f.failures, f.fallbackCredit, out.riskScore, d, out.reliability, out.reasons);
  }

  lemma FactorIsBoundaryFactor(s: real, d: Decision)
    ensures BoundaryFactor(s, d) == Factor(d, s)
  {
  }

  /** Confidence is reliability times the factor. */
  lemma ConfidenceIsProduct(h: Host, s: real, d: Decision, reliability: real)
    requires RoundsToHundredths(h) && 0.0 <= reliability <= 1.0
    ensures -0.01 < DecisionConfidence(h, s, d, reliability) - reliability * Factor(d, s) < 0.01
  {
    FactorIsBoundaryFactor(s, d);
    RoundedProductIsNear(h, reliability, Factor(d, s));
  }

  lemma RoundedProductIsNear(h: Host, x: real, y: real)
    requires RoundsToHundredths(h) && 0.0 <= x <= 1.0 && 0.0 <= y <= 1.0
    ensures -0.01 < h.round(Clamp(x * y, 0.0, 1.0)) - x * y < 0.01
  {
    ProductInUnit(x, y);
    RoundsNear(h, x * y);
  }

  lemma ProductInUnit(x: real, y: real)
    requires 0.0 <= x <= 1.0 && 0.0 <= y <= 1.0
    ensures 0.0 <= x * y <= 1.0
  {
    ProductMonotone(x, 1.0, y, 1.0);
    ProductMonotone(0.0, x, 0.0, y);
  }

  lemma ReasonsInOrder(fs: seq<FailureType>, fallback: bool, s: real, d: Decision, reliability: real,
                       reasons: seq<Reason>)
    requires reasons == PenaltyReasons(fs, fallback) + ConfidenceReasons(s, d, reliability, fs)
    ensures |reasons| >= |fs|
    ensures forall i | 0 <= i < |fs| :: reasons[i] == FailurePenalty(fs[i], Tenths(fs[i]) as real / 10.0)
    ensures reasons[|fs|..]
            == (if fallback then [FallbackCreditPenalty(0.1)] else [])
               + [ReliabilityIs(reliability), BoundaryFactorIs(BoundaryFactor(s, d))]
               + (if |fs| > 0 then [FailuresAre(fs)] else [])
  {
    var priced := PenaltyReasons(fs, false);
    var tail := if fallback then [FallbackCreditPenalty(0.1)] else [];
    assert reasons == priced + (tail + ConfidenceReasons(s, d, reliability, fs));
    assert reasons[|fs|..] == tail + ConfidenceReasons(s, d, reliability, fs);
    forall i | 0 <= i < |fs| ensures reasons[i] == FailurePenalty(fs[i], Tenths(fs[i]) as real / 10.0) {
      assert reasons[i] == priced[i];
    }
  }

  /** Failures are listed credit first, then bank, then GST, each at most once. */
  lemma FailuresInOrder(h: Host, c: ResultValue, b: ResultValue, g: ResultValue, user: Dict)
    requires ExtractFeatures(h, c, b, g, user).Ok?
    ensures var fs := ExtractFeatures(h, c, b, g, user).value.failures;
            var before, upTo := if c.failure.Some? then 1 else 0,
                                (if c.failure.Some? then 1 else 0) + (if b.failure.Some? then 1 else 0);
            && |fs| == upTo + (if g.failure.Some? then 1 else 0)
            && (c.failure.Some? ==> fs[0] == c.failure.value)
            && (b.failure.Some? ==> fs[before] == b.failure.value)
            && (g.failure.Some? ==> fs[upTo] == g.failure.value)
  {
  }

  // ----- the debt ratio -----

  /** The sealed data can be read as this income and these EMIs; no EMIs are none. */
  predicate Reads(h: Host, user: Dict, income: real, emis: real) {
    && "monthly_income" in user && ToFloat(h, user["monthly_income"]) == Ok(income)
    && if "existing_emis" in user then ToFloat(h, user["existing_emis"]) == Ok(emis) else emis == 0.0
  }

  /** The ratio times the income is the EMIs; there is none for an income of zero. */
  lemma DebtRatioSolves(h: Host, user: Dict, income: real, emis: real)
    requires Reads(h, user, income, emis)
    ensures DebtToIncome(h, user).Ok? <==> income != 0.0
    ensures income != 0.0 ==> DebtToIncome(h, user).value * income == emis
  {
    if income != 0.0 { assert emis / income * income == emis; }
  }

  /** Data that cannot be read has no ratio. */
  lemma UnreadableHasNoRatio(h: Host, user: Dict)
    requires DebtToIncome(h, user).Ok?
    ensures exists income: real, emis: real :: Reads(h, user, income, emis)
  {
    var emis := if "existing_emis" in user then ToFloat(h, user["existing_emis"]).value else 0.0;
    assert Reads(h, user, ToFloat(h, user["monthly_income"]).value, emis);
  }

  /** Income and EMIs in another currency: the decision is the same. */
  lemma ScalingChangesNothing(h: Host, c: ResultValue, b: ResultValue, g: ResultValue, user: Dict, user': Dict,
                              income: real, emis: real, k: real, threshold: real, rs: RuleSet)
    requires Reads(h, user, income, emis) && Reads(h, user', k * income, k * emis) && k != 0.0
    ensures ComputeDecision(h, c, b, g, user, threshold, rs) == ComputeDecision(h, c, b, g, user', threshold, rs)
  {
    if income == 0.0 {
      assert k * income == 0.0;
    } else {
      ScaledRatio(income, emis, k);
      assert DebtToIncome(h, user) == DebtToIncome(h, user');
    }
  }

  lemma ScaledRatio(income: real, emis: real, k: real)
    requires income != 0.0 && k != 0.0
    ensures k * income != 0.0 && (k * emis) / (k * income) == emis / income
  {
    var r := emis / income;
    assert r * income == emis;
    assert r * (k * income) == k * emis;
  }

  lemma StrictlyMore(x: real, y: real, w: real)
    requires x < y && 0.0 < w
    ensures x * w < y * w
  {
    assert (y - x) * w > 0.0;
  }

  lemma RatioFalls(income: real, emis: real, income': real, emis': real)
    requires 0.0 < income <= income' && 0.0 <= emis' <= emis
    ensures emis' / income' <= emis / income
  {
    var r, r' := emis / income, emis' / income';
    assert r * income == emis && r' * income' == emis';
    assert r' >= 0.0 by { if r' < 0.0 { StrictlyMore(r', 0.0, income'); } }
    MulMonotone(income, income', r');
    if r < r' { StrictlyMore(r, r', income); }
  }

  /** More income or fewer EMIs never lead to a worse decision. */
  lemma RicherNeverWorse(h: Host, c: ResultValue, b: ResultValue, g: ResultValue, user: Dict, user': Dict,
                         income: real, emis: real, income': real, emis': real, threshold: real, rs: RuleSet)
    requires RoundsToHundredths(h) && NonNegativeWeights(rs)
    requires Reads(h, user, income, emis) && Reads(h, user', income', emis')
    requires 0.0 < income <= income' && 0.0 <= emis' <= emis
    ensures var d, d' := ComputeDecision(h, c, b, g, user, threshold, rs),
                         ComputeDecision(h, c, b, g, user', threshold, rs);
            && (d.Ok? <==> d'.Ok?)
            && (d.Ok? ==> Rank(d.value.decision) <= Rank(d'.value.decision))
  {
    RatioFalls(income, emis, income', emis');
    assert DebtToIncome(h, user) == Ok(emis / income) && DebtToIncome(h, user') == Ok(emis' / income');
    if ExtractFeatures(h, c, b, g, user).Ok? {
      var f := ExtractFeatures(h, c, b, g, user).value;
      BetterProfileNeverWorse(h, f, f.(dti := emis' / income'), threshold, rs);
    }
  }
}
