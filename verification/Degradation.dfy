/**
 What a failing source does to the decision. A failure costs reliability, and it also takes the value away: a missing
 credit score counts as 600, a missing stability as 0.5, and GST becomes unknown or False.
 */
module Degradation {
  import opened Common
  import opened DecisionProperties
  import opened Decisions
  import opened Host
  import opened Json
  import opened Providers
  import opened RuleSets
  import opened Rules
  import opened Scoring
  import opened ServiceResults

  /** A failing result that the client of source `s` can return. */
  ghost predicate FailingAnswer(h: Host, s: Source, r: ResultValue) {
    r.failure.Some? && exists call: ResultValue, now: int :: CallShape(call) && AfterCall(h, s, call, now) == Ok(r)
  }

  predicate DeniesGst(r: ResultValue) {
    r.failure == Some(PAN_MISMATCH) || r.failure == Some(NO_RECORD)
  }

  /** What the decision extracts from a failing result; only a stale credit answer keeps a value of its own. */
  lemma FailingAnswerShows(h: Host, s: Source, r: ResultValue)
    requires FailingAnswer(h, s, r)
    ensures s == CREDIT_BUREAU ==>
              && (r.failure == Some(STALE_DATA) || ExtractCreditScore(h, r) == Ok(None))
              && (UsedFallbackCredit(r) <==> Retryable(r.failure))
              && (Retryable(r.failure) || r.failure == Some(NO_RECORD) || r.failure == Some(FORMAT_ERROR)
                  || r.failure == Some(STALE_DATA))
    ensures s == BANK_ANALYZER ==>
              && ExtractIncomeStability(h, r) == Ok(None)
              && (Retryable(r.failure) || r.failure == Some(NO_RECORD) || r.failure == Some(FORMAT_ERROR)
                  || r.failure == Some(PARTIAL_DATA))
    ensures s == GST_VERIFIER ==>
              && ExtractGstCompliance(r) == (if DeniesGst(r) then Some(false) else None)
              && (DeniesGst(r) || Retryable(r.failure) || r.failure == Some(FORMAT_ERROR))
  {
    var call: ResultValue, now: int :| CallShape(call) && AfterCall(h, s, call, now) == Ok(r);
    assert "gst_compliant" in NOT_COMPLIANT && NOT_COMPLIANT["gst_compliant"] == Bool(false);
  }

  // ----- when loss cannot create an approval -----

  /** The source answers as before, or it had no failure and now fails. */
  ghost predicate KeptOrLost(h: Host, s: Source, r: ResultValue, r': ResultValue) {
    r' == r || (r.failure.None? && FailingAnswer(h, s, r'))
  }

  /** What stands in for a lost value is no better than the value was. */
  predicate NothingGained(h: Host, c: ResultValue, b: ResultValue, g: ResultValue,
                          c': ResultValue, b': ResultValue, g': ResultValue)
    requires ExtractCreditScore(h, c).Ok? && ExtractCreditScore(h, c').Ok? && ExtractIncomeStability(h, b).Ok?
  {
    && (c' != c ==>
          var credit := EffectiveCredit(ExtractCreditScore(h, c).value);
          if c'.failure == Some(STALE_DATA) then EffectiveCredit(ExtractCreditScore(h, c').value) <= credit
          else DEFAULT_CREDIT_SCORE <= credit)
    && (b' != b ==> DEFAULT_INCOME_STABILITY <= EffectiveStability(ExtractIncomeStability(h, b).value))
    && (g' != g ==> ExtractGstCompliance(g) == Some(false) ==> DeniesGst(g'))
  }

  lemma LossIsWorse(h: Host, c: ResultValue, b: ResultValue, g: ResultValue,
                    c': ResultValue, b': ResultValue, g': ResultValue, f: Features, f': Features, user: Dict)
    requires KeptOrLost(h, CREDIT_BUREAU, c, c') && KeptOrLost(h, BANK_ANALYZER, b, b')
    requires KeptOrLost(h, GST_VERIFIER, g, g')
    requires ExtractFeatures(h, c, b, g, user) == Ok(f) && ExtractFeatures(h, c', b', g', user) == Ok(f')
    requires NothingGained(h, c, b, g, c', b', g')
    ensures AtLeastAsGood(f', f.(failures := f'.failures, fallbackCredit := f'.fallbackCredit))
  {
    if c' != c { FailingAnswerShows(h, CREDIT_BUREAU, c'); }
    if b' != b { FailingAnswerShows(h, BANK_ANALYZER, b'); }
    if g' != g { FailingAnswerShows(h, GST_VERIFIER, g'); }
  }

  lemma LossAddsFailures(h: Host, c: ResultValue, b: ResultValue, g: ResultValue,
                         c': ResultValue, b': ResultValue, g': ResultValue)
    requires KeptOrLost(h, CREDIT_BUREAU, c, c') && KeptOrLost(h, BANK_ANALYZER, b, b')
    requires KeptOrLost(h, GST_VERIFIER, g, g')
    ensures multiset(CollectFailureTypes(c, b, g)) <= multiset(CollectFailureTypes(c', b', g'))
    ensures UsedFallbackCredit(c) ==> UsedFallbackCredit(c')
  {
    FailuresAddUp(FailureOf(c), FailureOf(b), FailureOf(g), FailureOf(c'), FailureOf(b'), FailureOf(g'));
  }

  lemma FailuresAddUp(x: seq<FailureType>, y: seq<FailureType>, z: seq<FailureType>,
                      x': seq<FailureType>, y': seq<FailureType>, z': seq<FailureType>)
    requires (x == x' || x == []) && (y == y' || y == []) && (z == z' || z == [])
    ensures multiset(x + y + z) <= multiset(x' + y' + z')
  {
    assert multiset(x + y + z) == multiset(x) + multiset(y) + multiset(z);
    assert multiset(x' + y' + z') == multiset(x') + multiset(y') + multiset(z');
    SmallerSum(multiset(x), multiset(x'), multiset(y), multiset(y'));
    SmallerSum(multiset(x) + multiset(y), multiset(x') + multiset(y'), multiset(z), multiset(z'));
  }

  lemma SmallerSum(a: multiset<FailureType>, a': multiset<FailureType>,
                   b: multiset<FailureType>, b': multiset<FailureType>)
    requires a <= a' && b <= b'
    ensures a + b <= a' + b'
  {
  }

  /**
   Any number of sources may fail. As long as no default or stale value beats what it replaces, and no explicit GST
   False becomes unknown, losing data never creates an approval: for every rule set with non-negative weights and
   penalty, and every threshold.
   */
  lemma LossNeverApproves(h: Host, c: ResultValue, b: ResultValue, g: ResultValue,
                          c': ResultValue, b': ResultValue, g': ResultValue, user: Dict, threshold: real, rs: RuleSet)
    requires RoundsToHundredths(h) && NonNegativeWeights(rs) && rs.dataQualityPenalty >= 0.0
    requires KeptOrLost(h, CREDIT_BUREAU, c, c') && KeptOrLost(h, BANK_ANALYZER, b, b')
    requires KeptOrLost(h, GST_VERIFIER, g, g')
    requires ExtractFeatures(h, c, b, g, user).Ok? && ExtractFeatures(h, c', b', g', user).Ok?
    requires NothingGained(h, c, b, g, c', b', g')
    requires ComputeDecision(h, c', b', g', user, threshold, rs).value.decision == APPROVE
    ensures ComputeDecision(h, c, b, g, user, threshold, rs).value.decision == APPROVE
  {
    var f, f' := ExtractFeatures(h, c, b, g, user).value, ExtractFeatures(h, c', b', g', user).value;
    LossIsWorse(h, c, b, g, c', b', g', f, f', user);
    LossAddsFailures(h, c, b, g, c', b', g');
    WorseNeverApproves(h, f, f', threshold, rs);
  }

  lemma WorseNeverApproves(h: Host, f: Features, f': Features, threshold: real, rs: RuleSet)
    requires RoundsToHundredths(h) && NonNegativeWeights(rs) && rs.dataQualityPenalty >= 0.0
    requires AtLeastAsGood(f', f.(failures := f'.failures, fallbackCredit := f'.fallbackCredit))
    requires multiset(f.failures) <= multiset(f'.failures) && (f.fallbackCredit ==> f'.fallbackCredit)
    requires Decide(h, f', threshold, rs).decision == APPROVE
    ensures Decide(h, f, threshold, rs).decision == APPROVE
  {
    var between := f.(failures := f'.failures, fallbackCredit := f'.fallbackCredit);
    BetterProfileNeverWorse(h, f', between, threshold, rs);
    DegradationNeverApproves(h, f, between, threshold, rs);
  }

  // ----- one source fails: the exact conditions -----

  predicate NoFailures(c: ResultValue, b: ResultValue, g: ResultValue) {
    c.failure.None? && b.failure.None? && g.failure.None?
  }

  /** The features when source `s` answers `r` instead, everything else verified. */
  function AfterLoss(h: Host, f: Features, s: Source, r: ResultValue): Features
    requires r.failure.Some? && (s == CREDIT_BUREAU ==> ExtractCreditScore(h, r).Ok?)
  {
    var failed := f.(failures := [r.failure.value]);
    match s
    case CREDIT_BUREAU => failed.(credit := ExtractCreditScore(h, r).value, fallbackCredit := Retryable(r.failure))
    case BANK_ANALYZER => failed.(stability := None)
    case GST_VERIFIER => failed.(gst := if DeniesGst(r) then Some(false) else None)
  }

  /** What is extracted when source `s` answers `r` instead. */
  function WithAnswer(h: Host, c: ResultValue, b: ResultValue, g: ResultValue, s: Source, r: ResultValue, user: Dict)
    : Result<Features>
  {
    match s
    case CREDIT_BUREAU => ExtractFeatures(h, r, b, g, user)
    case BANK_ANALYZER => ExtractFeatures(h, c, r, g, user)
    case GST_VERIFIER => ExtractFeatures(h, c, b, r, user)
  }

  lemma LossShows(h: Host, c: ResultValue, b: ResultValue, g: ResultValue, s: Source, r: ResultValue, user: Dict)
    requires NoFailures(c, b, g) && ExtractFeatures(h, c, b, g, user).Ok? && FailingAnswer(h, s, r)
    requires s == CREDIT_BUREAU ==> ExtractCreditScore(h, r).Ok?
    ensures var f := ExtractFeatures(h, c, b, g, user).value;
            && f.failures == [] && !f.fallbackCredit
            && WithAnswer(h, c, b, g, s, r, user) == Ok(AfterLoss(h, f, s, r))
  {
    FailingAnswerShows(h, s, r);
    var x := [r.failure.value];
    assert x + [] + [] == x && [] + x + [] == x && [] + [] + x == x;
  }

  /** The failures a source can show, in terms of the result alone. */
  predicate ShownBy(s: Source, r: ResultValue) {
    && r.failure.Some?
    && match s
       case CREDIT_BUREAU => Retryable(r.failure) || r.failure == Some(NO_RECORD) || r.failure == Some(FORMAT_ERROR)
                             || r.failure == Some(STALE_DATA)
       case BANK_ANALYZER => Retryable(r.failure) || r.failure == Some(NO_RECORD) || r.failure == Some(FORMAT_ERROR)
                             || r.failure == Some(PARTIAL_DATA)
       case GST_VERIFIER => DeniesGst(r) || Retryable(r.failure) || r.failure == Some(FORMAT_ERROR)
  }

  function Weighted(f: Features): real {
    WeightedScore(f.credit, f.stability, f.dti, f.gst, |f.failures|, RULE_SET_V1)
  }

  /** How far one failing source moves the score before clamping. */
  lemma LossMovesScore(h: Host, f: Features, s: Source, r: ResultValue)
    requires f.failures == [] && r.failure.Some? && (s == CREDIT_BUREAU ==> ExtractCreditScore(h, r).Ok?)
    requires s == CREDIT_BUREAU ==> r.failure == Some(STALE_DATA) || ExtractCreditScore(h, r) == Ok(None)
    ensures var w, w' := Weighted(f), Weighted(AfterLoss(h, f, s, r));
            match s
            case CREDIT_BUREAU => r.failure != Some(STALE_DATA) ==> w - 18.34 <= w' <= w + 21.67
            case BANK_ANALYZER => w - 15.0 <= w' <= w + 5.0
            case GST_VERIFIER => w - 20.0 <= w' <= w - 5.0
  {
    assert DataQualityPenalty(0, RULE_SET_V1) == 0.0 && DataQualityPenalty(1, RULE_SET_V1) == 5.0;
    assert 0.0 <= CreditComponent(f.credit, RULE_SET_V1) <= 40.0;
    assert 26.66 <= CreditComponent(None, RULE_SET_V1) <= 26.67;
    assert 0.0 <= StabilityComponent(f.stability, RULE_SET_V1) <= 20.0;
    assert StabilityComponent(None, RULE_SET_V1) == 10.0;
  }

  /** A rounded score and the weighted score lie on the same side of a hundredth, give or take 0.01. */
  lemma ScoreSides(h: Host, f: Features, x: real)
    requires RoundsToHundredths(h) && Hundredth(x) && Hundredth(x - 0.01) && 0.01 <= x <= 100.0
    ensures RiskScoreOf(h, f, RULE_SET_V1) >= x ==> Weighted(f) > x - 0.01
    ensures RiskScoreOf(h, f, RULE_SET_V1) < x ==> Weighted(f) < x
    ensures Weighted(f) >= x ==> RiskScoreOf(h, f, RULE_SET_V1) >= x
  {
    ScoreBounds(h, f, x);
    ScoreBounds(h, f, x - 0.01);
  }

  predicate LossApproves(h: Host, f: Features, s: Source, r: ResultValue)
    requires r.failure.Some? && (s == CREDIT_BUREAU ==> ExtractCreditScore(h, r).Ok?)
  {
    var score := RiskScoreOf(h, AfterLoss(h, f, s, r), RULE_SET_V1);
    f.dti < 0.5 &&
    match s
    case CREDIT_BUREAU =>
      f.gst != Some(false)
      && ((r.failure == Some(NO_RECORD) && score >= 55.0)
          || ((r.failure == Some(FORMAT_ERROR) || r.failure == Some(STALE_DATA)) && score >= 70.0))
    case BANK_ANALYZER => f.gst != Some(false) && r.failure == Some(NO_RECORD) && score >= 55.0
    case GST_VERIFIER => f.gst == Some(false) && !DeniesGst(r) && score >= 70.0
  }

  lemma LostTenths(h: Host, f: Features, s: Source, r: ResultValue)
    requires !f.fallbackCredit && r.failure.Some? && (s == CREDIT_BUREAU ==> ExtractCreditScore(h, r).Ok?)
    ensures Lost(AfterLoss(h, f, s, r))
            == Tenths(r.failure.value) + if s == CREDIT_BUREAU && Retryable(r.failure) then 1 else 0
  {
    OneLost(r.failure.value);
  }

  lemma OneLost(f: FailureType)
    ensures LostTo([f]) == Tenths(f)
  {
    assert [f][..0] == [];
  }

  /** A lost answer that leaves a strong enough score would have left the applicant approved before. */
  lemma StrongAfterLoss(h: Host, f: Features, s: Source, r: ResultValue)
    requires RoundsToHundredths(h) && f.failures == [] && ShownBy(s, r)
    requires s == CREDIT_BUREAU ==> ExtractCreditScore(h, r) == Ok(None) && Retryable(r.failure)
    requires RiskScoreOf(h, AfterLoss(h, f, s, r), RULE_SET_V1) >= if s == CREDIT_BUREAU then 80.0 else 70.0
    ensures RiskScoreOf(h, f, RULE_SET_V1) >= 55.0
  {
    assert Hundredth(80.0) && Hundredth(79.99) && Hundredth(70.0) && Hundredth(69.99);
    assert Hundredth(55.0) && Hundredth(54.99);
    ScoreSides(h, AfterLoss(h, f, s, r), if s == CREDIT_BUREAU then 80.0 else 70.0);
    LossMovesScore(h, f, s, r);
    ScoreSides(h, f, 55.0);
  }

  lemma LossApprovesIff(h: Host, f: Features, s: Source, r: ResultValue)
    requires RoundsToHundredths(h) && f.failures == [] && !f.fallbackCredit && ShownBy(s, r)
    requires s == CREDIT_BUREAU ==> ExtractCreditScore(h, r).Ok?
    requires s == CREDIT_BUREAU ==> r.failure == Some(STALE_DATA) || ExtractCreditScore(h, r) == Ok(None)
    requires Decide(h, f, 0.6, RULE_SET_V1).decision != APPROVE
    ensures Decide(h, AfterLoss(h, f, s, r), 0.6, RULE_SET_V1).decision == APPROVE <==> LossApproves(h, f, s, r)
  {
    var f' := AfterLoss(h, f, s, r);
    var score := RiskScoreOf(h, f', RULE_SET_V1);
    DegradedDataTable(h, f);
    DegradedDataTable(h, f');
    LostTenths(h, f, s, r);
    if s == CREDIT_BUREAU && Retryable(r.failure) && score >= 80.0 { StrongAfterLoss(h, f, s, r); }
    if s != CREDIT_BUREAU && score >= 70.0 { StrongAfterLoss(h, f, s, r); }
  }

  /**
   For the active rule set at the default threshold, with exactly one source failing: the loss turns an application that
   would not have been approved into an APPROVE in exactly these cases. A missing credit score needs NO_RECORD, or
   FORMAT_ERROR or stale data with a strong score; a missing stability needs NO_RECORD; a missing GST answer needs GST
   False before and an outage now; always a DTI below one half.
   */
  lemma SingleLossApprovesIff(h: Host, c: ResultValue, b: ResultValue, g: ResultValue, s: Source, r: ResultValue,
                              user: Dict)
    requires RoundsToHundredths(h) && NoFailures(c, b, g) && ExtractFeatures(h, c, b, g, user).Ok?
    requires FailingAnswer(h, s, r) && (s == CREDIT_BUREAU ==> ExtractCreditScore(h, r).Ok?)
    requires Decide(h, ExtractFeatures(h, c, b, g, user).value, 0.6, RULE_SET_V1).decision != APPROVE
    ensures var f := ExtractFeatures(h, c, b, g, user).value;
            && WithAnswer(h, c, b, g, s, r, user).Ok?
            && (Decide(h, WithAnswer(h, c, b, g, s, r, user).value, 0.6, RULE_SET_V1).decision == APPROVE <==>
                  LossApproves(h, f, s, r))
  {
    LossShows(h, c, b, g, s, r, user);
    FailingAnswerShows(h, s, r);
    LossApprovesIff(h, ExtractFeatures(h, c, b, g, user).value, s, r);
  }

  lemma ScoreStaysAbove(h: Host, f: Features, s: Source, r: ResultValue)
    requires RoundsToHundredths(h) && f.failures == [] && ShownBy(s, r) && RiskScoreOf(h, f, RULE_SET_V1) >= 55.0
    requires s == CREDIT_BUREAU ==> ExtractCreditScore(h, r) == Ok(None) && r.failure != Some(STALE_DATA)
    ensures RiskScoreOf(h, AfterLoss(h, f, s, r), RULE_SET_V1) >= 34.99
  {
    assert Hundredth(55.0) && Hundredth(54.99) && Hundredth(34.99) && Hundredth(34.98);
    ScoreSides(h, f, 55.0);
    LossMovesScore(h, f, s, r);
    ScoreSides(h, AfterLoss(h, f, s, r), 34.99);
  }

  lemma LossDeclinesIff(h: Host, f: Features, s: Source, r: ResultValue)
    requires RoundsToHundredths(h) && f.failures == [] && !f.fallbackCredit && ShownBy(s, r)
    requires s == CREDIT_BUREAU ==> ExtractCreditScore(h, r).Ok?
    requires s == CREDIT_BUREAU ==> r.failure == Some(STALE_DATA) || ExtractCreditScore(h, r) == Ok(None)
    requires Decide(h, f, 0.6, RULE_SET_V1).decision == APPROVE
    ensures Decide(h, AfterLoss(h, f, s, r), 0.6, RULE_SET_V1).decision == DECLINE <==>
              Tenths(r.failure.value) <= 2
              && (f.dti > 0.6 || RiskScoreOf(h, AfterLoss(h, f, s, r), RULE_SET_V1) < 35.0)
  {
    DegradedDataTable(h, f);
    DegradedDataTable(h, AfterLoss(h, f, s, r));
    LostTenths(h, f, s, r);
    if s != CREDIT_BUREAU || r.failure != Some(STALE_DATA) { ScoreStaysAbove(h, f, s, r); }
  }

  /**
   Likewise exactly one source failing turns an approval into a DECLINE if and only if the failure costs at most 0.2 and
   the DTI is above the decline threshold or the score without the answer falls below it.
   */
  lemma SingleLossDeclinesIff(h: Host, c: ResultValue, b: ResultValue, g: ResultValue, s: Source, r: ResultValue,
                              user: Dict)
    requires RoundsToHundredths(h) && NoFailures(c, b, g) && ExtractFeatures(h, c, b, g, user).Ok?
    requires FailingAnswer(h, s, r) && (s == CREDIT_BUREAU ==> ExtractCreditScore(h, r).Ok?)
    requires Decide(h, ExtractFeatures(h, c, b, g, user).value, 0.6, RULE_SET_V1).decision == APPROVE
    ensures var f := ExtractFeatures(h, c, b, g, user).value;
            && WithAnswer(h, c, b, g, s, r, user).Ok?
            && (Decide(h, WithAnswer(h, c, b, g, s, r, user).value, 0.6, RULE_SET_V1).decision == DECLINE <==>
                  Tenths(r.failure.value) <= 2
                  && (f.dti > 0.6 || RiskScoreOf(h, AfterLoss(h, f, s, r), RULE_SET_V1) < 35.0))
  {
    LossShows(h, c, b, g, s, r, user);
    FailingAnswerShows(h, s, r);
    LossDeclinesIff(h, ExtractFeatures(h, c, b, g, user).value, s, r);
  }

  // ----- each condition is needed -----

  /** A verified answer. */
  function Verified(d: Dict): ResultValue {
    ResultValue(true, Some(d), None, Some(d), false, 0, None)
  }

  /** A failing call with no payload. */
  function Failing(f: FailureType): ResultValue {
    ResultValue(false, None, Some(f), None, Retryable(Some(f)), 0, None)
  }

  function Applicant(emis: real): Dict {
    map["monthly_income" := Num(100.0), "existing_emis" := Num(emis)]
  }

  function CreditAnswer(credit: int): ResultValue {
    Verified(map["credit_score" := Num(credit as real)])
  }

  function BankAnswer(stability: real): ResultValue {
    Verified(map["income_stability" := Num(stability)])
  }

  function GstAnswer(compliant: bool): ResultValue {
    Verified(map["gst_compliant" := Bool(compliant)])
  }

  lemma AnswersShow(h: Host, credit: int, stability: real, compliant: bool, emis: real)
    requires credit >= 0
    ensures ExtractFeatures(h, CreditAnswer(credit), BankAnswer(stability), GstAnswer(compliant), Applicant(emis))
            == Ok(Features(Some(credit), Some(stability), emis / 100.0, Some(compliant), [], false))
  {
    var user := Applicant(emis);
    assert user["monthly_income"] == Num(100.0) && user["existing_emis"] == Num(emis);
    assert DebtToIncome(h, user) == Ok(emis / 100.0);
    CreditShows(h, credit);
    assert "income_stability" in BankAnswer(stability).data.value && "gst_compliant" in GstAnswer(compliant).data.value;
    assert CollectFailureTypes(CreditAnswer(credit), BankAnswer(stability), GstAnswer(compliant)) == [];
  }

  lemma CreditShows(h: Host, credit: int)
    requires credit >= 0
    ensures ExtractCreditScore(h, CreditAnswer(credit)) == Ok(Some(credit))
  {
    var d := CreditAnswer(credit).data.value;
    assert "credit_score" in d && d["credit_score"] == Num(credit as real);
  }

  lemma PlainFailureIsAnswer(h: Host, s: Source, f: FailureType)
    requires f == SERVICE_DOWN || f == NO_RECORD
    requires !(s == CREDIT_BUREAU && f == SERVICE_DOWN) && !(s == GST_VERIFIER && f == NO_RECORD)
    ensures FailingAnswer(h, s, Failing(f))
  {
    assert CallShape(Failing(f)) && AfterCall(h, s, Failing(f), 0) == Ok(Failing(f));
  }

  /** The decision on verified answers, and when source `s` answers `r` instead. */
  predicate Turns(h: Host, credit: int, stability: real, compliant: bool, emis: real, s: Source, r: ResultValue,
                  before: Decision, after: Decision)
  {
    var c, b, g := CreditAnswer(credit), BankAnswer(stability), GstAnswer(compliant);
    var f, f' := ExtractFeatures(h, c, b, g, Applicant(emis)), WithAnswer(h, c, b, g, s, r, Applicant(emis));
    && f.Ok? && Decide(h, f.value, 0.6, RULE_SET_V1).decision == before
    && f'.Ok? && Decide(h, f'.value, 0.6, RULE_SET_V1).decision == after
  }

  lemma TableReview(h: Host, f: Features)
    requires RoundsToHundredths(h) && f.failures == [] && !f.fallbackCredit && f.dti <= 0.6
    requires 35.0 <= Weighted(f) && (Weighted(f) <= 54.0 || f.gst == Some(false))
    ensures Decide(h, f, 0.6, RULE_SET_V1).decision == NEEDS_REVIEW
  {
    assert Hundredth(35.0) && Hundredth(54.0);
    ScoreBounds(h, f, 35.0);
    ScoreBounds(h, f, 54.0);
    DegradedDataTable(h, f);
  }

  /** A credit score below 600 that goes missing: 300 is sent to review, no score at all is approved. */
  lemma MissingCreditApproves(h: Host)
    requires RoundsToHundredths(h)
    ensures FailingAnswer(h, CREDIT_BUREAU, Failing(NO_RECORD))
    ensures Turns(h, 300, 0.5, true, 45.0, CREDIT_BUREAU, Failing(NO_RECORD), NEEDS_REVIEW, APPROVE)
  {
    var f, r := Features(Some(300), Some(0.5), 0.45, Some(true), [], false), Failing(NO_RECORD);
    AnswersShow(h, 300, 0.5, true, 45.0);
    PlainFailureIsAnswer(h, CREDIT_BUREAU, NO_RECORD);
    LossShows(h, CreditAnswer(300), BankAnswer(0.5), GstAnswer(true), CREDIT_BUREAU, r, Applicant(45.0));
    assert 52.0 <= Weighted(f) <= 52.1;
    TableReview(h, f);
    assert 60.0 <= Weighted(AfterLoss(h, f, CREDIT_BUREAU, r));
    FailureApproves(h, f, CREDIT_BUREAU, r, 55.0);
  }

  /** A loss that leaves at least `need` points approves, by the exact condition. */
  lemma FailureApproves(h: Host, f: Features, s: Source, r: ResultValue, need: real)
    requires RoundsToHundredths(h) && f.failures == [] && !f.fallbackCredit && FailingAnswer(h, s, r)
    requires s == CREDIT_BUREAU ==> ExtractCreditScore(h, r).Ok?
    requires Decide(h, f, 0.6, RULE_SET_V1).decision != APPROVE
    requires (need == 55.0 || need == 70.0) && Weighted(AfterLoss(h, f, s, r)) >= need
    requires RiskScoreOf(h, AfterLoss(h, f, s, r), RULE_SET_V1) >= need ==> LossApproves(h, f, s, r)
    ensures Decide(h, AfterLoss(h, f, s, r), 0.6, RULE_SET_V1).decision == APPROVE
  {
    assert Hundredth(55.0) && Hundredth(70.0);
    ScoreBounds(h, AfterLoss(h, f, s, r), need);
    FailingAnswerShows(h, s, r);
    LossApprovesIff(h, f, s, r);
  }

  /** A stability below 0.5 that goes missing. */
  lemma MissingStabilityApproves(h: Host)
    requires RoundsToHundredths(h)
    ensures FailingAnswer(h, BANK_ANALYZER, Failing(NO_RECORD))
    ensures Turns(h, 450, 0.0, true, 30.0, BANK_ANALYZER, Failing(NO_RECORD), NEEDS_REVIEW, APPROVE)
  {
    var f, r := Features(Some(450), Some(0.0), 0.3, Some(true), [], false), Failing(NO_RECORD);
    AnswersShow(h, 450, 0.0, true, 30.0);
    PlainFailureIsAnswer(h, BANK_ANALYZER, NO_RECORD);
    LossShows(h, CreditAnswer(450), BankAnswer(0.0), GstAnswer(true), BANK_ANALYZER, r, Applicant(30.0));
    assert Weighted(f) == 52.5;
    TableReview(h, f);
    assert Weighted(AfterLoss(h, f, BANK_ANALYZER, r)) == 57.5;
    FailureApproves(h, f, BANK_ANALYZER, r, 55.0);
  }

  /** A GST False that an outage makes unknown. */
  lemma MissingGstApproves(h: Host)
    requires RoundsToHundredths(h)
    ensures FailingAnswer(h, GST_VERIFIER, Failing(SERVICE_DOWN))
    ensures Turns(h, 900, 1.0, false, 0.0, GST_VERIFIER, Failing(SERVICE_DOWN), NEEDS_REVIEW, APPROVE)
  {
    AnswersShow(h, 900, 1.0, false, 0.0);
    PlainFailureIsAnswer(h, GST_VERIFIER, SERVICE_DOWN);
    LossShows(h, CreditAnswer(900), BankAnswer(1.0), GstAnswer(false), GST_VERIFIER, Failing(SERVICE_DOWN),
              Applicant(0.0));
    UnknownGstApproves(h);
  }

  const ALL_BUT_GST := Features(Some(900), Some(1.0), 0.0, Some(false), [], false)

  lemma UnknownGstApproves(h: Host)
    requires RoundsToHundredths(h) && FailingAnswer(h, GST_VERIFIER, Failing(SERVICE_DOWN))
    ensures Decide(h, ALL_BUT_GST, 0.6, RULE_SET_V1).decision == NEEDS_REVIEW
    ensures var f := AfterLoss(h, ALL_BUT_GST, GST_VERIFIER, Failing(SERVICE_DOWN));
            Decide(h, f, 0.6, RULE_SET_V1).decision == APPROVE
  {
    assert Weighted(ALL_BUT_GST) == 85.0;
    TableReview(h, ALL_BUT_GST);
    assert Weighted(AfterLoss(h, ALL_BUT_GST, GST_VERIFIER, Failing(SERVICE_DOWN))) == 80.0;
    FailureApproves(h, ALL_BUT_GST, GST_VERIFIER, Failing(SERVICE_DOWN), 70.0);
  }

  function StaleAnswer(credit: int, date: string): ResultValue {
    Verified(map["credit_score" := Num(credit as real), "last_updated" := Str(date)])
      .(success := false, failure := Some(STALE_DATA))
  }

  /** A stale credit score that is better than the fresh one. */
  lemma StaleCreditApproves(h: Host, date: string)
    requires RoundsToHundredths(h) && h.parseTime(date).Some?
    ensures FailingAnswer(h, CREDIT_BUREAU, StaleAnswer(900, date))
    ensures Turns(h, 0, 1.0, true, 40.0, CREDIT_BUREAU, StaleAnswer(900, date), NEEDS_REVIEW, APPROVE)
  {
    var f, r := Features(Some(0), Some(1.0), 0.4, Some(true), [], false), StaleAnswer(900, date);
    AnswersShow(h, 0, 1.0, true, 40.0);
    StaleIsAnswer(h, date);
    LossShows(h, CreditAnswer(0), BankAnswer(1.0), GstAnswer(true), CREDIT_BUREAU, r, Applicant(40.0));
    assert Weighted(f) == 50.0;
    TableReview(h, f);
    assert Weighted(AfterLoss(h, f, CREDIT_BUREAU, r)) == 85.0;
    FailureApproves(h, f, CREDIT_BUREAU, r, 70.0);
  }

  lemma StaleIsAnswer(h: Host, date: string)
    requires h.parseTime(date).Some?
    ensures FailingAnswer(h, CREDIT_BUREAU, StaleAnswer(900, date))
    ensures ExtractCreditScore(h, StaleAnswer(900, date)) == Ok(Some(900))
  {
    var d := StaleAnswer(900, date).data.value;
    assert d["last_updated"] == Str(date) && d["credit_score"] == Num(900.0);
    var now := h.parseTime(date).value + SIXTY_DAYS + 1;
    assert CallShape(Verified(d)) && AfterCall(h, CREDIT_BUREAU, Verified(d), now) == Ok(StaleAnswer(900, date));
  }

  const MISSING_STABILITY: Dict := map["average_balance" := Num(1.0)]

  const PARTIAL := Verified(MISSING_STABILITY).(success := false, failure := Some(PARTIAL_DATA))

  const UNREGISTERED := Failing(NO_RECORD).(data := Some(NOT_COMPLIANT), fallbackUsed := true)

  /** Two sources together can decline an approved applicant at any DTI: here 0.28, with 0.3 of reliability lost. */
  lemma TwoLossesDecline(h: Host)
    requires RoundsToHundredths(h)
    ensures FailingAnswer(h, BANK_ANALYZER, PARTIAL) && FailingAnswer(h, GST_VERIFIER, UNREGISTERED)
    ensures var c, b, g, user := CreditAnswer(45), BankAnswer(1.0), GstAnswer(true), Applicant(28.0);
            var f, f' := ExtractFeatures(h, c, b, g, user), ExtractFeatures(h, c, PARTIAL, UNREGISTERED, user);
            && f.Ok? && Decide(h, f.value, 0.6, RULE_SET_V1).decision == APPROVE
            && f'.Ok? && Lost(f'.value) == 3 && Decide(h, f'.value, 0.6, RULE_SET_V1).decision == DECLINE
  {
    assert CallShape(Verified(MISSING_STABILITY)) && "average_balance" in MISSING_STABILITY;
    assert AfterCall(h, BANK_ANALYZER, Verified(MISSING_STABILITY), 0) == Ok(PARTIAL);
    assert CallShape(Failing(NO_RECORD)) && AfterCall(h, GST_VERIFIER, Failing(NO_RECORD), 0) == Ok(UNREGISTERED);
    AnswersShow(h, 45, 1.0, true, 28.0);
    LossesShow(h);
    JustApproved(h);
    FarDeclined(h);
  }

  lemma LossesShow(h: Host)
    ensures ExtractFeatures(h, CreditAnswer(45), PARTIAL, UNREGISTERED, Applicant(28.0))
            == Ok(AFTER_LOSSES)
  {
    var user := Applicant(28.0);
    assert user["monthly_income"] == Num(100.0) && user["existing_emis"] == Num(28.0);
    assert DebtToIncome(h, user) == Ok(0.28);
    CreditShows(h, 45);
    assert "income_stability" !in MISSING_STABILITY && "gst_compliant" in NOT_COMPLIANT;
    assert CollectFailureTypes(CreditAnswer(45), PARTIAL, UNREGISTERED) == [PARTIAL_DATA, NO_RECORD];
  }

  const BEFORE_LOSSES := Features(Some(45), Some(1.0), 0.28, Some(true), [], false)

  const AFTER_LOSSES := Features(Some(45), None, 0.28, Some(false), [PARTIAL_DATA, NO_RECORD], false)

  lemma JustApproved(h: Host)
    requires RoundsToHundredths(h)
    ensures Decide(h, BEFORE_LOSSES, 0.6, RULE_SET_V1).decision == APPROVE
  {
    assert Hundredth(55.0) && Weighted(BEFORE_LOSSES) == 55.0;
    ScoreBounds(h, BEFORE_LOSSES, 55.0);
    NothingLost(h, BEFORE_LOSSES);
  }

  lemma FarDeclined(h: Host)
    requires RoundsToHundredths(h)
    ensures Lost(AFTER_LOSSES) == 3 && Decide(h, AFTER_LOSSES, 0.6, RULE_SET_V1).decision == DECLINE
  {
    assert Hundredth(20.0) && Weighted(AFTER_LOSSES) == 20.0;
    ScoreBounds(h, AFTER_LOSSES, 20.0);
    TwoLost(PARTIAL_DATA, NO_RECORD);
    FarBelow(h, AFTER_LOSSES);
  }

  lemma FarBelow(h: Host, f: Features)
    requires RoundsToHundredths(h) && f.gst == Some(false) && Lost(f) <= 4 && RiskScoreOf(h, f, RULE_SET_V1) <= 20.0
    ensures Decide(h, f, 0.6, RULE_SET_V1).decision == DECLINE
  {
    DegradedDataTable(h, f);
  }

  lemma TwoLost(x: FailureType, y: FailureType)
    ensures LostTo([x, y]) == Tenths(x) + Tenths(y)
  {
    OneLost(x);
    assert [x, y][..1] == [x];
  }

  lemma NothingLost(h: Host, f: Features)
    requires RoundsToHundredths(h) && f.failures == [] && !f.fallbackCredit
    requires f.gst != Some(false) && f.dti < 0.5 && RiskScoreOf(h, f, RULE_SET_V1) >= 55.0
    ensures Decide(h, f, 0.6, RULE_SET_V1).decision == APPROVE
  {
    DegradedDataTable(h, f);
  }
}
