/** Immutable rule sets (engine/rule_sets.py). */
module RuleSets {

  datatype RuleSet = RuleSet(
    version: string,
    creditWeight: real,
    stabilityWeight: real,
    dtiWeight: real,
    gstWeight: real,
    dataQualityPenalty: real,
    maxDataQualityPenalty: real,
    approveHigh: real,
    approveModerate: real,
    decline: real,
    moderateMaxDti: real,
    declineDti: real)

  const RULE_SET_V1 :=
    RuleSet("RULE_SET_V1", 40.0, 20.0, 25.0, 15.0, 5.0, 15.0, 70.0, 55.0, 35.0, 0.5, 0.6)

  predicate NonNegativeWeights(rs: RuleSet) {
    rs.creditWeight >= 0.0 && rs.stabilityWeight >= 0.0 && rs.dtiWeight >= 0.0 && rs.gstWeight >= 0.0
  }
}

/** The weighted 0-100 score (engine/scoring.py). */
module Scoring {
  import opened Common
  import opened Host
  import opened RuleSets

  const DEFAULT_CREDIT_SCORE := 600
  const DEFAULT_INCOME_STABILITY := 0.5

  function Min(x: real, y: real): real { if y < x then y else x }

  function Max(x: real, y: real): real { if y > x then y else x }

  function Clamp(value: real, lower: real, upper: real): real {
    Min(Max(value, lower), upper)
  }

  function EffectiveCredit(credit: Option<int>): int {
    if credit.None? then DEFAULT_CREDIT_SCORE else credit.value
  }

  function EffectiveStability(stability: Option<real>): real {
    if stability.None? then DEFAULT_INCOME_STABILITY else stability.value
  }

  function CreditComponent(credit: Option<int>, rs: RuleSet): real {
    Clamp(EffectiveCredit(credit) as real / 900.0, 0.0, 1.0) * rs.creditWeight
  }

  function StabilityComponent(stability: Option<real>, rs: RuleSet): real {
    Clamp(EffectiveStability(stability), 0.0, 1.0) * rs.stabilityWeight
  }

  function DtiComponent(dti: real, rs: RuleSet): real {
    Max(0.0, 1.0 - dti) * rs.dtiWeight
  }

  function GstComponent(gst: Option<bool>, rs: RuleSet): real {
    if gst == Some(true) then rs.gstWeight else 0.0
  }

  function DataQualityPenalty(failureCount: nat, rs: RuleSet): real {
    Min(failureCount as real * rs.dataQualityPenalty, rs.maxDataQualityPenalty)
  }

  function WeightedScore(credit: Option<int>, stability: Option<real>, dti: real, gst: Option<bool>,
                         failureCount: nat, rs: RuleSet): real
  {
    CreditComponent(credit, rs) + StabilityComponent(stability, rs) + DtiComponent(dti, rs)
    + GstComponent(gst, rs) - DataQualityPenalty(failureCount, rs)
  }

  function ComputeRiskScore(h: Host, credit: Option<int>, stability: Option<real>, dti: real, gst: Option<bool>,
                            failureCount: nat, rs: RuleSet): real
  {
    h.round(Clamp(WeightedScore(credit, stability, dti, gst, failureCount, rs), 0.0, 100.0))
  }
}

/** First-match decision rules with the GST cap (engine/rules.py). */
module Rules {
  import opened Common
  import opened RuleSets
  import opened Scoring

  datatype Decision = DECLINE | NEEDS_REVIEW | APPROVE

  /** Which rule fired; stands for the `rule = ...` factor text. */
  datatype Rule = Strong | Moderate | DeclineThreshold | ManualAssessment

  function EffectiveScore(riskScore: real, gst: Option<bool>, rs: RuleSet): real {
    if gst == Some(false) then Min(riskScore, rs.approveModerate - 1.0) else riskScore
  }

  function Evaluate(riskScore: real, dti: real, failureCount: nat, gst: Option<bool>, rs: RuleSet): (Decision, Rule) {
    var effective := EffectiveScore(riskScore, gst, rs);
    if effective >= rs.approveHigh && failureCount == 0 then (APPROVE, Strong)
    else if effective >= rs.approveModerate && dti < rs.moderateMaxDti then (APPROVE, Moderate)
    else if effective < rs.decline || dti > rs.declineDti then (DECLINE, DeclineThreshold)
    else (NEEDS_REVIEW, ManualAssessment)
  }
}

/** Data reliability and calibrated confidence (engine/confidence.py). */
module Confidence {
  import opened Host
  import opened Rules
  import opened Scoring
  import opened ServiceResults

  const FALLBACK_CREDIT_PENALTY := 0.10

  /** Stands for one penalty or confidence reason text. */
  datatype Reason =
    | FailurePenalty(failure: FailureType, penalty: real)
    | FallbackCreditPenalty(penalty: real)
    | ReliabilityIs(reliability: real)
    | BoundaryFactorIs(factor: real)
    | FailuresAre(failures: seq<FailureType>)

  function Penalty(f: FailureType): real {
    match f
    case TIMEOUT => 0.30
    case STALE_DATA => 0.20
    case SERVICE_DOWN => 0.30
    case PARTIAL_DATA => 0.20
    case FORMAT_ERROR => 0.30
    case PAN_MISMATCH => 0.20
    case NO_RECORD => 0.10
    case SUCCESS => 0.0
  }

  function PenaltySum(fs: seq<FailureType>): (total: real)
    ensures total >= 0.0
  {
    if fs == [] then 0.0 else PenaltySum(fs[..|fs| - 1]) + Penalty(fs[|fs| - 1])
  }

  function Reliability(h: Host, fs: seq<FailureType>, usedFallbackCredit: bool): real {
    var fallback := if usedFallbackCredit then FALLBACK_CREDIT_PENALTY else 0.0;
    h.round(Clamp(1.0 - PenaltySum(fs) - fallback, 0.0, 1.0))
  }

  function PenaltyReasons(fs: seq<FailureType>, usedFallbackCredit: bool): seq<Reason> {
    seq(|fs|, i requires 0 <= i < |fs| => FailurePenalty(fs[i], Penalty(fs[i])))
    + if usedFallbackCredit then [FallbackCreditPenalty(FALLBACK_CREDIT_PENALTY)] else []
  }

  method ComputeDataReliability(h: Host, fs: seq<FailureType>, usedFallbackCredit: bool)
    returns (reliability: real, reasons: seq<Reason>)
    ensures reliability == Reliability(h, fs, usedFallbackCredit)
    ensures reasons == PenaltyReasons(fs, usedFallbackCredit)
  {
    var left := 1.0;
    reasons := [];
    for i := 0 to |fs|
      invariant left == 1.0 - PenaltySum(fs[..i])
      invariant reasons == PenaltyReasons(fs[..i], false)
    {
      assert fs[..i + 1][..i] == fs[..i];
      left := left - Penalty(fs[i]);
      reasons := reasons + [FailurePenalty(fs[i], Penalty(fs[i]))];
    }
    assert fs[..|fs|] == fs;
    if usedFallbackCredit {
      left := left - FALLBACK_CREDIT_PENALTY;
      reasons := reasons + [FallbackCreditPenalty(FALLBACK_CREDIT_PENALTY)];
    }
    reliability := h.round(Min(Max(left, 0.0), 1.0));
  }

  function BoundaryFactor(riskScore: real, decision: Decision): real {
    match decision
    case APPROVE =>
      if riskScore >= 80.0 then 1.0
      else if riskScore >= 70.0 then 0.9
      else if riskScore >= 55.0 then 0.7
      else 0.6
    case DECLINE =>
      if riskScore <= 20.0 then 1.0
      else if riskScore <= 34.0 then 0.85
      else 0.75
    case NEEDS_REVIEW => 0.5
  }

  function DecisionConfidence(h: Host, riskScore: real, decision: Decision, reliability: real): real {
    h.round(Clamp(reliability * BoundaryFactor(riskScore, decision), 0.0, 1.0))
  }

  function ConfidenceReasons(riskScore: real, decision: Decision, reliability: real,
                             fs: seq<FailureType>): seq<Reason> {
    [ReliabilityIs(reliability), BoundaryFactorIs(BoundaryFactor(riskScore, decision))]
    + if fs != [] then [FailuresAre(fs)] else []
  }
}

/** Orchestration of extraction, scoring, rules and the review override (engine/decision.py). */
module Decisions {
  import opened Common
  import opened Confidence
  import opened Host
  import opened Json
  import opened RuleSets
  import opened Rules
  import opened Scoring
  import opened ServiceResults

  datatype DecisionOutput = DecisionOutput(
    decision: Decision,
    confidence: real,
    reliability: real,
    riskScore: real,
    rule: Rule,
    reasons: seq<Reason>,
    ruleVersion: string,
    requiresManualReview: bool)

  /** Everything the decision depends on, after extraction. */
  datatype Features = Features(
    credit: Option<int>,
    stability: Option<real>,
    dti: real,
    gst: Option<bool>,
    failures: seq<FailureType>,
    fallbackCredit: bool)

  // ----- extraction -----

  predicate UsedFallbackCredit(r: ResultValue) {
    r.fallbackUsed && (r.failure == Some(TIMEOUT) || r.failure == Some(SERVICE_DOWN))
  }

  function ExtractCreditScore(h: Host, r: ResultValue): Result<Option<int>> {
    if UsedFallbackCredit(r) then Ok(None)
    else if Present(r.data) && "credit_score" in r.data.value then
      match ToInt(h, r.data.value["credit_score"])
      case Ok(n) => Ok(Some(n))
      case Raised => Raised
    else Ok(None)
  }

  function ExtractIncomeStability(h: Host, r: ResultValue): Result<Option<real>> {
    if Present(r.data) && "income_stability" in r.data.value then
      match ToFloat(h, r.data.value["income_stability"])
      case Ok(x) => Ok(Some(x))
      case Raised => Raised
    else Ok(None)
  }

  function ExtractGstCompliance(r: ResultValue): Option<bool> {
    if Present(r.data) && "gst_compliant" in r.data.value then Some(Truthy(r.data.value["gst_compliant"]))
    else if r.failure == Some(PAN_MISMATCH) || r.failure == Some(NO_RECORD) then Some(false)
    else None
  }

  function FailureOf(r: ResultValue): seq<FailureType> {
    if r.failure.Some? then [r.failure.value] else []
  }

  function CollectFailureTypes(c: ResultValue, b: ResultValue, g: ResultValue): seq<FailureType> {
    FailureOf(c) + FailureOf(b) + FailureOf(g)
  }

  /** `existing_emis / monthly_income`; raises on a missing or unreadable income and on a zero one. */
  function DebtToIncome(h: Host, user: Dict): Result<real> {
    if "monthly_income" !in user then Raised else
    var income := ToFloat(h, user["monthly_income"]);
    var emis := if "existing_emis" in user then ToFloat(h, user["existing_emis"]) else Ok(0.0);
    if income.Raised? || emis.Raised? || income.value == 0.0 then Raised
    else Ok(emis.value / income.value)
  }

  function ExtractFeatures(h: Host, c: ResultValue, b: ResultValue, g: ResultValue, user: Dict): Result<Features> {
    var dti := DebtToIncome(h, user);
    var credit := ExtractCreditScore(h, c);
    var stability := ExtractIncomeStability(h, b);
    if dti.Raised? || credit.Raised? || stability.Raised? then Raised
    else Ok(Features(credit.value, stability.value, dti.value, ExtractGstCompliance(g),
                     CollectFailureTypes(c, b, g), UsedFallbackCredit(c)))
  }

  // ----- decision -----

  function RiskScoreOf(h: Host, f: Features, rs: RuleSet): real {
    ComputeRiskScore(h, f.credit, f.stability, f.dti, f.gst, |f.failures|, rs)
  }

  function Decide(h: Host, f: Features, threshold: real, rs: RuleSet): DecisionOutput {
    var riskScore := RiskScoreOf(h, f, rs);
    var (decision, rule) := Evaluate(riskScore, f.dti, |f.failures|, f.gst, rs);
    var reliability := Reliability(h, f.failures, f.fallbackCredit);
    var confidence := DecisionConfidence(h, riskScore, decision, reliability);
    var requiresManualReview := confidence < threshold;
    DecisionOutput(
      if requiresManualReview then NEEDS_REVIEW else decision,
      confidence,
      reliability,
      riskScore,
      rule,
      PenaltyReasons(f.failures, f.fallbackCredit) + ConfidenceReasons(riskScore, decision, reliability, f.failures),
      rs.version,
      requiresManualReview)
  }

  function ComputeDecision(h: Host, c: ResultValue, b: ResultValue, g: ResultValue, user: Dict,
                           threshold: real, rs: RuleSet): Result<DecisionOutput>
  {
    match ExtractFeatures(h, c, b, g, user)
    case Ok(f) => Ok(Decide(h, f, threshold, rs))
    case Raised => Raised
  }
}
