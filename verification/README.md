# AuditLend in Dafny

AuditLend takes loan applications over an API, queues them through a transactional outbox, and lets Celery workers fetch
three provider answers, compute a deterministic decision and write everything to an append-only audit log. This project
models that pipeline and proves what it promises, for every input, every rule set and every interleaving of its actors.

There are four parts, each built on the one before it where they meet.

- **The decision** (`Engine.dfy`, `DecisionProperties.dfy`, `RawInputs.dfy`, `Degradation.dfy`, `DeclaredModes.dfy`,
  `LiveAnswers.dfy`): scoring, rules, reliability, confidence and the review override over exact reals. Rounding to hundredths is a parameter of which only
  two facts are assumed, that it is monotone and that it fixes multiples of 0.01 (`Host.dfy`).
- **Provider results and JSON** (`Redaction.dfy`, `Providers.dfy`, `StoredResults.dfy`): the post-processing of the three
  clients, redaction before storage, sanitizing before audit, and the reconstruction of a stored result.
- **The provider client** (`BaseService.dfy`, `Breaker.dfy`, `Circuit.dfy`, `CallInCircuit.dfy`): the retry loop, the
  circuit breaker over shared keys with expiry, and any number of interleaved callers. One call is proved to be a run of
  the shared breaker.
- **The pipeline** (`Schema.dfy`, `Worker.dfy`, `Pipeline.dfy`, `AuditEntries.dfy` and the `*Theorems.dfy` files): one state machine whose
  state holds the tables, the idempotency cache, the broker, a clock, and the program counter of every request, poller and
  worker. Each database transaction or cache round trip is one step. Any sequence of actions is a run: crashes,
  rollbacks, redeliveries, stale reclaims, timeouts and error-marking can come anywhere. `ApplyLoan.dfy`, `WholeTask.dfy`
  and the class `OutboxStore` give the procedures themselves, and prove that their steps are steps of the machine.

Where the source updates objects or rows in place the model is imperative: `ServiceResult`, `BaseExternalService`,
`Database`, `OutboxStore` and `LoanDesk` are classes whose methods are proved equal to the functions that the theorems are
about.

## What turned out not to hold

- The docstring of `process_application` calls it idempotent and says that terminal applications return their stored state
  (`worker/tasks/process_application.py:34-37`). Run to its end and run again, it is (`TaskIsIdempotent`). But the
  code marks errors without looking at the status (lines 413-431), so a worker that lost its claim can turn an approved,
  COMPLETED application into MANUAL_REVIEW; so can, well within the default timeouts, a redelivered one that fails before
  it claims. `Witness` gives both runs, `CompletedStaysIffNeverMarked` the exact condition, `CompletedIsFinal` a discipline
  under which it cannot happen.
- Taken one Redis command at a time the circuit breaker can be left OPEN without `last_failure`.
  `CrossingCallsStrandIff` says exactly which merges of a success with a failure do that. With any number of calls, any of
  them cut off, it takes such a crossing or a probe's failure cut off right after it wrote OPEN (`StrandedNeedsCrossing`,
  `CutOffProbeStrands`). From there it stays OPEN in every continuation exactly when no call is in flight
  (`StrandedForGoodIffNobodyInFlight`); a call that is still out can revive it (`StrandedLeftIff`).
- Losing data can help an applicant, because a missing value is replaced by a default: a missing credit score counts as
  600, a missing stability as 0.5, and an outage turns GST False into unknown. `LossNeverApproves` says when it cannot,
  `SingleLossApprovesIff` exactly when the loss of one source creates an approval.
- Two probes can be in flight. Beside a probe a second one gets in exactly when the first has outlived its lock or an
  ordinary call has succeeded since, which deletes the lock (`SecondProbeIff`, `OneProbeIffNoTrespass`).
- `_redact_user_data` copies a list that stands directly in a list, personal data included; exactly then something leaks
  (`RedactPiiFreeIffNestedClean`). The audit sanitizer has no such gap.
- Sanitizing is not idempotent, because a band is itself unreadable; it is exactly when nothing was banded.
- A failing provider payload that carries the very score it denies is seen differently after storage than before;
  `ReuseIffHonest` is the exact condition. It can split two workers: `DishonestPayloadSplitsWorkers` gives a run in which
  the one that fetched such a payload holds NEEDS_REVIEW and one that read it back holds APPROVE.
- `fallback_used` does not survive storage: a rebuilt FORMAT_ERROR of the credit bureau or NO_RECORD of the bank claims a
  fallback that there was not (`FallbackFlagSurvivesIff`). The decision does not look at it there.
- NEEDS_REVIEW and `requires_manual_review` coincide exactly for thresholds above one half.

## Model

| member | source | states |
|---|---|---|
| DecisionProperties.BetterProfileNeverWorse | engine/decision.py:29-97 | End to end, through clamping, rounding, the GST cap, rule order and the confidence override: a higher credit score or stability, a lower DTI, or GST moving along False, unknown, True never worsens the decision, for every rule set with non-negative weights |
| DecisionProperties.DegradationNeverApproves | engine/confidence.py:27-39 | With the extracted values unchanged: if a profile with extra failures or a credit fallback is approved, it is approved without them, at any threshold |
| Degradation.LossNeverApproves | engine/decision.py:45-97 | Any sources failing, through client post-processing and extraction: loss never creates an approval when no lost credit score was below what replaces it, 600 or the stale score, no lost stability below 0.5, and no GST False becomes unknown, for every rule set with non-negative weights and penalty, at any threshold |
| Degradation.SingleLossApprovesIff | engine/decision.py:116-137 | Exactly one source failing, active rule set, default threshold: which failures turn an application that is not approved into an APPROVE, and the score each needs, as an if and only if |
| Degradation.SingleLossDeclinesIff | engine/decision.py:116-137 | Likewise exactly when it turns an approval into a DECLINE: the failure costs at most 0.2, and the DTI is above 0.6 or the score without the answer below 35 |
| Degradation.FailingAnswerShows | services/credit_bureau.py:39-51 | What a failing result of each client shows to the decision: only a stale credit answer keeps a value of its own |
| Degradation.MissingCreditApproves | engine/scoring.py:21 | A credit score of 300 is sent to review; without any, at NO_RECORD, the same applicant is approved |
| Degradation.MissingStabilityApproves | engine/scoring.py:22 | The same for a stability of 0 lost to NO_RECORD |
| Degradation.MissingGstApproves | services/gst_verifier.py:45-49 | The same for a GST False that SERVICE_DOWN makes unknown |
| Degradation.StaleCreditApproves | services/credit_bureau.py:39-43 | The same for a stale score of 900 in place of a fresh one of 0 |
| Degradation.TwoLossesDecline | engine/scoring.py:21-34 | PARTIAL_DATA and NO_RECORD together turn an approval at DTI 0.28 into a DECLINE with 0.3 lost |
| DecisionProperties.GstFailureNeverApproves | engine/rules.py:27-59 | GST False never yields APPROVE when the high threshold is at least the moderate one |
| DecisionProperties.ReviewIffLowConfidence | engine/decision.py:83-86 | Above a threshold of one half, NEEDS_REVIEW if and only if `requires_manual_review` |
| DecisionProperties.CoupledIffAboveHalf | engine/decision.py:83-86 | That coupling holds for all applicants and rule sets exactly when the threshold is above one half |
| DecisionProperties.ReviewWithoutLowConfidence | engine/confidence.py:70-87 | A concrete applicant sent to review without low confidence at any threshold of one half or less |
| DeclaredModes.DeclaredOutageAlwaysReviews | api/schemas/application.py:7-23 | An application that declares a failure mode for each of the three sources goes to review, through provider answers, retries, breakers in any state and client post-processing, for every applicant, rule set and threshold above one half |
| DeclaredModes.DeclaredModeShows | services/base.py:81-144 | A provider that answers every attempt in a declared mode yields exactly that failure after retries and post-processing, or SERVICE_DOWN when the breaker let nobody through |
| DecisionProperties.TotalOutageAlwaysReviews | engine/confidence.py:5-39 | Failures of all three sources, each in a declared mode or down, send every applicant to review |
| DecisionProperties.HalfPenaltyReviews | engine/confidence.py:27-39 | Penalties of one half or more force review at every threshold above one half |
| DecisionProperties.CleanDataDecidesByScore | engine/decision.py:55-97 | With all data verified, the active rule set and the default threshold: exactly which score, DTI and GST lead to APPROVE, DECLINE and NEEDS_REVIEW, and with which confidence |
| DecisionProperties.DegradedDataTable | engine/decision.py:55-97 | The exact table of the active rule set at the default threshold for every applicant and every pattern of failures: which score, DTI and GST are approved or declined given the tenths of reliability lost, one case hanging on how 0.595 rounds |
| RawInputs.VerifiedApplicantDecided | engine/scoring.py:21-34 | For verified inputs within their ranges: the weighted sum credit·40/900 + stability·20 + (1 − DTI)·25 + 15 for GST True is the risk score to within a hundredth, and against 70, 55 and 35, with the DTI and GST, it tells APPROVE, not APPROVE, DECLINE and not DECLINE |
| RawInputs.PointsDecide | engine/decision.py:55-97 | The table of DegradedDataTable on the points themselves, counted case by case from raw inputs in range or not, missing or not, with any failures, to within a hundredth |
| RawInputs.RiskScoreIsPoints | engine/scoring.py:21-34 | The risk score is those points clipped to 0..100 and rounded, and rounding carries it across no hundredth |
| RawInputs.RulesDecide | engine/rules.py:27-59 | Which of the four rules fires, for every rule set, and the decision each stands for |
| RawInputs.RuleUnlessUnsure | engine/decision.py:83-97 | The output is the decision of the rule unless its confidence is below the threshold, and names rule, score and rule set |
| RawInputs.ReliabilityIsWhatIsLeft | engine/confidence.py:5-39 | Reliability is ten tenths less what each failure and a credit fallback cost, never below zero |
| RawInputs.ConfidenceOfOutput | engine/decision.py:75-80 | Confidence is worked out from the score, the decision of the rule and the reliability that the output shows |
| RawInputs.ConfidenceIsProduct | engine/confidence.py:42-87 | Confidence is reliability times a factor that the score gives the decision, to within a hundredth |
| RawInputs.ReasonsNameTheCosts | engine/confidence.py:27-59 | The reasons name each failure with its price in order, the credit fallback, the reliability, the factor and the failures |
| RawInputs.FailuresInOrder | engine/decision.py:116-117 | Failures are listed credit first, then bank, then GST, each at most once |
| RawInputs.DebtRatioSolves | engine/decision.py:41-43 | The DTI times the income is the EMIs, and there is one exactly when the income is not zero |
| RawInputs.UnreadableHasNoRatio | engine/decision.py:41-43 | Income or EMIs that cannot be read as numbers raise |
| RawInputs.ScalingChangesNothing | engine/decision.py:41-43 | Income and EMIs multiplied by the same number lead to the same output |
| RawInputs.RicherNeverWorse | engine/decision.py:29-97 | More income or fewer EMIs never worsen the decision, for any results, any rule set with non-negative weights and any threshold |
| LiveAnswers.LiveApplicantDecided | engine/decision.py:29-97 | From the bodies of three HTTP answers and two sealed numbers to the decision, through call, client, extraction and rules, by one weighted sum |
| LiveAnswers.LiveAnswersAreTheFeatures | engine/decision.py:116-137 | Three plain live answers give the decision exactly their three values, the DTI, no failure and no fallback |
| LiveAnswers.LiveCreditIsScored | engine/decision.py:120-125 | A fresh credit answer, plain or under `detail`, is scored by its own number, read as `int()` reads it |
| LiveAnswers.FallbackScoreIsIgnoredIff | engine/decision.py:120-122 | A credit score that is there is left unread exactly when it is the fallback of a TIMEOUT or SERVICE_DOWN |
| LiveAnswers.LiveStabilityIsScored | engine/decision.py:128-131 | The same for a stability, read as `float()` reads it |
| LiveAnswers.LiveGstIsScored | engine/decision.py:134-137 | The same for GST compliance, read as Python reads truth, unless the answer denies the PAN |
| LiveAnswers.EmptyAnswersShowNothing | services/base.py:290-297 | A body that is no dictionary succeeds and gives the decision nothing |
| DecisionProperties.LostDataDeclinesIff | engine/rules.py:46-56 | With the extracted values unchanged, failures turn a clean approval into a DECLINE if and only if the DTI is above 0.6 and at most 0.2 of reliability is lost |
| DecisionProperties.ComplianceRescuesIff | engine/rules.py:27-56 | GST compliance alone turns a DECLINE into an APPROVE if and only if the DTI is above 0.6, no source fails and the score with it is at least 70 |
| DecisionProperties.ScoreImproves | engine/scoring.py:21-34 | The rounded, clamped risk score is monotone in every applicant feature |
| DecisionProperties.BaseDecisionImproves | engine/rules.py:27-59 | First-match rules with the GST cap respect the order of applicants |
| DecisionProperties.ConfidenceFollowsScore | engine/confidence.py:42-59 | Confidence in an approval grows with the score, confidence in a decline shrinks with it |
| DecisionProperties.FewerFailuresPenalizeLess | engine/confidence.py:30-33 | A sub-multiset of failures costs no more reliability, whatever the order |
| Confidence.ComputeDataReliability | engine/confidence.py:18-39 | The subtracting loop computes one minus the sum of penalties, clamped and rounded, and lists one reason for each |
| Host.FaithfulHostsExist | engine/scoring.py:34 | The two assumptions on rounding, and the one on number parsing, can be met together |
| Redaction.SanitizedIsPiiFree | services/audit.py:79-105 | At any depth of a sanitized snapshot every personal key holds a band or the redaction mark and nothing else |
| Redaction.SanitizeRevealsOnlyLabels | services/audit.py:79-105 | Two snapshots sanitize alike if and only if they agree outside personal keys and each personal value has the same label |
| Redaction.SanitizeSettlesAfterTwo | services/audit.py:79-138 | Sanitizing three times equals sanitizing twice |
| Redaction.SanitizeIsNotIdempotent | services/audit.py:115-126 | A concrete snapshot that a second pass changes |
| Redaction.SanitizeIdempotentIffUnbanded | services/audit.py:96-112 | A second pass changes nothing if and only if the first banded no value |
| Redaction.SanitizeFixesRedacted | worker/tasks/process_application.py:447-468 | On redacted data without lists directly in lists the sanitizer is the identity |
| Redaction.RedactPiiFreeIffNestedClean | worker/tasks/process_application.py:464-465 | Redaction alone leaves no personal data if and only if none stands in a list directly inside a list |
| Redaction.PersonalKeysAreHidden | services/audit.py:96-138 | Each of the eleven personal keys, by name: redaction leaves the mark, and the sanitizer leaves the band its value lies in when it is an income or amount that can be read, and the mark otherwise |
| Redaction.OtherKeysAreKept | worker/tasks/process_application.py:462-467 | Under any other key both keep scalars, and treat dictionaries and lists entry by entry |
| Redaction.NestedListEscapesRedaction | worker/tasks/process_application.py:464-465 | A concrete PAN that redaction lets through and the sanitizer does not |
| Redaction.RedactUserData | worker/tasks/process_application.py:447-468 | The procedure that fills a dictionary key by key yields the redaction, None included |
| Redaction.RedactLoop | worker/tasks/process_application.py:450-468 | Its loop redacts every key exactly once, in whatever order keys come |
| Redaction.SanitizeAuditSnapshot | services/audit.py:79-93 | The procedure that fills a dictionary key by key yields the sanitized snapshot |
| Providers.FinishFetch | services/credit_bureau.py:39-58 | Overwrites the result in place on stale data and on the credit fallback of 600; raises exactly on an unreadable date, with the result unchanged |
| Providers.FinishAnalyze | services/bank_analyzer.py:39-50 | Overwrites the result in place for PARTIAL_DATA and FORMAT_ERROR |
| Providers.FinishVerify | services/gst_verifier.py:38-49 | Overwrites the result in place for PAN_MISMATCH and NO_RECORD |
| Providers.CreditIsFreshForSixtyDays | services/credit_bureau.py:39-58 | A dated answer is kept unchanged up to 5184000 seconds of age and is STALE_DATA beyond |
| Providers.UndatedCreditIsKept | services/credit_bureau.py:54-57 | An answer without a date is kept, one whose date cannot be read raises |
| Providers.FallbacksAreConservative | services/credit_bureau.py:48-50 | What stands in for an answer that did not come: a score of 600, no bank data, GST False only for NO_RECORD |
| StoredResults.ReuseIffHonest | worker/tasks/process_application.py:390-410 | For each service, storing, redacting and rebuilding a result leaves score, stability or compliance, failure type and fallback flag as the decision sees them, if and only if a failing payload does not carry the score it denies |
| StoredResults.DecisionSeesOnlyViews | engine/decision.py:116-137 | Results that look alike in those respects lead to equal outputs |
| StoredResults.RedactionKeepsScores | worker/tasks/process_application.py:447-468 | Redaction changes neither the presence nor the numeric or truth value of a scoring key |
| StoredResults.RebuiltKeepsFailure | worker/tasks/process_application.py:390-400 | A rebuilt result has the failure of the original, succeeds exactly without one, and has the keys of its raw payload, or else of its data |
| StoredResults.RebuiltPayload | worker/tasks/process_application.py:447-468 | Key by key, personal data come back as the mark and every other scalar as it was, the request id among them |
| StoredResults.FallbackFlagSurvivesIff | worker/tasks/process_application.py:403-410 | The fallback flag survives storage except for a FORMAT_ERROR of credit or GST and a NO_RECORD of credit or bank, where the rebuilt result claims a fallback that there was not |
| StoredResults.DishonestGstPayloadFlips | services/gst_verifier.py:38-43 | A concrete PAN_MISMATCH payload scored False live and True when rebuilt |
| Breaker.CommandsComposeToOperations | services/base.py:241-280 | Uninterrupted, the Redis commands of a success, a SERVICE_DOWN record and a probe failure amount to their one-step operations |
| Breaker.CrossingCallsStrandIff | services/base.py:241-280 | A success merged command by command with a SERVICE_DOWN record or a probe failure leaves OPEN without `last_failure` if and only if CLOSED is written before OPEN and the failure is noted before it is deleted |
| Breaker.InterleavedCommandsStrandTheBreaker | services/base.py:241-261 | From any state at the threshold an interleaving of one success and one failure strands the breaker |
| Breaker.StrandedNeedsCrossing | services/base.py:215-280 | However many calls write command by command, each cut off anywhere, the breaker is stranded only if a success crosses a failure in that way or a probe's failure was cut off right after writing OPEN |
| Circuit.CutOffProbeStrands | services/base.py:274-280 | A run after which such a cut-off strands the breaker for good, without any crossing |
| Circuit.StrandedForGoodIffNobodyInFlight | services/base.py:222-239 | A stranded breaker stays stranded in every continuation if and only if no call is in flight |
| Circuit.StrandedStays | services/base.py:50-63 | With nobody in flight every continuation leaves its keys as they are and admits no call |
| Circuit.StrandedLeftIff | services/base.py:241-280 | Exactly the steps that free a stranded breaker: a success, a probe failure or a SERVICE_DOWN of a call in flight; after the timeout it then no longer reads OPEN |
| Circuit.CounterRefinesHistory | services/base.py:250-261 | In every interleaving the live `failure_count` is the length of the latest run of SERVICE_DOWN records with no success and no gap reaching the window |
| Circuit.ClosedMeansBelowThreshold | services/base.py:257-261 | A CLOSED breaker has seen fewer failures in a row than the threshold |
| Circuit.OpensAtThreshold | services/base.py:241-261 | In every interleaving a SERVICE_DOWN opens the breaker exactly when it makes the run of failures reach the threshold; a success closes it, and other answers of an ordinary call touch no key |
| Circuit.OpenBreakerCanRecover | services/base.py:225-237 | In every run of whole operations an OPEN breaker half-opens once the timeout has passed |
| Circuit.AtMostOneProbe | services/base.py:263-272 | While probes finish within the lock TTL and no ordinary call succeeds beside one, at most one probe is in flight |
| Circuit.SecondProbeIff | services/base.py:241-272 | Beside a probe in flight a waiting caller acquires the lock if and only if the TTL has passed since or an ordinary call has succeeded since |
| Circuit.OneProbeIffNoTrespass | services/base.py:241-272 | At most one probe was in flight all along a run if and only if nobody acquired the lock under that condition |
| Circuit.ProbeResolves | services/base.py:103-113 | In any run a probe makes one attempt: success closes the breaker for every later time and ends the run of failures; failure shuts it for exactly the timeout and leaves the run of failures as it was |
| Circuit.ProbeLockLapses | services/base.py:263-272 | A crashed probe blocks the others for at most the lock TTL |
| Circuit.SlowProbeIsJoined | services/base.py:266-271 | A run in which a probe outliving its lock is joined by a second |
| Circuit.OrdinarySuccessFreesTheLock | services/base.py:241-248 | A run in which an ordinary success lets a second probe in beside one still in time |
| BaseService.BaseExternalService.ReadCircuitState | services/base.py:215-239 | Reads the state, moving OPEN to HALF_OPEN exactly when `last_failure` is old enough |
| BaseService.BaseExternalService.NoteSuccess | services/base.py:241-248 | Leaves CLOSED and no other key |
| BaseService.BaseExternalService.NoteServiceDown | services/base.py:250-261 | Counts the failure, renews the window, and opens at the threshold |
| BaseService.BaseExternalService.AcquireHalfOpenProbe | services/base.py:263-272 | Takes the lock exactly when it is free or lapsed |
| BaseService.BaseExternalService.NoteHalfOpenFailure | services/base.py:274-280 | Reopens from now and frees the lock |
| BaseService.BaseExternalService.Call | services/base.py:41-144 | The call leaves the keys, result, attempts and delays that its recursive specification gives |
| BaseService.BaseExternalService.Retry | services/base.py:85-144 | So does its retry loop |
| BaseService.CallProvider | worker/tasks/process_application.py:201-247 | Call and post-processing together, for each of the three clients |
| BaseService.CallGuarantees | services/base.py:81-144 | At most MAX_RETRIES + 1 attempts, going on only after TIMEOUT or SERVICE_DOWN and stopping early only on another answer, `retry_count` one less than the attempts, none when OPEN and at most one when probing |
| LiveAnswers.PayloadArrives | services/base.py:189-200 | With a closed breaker a first answer below 400 hands on its payload and request id unchanged, after one attempt, and leaves the breaker clean |
| LiveAnswers.CallReportsLastAnswer | services/base.py:149-213 | Whatever the breaker and the provider do, the result tells of the last answer its failure by status, its payload and its request id; a call that did not ask reports the source down |
| BaseService.TotalDelayBounds | services/base.py:285-288 | n delays sum to between base·(2^n − 1) and that plus n/2 |
| BaseService.DelaysIncrease | services/base.py:285-288 | With a base of half a second or more each delay exceeds the last |
| BaseService.DefaultDelays | services/base.py:285-288 | The first five delays at the default base, to the millisecond |
| BaseService.JitterInjective | services/base.py:287 | No two of 500 consecutive attempts share their jitter |
| CallInCircuit.CallIsRun | services/base.py:41-144 | A whole call is a run of the shared breaker with the same final keys, so the interleaving theorems are about these calls |
| CallInCircuit.LoopIsRun | services/base.py:85-142 | So is the retry loop from any attempt on, one tick and one attempt at a time |
| Worker.Database.ClaimApplication | worker/tasks/process_application.py:126-198 | Conditional claim and its audit entry in one transaction, rolled back when decryption raises |
| Worker.Database.StoreExternalResult | worker/tasks/process_application.py:352-387 | Inserts redacted row and FETCH entry, or raises on the unique key and changes nothing |
| Worker.Database.StoreProcessingResults | worker/tasks/process_application.py:292-349 | Writes decision, status and entries unless the application is terminal; raises exactly when its row is missing |
| Worker.Database.MarkManualReviewAfterSystemError | worker/tasks/process_application.py:413-431 | Marks MANUAL_REVIEW whatever the status, keeping the confidence |
| Worker.SealedDataDecides | worker/tasks/process_application.py:480-487 | The dictionary passed to the decision loses nothing of the sealed data that the decision depends on |
| WholeTask.ProcessApplication | worker/tasks/process_application.py:33-66 | The task as a procedure leaves exactly the specified tables, whether rows are there already, anything raises or the claim is refused |
| WholeTask.StepsMakeTheTask | worker/tasks/process_application.py:77-123 | In any world, the steps of a worker that nobody disturbs do what the whole task does |
| WholeTask.FreshApplicationProcessed | worker/tasks/process_application.py:77-123 | For an application nobody has fetched for: the three rows, the decided row and the whole stretch of the log, the decision being that of the three results and the sealed data |
| WholeTask.StoredRowsDecide | worker/tasks/process_application.py:257-267 | With all three rows there no provider answer matters, and the rows alone decide |
| WholeTask.FailedTaskIsMarked | worker/tasks/process_application.py:55-61 | If post-processing raises for any source, the application ends in review with the error as last entry |
| WholeTask.ProcessedIsTerminal | worker/tasks/process_application.py:33-66 | A task that claims its application leaves it COMPLETED or in MANUAL_REVIEW |
| WholeTask.TaskIsIdempotent | worker/tasks/process_application.py:34-37 | Run to its end, the task changes nothing when run again at any time with any provider answers; a locked application is left as it is |
| WholeTask.RowOfAnother | worker/tasks/process_application.py:269-278 | A row committed by another worker meanwhile is adopted, and one committed after the check makes the insert raise |
| WholeTask.AbortedIsMarked | worker/tasks/process_application.py:44-66 | A task cut short anywhere, by the timeout or an exception, marks its application with that error, keeping the confidence |
| Schema.DecisionEntryReplays | worker/tasks/process_application.py:324-337 | The sanitized decision entry still determines status, decision and confidence |
| Schema.GrammaticalAt | worker/tasks/process_application.py:184-190 | In a grammatical log each entry is allowed after everything before it |
| IntakeTheorems.IntakeLinearizes | api/routes/applications.py:32-110 | Concurrent `apply_loan` runs with cache expiry and crashes linearize to an atomic map: absent key 201, same hash 200 with the stored answer, other hash 409; the map is the committed records and every answer given is the one of that history |
| IntakeTheorems.LinearizationPoint | api/routes/applications.py:32-110 | Whoever takes whatever step, history grows only when a request takes effect by a step of its own, once, between arrival and answer, and a request changes only by its own steps |
| IntakeTheorems.OneApplicationPerKey | api/routes/applications.py:95-105 | A key gets 201 at most once, all its successes name one application and one payload hash, and the unresolved-conflict branch is never taken |
| IntakeTheorems.CommittedTogether | api/routes/applications.py:62-107 | Committed records, applications and outbox rows are in bijection, and every cached value is the durable record |
| ApplyLoan.LoanDesk.ApplyLoan | api/routes/applications.py:32-110 | The procedure with its pending rows, conflict and rollback leaves exactly the specified tables, cache and answer, whether or not a rival commits first and the cache is up |
| ApplyLoan.StepsMakeTheCall | api/routes/applications.py:41-110 | One call is the sequence of the machine's intake steps |
| ApplyLoan.CallRefinesMap | api/routes/applications.py:49-110 | One call answers as the atomic map does at the moment after its rival |
| ApplyLoan.CallStaysSound | api/routes/applications.py:62-108 | One call keeps the bijection of records, applications and messages and the truth of the cache |
| OutboxTheorems.OldestIsOldest | worker/outbox_poller.py:22-30 | A batch is at most `limit` rows in order, eligible and unlocked, and passes over such a row only when full of older ones |
| OutboxTheorems.PollersCoordinate | worker/outbox_poller.py:20-46 | In every run batches held by different pollers are disjoint and every PROCESSED message was sent |
| OutboxTheorems.CommitLowersEligible | worker/outbox_poller.py:38-46 | A commit lowers the number of eligible rows by exactly the number of accepted messages |
| OutboxTheorems.CommitMarksOutcomes | worker/outbox_poller.py:31-46 | In every run a commit marks what the broker took PROCESSED and what it refused FAILED, and touches no other row |
| OutboxTheorems.ProcessedIsFinal | worker/outbox_poller.py:25 | A PROCESSED row stays so and is in no batch ever again |
| OutboxTheorems.SentIsCommitted | worker/outbox_poller.py:33-37 | Only committed applications are ever sent |
| OutboxTheorems.WorkIsSent | worker/outbox_poller.py:33-37 | No worker ever has a task that was not sent |
| OutboxTheorems.OutboxStore.PollOnce | worker/outbox_poller.py:17-46 | Selects, sends and settles the oldest batch past other pollers' locks; eligible rows fall by exactly the returned count |
| OutboxTheorems.OutboxStore.SendBatch | worker/outbox_poller.py:31-45 | The loop settles each row by its own send, sends in order, and counts the deliveries |
| OutboxTheorems.PollOnceIsRun | worker/outbox_poller.py:17-46 | The loop is a run of select, sends and commit amid other pollers |
| AuditTheorems.AuditLogReplays | worker/tasks/process_application.py:142-190 | In every run status, decision and confidence are the left fold of the application's audit entries, and COMPLETED goes with APPROVE or DECLINE, MANUAL_REVIEW with NEEDS_REVIEW, the rest with none |
| AuditTheorems.AuditLogIsGrammatical | worker/tasks/process_application.py:308-337 | Each decision entry follows a start and exactly one fetch from each source, nothing starts or is decided after the first terminal entry, and no output snapshot holds personal data |
| AuditTheorems.FetchEntriesMatchRows | models/external_data.py:25 | FETCH entries and stored external rows match one to one |
| AuditEntries.FetchTellsRow | worker/tasks/process_application.py:362-387 | In every run a FETCH entry has the failure of its row, succeeds exactly without one, and shows as payload the row's own, sanitized |
| AuditEntries.ReviewFollowsDecision | worker/tasks/process_application.py:339-349 | In every run a NEEDS_REVIEW decision, and no other, is followed at once by its review entry, OVERRIDE when `requires_manual_review` and ROUTING otherwise |
| AuditEntries.StartsAndErrorsRead | worker/tasks/process_application.py:184-190 | In every run start and error entries hold exactly their fixed words |
| AuditEntries.DecisionEntryReads | engine/decision.py:23-26 | A decision entry holds the whole output field by field, nothing banded or marked |
| AuditEntries.FetchEntryReads | worker/tasks/process_application.py:373-387 | A fetch entry holds success, retries and request id, and both payloads redacted and then sanitized |
| AuditEntries.ShortEntriesRead | worker/tasks/process_application.py:339-349 | The words of start, review and error entries |
| AuditTheorems.DecidedAtMostOnce | worker/tasks/process_application.py:301-337 | However often a task is sent and redelivered, an application gets at most one decision entry |
| AuditTheorems.StatusNeverGoesBack | worker/tasks/process_application.py:131-143 | No step moves a status back along PENDING, PROCESSING, COMPLETED, MANUAL_REVIEW, and the log only grows |
| AgreementTheorems.DecidersAgree | worker/tasks/process_application.py:250-289 | In every interleaving of claims, reclaims, crashes and redeliveries any two workers that decide one application hold equal outputs, if failing payloads are honest |
| AgreementTheorems.RecordedDecisionIsVerdict | worker/tasks/process_application.py:390-410 | The decision on record is the one that the stored rows and the whole sealed dictionary determine |
| AgreementTheorems.DeciderReachesVerdict | engine/decision.py:29-97 | A worker's mixture of fetched and rebuilt results leads to that same verdict |
| TimingTheorems.ClaimsAreSpaced | worker/tasks/process_application.py:129-145 | Successive claims of one application are more than the lock timeout apart |
| TimingTheorems.MutualExclusion | worker/tasks/process_application.py:41-42 | If claimants leave within a deadline no longer than the lock timeout, at most one worker is ever inside an application |
| TimingTheorems.CompletedChangesIffMarked | worker/tasks/process_application.py:413-420 | A step changes a COMPLETED row if and only if it is the error-marking of a failed worker holding that application |
| TimingTheorems.CompletedStaysIffNeverMarked | worker/tasks/process_application.py:413-420 | Over any continuation a COMPLETED row stays as it is if and only if no failed worker ever marks its application |
| TimingTheorems.CompletedIsFinal | worker/tasks/process_application.py:490-491 | If also only claimants mark errors, a COMPLETED row never changes |
| Witness.CompletedCanBecomeManualReview | worker/tasks/process_application.py:413-420 | A run in which a COMPLETED application with decision APPROVE becomes MANUAL_REVIEW by a worker that lost its claim |
| Witness.RedeliveryOverturnsApproval | worker/tasks/process_application.py:34-66 | The same with every claimant within the 60 s task timeout throughout: a redelivered worker fails before it claims and marks the error |
| Witness.DishonestPayloadSplitsWorkers | worker/tasks/process_application.py:390-400 | A run in which two workers hold APPROVE and NEEDS_REVIEW for one application at the same moment, so honest payloads are needed for agreement |
| Witness.CleanApplicantIsApproved | engine/decision.py:29-97 | The concrete applicant of that run is approved |

## Left out

- HTTP, FastAPI, Celery, SQLAlchemy, Redis and Postgres internals: what remains is atomic transactions, unique keys, row locks with skip-locked, SET NX, INCR and expiry.
- Encryption: sealed user data either opens to what was sealed or raises; AES-GCM and the PAN hash are not part of this model. The payload hash is taken as injective.
- API keys, logging, metrics, migrations, health servers, the status, decision and explanation routes: plumbing and formatting.
- Mock providers: kept only as the statuses and fields by which they answer a declared failure mode.
- AuditTheorems.AuditLogIsGrammatical: says nothing of `fallback_reason`, where the source writes the text of an exception unsanitized, because that column is not modelled.
- Factor and penalty texts: the rule that fired and the reasons are kept as tags, the wording and decimal formatting are not.
- Audit columns that no property needs: input snapshots, `audit_safe_features`, latency, rule version, actor and fallback reason. (That summary reads `loan_amount` as a number and would raise on one that the API never seals.)
- IEEE floats, NaN and infinities: arithmetic is exact, so nothing is claimed about ties in rounding; the stored Numeric(3, 2) confidence is taken as exact.
- Ordering by `created_at`: outbox and audit order is append order, since `now()` is the start of a transaction and need not follow commit order.
- Eventual completion: not claimed. A redelivery inside the lock timeout is turned away and the outbox does not send again.
- Commits that succeed although an error is reported, and `UUID` parsing of malformed identifiers.
- `monotonic()` in the breaker is one clock shared by all callers, in whole ticks; services constructed without Redis are not modelled.
- Requests that carry no `_request_hash` or unparsable cache text: cached values are always those the API wrote.
- Reading of environment settings: they are parameters, the same for all actors of a run.
- Frames, SlotFrame and the many `…Keeps` lemmas are steps of proofs and have no row of their own.
