/** `FailureType` and `ServiceResult` (services/__init__.py). */
module ServiceResults {
  import opened Common
  import opened Json

  datatype FailureType =
    | SUCCESS | TIMEOUT | STALE_DATA | SERVICE_DOWN | PARTIAL_DATA | FORMAT_ERROR | PAN_MISMATCH | NO_RECORD

  /** The contents of a ServiceResult; `latency_ms` is left out. */
  datatype ResultValue = ResultValue(
    success: bool,
    data: Option<Dict>,
    failure: Option<FailureType>,
    raw: Option<Dict>,
    fallbackUsed: bool,
    retryCount: nat,
    requestId: Option<Json>)

  /** The mutable dataclass the provider clients overwrite in place. */
  class ServiceResult {
    var success: bool
    var data: Option<Dict>
    var failure: Option<FailureType>
    var raw: Option<Dict>
    var fallbackUsed: bool
    var retryCount: nat
    var requestId: Option<Json>

    function Value(): ResultValue
      reads this
    {
      ResultValue(success, data, failure, raw, fallbackUsed, retryCount, requestId)
    }

    constructor (v: ResultValue)
      ensures Value() == v
    {
      success, data, failure, raw := v.success, v.data, v.failure, v.raw;
      fallbackUsed, retryCount, requestId := v.fallbackUsed, v.retryCount, v.requestId;
    }
  }

  /** `if d and ...` */
  predicate Present(d: Option<Dict>) {
    d.Some? && d.value != map[]
  }

  predicate Has(d: Option<Dict>, key: string) {
    d.Some? && key in d.value
  }

  predicate Retryable(f: Option<FailureType>) {
    f == Some(TIMEOUT) || f == Some(SERVICE_DOWN)
  }
}
