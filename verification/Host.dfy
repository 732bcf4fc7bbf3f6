/**
 The parts of the Python runtime the pipeline leans on, kept as parameters: `round(x, 2)`, `float(str)`,
 `int(str)` and `datetime.fromisoformat`. Nothing is assumed of them except `Faithful`.
 */
module Host {
  import opened Common
  import opened Json

  datatype Host = Host(
    round: real -> real,
    parseFloat: string -> Option<real>,
    parseInt: string -> Option<int>,
    parseTime: string -> Option<int>)

  const MARK := "***REDACTED***"

  predicate Hundredth(x: real) {
    (x * 100.0).Floor as real == x * 100.0
  }

  /** The texts the audit sanitizer can write in place of a value. */
  predicate IsLabel(s: string) {
    s == MARK || s == "UNKNOWN" || IsIncomeBand(s) || IsAmountBand(s)
  }

  predicate IsIncomeBand(s: string) {
    s == "0-25K" || s == "25K-50K" || s == "50K-1L" || s == "1L-2L" || s == "2L+"
  }

  predicate IsAmountBand(s: string) {
    s == "0-1L" || s == "1L-5L" || s == "5L-10L" || s == "10L+"
  }

  /** `round` is monotone and fixes multiples of 0.01. */
  ghost predicate RoundsToHundredths(h: Host) {
    && (forall x: real, y: real :: x <= y ==> h.round(x) <= h.round(y))
    && (forall x: real :: Hundredth(x) ==> h.round(x) == x)
  }

  /** `float` rejects every label. */
  ghost predicate RejectsLabels(h: Host) {
    forall s: string :: IsLabel(s) ==> h.parseFloat(s) == None
  }

  function Truncate(x: real): int {
    if x >= 0.0 then x.Floor else -((-x).Floor)
  }

  /** `float(value)`. */
  function ToFloat(h: Host, j: Json): Result<real> {
    match j
    case Num(n) => Ok(n)
    case Bool(b) => Ok(if b then 1.0 else 0.0)
    case Str(s) => if h.parseFloat(s).Some? then Ok(h.parseFloat(s).value) else Raised
    case _ => Raised
  }

  /** `int(value)`. */
  function ToInt(h: Host, j: Json): Result<int> {
    match j
    case Num(n) => Ok(Truncate(n))
    case Bool(b) => Ok(if b then 1 else 0)
    case Str(s) => if h.parseInt(s).Some? then Ok(h.parseInt(s).value) else Raised
    case _ => Raised
  }

  /** Round half up, one of the roundings `RoundsToHundredths` admits. */
  function HalfUp(x: real): real {
    (x * 100.0 + 0.5).Floor as real / 100.0
  }

  lemma HalfUpIsMonotone(x: real, y: real)
    requires x <= y
    ensures HalfUp(x) <= HalfUp(y)
  {
    var a, b := (x * 100.0 + 0.5).Floor, (y * 100.0 + 0.5).Floor;
    assert x * 100.0 + 0.5 <= y * 100.0 + 0.5;
    assert a <= b;
  }

  lemma HalfUpFixesHundredths(x: real)
    requires Hundredth(x)
    ensures HalfUp(x) == x
  {
    var k := (x * 100.0).Floor;
    assert (x * 100.0 + 0.5).Floor == k;
  }

  /** The assumptions on the runtime can be met. */
  lemma FaithfulHostsExist() returns (h: Host)
    ensures RoundsToHundredths(h) && RejectsLabels(h)
  {
    h := Host(x => HalfUp(x), s => None, s => None, s => None);
    forall x: real, y: real | x <= y ensures h.round(x) <= h.round(y) { HalfUpIsMonotone(x, y); }
    forall x: real | Hundredth(x) ensures h.round(x) == x { HalfUpFixesHundredths(x); }
  }
}
