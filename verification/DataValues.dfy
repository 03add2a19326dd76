/** Status codes, quality flags and sampled values, as they travel in data notifications. */
module DataValues {

  datatype Severity = GoodSeverity | UncertainSeverity | BadSeverity

  datatype StatusCode = StatusCode(severity: Severity, code: nat) {
    predicate IsBad() { severity.BadSeverity? }
  }

  const GOOD := StatusCode(GoodSeverity, 0)
  const BAD := StatusCode(BadSeverity, 0)
  const BAD_DISCONNECTED := StatusCode(BadSeverity, 7)

  // Quality flags of `scada::Qualifier`.
  const OFFLINE: bv32 := 0x0020
  const FAILED: bv32 := 0x0040

  type Time = int
  const NULL_TIME: Time := 0

  /** The payload is an uninterpreted integer: the protocol only compares it. */
  datatype DataValue = DataValue(
    value: int, qualifier: bv32, sourceTime: Time, serverTime: Time, status: StatusCode)
  {
    predicate Failed() { qualifier & FAILED != 0 }
  }

  const NO_VALUE := DataValue(0, 0, NULL_TIME, NULL_TIME, GOOD)

  /** Whether `next` supersedes `current`: the later source time wins, then the later server time. */
  predicate IsUpdate(current: DataValue, next: DataValue) {
    || current.sourceTime == NULL_TIME
    || current.sourceTime < next.sourceTime
    || (current.sourceTime == next.sourceTime && current.serverTime <= next.serverTime)
  }

  /** `Qualifier::Update(0, add)` on a cached value, together with its status. */
  function Requalified(v: DataValue, status: StatusCode, add: bv32): DataValue {
    v.(status := status, qualifier := v.qualifier | add)
  }
}
