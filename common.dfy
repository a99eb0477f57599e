/**
 * Values shared by the background worker, the in-page collector, the popup
 * and the options page of the proxy domain tester.
 */
module Common {

  datatype Option<+T> = None | Some(value: T) {
    function GetOr(default: T): T {
      match this
      case Some(v) => v
      case None => default
    }
  }

  /**
   * A loosely typed JSON value as read back from extension storage:
   * a key may be missing, null, a number, a string or a boolean.
   */
  datatype Value = Absent | Null | Num(n: int) | Str(s: string) | Bool(b: bool)

  /** JavaScript truthiness of a stored value. */
  predicate Truthy(v: Value) {
    match v
    case Absent => false
    case Null => false
    case Num(n) => n != 0
    case Str(s) => s != ""
    case Bool(b) => b
  }

  /**
   * The status of one domain: the numeric HTTP status code of a response,
   * or a string token ("pending", "timeout", "error", or an error name).
   */
  datatype Status = Code(code: int) | Token(token: string)

  const Pending: Status := Token("pending")
  const TimedOut: Status := Token("timeout")

  /** The stored proxy configuration (the `proxyConfig` record). */
  datatype Config = Config(
    proxyString: Value,
    timeoutMs: Value,
    proxyCollectMs: Value,
    disableCache: Value)

  const DefaultTimeoutMs: int := 5000
  const DefaultCollectMs: int := 3000
  const DefaultConfig: Config := Config(Str(""), Num(DefaultTimeoutMs), Num(DefaultCollectMs), Bool(true))

  /** The measurements reported for one third-party domain. */
  datatype Measurement = Measurement(
    status: Status,
    duration: Option<int>,     // absent when never measured
    size: Option<int>,         // null when not a number
    speedKBps: Option<nat>)    // tenths of KB/s; null when not a number

  datatype TestItem = TestItem(domain: string, url: string, direct: Measurement)

  /** The `status` field of the stored results record. */
  datatype RunStatus = Running | Done | Failed | Stopped

  /** The `results` record kept in local storage. */
  datatype Results = Results(status: RunStatus, page: string, tests: seq<TestItem>)

  /**
   * Round-half-up of size / 1024 * 10, that is the number of tenths of a
   * kilobyte that `Math.round(size / 1024 * 10) / 10` displays.
   */
  function KiloTenths(size: nat): (r: nat)
    ensures 1024 * r <= 10 * size + 512 < 1024 * (r + 1)
  {
    (10 * size + 512) / 1024
  }

  /**
   * Throughput in tenths of KB/s: `Math.round((size/1024)/(duration/1000)*10)`,
   * computed exactly on integers (round half up).
   */
  function SpeedTenths(size: int, duration: int): (r: nat)
    requires size > 0 && duration > 0
    // r / 10 is the true KB/s rate rounded to the nearest tenth, halves upward
    ensures 1024 * duration * r <= 10000 * size + 512 * duration
    ensures 10000 * size + 512 * duration < 1024 * duration * (r + 1)
  {
    DivBounds(10000 * size + 512 * duration, 1024 * duration);
    (10000 * size + 512 * duration) / (1024 * duration)
  }

  lemma DivBounds(a: int, b: int)
    requires a >= 0 && b > 0
    ensures a / b >= 0
    ensures b * (a / b) <= a < b * (a / b + 1)
  {
  }

  /** Throughput never decreases when more bytes arrive in the same time. */
  lemma SpeedMonotoneInSize(s1: int, s2: int, d: int)
    requires 0 < s1 <= s2 && d > 0
    ensures SpeedTenths(s1, d) <= SpeedTenths(s2, d)
  {
    var r1, r2 := SpeedTenths(s1, d), SpeedTenths(s2, d);
    assert 1024 * d * r1 < 1024 * d * (r2 + 1);
    MulCancel(1024 * d, r1, r2 + 1);
  }

  lemma MulCancel(k: int, a: int, b: int)
    requires k > 0 && k * a < k * b
    ensures a < b
  {
    if a >= b {
      MulMonotone(k, b, a);
    }
  }

  lemma MulMonotone(k: int, a: int, b: int)
    requires k >= 0 && a <= b
    ensures k * a <= k * b
  {
  }
}
