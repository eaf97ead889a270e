/** The records the backend stores (package models) and the small value types
    every other module returns: Option, the backend's errors, and Result. */
module Models {

  datatype Option<+T> = None | Some(value: T)

  /** One constructor per failure the backend distinguishes. */
  datatype Error =
    | NotEnoughPings
    | TransportFailure
    | AllDownloadConnectionsFailed
    | AllAlternativeDownloadsFailed
    | AllUploadConnectionsFailed
    | AllAlternativeUploadsFailed
    | ResultNotFound
    | UserNotFound
  {
    /** The text the backend puts in the error it returns. Transport failures
        are one value here, with a fixed text in place of whatever the HTTP or
        socket layer reported. */
    function Message(): string {
      match this
      case NotEnoughPings => "not enough successful pings"
      case TransportFailure => "transport error"
      case AllDownloadConnectionsFailed => "all download connections failed"
      case AllAlternativeDownloadsFailed => "all alternative download tests failed"
      case AllUploadConnectionsFailed => "all upload connections failed"
      case AllAlternativeUploadsFailed => "all alternative upload tests failed"
      case ResultNotFound => "result not found"
      case UserNotFound => "user not found"
    }
  }

  datatype Result<+T> = Ok(value: T) | Err(error: Error)

  /** A Go-style `(float64, error)` return agrees with the outcome `r`: the value
      and no error on success, zero together with the error otherwise. */
  predicate Reports(value: real, err: Option<Error>, r: Result<real>) {
    match r
    case Ok(v) => err == None && value == v
    case Err(e) => err == Some(e) && value == 0.0
  }

  /** A persisted speed test. Speeds are in Mbps, ping and jitter as the
      latency estimator reports them; `createdAt` is an instant in nanoseconds. */
  datatype SpeedTestResult = SpeedTestResult(
    id: string,
    userID: string,
    downloadSpeed: real,
    uploadSpeed: real,
    ping: real,
    jitter: real,
    isp: string,
    ipAddress: string,
    country: string,
    region: string,
    createdAt: int)

  datatype UserProfile = UserProfile(
    id: string,
    email: string,
    name: string,
    createdAt: int,
    updatedAt: int)
}
