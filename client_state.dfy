/** The `Client` struct of the httpclient package and its documented defaults. */
module ClientState {
  import opened GoInt

  const DEFAULT_HTTP_TIMEOUT: Int64 := 15            // seconds
  const DEFAULT_MAX_CONCURRENT_REQUEST: Int64 := 100
  const DEFAULT_REQUEST_VOLUME_THRESHOLD: Int64 := 20
  const DEFAULT_SLEEP_WINDOW: Int64 := 5             // seconds
  const DEFAULT_ERROR_PERCENT_THRESHOLD: Int64 := 50

  /** `*http.Client`: the transport the client sends through. Only its
      identity matters here. */
  class HttpClient {
  }

  /** The five configurable fields of a Client, as one value. */
  datatype Settings = Settings(
    httpTimeout: Duration,
    maxConcurrentReq: Int64,
    reqVolThreshold: Int64,
    sleepWindow: Duration,
    errorPercentThreshold: Int64)

  /** Names of the configurable fields, so that options can say which one they touch. */
  datatype Field = HTTPTimeout | MaxConcurrentReq | ReqVolThreshold | SleepWindow | ErrorPercentThreshold

  /** Reads one configurable field. */
  function FieldValue(s: Settings, f: Field): Int64 {
    match f
    case HTTPTimeout => s.httpTimeout
    case MaxConcurrentReq => s.maxConcurrentReq
    case ReqVolThreshold => s.reqVolThreshold
    case SleepWindow => s.sleepWindow
    case ErrorPercentThreshold => s.errorPercentThreshold
  }

  /** The settings of the composite literal in NewClient, before any option. */
  function Defaults(): (s: Settings)
    ensures s.httpTimeout == 15 * SECOND && s.sleepWindow == 5 * SECOND
    ensures s.maxConcurrentReq == 100 && s.reqVolThreshold == 20 && s.errorPercentThreshold == 50
  {
    Settings(
      DEFAULT_HTTP_TIMEOUT * SECOND,
      DEFAULT_MAX_CONCURRENT_REQUEST,
      DEFAULT_REQUEST_VOLUME_THRESHOLD,
      DEFAULT_SLEEP_WINDOW * SECOND,
      DEFAULT_ERROR_PERCENT_THRESHOLD)
  }

  /** The httpclient `Client`. `name` is the command name the client
      registers its breaker configuration under; `client` is nil until
      NewClient has applied every option. */
  class Client {
    const name: string
    var client: HttpClient?
    var httpTimeout: Duration
    var maxConcurrentReq: Int64
    var reqVolThreshold: Int64
    var sleepWindow: Duration
    var errorPercentThreshold: Int64

    /** The configurable fields of this client, as a value. */
    function Snapshot(): Settings
      reads this
    {
      Settings(httpTimeout, maxConcurrentReq, reqVolThreshold, sleepWindow, errorPercentThreshold)
    }

    /** The composite literal of NewClient: the given name, the defaults, and
        no transport yet. */
    constructor (name: string)
      ensures this.name == name && client == null
      ensures Snapshot() == Defaults()
    {
      this.name := name;
      client := null;
      httpTimeout := DEFAULT_HTTP_TIMEOUT * SECOND;
      maxConcurrentReq := DEFAULT_MAX_CONCURRENT_REQUEST;
      reqVolThreshold := DEFAULT_REQUEST_VOLUME_THRESHOLD;
      sleepWindow := DEFAULT_SLEEP_WINDOW * SECOND;
      errorPercentThreshold := DEFAULT_ERROR_PERCENT_THRESHOLD;
    }
  }
}
