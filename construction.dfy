/** NewClient: the defaults, the option loop, the shared transport, and the
    circuit-breaker configuration the client registers for its command name. */
module Construction {
  import opened GoInt
  import opened ClientState
  import opened Options

  /** The breaker library's per-command configuration; both durations are
      whole milliseconds. */
  datatype CommandConfig = CommandConfig(
    timeout: Int64,
    maxConcurrentRequests: Int64,
    requestVolumeThreshold: Int64,
    sleepWindow: Int64,
    errorPercentThreshold: Int64)

  /** The configuration NewClient registers: the two durations converted from
      nanoseconds to milliseconds by Go's truncating `/ 1e6`, the three
      counts passed through. */
  function ToCommandConfig(s: Settings): (cc: CommandConfig)
    ensures -NANOS_PER_MILLI < s.httpTimeout - cc.timeout * NANOS_PER_MILLI < NANOS_PER_MILLI
    ensures -NANOS_PER_MILLI < s.sleepWindow - cc.sleepWindow * NANOS_PER_MILLI < NANOS_PER_MILLI
    ensures cc.timeout == MillisOf(s.httpTimeout) && cc.sleepWindow == MillisOf(s.sleepWindow)
    ensures cc.maxConcurrentRequests == s.maxConcurrentReq
    ensures cc.requestVolumeThreshold == s.reqVolThreshold
    ensures cc.errorPercentThreshold == s.errorPercentThreshold
  {
    CommandConfig(
      MillisOf(s.httpTimeout),
      s.maxConcurrentReq,
      s.reqVolThreshold,
      MillisOf(s.sleepWindow),
      s.errorPercentThreshold)
  }

  /** With no options the breaker gets a 15000 ms timeout, 100 concurrent
      requests, a volume threshold of 20, a 5000 ms sleep window and a 50%
      error threshold. */
  lemma DefaultCommandConfig()
    ensures ToCommandConfig(ApplyAll(Defaults(), [])) == CommandConfig(15000, 100, 20, 5000, 50)
  {
  }

  /** A timeout given in whole milliseconds reaches the breaker unchanged,
      whatever options precede it and whatever non-timeout options follow it. */
  lemma {:induction false} WholeMillisTimeoutReachesBreaker(before: seq<Option>, ms: int, after: seq<Option>)
    requires MIN_INT64 <= ms * NANOS_PER_MILLI <= MAX_INT64
    requires forall j :: 0 <= j < |after| ==> Target(after[j]) != HTTPTimeout
    ensures ToCommandConfig(ApplyAll(Defaults(), before + [WithHTTPTimeout(ms * NANOS_PER_MILLI)] + after)).timeout == ms
  {
    var opts := before + [WithHTTPTimeout(ms * NANOS_PER_MILLI)] + after;
    var i := |before|;
    assert opts[i] == WithHTTPTimeout(ms * NANOS_PER_MILLI);
    assert forall j :: i < j < |opts| ==> opts[j] == after[j - i - 1];
    LastTouchDecides(Defaults(), opts, HTTPTimeout, i);
    MillisOfWholeMillis(ms);
  }

  /** `NewClient(opts...)`. Starts from the defaults, runs every option on the
      client in argument order, installs the shared transport, and returns
      the client together with the configuration it registers under its
      name. `name` stands for the generated unique id and `shared` for the
      package's shared `*http.Client`. */
  method NewClient(name: string, shared: HttpClient, opts: seq<Option>) returns (c: Client, registered: CommandConfig)
    ensures fresh(c)
    ensures c.name == name && c.client == shared
    ensures c.Snapshot() == ApplyAll(Defaults(), opts)
    ensures registered == ToCommandConfig(c.Snapshot())
  {
    c := new Client(name);
    for i := 0 to |opts|
      invariant c.name == name && c.client == null
      invariant c.Snapshot() == ApplyAll(Defaults(), opts[..i])
    {
      Apply(opts[i], c);
      assert opts[..i + 1][..i] == opts[..i];
    }
    assert opts[..|opts|] == opts;
    c.client := shared;
    registered := ToCommandConfig(c.Snapshot());
  }
}
