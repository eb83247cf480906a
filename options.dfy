/** The functional options of the httpclient package. Each Go `With…`
    constructor returns a closure that overwrites one field of the `*Client`
    it is given. Here an `Option` is the value that closure captured, `Apply`
    runs it on a Client in place, and `ApplyOption` / `ApplyAll` are the same
    effects on `Settings` values, against which `Apply` and NewClient's
    option loop are proved. */
module Options {
  import opened GoInt
  import opened ClientState

  /** One functional option, named after the constructor that makes it. */
  datatype Option =
    | WithHTTPTimeout(timeout: Duration)
    | WithMaxConcurrentRequest(max: Int64)
    | WithRequestVolumeThreshold(vol: Int64)
    | WithSleepWindow(sleepWindow: Duration)
    | WithErrorPercentThreshold(threshold: Int64)

  /** The one field an option writes. */
  function Target(o: Option): Field {
    match o
    case WithHTTPTimeout(_) => HTTPTimeout
    case WithMaxConcurrentRequest(_) => MaxConcurrentReq
    case WithRequestVolumeThreshold(_) => ReqVolThreshold
    case WithSleepWindow(_) => SleepWindow
    case WithErrorPercentThreshold(_) => ErrorPercentThreshold
  }

  /** The value an option writes into its field. */
  function Value(o: Option): Int64 {
    match o
    case WithHTTPTimeout(t) => t
    case WithMaxConcurrentRequest(m) => m
    case WithRequestVolumeThreshold(v) => v
    case WithSleepWindow(w) => w
    case WithErrorPercentThreshold(p) => p
  }

  /** The effect of one option on the settings: its own field takes the
      option's value and every other field keeps its value. */
  function ApplyOption(s: Settings, o: Option): (r: Settings)
    ensures forall f :: FieldValue(r, f) == if f == Target(o) then Value(o) else FieldValue(s, f)
  {
    match o
    case WithHTTPTimeout(t) => s.(httpTimeout := t)
    case WithMaxConcurrentRequest(m) => s.(maxConcurrentReq := m)
    case WithRequestVolumeThreshold(v) => s.(reqVolThreshold := v)
    case WithSleepWindow(w) => s.(sleepWindow := w)
    case WithErrorPercentThreshold(p) => s.(errorPercentThreshold := p)
  }

  /** The value of field `f` after `opts`: that of the last option in `opts`
      that targets `f`, or `d` when none does. */
  function LastValue(opts: seq<Option>, f: Field, d: Int64): Int64
  {
    if opts == [] then d
    else if Target(opts[|opts| - 1]) == f then Value(opts[|opts| - 1])
    else LastValue(opts[..|opts| - 1], f, d)
  }

  /** Options applied left to right, as the `range opts` loop does. Each field
      ends with the value of the last option that targets it and keeps its
      starting value when no option does. */
  function ApplyAll(s: Settings, opts: seq<Option>): (r: Settings)
    ensures forall f :: FieldValue(r, f) == LastValue(opts, f, FieldValue(s, f))
    decreases |opts|
  {
    if opts == [] then s
    else ApplyOption(ApplyAll(s, opts[..|opts| - 1]), opts[|opts| - 1])
  }

  /** Applying an option twice is the same as applying it once. */
  lemma ApplyIdempotent(s: Settings, o: Option)
    ensures ApplyOption(ApplyOption(s, o), o) == ApplyOption(s, o)
  {
  }

  /** Options that target different fields commute. */
  lemma ApplyCommute(s: Settings, a: Option, b: Option)
    requires Target(a) != Target(b)
    ensures ApplyOption(ApplyOption(s, a), b) == ApplyOption(ApplyOption(s, b), a)
  {
  }

  /** Of two options on the same field, the later one decides. */
  lemma ApplyLaterWins(s: Settings, a: Option, b: Option)
    requires Target(a) == Target(b)
    ensures ApplyOption(ApplyOption(s, a), b) == ApplyOption(s, b)
  {
  }

  /** Applying `a ++ b` is applying `a`, then `b` to the result. */
  lemma {:induction false} ApplyAllAppend(s: Settings, a: seq<Option>, b: seq<Option>)
    ensures ApplyAll(s, a + b) == ApplyAll(ApplyAll(s, a), b)
    decreases |b|
  {
    if b == [] {
      assert a + b == a;
    } else {
      var n := |b| - 1;
      assert (a + b)[..|a + b| - 1] == a + b[..n];
      assert (a + b)[|a + b| - 1] == b[n];
      ApplyAllAppend(s, a, b[..n]);
    }
  }

  /** A field no option targets keeps its starting value. */
  lemma {:induction false} UntouchedFieldKeepsValue(s: Settings, opts: seq<Option>, f: Field)
    requires forall i :: 0 <= i < |opts| ==> Target(opts[i]) != f
    ensures FieldValue(ApplyAll(s, opts), f) == FieldValue(s, f)
    decreases |opts|
  {
    if opts != [] {
      var n := |opts| - 1;
      assert forall i :: 0 <= i < n ==> opts[..n][i] == opts[i];
      UntouchedFieldKeepsValue(s, opts[..n], f);
    }
  }

  /** The last option that targets a field decides that field's value. */
  lemma {:induction false} LastTouchDecides(s: Settings, opts: seq<Option>, f: Field, i: nat)
    requires i < |opts| && Target(opts[i]) == f
    requires forall j :: i < j < |opts| ==> Target(opts[j]) != f
    ensures FieldValue(ApplyAll(s, opts), f) == Value(opts[i])
    decreases |opts|
  {
    var n := |opts| - 1;
    if i < n {
      assert forall j :: i < j < n ==> opts[..n][j] == opts[j];
      LastTouchDecides(s, opts[..n], f, i);
    }
  }

  /** The closure of WithHTTPTimeout: overwrites `httpTimeout` only. */
  method SetHTTPTimeout(c: Client, timeout: Duration)
    modifies c
    ensures c.Snapshot() == old(c.Snapshot()).(httpTimeout := timeout)
    ensures c.client == old(c.client)
  {
    c.httpTimeout := timeout;
  }

  /** The closure of WithMaxConcurrentRequest: overwrites `maxConcurrentReq` only. */
  method SetMaxConcurrentRequest(c: Client, max: Int64)
    modifies c
    ensures c.Snapshot() == old(c.Snapshot()).(maxConcurrentReq := max)
    ensures c.client == old(c.client)
  {
    c.maxConcurrentReq := max;
  }

  /** The closure of WithRequestVolumeThreshold: overwrites `reqVolThreshold` only. */
  method SetRequestVolumeThreshold(c: Client, vol: Int64)
    modifies c
    ensures c.Snapshot() == old(c.Snapshot()).(reqVolThreshold := vol)
    ensures c.client == old(c.client)
  {
    c.reqVolThreshold := vol;
  }

  /** The closure of WithSleepWindow: overwrites `sleepWindow` only. */
  method SetSleepWindow(c: Client, sleepWindow: Duration)
    modifies c
    ensures c.Snapshot() == old(c.Snapshot()).(sleepWindow := sleepWindow)
    ensures c.client == old(c.client)
  {
    c.sleepWindow := sleepWindow;
  }

  /** The closure of WithErrorPercentThreshold: overwrites `errorPercentThreshold` only. */
  method SetErrorPercentThreshold(c: Client, threshold: Int64)
    modifies c
    ensures c.Snapshot() == old(c.Snapshot()).(errorPercentThreshold := threshold)
    ensures c.client == old(c.client)
  {
    c.errorPercentThreshold := threshold;
  }

  /** `opt(&c)`: runs the option's closure on the client in place. */
  method Apply(opt: Option, c: Client)
    modifies c
    ensures c.Snapshot() == ApplyOption(old(c.Snapshot()), opt)
    ensures c.client == old(c.client)
  {
    match opt
    case WithHTTPTimeout(t) => SetHTTPTimeout(c, t);
    case WithMaxConcurrentRequest(m) => SetMaxConcurrentRequest(c, m);
    case WithRequestVolumeThreshold(v) => SetRequestVolumeThreshold(c, v);
    case WithSleepWindow(w) => SetSleepWindow(c, w);
    case WithErrorPercentThreshold(p) => SetErrorPercentThreshold(c, p);
  }
}
