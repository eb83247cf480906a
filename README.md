# go-branch `httpclient`: a verified model

This project models the part of the `httpclient` package of go-branch that
the package itself implements: building a `Client` from defaults and
functional options, deriving the circuit-breaker configuration it registers
for its command name, encoding a request body (`toIoReader`), and the
error-propagation chains of `Do`, `DoJSON`, `doMethod`, `doMethodJSON` and
the `Get`/`GetJSON`/`Post`/`PostJSON` entry points.

Structure, one module per concern:

- `GoInt` (`goint.dfy`): Go's 64-bit `int` and `time.Duration`, and Go's
  truncating `/ 1e6` written out (`MillisOf`), since Dafny's `/` is Euclidean.
- `Wrappers` (`wrappers.dfy`): `Nilable` (a Go value that may be nil),
  `Result` (a `(T, error)` return) and an opaque `Error`.
- `ClientState` (`client_state.dfy`): the default constants, the `Client`
  class with the struct's fields, the `Settings` value of its five
  configurable fields, and the composite literal of `NewClient` as the
  class constructor.
- `Options` (`options.dfy`): the `Option` datatype (one constructor per
  `With…` function, holding the value its closure captured), the closures as
  methods that overwrite one field of a `Client` in place, `Apply` (running
  `opt(&c)`), and the value-level specification `ApplyOption`/`ApplyAll`
  with its lemmas (idempotence, commutation, last option wins).
- `Construction` (`construction.dfy`): `NewClient` (its option loop proved
  against `ApplyAll`), and `ToCommandConfig`, the configuration passed to
  the breaker library.
- `Body` (`body.dfy`): `toIoReader` over a tagged union of body kinds.
- `Pipeline` (`pipeline.dfy`): the request chains.

Calls into code outside the package are parameters. `json.Marshal`,
`json.Unmarshal`, the checks of `http.NewRequest`, `c.do` (which is
`hystrix.Do` around the shared `*http.Client`), and `ioutil.ReadAll` are the
function fields of `Pipeline.Env`. The generated `xid` command name and the
package-level `sharedClient` are parameters of `NewClient`. The hystrix call
`ConfigureCommand` is modelled by `NewClient` returning the `CommandConfig`
it would register.

The model assumes a 64-bit platform, so `int` is 64 bits wide and
`int(d.Nanoseconds())` is the identity. Durations may be negative. The
conversion to milliseconds then truncates toward zero, as Go's `/` does.

The client installs the caller's header map exactly as given
(`req.Header = headers`); it neither copies nor folds the case of its keys.

## Model

| member | source | states |
|---|---|---|
| `GoInt.MillisOf` | httpclient/client.go:61-64 | `int(ns) / 1e6` is the quotient truncated toward zero: the remainder is less than 1e6 in magnitude and has the sign of `ns` |
| `GoInt.MillisOfWholeMillis` | httpclient/client.go:61-64 | a duration of `ms` whole milliseconds converts back to exactly `ms` |
| `GoInt.MillisOfMonotone` | httpclient/client.go:61-64 | a longer duration never converts to fewer milliseconds |
| `GoInt.MillisOfOdd` | httpclient/client.go:61-64 | the conversion is symmetric about zero: a negative duration truncates toward zero, not downward |
| `ClientState.Defaults` | httpclient/client.go:16-22 | the defaults are a 15 s timeout, 100 concurrent requests, a volume threshold of 20, a 5 s sleep window and 50% error threshold |
| `ClientState.Client.constructor` | httpclient/client.go:45-52 | a new client has the given name, no transport yet, and the default settings |
| `Options.ApplyOption` | httpclient/options.go:11-47 | an option sets exactly the one field it targets to its value; every other field keeps its value |
| `Options.ApplyIdempotent` | httpclient/options.go:11-47 | applying an option twice gives the same settings as applying it once |
| `Options.ApplyCommute` | httpclient/options.go:11-47 | two options on different fields give the same settings in either order |
| `Options.ApplyLaterWins` | httpclient/options.go:11-47 | of two options on the same field, the later one alone decides the result |
| `Options.ApplyAll` | httpclient/client.go:54-56 | after a list of options, each field holds the value of the last option that targets it, or its starting value if none does |
| `Options.ApplyAllAppend` | httpclient/client.go:54-56 | applying `a ++ b` equals applying `a`, then `b` to the result |
| `Options.UntouchedFieldKeepsValue` | httpclient/client.go:45-56 | a field that no option in the list targets keeps its starting (default) value |
| `Options.LastTouchDecides` | httpclient/client.go:54-56 | if option `i` targets a field and no later option does, the field ends with option `i`'s value |
| `Options.SetHTTPTimeout` | httpclient/options.go:11-15 | the `WithHTTPTimeout` closure sets `httpTimeout` and leaves every other field of the client unchanged |
| `Options.SetMaxConcurrentRequest` | httpclient/options.go:19-23 | the `WithMaxConcurrentRequest` closure sets `maxConcurrentReq` only |
| `Options.SetRequestVolumeThreshold` | httpclient/options.go:27-31 | the `WithRequestVolumeThreshold` closure sets `reqVolThreshold` only |
| `Options.SetSleepWindow` | httpclient/options.go:35-39 | the `WithSleepWindow` closure sets `sleepWindow` only |
| `Options.SetErrorPercentThreshold` | httpclient/options.go:43-47 | the `WithErrorPercentThreshold` closure sets `errorPercentThreshold` only |
| `Options.Apply` | httpclient/options.go:8 | running an option on a client in place changes its settings exactly as `ApplyOption` does and leaves its transport alone |
| `Construction.ToCommandConfig` | httpclient/client.go:60-66 | the registered timeout and sleep window are the two durations in milliseconds, truncated; the three counts pass through unchanged |
| `Construction.DefaultCommandConfig` | httpclient/client.go:45-66 | a client built with no options registers timeout 15000, 100 concurrent requests, volume 20, sleep window 5000 and 50% |
| `Construction.WholeMillisTimeoutReachesBreaker` | httpclient/client.go:54-61 | a `WithHTTPTimeout` of whole milliseconds with no later timeout option reaches the breaker as exactly that many milliseconds |
| `Construction.NewClient` | httpclient/client.go:44-69 | the new client has the given name, the shared transport whatever the options, the settings of the options applied left to right over the defaults, and registers the `ToCommandConfig` of those settings |
| `Body.ToIoReader` | httpclient/client.go:180-199 | nil gives no reader; a reader passes through as the same reader; a string or byte slice gives a buffer of exactly its bytes; any other value gives its JSON, and the call fails exactly when marshalling fails, with marshalling's error |
| `Body.SameBytesEveryKind` | httpclient/client_test.go:178-240 | a payload sent as a string, a byte slice, a value that marshals to it or a reader holding it transmits the same bytes; a nil body transmits none |
| `Pipeline.NewRequest` | httpclient/client.go:155 | building a request fails exactly when its method or URL is rejected; otherwise it has an empty header and the background context |
| `Pipeline.Prepare` | httpclient/client.go:150-160 | preparation succeeds exactly when the body encodes and the request builds; an encoding error is reported first; the prepared request carries exactly the caller's header and context |
| `Pipeline.Do` | httpclient/client.go:71-88 | the request goes to `c.do` and its result comes back as is: exactly one of response and error is nil |
| `Pipeline.DoJSON` | httpclient/client.go:93-110 | a transport error or a body-read error gives `(nil, err)` with nothing decoded; otherwise the response comes back with Unmarshal's error, nil only if decoding succeeded |
| `Pipeline.DoMethod` | httpclient/client.go:147-162 | an encoding or build error gives `(nil, err)` and nothing is sent; otherwise the request sent has the caller's method, URL, encoded body, header and context, and the reply is exactly `Do`'s reply for it |
| `Pipeline.DoMethodJSON` | httpclient/client.go:164-178 | the same preparation rule as `DoMethod`; a preparation failure returns `(nil, err)` without sending or decoding, and once sent the reply is exactly `DoJSON`'s |
| `Pipeline.Get` | httpclient/client.go:113-115 | a GET has no body, so it is sent exactly when its URL is accepted, with exactly the caller's header and context, and returns `Do`'s reply; otherwise it returns `(nil, err)` with the rejection error, sending and decoding nothing |
| `Pipeline.GetJSON` | httpclient/client.go:120-122 | as `Get`, with `DoJSON`'s reply once sent |
| `Pipeline.Post` | httpclient/client.go:130-132 | a POST is sent exactly when its body encodes and its URL is accepted; an encoding error, or else a URL rejection, gives `(nil, err)` with that error and nothing sent; a sent POST carries the encoded body, the caller's header and context, and returns `Do`'s reply |
| `Pipeline.PostJSON` | httpclient/client.go:142-144 | as `Post` (same send condition and the same two `(nil, err)` replies), with `DoJSON`'s reply once sent |
| `Pipeline.DoJSONBothOnlyOnDecodeError` | httpclient/client.go:95-109 | `DoJSON` returns a response together with an error exactly when the body was read and could not be decoded (the malformed-JSON case of httpclient/client_test.go) |
| `Pipeline.DoJSONExtendsDo` | httpclient/client.go:93-110 | `DoJSON` sends what `Do` sends, fails as `Do` does when `Do` fails, and any response it returns is `Do`'s |
| `Pipeline.MethodJSONAgreesWithMethod` | httpclient/client.go:147-178 | `doMethodJSON` and `doMethod` send the same request, agree when preparation fails, and otherwise differ only by `DoJSON` in place of `Do` |

## Left out

- Circuit breaking, the rolling window, the per-command concurrency cap and
  timeout racing: they are implemented by the hystrix library, which is not
  part of this model; the package only configures it and calls `hystrix.Do`.
  The concurrency and timeout tests exercise that library.
- `net/http` transport, test servers and `ioutil.ReadAll`: I/O, taken as the
  abstract outcomes `exec` and `readAll`.
- `json.Marshal` and `json.Unmarshal`: foreign calls, kept as the function
  parameters `marshal` and `unmarshal`. So the JSON round trip of a value is
  not modelled, nor what Unmarshal leaves in `data` when it fails.
- `http.NewRequest`: only its outcome (accepted, or rejected with an error)
  and the fields the client relies on are modelled. URL parsing, the
  `NoBody` substitution and `ContentLength` are not, nor its replacement of
  an empty method by `"GET"`; the package only ever passes `GET` or `POST`.
- `xid.New()` command-name generation: random; the name is a parameter.
- `hystrix.ConfigureCommand`: a call into the library's global registry;
  modelled by `NewClient` returning the configuration it passes.
- `defer resp.Body.Close()` in `DoJSON`: response bodies have no open or
  closed state in the model.
- `Pipeline.DoMethod`: `req.Header = headers` shares the caller's map with
  the request; the model copies a map value, so later mutation through
  either alias is not captured.
- `Pipeline.Do`: states that exactly one of response and error is nil,
  because `exec` returns either a response or an error and cannot represent
  a `(resp, err)` pair with both non-nil. Go's `c.do` can return such a
  pair: the shared `http.Client` uses the default redirect policy, and
  `Client.Do` returns the last response together with an error when a
  redirect check fails; and when hystrix times out while the transport
  goroutine is still running, the code races on `resp`. `Do`, `doMethod`,
  `Get` and `Post` pass such a pair through unchanged.
- `Construction.NewClient`: a nil option panics at `opt(&c)`; the model's
  options are never nil, so that panic is not modelled.
- `Pipeline.DoMethod`, `Pipeline.DoMethodJSON`: a nil `context.Context`
  makes `req.WithContext(ctx)` panic; a `Context` in the model is always an
  identity of a real context, so that panic is not modelled.
- `Options.Option`: Go's `Option` is an exported function type, so callers
  may pass closures of their own that change any field, including `name`.
  The model has only the five `With…` options, and `NewClient`'s promises
  about the name and the settings hold only for those (the transport is
  installed after the loop, so that promise holds for any closure).
- Go type-switch subtleties of `toIoReader`: the body kinds are a tagged
  union, so a value that is both an `io.Reader` and something else cannot
  arise, and a typed nil pointer counts as a value.
- `httpclient/default.go`, `link.go`, `branch.go`: a package `init` global
  and domain glue that only call `NewClient`, `Do`, `DoJSON` and `PostJSON`.
- Goroutines, channels and wait groups in the tests: concurrency.
- A 32-bit `int`: the model assumes 64-bit `int`, where `int(ns)` cannot
  overflow.
