/** The request pipelines of the httpclient Client: `Do`, `DoJSON`,
    `doMethod`, `doMethodJSON` and the `Get`/`Post` entry points built on
    them. Each is a chain of steps that stops at the first error. The
    library calls they make are fields of an `Env`. */
module Pipeline {
  import opened Wrappers
  import opened Body

  /** `http.Header`: each key maps to its list of values. A nil header
      reads as the empty map. */
  type Header = map<string, seq<string>>

  /** Identity of a `context.Context`. */
  datatype Context = Context(id: nat)

  /** `context.Background()`, the context `http.NewRequest` starts with. */
  const BACKGROUND: Context := Context(0)

  /** Identity of an `*http.Response`. */
  datatype Response = Response(id: nat)

  const METHOD_GET: string := "GET"
  const METHOD_POST: string := "POST"

  /** The parts of an `*http.Request` the client sets. */
  datatype Request = Request(httpMethod: string, url: string, body: Reader, header: Header, ctx: Context)

  /** The library calls the pipelines make:
      - marshal: `json.Marshal` of a value body;
      - validate: the checks of `http.NewRequest` (httpMethod token, URL parse),
        giving the error it reports, if any;
      - exec: `c.do`, that is `hystrix.Do` around the shared client's `Do`;
      - readAll: `ioutil.ReadAll` of a response body;
      - unmarshal: `json.Unmarshal` into the caller's `data`. */
  datatype Env<-V, D> = Env(
    marshal: V -> Result<seq<Byte>>,
    validate: (string, string) -> Nilable<Error>,
    exec: Request -> Result<Response>,
    readAll: Response -> Result<seq<Byte>>,
    unmarshal: seq<Byte> -> Result<D>)

  /** What a call hands back: Go's `(*http.Response, error)` pair, the
      request passed to `c.do` (Nil when none was), and the outcome of
      `json.Unmarshal` (Nil when it was not called). */
  datatype Reply<D> = Reply(resp: Nilable<Response>, err: Nilable<Error>, sent: Nilable<Request>, decoded: Nilable<Result<D>>)

  /** `http.NewRequest(method, url, body)`: a request with an empty header
      and the background context, unless the method or URL is rejected. */
  function NewRequest<V, D>(env: Env<V, D>, httpMethod: string, url: string, body: Reader): (r: Result<Request>)
    ensures r.Ok? <==> env.validate(httpMethod, url).Nil?
    ensures r.Err? ==> r.error == env.validate(httpMethod, url).value
    ensures r.Ok? ==> r.value == Request(httpMethod, url, body, map[], BACKGROUND)
  {
    match env.validate(httpMethod, url)
    case NonNil(e) => Err(e)
    case Nil => Ok(Request(httpMethod, url, body, map[], BACKGROUND))
  }

  /** The preparation shared by doMethod and doMethodJSON: encode the body,
      build the request, then replace its header with the caller's and
      attach the caller's context. An encoding error comes first. */
  function Prepare<V, D>(env: Env<V, D>, ctx: Context, httpMethod: string, url: string, body: Body<V>, headers: Header): (r: Result<Request>)
    ensures r.Ok? <==> ToIoReader(body, env.marshal).Ok? && env.validate(httpMethod, url).Nil?
    ensures r.Err? && ToIoReader(body, env.marshal).Err? ==> r.error == ToIoReader(body, env.marshal).error
    ensures r.Err? && ToIoReader(body, env.marshal).Ok? ==> r.error == env.validate(httpMethod, url).value
    ensures r.Ok? ==> r.value == Request(httpMethod, url, ToIoReader(body, env.marshal).value, headers, ctx)
  {
    match ToIoReader(body, env.marshal)
    case Err(e) => Err(e)
    case Ok(reader) =>
      match NewRequest(env, httpMethod, url, reader)
      case Err(e) => Err(e)
      case Ok(req) => Ok(req.(header := headers).(ctx := ctx))
  }

  /** `c.Do(req)`: hands the request to `c.do` and returns its pair as is.
      Exactly one of response and error is nil. */
  function Do<V, D>(env: Env<V, D>, req: Request): (r: Reply<D>)
    ensures r.sent == NonNil(req) && r.decoded == Nil
    ensures r.resp.NonNil? <==> r.err.Nil?
    ensures env.exec(req).Ok? ==> r.resp == NonNil(env.exec(req).value)
    ensures env.exec(req).Err? ==> r.err == NonNil(env.exec(req).error)
  {
    match env.exec(req)
    case Ok(resp) => Reply(NonNil(resp), Nil, NonNil(req), Nil)
    case Err(e) => Reply(Nil, NonNil(e), NonNil(req), Nil)
  }

  /** `c.DoJSON(req, data)`: execute, read the whole body, unmarshal it.
      A transport or read error gives `(nil, err)` and no decoding; after a
      successful read the response comes back together with Unmarshal's
      error, which is nil only when decoding succeeded. */
  function DoJSON<V, D>(env: Env<V, D>, req: Request): (r: Reply<D>)
    ensures r.sent == NonNil(req)
    ensures env.exec(req).Err? ==>
      r.resp == Nil && r.err == NonNil(env.exec(req).error) && r.decoded == Nil
    ensures env.exec(req).Ok? && env.readAll(env.exec(req).value).Err? ==>
      r.resp == Nil && r.err == NonNil(env.readAll(env.exec(req).value).error) && r.decoded == Nil
    ensures env.exec(req).Ok? && env.readAll(env.exec(req).value).Ok? ==>
      && r.resp == NonNil(env.exec(req).value)
      && r.decoded == NonNil(env.unmarshal(env.readAll(env.exec(req).value).value))
      && (r.err.Nil? <==> r.decoded.value.Ok?)
      && (r.err.NonNil? ==> r.err.value == r.decoded.value.error)
  {
    match env.exec(req)
    case Err(e) => Reply(Nil, NonNil(e), NonNil(req), Nil)
    case Ok(resp) =>
      match env.readAll(resp)
      case Err(e) => Reply(Nil, NonNil(e), NonNil(req), Nil)
      case Ok(b) =>
        var u := env.unmarshal(b);
        Reply(NonNil(resp), if u.Err? then NonNil(u.error) else Nil, NonNil(req), NonNil(u))
  }

  /** `c.doMethod(ctx, method, url, body, headers)`. A failure to encode the
      body or to build the request comes back as `(nil, err)` and nothing
      is executed; otherwise the request sent carries exactly the caller's
      header and context. */
  function DoMethod<V, D>(env: Env<V, D>, ctx: Context, httpMethod: string, url: string, body: Body<V>, headers: Header): (r: Reply<D>)
    ensures r.decoded == Nil
    ensures r.resp.NonNil? <==> r.err.Nil?
    ensures r.sent.NonNil? <==> Prepare(env, ctx, httpMethod, url, body, headers).Ok?
    ensures r.sent.Nil? ==> r.resp == Nil && r.err == NonNil(Prepare(env, ctx, httpMethod, url, body, headers).error)
    ensures r.sent.NonNil? ==> r == Do(env, r.sent.value)
    ensures r.sent.NonNil? ==>
      && r.sent.value.httpMethod == httpMethod && r.sent.value.url == url
      && r.sent.value.header == headers && r.sent.value.ctx == ctx
      && r.sent.value.body == ToIoReader(body, env.marshal).value
  {
    match Prepare(env, ctx, httpMethod, url, body, headers)
    case Err(e) => Reply(Nil, NonNil(e), Nil, Nil)
    case Ok(req) => Do(env, req)
  }

  /** `c.doMethodJSON(ctx, method, url, body, headers, data)`: the same
      preparation as doMethod, then DoJSON. */
  function DoMethodJSON<V, D>(env: Env<V, D>, ctx: Context, httpMethod: string, url: string, body: Body<V>, headers: Header): (r: Reply<D>)
    ensures r.sent.NonNil? <==> Prepare(env, ctx, httpMethod, url, body, headers).Ok?
    ensures r.sent.Nil? ==> r == Reply(Nil, NonNil(Prepare(env, ctx, httpMethod, url, body, headers).error), Nil, Nil)
    ensures r.sent.NonNil? ==>
      && r.sent.value.httpMethod == httpMethod && r.sent.value.url == url
      && r.sent.value.header == headers && r.sent.value.ctx == ctx
      && r.sent.value.body == ToIoReader(body, env.marshal).value
    ensures r.sent.NonNil? ==> r == DoJSON(env, r.sent.value)
  {
    match Prepare(env, ctx, httpMethod, url, body, headers)
    case Err(e) => Reply(Nil, NonNil(e), Nil, Nil)
    case Ok(req) => DoJSON(env, req)
  }

  /** `c.Get(ctx, url, headers)`: a GET with no body. */
  function Get<V, D>(env: Env<V, D>, ctx: Context, url: string, headers: Header): (r: Reply<D>)
    ensures r.sent.NonNil? <==> env.validate(METHOD_GET, url).Nil?
    ensures r.sent.NonNil? ==> r.sent.value == Request(METHOD_GET, url, NoReader, headers, ctx)
    ensures r.sent.Nil? ==> r == Reply(Nil, NonNil(env.validate(METHOD_GET, url).value), Nil, Nil)
    ensures r.sent.NonNil? ==> r == Do(env, r.sent.value)
  {
    DoMethod(env, ctx, METHOD_GET, url, NilBody, headers)
  }

  /** `c.GetJSON(ctx, url, headers, data)`: a GET with no body, decoded as JSON. */
  function GetJSON<V, D>(env: Env<V, D>, ctx: Context, url: string, headers: Header): (r: Reply<D>)
    ensures r.sent.NonNil? <==> env.validate(METHOD_GET, url).Nil?
    ensures r.sent.NonNil? ==> r.sent.value == Request(METHOD_GET, url, NoReader, headers, ctx)
    ensures r.sent.Nil? ==> r == Reply(Nil, NonNil(env.validate(METHOD_GET, url).value), Nil, Nil)
    ensures r.sent.NonNil? ==> r == DoJSON(env, r.sent.value)
  {
    DoMethodJSON(env, ctx, METHOD_GET, url, NilBody, headers)
  }

  /** `c.Post(ctx, url, headers, body)`. */
  function Post<V, D>(env: Env<V, D>, ctx: Context, url: string, headers: Header, body: Body<V>): (r: Reply<D>)
    ensures r.sent.NonNil? <==> ToIoReader(body, env.marshal).Ok? && env.validate(METHOD_POST, url).Nil?
    ensures ToIoReader(body, env.marshal).Err? ==>
      r == Reply(Nil, NonNil(ToIoReader(body, env.marshal).error), Nil, Nil)
    ensures ToIoReader(body, env.marshal).Ok? && env.validate(METHOD_POST, url).NonNil? ==>
      r == Reply(Nil, NonNil(env.validate(METHOD_POST, url).value), Nil, Nil)
    ensures r.sent.NonNil? ==>
      && ToIoReader(body, env.marshal).Ok?
      && r.sent.value == Request(METHOD_POST, url, ToIoReader(body, env.marshal).value, headers, ctx)
    ensures r.sent.NonNil? ==> r == Do(env, r.sent.value)
  {
    DoMethod(env, ctx, METHOD_POST, url, body, headers)
  }

  /** `c.PostJSON(ctx, url, headers, body, data)`. */
  function PostJSON<V, D>(env: Env<V, D>, ctx: Context, url: string, headers: Header, body: Body<V>): (r: Reply<D>)
    ensures r.sent.NonNil? <==> ToIoReader(body, env.marshal).Ok? && env.validate(METHOD_POST, url).Nil?
    ensures ToIoReader(body, env.marshal).Err? ==>
      r == Reply(Nil, NonNil(ToIoReader(body, env.marshal).error), Nil, Nil)
    ensures ToIoReader(body, env.marshal).Ok? && env.validate(METHOD_POST, url).NonNil? ==>
      r == Reply(Nil, NonNil(env.validate(METHOD_POST, url).value), Nil, Nil)
    ensures r.sent.NonNil? ==>
      && ToIoReader(body, env.marshal).Ok?
      && r.sent.value == Request(METHOD_POST, url, ToIoReader(body, env.marshal).value, headers, ctx)
    ensures r.sent.NonNil? ==> r == DoJSON(env, r.sent.value)
  {
    DoMethodJSON(env, ctx, METHOD_POST, url, body, headers)
  }

  /** DoJSON returns a response together with an error exactly when the
      body was read and could not be decoded. */
  lemma DoJSONBothOnlyOnDecodeError<V, D>(env: Env<V, D>, req: Request)
    ensures var r := DoJSON(env, req);
      r.resp.NonNil? && r.err.NonNil? <==> r.decoded.NonNil? && r.decoded.value.Err?
  {
  }

  /** DoJSON sends what Do sends; when Do fails DoJSON fails the same way,
      and the response DoJSON returns is Do's. */
  lemma DoJSONExtendsDo<V, D>(env: Env<V, D>, req: Request)
    ensures DoJSON(env, req).sent == Do(env, req).sent
    ensures Do(env, req).err.NonNil? ==> DoJSON(env, req) == Do(env, req)
    ensures DoJSON(env, req).resp.NonNil? ==> DoJSON(env, req).resp == Do(env, req).resp
  {
  }

  /** doMethodJSON and doMethod prepare the same request; they return the
      same reply when preparation fails, and otherwise differ only in
      running DoJSON instead of Do on it. */
  lemma MethodJSONAgreesWithMethod<V, D>(env: Env<V, D>, ctx: Context, httpMethod: string, url: string, body: Body<V>, headers: Header)
    ensures DoMethodJSON(env, ctx, httpMethod, url, body, headers).sent == DoMethod(env, ctx, httpMethod, url, body, headers).sent
    ensures var plain := DoMethod(env, ctx, httpMethod, url, body, headers);
      plain.sent.Nil? ==> DoMethodJSON(env, ctx, httpMethod, url, body, headers) == plain
    ensures var plain := DoMethod(env, ctx, httpMethod, url, body, headers);
      plain.sent.NonNil? ==> DoMethodJSON(env, ctx, httpMethod, url, body, headers) == DoJSON(env, plain.sent.value)
  {
  }
}
