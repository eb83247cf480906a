/** Request-body encoding: `toIoReader`. The Go function switches on the
    dynamic type of an `interface{}`; here the caller's body is a tagged
    union with one constructor per case of that switch. */
module Body {
  import opened Wrappers

  /** Go's `byte`. */
  type Byte = b: int | 0 <= b < 256

  /** Identity of an `io.Reader` the caller already holds. */
  datatype ReaderId = ReaderId(id: nat)

  /** A request body as the caller passes it. A Go `string` is an immutable
      byte sequence, so a text body carries bytes. `V` is the type of any
      other value, which is sent as JSON. */
  datatype Body<V> =
    | NilBody
    | ReaderBody(reader: ReaderId)
    | StringBody(text: seq<Byte>)
    | BytesBody(bytes: seq<Byte>)
    | ValueBody(value: V)

  /** The `io.Reader` handed to the request: nil, the caller's own reader,
      or a fresh `bytes.Buffer` holding the given bytes. */
  datatype Reader = NoReader | Passthrough(reader: ReaderId) | Buffer(bytes: seq<Byte>)

  /** `toIoReader(body)`. `marshal` is `json.Marshal`. */
  function ToIoReader<V>(body: Body<V>, marshal: V -> Result<seq<Byte>>): (r: Result<Reader>)
    ensures r.Err? <==> body.ValueBody? && marshal(body.value).Err?
    ensures r.Err? ==> r.error == marshal(body.value).error
    ensures body.NilBody? ==> r == Ok(NoReader)
    ensures body.ReaderBody? ==> r == Ok(Passthrough(body.reader))
    ensures body.StringBody? ==> r == Ok(Buffer(body.text))
    ensures body.BytesBody? ==> r == Ok(Buffer(body.bytes))
    ensures body.ValueBody? && r.Ok? ==> r == Ok(Buffer(marshal(body.value).value))
  {
    match body
    case NilBody => Ok(NoReader)
    case ReaderBody(rd) => Ok(Passthrough(rd))
    case StringBody(s) => Ok(Buffer(s))
    case BytesBody(b) => Ok(Buffer(b))
    case ValueBody(v) =>
      match marshal(v)
      case Err(e) => Err(e)
      case Ok(b) => Ok(Buffer(b))
  }

  /** The bytes a request with this reader transmits; `remaining` gives
      what is left to read from a caller's reader. */
  function Transmitted(r: Reader, remaining: ReaderId -> seq<Byte>): seq<Byte> {
    match r
    case NoReader => []
    case Passthrough(id) => remaining(id)
    case Buffer(b) => b
  }

  /** Every way of passing a payload sends the same bytes: as a string, as a
      byte slice, as a value that marshals to it, or as a reader holding it.
      A nil body sends nothing. */
  lemma SameBytesEveryKind<V>(payload: seq<Byte>, v: V, marshal: V -> Result<seq<Byte>>,
                             rd: ReaderId, remaining: ReaderId -> seq<Byte>)
    requires marshal(v) == Ok(payload) && remaining(rd) == payload
    ensures forall body: Body<V> | body in [StringBody(payload), BytesBody(payload), ValueBody(v), ReaderBody(rd)] ::
      ToIoReader(body, marshal).Ok? && Transmitted(ToIoReader(body, marshal).value, remaining) == payload
    ensures ToIoReader(NilBody, marshal).Ok? && Transmitted(ToIoReader(NilBody, marshal).value, remaining) == []
  {
  }
}
