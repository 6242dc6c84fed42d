/** The parts of `net/http` and `net/url` that the gateway touches: requests, headers and the response writer. */
module Http {
  import opened Wrappers
  import opened Tasks

  newtype Byte = x: int | 0 <= x < 256

  /** `url.Values` and `http.Header`: each key maps to its list of values, keys already canonical. */
  type Values = map<string, seq<string>>

  /** `Values.Get` / `Header.Get`: the first value stored under `key`, or "" when there is none. */
  function Get(v: Values, key: string): (value: string)
    ensures key !in v ==> value == ""
    ensures value != "" ==> key in v && value in v[key]
  {
    if key in v && |v[key]| > 0 then v[key][0] else ""
  }

  /**
   * An incoming request, as far as the handlers look at it. `form` is `r.Form` as the
   * handler receives it, `query` is `r.URL.Query()`, and `body` is what reading the
   * whole request body yields: the bytes, or the read error.
   */
  datatype Request = Request(
    verb: string,
    path: string,
    header: Values,
    query: Values,
    form: Values,
    body: Result<seq<Byte>, string>)

  /** The `jsonAPIPayload` envelope: `errors`, `data` and `meta`. */
  datatype ApiPayload = ApiPayload(errors: seq<map<string, string>>, data: Task, meta: map<string, string>)

  /** One value written to the response body. */
  datatype Payload =
    | TaskJson(task: Task)       // a bare task, JSON-encoded
    | ApiJson(doc: ApiPayload)   // an envelope, JSON-encoded
    | RawText(text: string)      // raw bytes written with `Write`

  /**
   * What a handler has produced so far. `status` is what the client receives: 200 until
   * a header is committed. `committed` records that `WriteHeader` or a body write took place,
   * after which the status no longer changes.
   */
  datatype Response = Response(status: int, committed: bool, header: map<string, string>, written: seq<Payload>)

  const Unwritten := Response(200, false, map[], [])

  /** `WriteHeader(code)`: only the first call (or the first body write) fixes the status. */
  function WithStatus(res: Response, code: int): Response
  {
    if res.committed then res else res.(status := code, committed := true)
  }

  /** `Header().Set(key, value)`. */
  function WithHeader(res: Response, key: string, value: string): Response
  {
    res.(header := res.header[key := value])
  }

  /** `Write(p)`: an implicit `WriteHeader(200)` followed by the bytes. */
  function WithWrite(res: Response, p: Payload): Response
  {
    WithStatus(res, 200).(written := res.written + [p])
  }

  /** `json.NewEncoder(w).Encode(p)`: writes `p` unless marshalling it fails, in which case nothing is written. */
  function WithEncoded(res: Response, encoder: Payload -> Option<string>, p: Payload): Response
  {
    if encoder(p).None? then WithWrite(res, p) else res
  }

  /** `http.ResponseWriter`. Whether a payload marshals is decided by `encoder`. */
  class ResponseWriter {
    var status: int
    var committed: bool
    var header: map<string, string>
    var written: seq<Payload>
    const encoder: Payload -> Option<string>

    function State(): Response
      reads this
    {
      Response(status, committed, header, written)
    }

    constructor (encoder: Payload -> Option<string>)
      ensures State() == Unwritten && this.encoder == encoder
    {
      status, committed, header, written := 200, false, map[], [];
      this.encoder := encoder;
    }

    method WriteHeader(code: int)
      modifies this
      ensures State() == WithStatus(old(State()), code)
    {
      if !committed {
        status, committed := code, true;
      }
    }

    method SetHeader(key: string, value: string)
      modifies this
      ensures State() == WithHeader(old(State()), key, value)
    {
      header := header[key := value];
    }

    method Write(p: Payload)
      modifies this
      ensures State() == WithWrite(old(State()), p)
    {
      WriteHeader(200);
      written := written + [p];
    }

    method Encode(p: Payload) returns (err: Option<string>)
      modifies this
      ensures err == encoder(p)
      ensures State() == WithEncoded(old(State()), encoder, p)
    {
      err := encoder(p);
      if err.None? {
        Write(p);
      }
    }
  }
}
