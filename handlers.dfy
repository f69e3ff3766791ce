/** The three request paths of src/main.rs put together: pick a connection from
    the shared pool, run one exchange on it, hand the buffer to the channel's
    codec, and map the outcome to an HTTP response. The request side (reading the
    HTTP body, building and serializing the domain request) happens before these
    methods run: `msg` is its result. The backend is an input: `backend(conn,
    msg)` is what the socket does when `msg` is written to `conn`. */
module Handlers {
  import opened Errors
  import opened HostExchange
  import opened Responses
  import opened ConnectionPool

  /** The connection the next `get_stream` call of `data` returns. */
  ghost function NextStream<C>(data: AppState<C>): C
    reads data
    requires data.Valid() && data.nConnections > 0
  {
    data.streams[NextIndex(data.connIndex, data.nConnections).index]
  }

  /** `talk_to_dhi_host`. */
  method TalkToDhiHost<C, R>(data: AppState<C>, msg: seq<byte>,
                             backend: (C, seq<byte>) -> SocketStep,
                             decode: seq<byte> -> Decoded<R>)
    returns (r: Result<R>)
    requires data.Valid() && data.nConnections > 0
    modifies data
    ensures data.connIndex == old(data.connIndex) + 1
    ensures r == DhiOutcome(backend(old(NextStream(data)), msg), decode)
  {
    var s := data.GetStream();
    var buffer := Exchange(backend(s, msg));
    match buffer
    case Err(e) => r := Err(e);
    case Ok(b) => r := Lift(decode(b[LengthPrefixSize..]));
  }

  /** `talk_to_sp_host`. */
  method TalkToSpHost<C, R>(data: AppState<C>, msg: seq<byte>,
                            backend: (C, seq<byte>) -> SocketStep,
                            decode: seq<byte> -> R)
    returns (r: Result<R>)
    requires data.Valid() && data.nConnections > 0
    modifies data
    ensures data.connIndex == old(data.connIndex) + 1
    ensures r == WholeBufferOutcome(backend(old(NextStream(data)), msg), decode)
  {
    var s := data.GetStream();
    var buffer := Exchange(backend(s, msg));
    match buffer
    case Err(e) => r := Err(e);
    case Ok(b) => r := Ok(decode(b));
  }

  /** `talk_to_ips_host`. */
  method TalkToIpsHost<C, R>(data: AppState<C>, msg: seq<byte>,
                             backend: (C, seq<byte>) -> SocketStep,
                             decode: seq<byte> -> R)
    returns (r: Result<R>)
    requires data.Valid() && data.nConnections > 0
    modifies data
    ensures data.connIndex == old(data.connIndex) + 1
    ensures r == WholeBufferOutcome(backend(old(NextStream(data)), msg), decode)
  {
    var s := data.GetStream();
    var buffer := Exchange(backend(s, msg));
    match buffer
    case Err(e) => r := Err(e);
    case Ok(b) => r := Ok(decode(b));
  }

  /** `serve_dhi_request` from the serialized request on. */
  method ServeDhiRequest<C, R>(data: AppState<C>, msg: seq<byte>,
                               backend: (C, seq<byte>) -> SocketStep,
                               decode: seq<byte> -> Decoded<R>, serialize: R -> string)
    returns (resp: HttpResponse)
    requires data.Valid() && data.nConnections > 0
    modifies data
    ensures data.connIndex == old(data.connIndex) + 1
    ensures resp == ServeDhiResponse(DhiOutcome(backend(old(NextStream(data)), msg), decode), serialize)
  {
    var res := TalkToDhiHost(data, msg, backend, decode);
    resp := ServeDhiResponse(res, serialize);
  }

  /** `serve_sp_request` from the serialized request on. */
  method ServeSpRequest<C, R>(data: AppState<C>, msg: seq<byte>,
                              backend: (C, seq<byte>) -> SocketStep,
                              decode: seq<byte> -> R, serialize: R -> string)
    returns (resp: HttpResponse)
    requires data.Valid() && data.nConnections > 0
    modifies data
    ensures data.connIndex == old(data.connIndex) + 1
    ensures resp == ServeSpResponse(WholeBufferOutcome(backend(old(NextStream(data)), msg), decode), serialize)
  {
    var res := TalkToSpHost(data, msg, backend, decode);
    resp := ServeSpResponse(res, serialize);
  }

  /** `serve_ips_request` from the serialized request on. */
  method ServeIpsRequest<C, R>(data: AppState<C>, msg: seq<byte>,
                               backend: (C, seq<byte>) -> SocketStep,
                               decode: seq<byte> -> R, serialize: R -> string)
    returns (resp: HttpResponse)
    requires data.Valid() && data.nConnections > 0
    modifies data
    ensures data.connIndex == old(data.connIndex) + 1
    ensures resp == ServeIpsResponse(WholeBufferOutcome(backend(old(NextStream(data)), msg), decode), serialize)
  {
    var res := TalkToIpsHost(data, msg, backend, decode);
    resp := ServeIpsResponse(res, serialize);
  }

  /** On every channel, a timed-out or failed exchange, and only that, becomes a
      504 (gateway timeout). */
  lemma SocketFailureIsGatewayTimeout<R>(step: SocketStep, decodeDhi: seq<byte> -> Decoded<R>,
                                         decodeWhole: seq<byte> -> R, serialize: R -> string)
    ensures ServeDhiResponse(DhiOutcome(step, decodeDhi), serialize).status.Code() == 504
            <==> !step.Delivered?
    ensures ServeSpResponse(WholeBufferOutcome(step, decodeWhole), serialize).status.Code() == 504
            <==> !step.Delivered?
    ensures ServeIpsResponse(WholeBufferOutcome(step, decodeWhole), serialize).status.Code() == 504
            <==> !step.Delivered?
  {
  }

  /** A malformed DHI response is reported as a processing error (500), not as an
      internal error. */
  lemma MalformedDhiResponseIsParseError<R>(chunk: seq<byte>, decode: seq<byte> -> Decoded<R>,
                                            serialize: R -> string)
    requires decode(ReadInto(chunk)[LengthPrefixSize..]).Malformed?
    ensures ServeDhiResponse(DhiOutcome(Delivered(chunk), decode), serialize)
         == HttpResponse(InternalServerError, "plain/text", [], "Error processing data from DHI host")
  {
  }
}
