/** How each HTTP handler turns the outcome of its backend exchange into an HTTP
    response (the `match res` blocks of `serve_dhi_request`, `serve_sp_request`
    and `serve_ips_request` in src/main.rs), and the classification table those
    three blocks are meant to share. */
module Responses {
  import opened Errors

  datatype Channel = Dhi | Sp | Ips

  /** The host name the error bodies mention. */
  function HostName(ch: Channel): string {
    match ch
    case Dhi => "DHI"
    case Sp => "SP"
    case Ips => "IPS"
  }

  datatype Status = Success | GatewayTimeout | InternalServerError {
    function Code(): nat {
      match this
      case Success => 200
      case GatewayTimeout => 504
      case InternalServerError => 500
    }
  }

  datatype HttpResponse = HttpResponse(
    status: Status,
    contentType: string,
    headers: seq<(string, string)>,
    body: string)

  datatype Option<T> = None | Some(value: T)

  // ---------------------------------------------------------------------------
  // The classification table: one kind per error, a status per kind, a generic
  // body per kind and channel.

  datatype ErrorKind = Io | Parse | Serialize | Unclassified

  function KindOf(e: AppError): ErrorKind {
    match e
    case IoError(_) => Io
    case ParseError(_) => Parse
    case SerializeError(_) => Serialize
    case OtherError(_) => Unclassified
  }

  function StatusOf(k: ErrorKind): Status {
    if k == Io then GatewayTimeout else InternalServerError
  }

  function MessageOf(k: ErrorKind, ch: Channel): string {
    match k
    case Io => "Error communicating with " + HostName(ch) + " host"
    case Parse => "Error processing data from " + HostName(ch) + " host"
    case Serialize => "Serialization error"
    case Unclassified => "Internal error"
  }

  /** The response to a failed request on channel `ch`: only the kind of the
      error matters, its detail is never sent. */
  function ErrorReply(ch: Channel, e: AppError): (r: HttpResponse)
    ensures r.contentType == "plain/text" && r.headers == []
    ensures r.status.Code() == 504 <==> e.IoError?
    ensures r.status.Code() == 500 <==> !e.IoError?
    ensures e.IoError? ==> r.body == "Error communicating with " + HostName(ch) + " host"
    ensures e.ParseError? ==> r.body == "Error processing data from " + HostName(ch) + " host"
    ensures e.SerializeError? ==> r.body == "Serialization error"
    ensures e.OtherError? ==> r.body == "Internal error"
  {
    var k := KindOf(e);
    HttpResponse(StatusOf(k), "plain/text", [], MessageOf(k, ch))
  }

  /** The body content type of a successful reply. */
  function SuccessContentType(ch: Channel): string {
    if ch == Dhi then "application/json" else "text/xml"
  }

  /** The response to a successful request: status 200, the header
      `X-Hdr: sample`, and the serialized backend response as the body, unchanged. */
  function SuccessReply(ch: Channel, body: string): (r: HttpResponse)
    ensures r.status.Code() == 200
    ensures r.headers == [("X-Hdr", "sample")]
    ensures r.contentType == (if ch == Dhi then "application/json" else "text/xml")
    ensures r.body == body
  {
    HttpResponse(Success, SuccessContentType(ch), [("X-Hdr", "sample")], body)
  }

  // ---------------------------------------------------------------------------
  // The three handlers' `match` blocks, as written, one per channel.

  /** `serve_dhi_request` after `talk_to_dhi_host`; `serialize` is the response
      codec's `serialize().unwrap()`. */
  function ServeDhiResponse<R>(res: Result<R>, serialize: R -> string): (r: HttpResponse)
    ensures res.Ok? ==> r == SuccessReply(Dhi, serialize(res.value))
    ensures res.Err? ==> r == ErrorReply(Dhi, res.error)
  {
    match res
    case Ok(v) => HttpResponse(Success, "application/json", [("X-Hdr", "sample")], serialize(v))
    case Err(IoError(_)) =>
      HttpResponse(GatewayTimeout, "plain/text", [], "Error communicating with DHI host")
    case Err(ParseError(_)) =>
      HttpResponse(InternalServerError, "plain/text", [], "Error processing data from DHI host")
    case Err(SerializeError(_)) =>
      HttpResponse(InternalServerError, "plain/text", [], "Serialization error")
    case Err(_) =>
      HttpResponse(InternalServerError, "plain/text", [], "Internal error")
  }

  /** `serve_sp_request` after `talk_to_sp_host`. */
  function ServeSpResponse<R>(res: Result<R>, serialize: R -> string): (r: HttpResponse)
    ensures res.Ok? ==> r == SuccessReply(Sp, serialize(res.value))
    ensures res.Err? ==> r == ErrorReply(Sp, res.error)
  {
    match res
    case Ok(v) => HttpResponse(Success, "text/xml", [("X-Hdr", "sample")], serialize(v))
    case Err(IoError(_)) =>
      HttpResponse(GatewayTimeout, "plain/text", [], "Error communicating with SP host")
    case Err(ParseError(_)) =>
      HttpResponse(InternalServerError, "plain/text", [], "Error processing data from SP host")
    case Err(SerializeError(_)) =>
      HttpResponse(InternalServerError, "plain/text", [], "Serialization error")
    case Err(_) =>
      HttpResponse(InternalServerError, "plain/text", [], "Internal error")
  }

  /** `serve_ips_request` after `talk_to_ips_host`. */
  function ServeIpsResponse<R>(res: Result<R>, serialize: R -> string): (r: HttpResponse)
    ensures res.Ok? ==> r == SuccessReply(Ips, serialize(res.value))
    ensures res.Err? ==> r == ErrorReply(Ips, res.error)
  {
    match res
    case Ok(v) => HttpResponse(Success, "text/xml", [("X-Hdr", "sample")], serialize(v))
    case Err(IoError(_)) =>
      HttpResponse(GatewayTimeout, "plain/text", [], "Error communicating with IPS host")
    case Err(ParseError(_)) =>
      HttpResponse(InternalServerError, "plain/text", [], "Error processing data from IPS host")
    case Err(SerializeError(_)) =>
      HttpResponse(InternalServerError, "plain/text", [], "Serialization error")
    case Err(_) =>
      HttpResponse(InternalServerError, "plain/text", [], "Internal error")
  }

  // ---------------------------------------------------------------------------
  // Reading a response back: what a client can tell from it.

  /** The error kind a client reads off a response of channel `ch`, or `None`
      when the response reports success. */
  function KindOfReply(ch: Channel, r: HttpResponse): Option<ErrorKind> {
    if r.status == Success then None
    else if r.status == GatewayTimeout then Some(Io)
    else if r.body == MessageOf(Parse, ch) then Some(Parse)
    else if r.body == MessageOf(Serialize, ch) then Some(Serialize)
    else Some(Unclassified)
  }

  /** Every error kind can be told apart from every other, and from success, by
      the response alone: reading the reply back recovers the kind. */
  lemma ErrorKindIsRecoverable(ch: Channel, e: AppError)
    ensures KindOfReply(ch, ErrorReply(ch, e)) == Some(KindOf(e))
  {
  }

  /** A successful reply is never read as an error. */
  lemma SuccessIsRecognised(ch: Channel, body: string)
    ensures KindOfReply(ch, SuccessReply(ch, body)) == None
  {
  }

  /** The handlers agree with the table on every channel and every outcome:
      the classification is total and has the same shape for all three. */
  lemma HandlersFollowTable<R>(res: Result<R>, serialize: R -> string)
    ensures res.Err? ==> KindOfReply(Dhi, ServeDhiResponse(res, serialize)) == Some(KindOf(res.error))
    ensures res.Err? ==> KindOfReply(Sp, ServeSpResponse(res, serialize)) == Some(KindOf(res.error))
    ensures res.Err? ==> KindOfReply(Ips, ServeIpsResponse(res, serialize)) == Some(KindOf(res.error))
    ensures res.Ok? ==> ServeDhiResponse(res, serialize).status.Code() == 200
    ensures res.Ok? ==> ServeSpResponse(res, serialize) == ServeIpsResponse(res, serialize)
    ensures ServeDhiResponse(res, serialize).status == ServeSpResponse(res, serialize).status
    ensures ServeSpResponse(res, serialize).status == ServeIpsResponse(res, serialize).status
  {
  }

  /** The error body names the channel exactly for the communication and
      processing errors, so replies of different channels differ there. */
  lemma ErrorBodyNamesChannel(ch1: Channel, ch2: Channel, e: AppError)
    requires ch1 != ch2
    ensures (e.IoError? || e.ParseError?) <==> ErrorReply(ch1, e) != ErrorReply(ch2, e)
  {
    var k := KindOf(e);
    if k == Io || k == Parse {
      var lead := if k == Io then "Error communicating with " else "Error processing data from ";
      assert MessageOf(k, ch1)[|lead|..|lead| + |HostName(ch1)|] == HostName(ch1);
      assert MessageOf(k, ch2)[|lead|..|lead| + |HostName(ch2)|] == HostName(ch2);
      if |HostName(ch1)| == |HostName(ch2)| {
        assert HostName(ch1) != HostName(ch2);
      } else {
        assert |MessageOf(k, ch1)| != |MessageOf(k, ch2)|;
      }
    }
  }
}
