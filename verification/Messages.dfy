/** RTSP messages as records; their text form belongs to the HTTP parser, which is not modelled. */
module Messages {

  datatype Method =
    | OPTIONS | DESCRIBE | SETUP | PLAY | PAUSE | TEARDOWN | ANNOUNCE | RECORD
    | GET_PARAMETER | SET_PARAMETER | REDIRECT | PLAY_NOTIFY | Unnamed(name: string)

  function MethodName(m: Method): string {
    match m
    case OPTIONS => "OPTIONS"
    case DESCRIBE => "DESCRIBE"
    case SETUP => "SETUP"
    case PLAY => "PLAY"
    case PAUSE => "PAUSE"
    case TEARDOWN => "TEARDOWN"
    case ANNOUNCE => "ANNOUNCE"
    case RECORD => "RECORD"
    case GET_PARAMETER => "GET_PARAMETER"
    case SET_PARAMETER => "SET_PARAMETER"
    case REDIRECT => "REDIRECT"
    case PLAY_NOTIFY => "PLAY_NOTIFY"
    case Unnamed(name) => name
  }

  /** A method is told by its name, and the name of none but an unnamed one can be another's. */
  lemma NamesApart(m: Method, n: Method)
    requires MethodName(m) == MethodName(n) && !m.Unnamed? && !n.Unnamed?
    ensures m == n
  {
    var name := MethodName(m);
    assert name[0] == MethodName(n)[0] && |name| == |MethodName(n)|;
    assert name[|name| - 1] == MethodName(n)[|name| - 1];
  }

  // Header names the stack itself reads or writes; every other name is `Other`
  datatype Header =
    | CSeq | Session | Transport | PipelinedRequests | Authorization | WWWAuthenticate | Server | UserAgent
    | Other(name: string)

  type Headers = map<Header, string>

  datatype Request = Request(verb: Method, url: string, headers: Headers, body: string)
  datatype Response = Response(status: int, headers: Headers, body: string)

  /** `operator[]` on a message that may be written: a missing header reads as the empty string. */
  function Get(h: Headers, k: Header): string {
    if k in h then h[k] else ""
  }

  const STATUS_OK: int := 200
  const UNAUTHORIZED: int := 401
  const SESSION_NOT_FOUND: int := 454
  const UNSUPPORTED_TRANSPORT: int := 461
  const NOT_IMPLEMENTED: int := 501

  const SERVER_NAME := "rtsp2-server"

  datatype Error =
    | Ok | MsgParserFailed | RtpParserFailed | SessionIdError | MediaNotExist | NeedTransport
    | PipelineEmpty | PipelineNotFound
    | Thrown     // an exception leaves the call
    | Undefined  // an iterator or index outside its range is used
}
