/** Message framing: what the stack asks of the HTTP parser, and one parser that provides it. */
module Framing {
  import opened Bytes
  import opened Options
  import opened Messages
  import opened Stream

  datatype Rtsp = Req(request: Request) | Res(response: Response)

  // `RtspRequest::read` and `RtspResponse::read`
  datatype Framer = Framer(request: seq<byte> -> Read<Request>, response: seq<byte> -> Read<Response>)

  ghost predicate LawfulFramer(f: Framer) {
    Lawful(f.request) && Lawful(f.response)
  }

  /** The server tries a request first, then a response. */
  function ServerRead(f: Framer, b: seq<byte>): Read<Rtsp> {
    match f.request(b)
    case Complete(n, r) => Complete(n, Req(r))
    case Incomplete => Incomplete
    case Malformed =>
      match f.response(b)
      case Complete(n, r) => Complete(n, Res(r))
      case Incomplete => Incomplete
      case Malformed => Malformed
  }

  /** The client tries a response first, then a request. */
  function ClientRead(f: Framer, b: seq<byte>): Read<Rtsp> {
    match f.response(b)
    case Complete(n, r) => Complete(n, Res(r))
    case Incomplete => Incomplete
    case Malformed =>
      match f.request(b)
      case Complete(n, r) => Complete(n, Req(r))
      case Incomplete => Incomplete
      case Malformed => Malformed
  }

  function ServerReader(f: Framer): seq<byte> -> Read<Rtsp> { b => ServerRead(f, b) }
  function ClientReader(f: Framer): seq<byte> -> Read<Rtsp> { b => ClientRead(f, b) }

  lemma ReadersLawful(f: Framer)
    requires LawfulFramer(f)
    ensures Lawful(ServerReader(f)) && Lawful(ClientReader(f))
  {
    forall b: seq<byte>, more: seq<byte>
      ensures !ServerRead(f, b).Incomplete? ==> ServerRead(f, b + more) == ServerRead(f, b)
      ensures !ClientRead(f, b).Incomplete? ==> ClientRead(f, b + more) == ClientRead(f, b)
    {
      assert !f.request(b).Incomplete? ==> f.request(b + more) == f.request(b);
      assert !f.response(b).Incomplete? ==> f.response(b + more) == f.response(b);
    }
    assert forall b: seq<byte>, more: seq<byte> {:trigger ServerReader(f)(b + more)} ::
        !ServerReader(f)(b).Incomplete? ==> ServerReader(f)(b + more) == ServerReader(f)(b);
    assert forall b: seq<byte>, more: seq<byte> {:trigger ClientReader(f)(b + more)} ::
        !ClientReader(f)(b).Incomplete? ==> ClientReader(f)(b + more) == ClientReader(f)(b);
  }

  // A lawful parser: a header up to an empty line, then as many octets as the header says

  const CRLF2: seq<byte> := [13, 10, 13, 10]
  const VERSION: seq<byte> := [0x52, 0x54, 0x53, 0x50, 0x2F]  // RTSP/

  /** The length of the header, empty line included. */
  function HeaderLength(b: seq<byte>): (r: Option<nat>)
    ensures r.Some? ==> 4 <= r.value <= |b|
  {
    if |b| < 4 then None
    else if b[..4] == CRLF2 then Some(4)
    else match HeaderLength(b[1..])
         case None => None
         case Some(n) => Some(n + 1)
  }

  lemma {:induction false} HeaderStable(b: seq<byte>, more: seq<byte>)
    requires HeaderLength(b).Some?
    ensures HeaderLength(b + more) == HeaderLength(b)
  {
    assert (b + more)[..4] == b[..4];
    if b[..4] != CRLF2 {
      assert (b + more)[1..] == b[1..] + more;
      HeaderStable(b[1..], more);
    }
  }

  /** `bodyLength` reads the Content-Length out of a header; `None` for a number it cannot read. */
  function ReadText(bodyLength: seq<byte> -> Option<nat>, b: seq<byte>): Read<seq<byte>> {
    match HeaderLength(b)
    case None => Incomplete
    case Some(n) =>
      match bodyLength(b[..n])
      case None => Malformed
      case Some(k) => if |b| < n + k then Incomplete else Complete(n + k, b[..n + k])
  }

  lemma TextStable(bodyLength: seq<byte> -> Option<nat>, b: seq<byte>, more: seq<byte>)
    requires !ReadText(bodyLength, b).Incomplete?
    ensures ReadText(bodyLength, b + more) == ReadText(bodyLength, b)
  {
    HeaderStable(b, more);
    hide HeaderLength;
    var n := HeaderLength(b).value;
    assert (b + more)[..n] == b[..n];
    if bodyLength(b[..n]).Some? {
      var k := bodyLength(b[..n]).value;
      assert (b + more)[..n + k] == b[..n + k];
    }
  }

  /** No octet of `b` contradicts `p`, as far as both go. */
  predicate Agrees(b: seq<byte>, p: seq<byte>) {
    forall i :: 0 <= i < |b| && i < |p| ==> b[i] == p[i]
  }

  lemma AgreesStable(b: seq<byte>, more: seq<byte>, p: seq<byte>)
    ensures !Agrees(b, p) ==> !Agrees(b + more, p)
    ensures |b| >= |p| ==> (Agrees(b + more, p) <==> Agrees(b, p))
  {
    if i :| 0 <= i < |b| && i < |p| && b[i] != p[i] {
      assert (b + more)[i] == b[i];
    }
    if |b| >= |p| && Agrees(b, p) {
      assert forall i :: 0 <= i < |p| ==> (b + more)[i] == b[i];
    }
  }

  function MapRead<T>(r: Read<seq<byte>>, build: seq<byte> -> T): Read<T> {
    match r
    case Malformed => Malformed
    case Incomplete => Incomplete
    case Complete(n, text) => Complete(n, build(text))
  }

  function ReadRequestText<T>(bodyLength: seq<byte> -> Option<nat>, build: seq<byte> -> T, b: seq<byte>): Read<T> {
    if !Agrees(b, VERSION) then MapRead(ReadText(bodyLength, b), build)
    else if |b| < |VERSION| then Incomplete
    else Malformed
  }

  function ReadResponseText<T>(bodyLength: seq<byte> -> Option<nat>, build: seq<byte> -> T, b: seq<byte>): Read<T> {
    if !Agrees(b, VERSION) then Malformed
    else if |b| < |VERSION| then Incomplete
    else MapRead(ReadText(bodyLength, b), build)
  }

  function RequestReader<T>(bodyLength: seq<byte> -> Option<nat>, build: seq<byte> -> T): seq<byte> -> Read<T> {
    b => ReadRequestText(bodyLength, build, b)
  }

  function ResponseReader<T>(bodyLength: seq<byte> -> Option<nat>, build: seq<byte> -> T): seq<byte> -> Read<T> {
    b => ReadResponseText(bodyLength, build, b)
  }

  function TextFramer(bodyLength: seq<byte> -> Option<nat>,
                      request: seq<byte> -> Request, response: seq<byte> -> Response): Framer {
    Framer(RequestReader(bodyLength, request), ResponseReader(bodyLength, response))
  }

  lemma TextFramerStable<T>(bodyLength: seq<byte> -> Option<nat>, build: seq<byte> -> T, b: seq<byte>, more: seq<byte>)
    ensures !ReadRequestText(bodyLength, build, b).Incomplete? ==>
              ReadRequestText(bodyLength, build, b + more) == ReadRequestText(bodyLength, build, b)
    ensures !ReadResponseText(bodyLength, build, b).Incomplete? ==>
              ReadResponseText(bodyLength, build, b + more) == ReadResponseText(bodyLength, build, b)
  {
    AgreesStable(b, more, VERSION);
    hide Agrees, ReadText;
    if !ReadText(bodyLength, b).Incomplete? {
      TextStable(bodyLength, b, more);
    }
  }

  lemma LengthsWithin<T>(bodyLength: seq<byte> -> Option<nat>, build: seq<byte> -> T, b: seq<byte>)
    ensures ReadRequestText(bodyLength, build, b).Complete? ==>
              0 < ReadRequestText(bodyLength, build, b).length <= |b|
    ensures ReadResponseText(bodyLength, build, b).Complete? ==>
              0 < ReadResponseText(bodyLength, build, b).length <= |b|
  {
    hide Agrees, HeaderLength;
  }

  lemma TextReadersLawful<T(!new)>(bodyLength: seq<byte> -> Option<nat>, build: seq<byte> -> T)
    ensures Lawful(RequestReader(bodyLength, build)) && Lawful(ResponseReader(bodyLength, build))
  {
    hide ReadRequestText, ReadResponseText;
    var f, g := RequestReader(bodyLength, build), ResponseReader(bodyLength, build);
    forall b: seq<byte>
      ensures f(b).Complete? ==> 0 < f(b).length <= |b|
      ensures g(b).Complete? ==> 0 < g(b).length <= |b|
    {
      LengthsWithin(bodyLength, build, b);
    }
    forall b: seq<byte>, more: seq<byte> {:trigger f(b + more)}
      ensures !f(b).Incomplete? ==> f(b + more) == f(b)
    {
      TextFramerStable(bodyLength, build, b, more);
    }
    forall b: seq<byte>, more: seq<byte> {:trigger g(b + more)}
      ensures !g(b).Incomplete? ==> g(b + more) == g(b)
    {
      TextFramerStable(bodyLength, build, b, more);
    }
  }

  /** The laws hold of this framer, whatever it makes of the text of a message. */
  lemma TextFramerLawful(bodyLength: seq<byte> -> Option<nat>,
                         request: seq<byte> -> Request, response: seq<byte> -> Response)
    ensures LawfulFramer(TextFramer(bodyLength, request, response))
  {
    hide Lawful, RequestReader, ResponseReader;
    TextReadersLawful(bodyLength, request);
    TextReadersLawful(bodyLength, response);
  }
}
