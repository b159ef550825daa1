/** The server object, method by method, against its specification. */
module ServerObject {
  import opened Bytes
  import opened Messages
  import opened Stream
  import opened Framing
  import opened Authentication
  import opened ServerSpec
  import Interleaved
  import T = Transport

  class ServerHandle<A> {
    const handlers: Handlers<A>
    const framer: Framer
    var pipelineRequests: seq<Request>
    var cache: seq<byte>
    var authParam: Authenticate
    var needMoreRtspMessage: bool
    var currentReq: Request
    var sessionId: string
    var prePipeRequest: seq<Request>
    var app: A
    var log: seq<Event>
    var binary: seq<seq<byte>>  // the framed packets passed to `send`

    function State(): ServerState<A>
      reads this
    {
      ServerState(sessionId, pipelineRequests, authParam, prePipeRequest, currentReq, app, log)
    }

    /** The flag adds nothing to the cache: it is set only over an unfinished message. */
    predicate FlagRedundant()
      reads this
    {
      needMoreRtspMessage ==> cache != [] && cache[0] != DOLLAR
    }

    constructor (handlers: Handlers<A>, framer: Framer, app: A)
      ensures this.handlers == handlers && this.framer == framer
      ensures State() == Initial(app) && cache == [] && FlagRedundant()
    {
      this.handlers, this.framer, this.app := handlers, framer, app;
      pipelineRequests, cache, prePipeRequest, log, binary := [], [], [], [], [];
      authParam, sessionId := BLANK, "";
      needMoreRtspMessage := false;
      currentReq := Request(Unnamed(""), "", map[], "");
    }

    method Send(res: Response)
      modifies `log
      ensures log == old(log) + [Answered(res)]
    {
      log := log + [Answered(res)];
    }

    method SendRtpRtcp(channel: int, payload: seq<byte>)
      modifies `binary
      ensures binary == old(binary) + [Interleaved.FrameOn(channel, payload)]
    {
      var frame := [DOLLAR, channel % 0x100, |payload| / 0x100 % 0x100, |payload| % 0x100];
      binary := binary + [frame + payload];
    }

    method VerifyAuthParams(req: Request) returns (passed: bool, thrown: bool)
      modifies `authParam
      ensures Verdict(passed, authParam, thrown) == Verify(old(authParam), req)
    {
      if Authorization !in req.headers {
        return false, false;
      }
      var parsed := RunParser(BLANK, req.headers[Authorization]);
      if parsed.thrown {
        return false, true;
      }
      var auth := parsed.auth;
      if authParam.scheme != auth.scheme {
        return false, false;
      }
      if authParam.scheme == BASIC {
        return BasicText(authParam) == auth.response, false;
      }
      authParam := authParam.(verb := req.verb);
      authParam := authParam.(uri := auth.uri);
      return auth.nonce == authParam.nonce && auth.response == MakeResponse(authParam), false;
    }

    method RunReplaySetup(req: Request, response: Response) returns (r: int, res: Response, error: Error)
      modifies `app, `sessionId, `log
      ensures Dispatched(State(), r, res, error) == ReplaySetup(handlers, old(State()), req, response)
    {
      hide T.Decode, T.ToString;
      res := response;
      if Transport !in req.headers {
        res := res.(status := UNSUPPORTED_TRANSPORT);
        return 0, res, Ok;
      }
      var decoded := T.DecodeTransportV1(req.headers[Transport], handlers.uninitialised);
      if decoded.None? {
        return 0, res, Undefined;
      }
      var transport := decoded.value;
      log := log + [Handled(req, sessionId)];
      var reply := handlers.onSetup(app, req, transport, res);
      app, res, transport := reply.app, reply.response, reply.transport;
      if reply.r != 0 {
        return -1, res, Ok;
      }
      if res.status == STATUS_OK {
        res := res.(headers := res.headers[Transport := T.ToString(transport)]);
        if sessionId == "" {
          var (app', id) := handlers.newSession(app);
          app, sessionId := app', id;
        }
      }
      return 0, res, Ok;
    }

    method RunHandleRequest(message: Request) returns (error: Error)
      modifies `app, `sessionId, `log, `authParam, `prePipeRequest, `pipelineRequests
      ensures Outcome(State(), error) == HandleRequest(handlers, old(State()), message)
    {
      hide Verify, GenAuthInfo, Admit;
      var request := Touched(message);
      var response := Greeting(request);
      if handlers.needAuth(app) {
        var passed, thrown := VerifyAuthParams(request);
        if thrown {
          return Thrown;
        }
        if !passed {
          response := response.(status := UNAUTHORIZED);
          var (app', param) := handlers.authParam(app);
          app, authParam := app', param;
          response := response.(headers := response.headers[WWWAuthenticate := GenAuthInfo(authParam)]);
          Send(response);
          return Ok;
        }
      }
      error := RunAdmit(request, response);
    }

    /** The rest of `handleRequest`, once the request is authenticated: the session rules. */
    method RunAdmit(request: Request, greeting: Response) returns (error: Error)
      requires greeting == Greeting(request)
      modifies `app, `sessionId, `log, `prePipeRequest, `pipelineRequests
      ensures Outcome(State(), error) == Admit(handlers, old(State()), request)
    {
      hide Dispatch, Handle;
      var response := greeting;
      var isPipelineRequest := Pipelined(request);
      if isPipelineRequest {
        if prePipeRequest != []
           && Get(prePipeRequest[0].headers, PipelinedRequests) != Get(request.headers, PipelinedRequests) {
          prePipeRequest := prePipeRequest[..|prePipeRequest| - 1];
        }
      } else if prePipeRequest != [] {
        prePipeRequest := prePipeRequest[..|prePipeRequest| - 1];
      }
      var prePipeHasSession := prePipeRequest != [] && Session in prePipeRequest[0].headers;
      if Session in request.headers {
        if sessionId != request.headers[Session] {
          response := response.(status := SESSION_NOT_FOUND);
          Send(response);
          return Ok;
        }
      } else if sessionId != "" && (!isPipelineRequest || prePipeHasSession) {
        response := response.(status := SESSION_NOT_FOUND);
        Send(response);
        return Ok;
      }
      error := RunHandle(request, response);
    }

    /** The end of `handleRequest`: the handler, then the reply or the deferral. */
    method RunHandle(request: Request, greeting: Response) returns (error: Error)
      modifies `app, `sessionId, `log, `pipelineRequests
      ensures Outcome(State(), error) == Handle(handlers, old(State()), request, greeting)
    {
      hide ReplaySetup;
      var response := greeting;
      var r := 0;
      if request.verb == SETUP {
        r, response, error := RunReplaySetup(request, response);
        if error != Ok {
          return;
        }
      } else if HasHandler(request.verb) {
        log := log + [Handled(request, sessionId)];
        var reply := handlers.onRequest(app, request, response);
        app, r, response := reply.app, reply.r, reply.response;
      }
      if r != 0 {
        pipelineRequests := pipelineRequests + [request];
        log := log + [Deferred(request)];
        return Ok;
      }
      if sessionId != "" {
        response := response.(headers := response.headers[Session := sessionId]);
      }
      if Pipelined(request) {
        response := response.(headers := response.headers[PipelinedRequests := request.headers[PipelinedRequests]]);
      }
      Send(response);
      error := Ok;
    }

    method HandleRtp(channel: byte, payload: seq<byte>)
      modifies `app, `log
      ensures State() == HandlePacket(handlers, old(State()), channel, payload)
    {
      log := log + [Delivered(channel, payload)];
      app := handlers.onPacket(app, channel, payload);
    }

    method RunHandleResponse(response: Response)
      modifies `app, `log
      ensures State() == HandleResponse(handlers, old(State()), response)
    {
      if AwaitsResponse(currentReq.verb) {
        log := log + [Told(currentReq.verb, response)];
        app := handlers.onResponse(app, currentReq.verb, response);
      }
    }

    /** One turn of the loop of `input`: the length of the item at `p`, 0 when it is not complete. */
    method Turn(buffer: seq<byte>, p: nat) returns (ret: nat, error: Error)
      requires p < |buffer|
      requires needMoreRtspMessage ==> buffer[p] != DOLLAR
      modifies `app, `sessionId, `log, `authParam, `prePipeRequest, `pipelineRequests, `needMoreRtspMessage
      ensures match Next(ServerReader(framer), buffer[p..])
              case Malformed => error == MsgParserFailed && State() == old(State())
                                && needMoreRtspMessage == old(needMoreRtspMessage)
              case Incomplete => error == Ok && ret == 0 && State() == old(State())
                                 && (needMoreRtspMessage <==> buffer[p] != DOLLAR)
              case Complete(n, item) =>
                Outcome(State(), error) == Step(handlers, old(State()), item)
                && (error == Ok ==> ret == n && !needMoreRtspMessage)
                && (error != Ok ==> needMoreRtspMessage == old(needMoreRtspMessage))
    {
      hide HandleRequest, HandleResponse, RtpOverRtsp;
      if buffer[p] == DOLLAR && !needMoreRtspMessage {
        var packet := RtpOverRtsp(buffer[p..]);
        if packet.Complete? {
          HandleRtp(packet.value.0, packet.value.1);
          return packet.length, Ok;
        }
        return 0, Ok;
      }
      match framer.request(buffer[p..]) {
        case Complete(n, request) =>
          error := RunHandleRequest(request);
          ret := n;
        case Incomplete =>
          needMoreRtspMessage := true;
          return 0, Ok;
        case Malformed =>
          match framer.response(buffer[p..]) {
            case Complete(n, response) =>
              RunHandleResponse(response);
              ret, error := n, Ok;
            case Incomplete =>
              needMoreRtspMessage := true;
              return 0, Ok;
            case Malformed =>
              return 0, MsgParserFailed;
          }
      }
      if error == Ok {
        needMoreRtspMessage := false;
      }
    }

    /** The loop of `input` over the buffer; `len` octets of it stay unprocessed. */
    method ProcessBuffer(buffer: seq<byte>) returns (len: nat, error: Error)
      requires Lawful(ServerReader(framer))
      requires needMoreRtspMessage ==> buffer != [] && buffer[0] != DOLLAR
      modifies `app, `sessionId, `log, `authParam, `prePipeRequest, `pipelineRequests, `needMoreRtspMessage
      ensures len <= |buffer|
      ensures Processed(State(), if error == Ok then buffer[|buffer| - len..] else [], error)
              == (var p := Process(ServerReader(framer), Stepper(handlers), old(State()), buffer);
                  p.(rest := if error == Ok then p.rest else []))
      ensures error == Ok ==> (needMoreRtspMessage <==> len > 0 && buffer[|buffer| - len] != DOLLAR)
      ensures error != Ok && needMoreRtspMessage ==> old(needMoreRtspMessage)
    {
      ghost var read, step := ServerReader(framer), Stepper(handlers);
      hide Stepper, Step, Lawful, Process, RtpOverRtsp, Next, ServerReader;
      var p := 0;
      len := |buffer|;
      assert buffer[0..] == buffer;
      var stop := false;
      while len > 0 && !stop
        invariant 0 <= p && p + len == |buffer|
        invariant !stop && needMoreRtspMessage ==> p == 0 && old(needMoreRtspMessage)
        invariant len == 0 ==> !needMoreRtspMessage
        invariant stop ==> len > 0 && (needMoreRtspMessage <==> buffer[p] != DOLLAR)
        invariant Process(read, step, old(State()), buffer)
                  == if stop then Processed(State(), buffer[p..], Ok) else Process(read, step, State(), buffer[p..])
        decreases !stop, len
      {
        ProcessFront(read, step, State(), buffer[p..]);
        StepperSteps(handlers, State());
        var ret;
        ret, error := Turn(buffer, p);
        if error != Ok {
          return;
        }
        stop := ret == 0;
        assert buffer[p..][0..] == buffer[p..];
        assert buffer[p + ret..] == buffer[p..][ret..];
        p := p + ret;
        len := len - ret;
      }
      ProcessFront(read, step, State(), buffer[p..]);
      error := Ok;
    }

    /** The octets to look at: those of the cache, if any, and the new ones. */
    method Gather(msg: seq<byte>) returns (buffer: seq<byte>)
      modifies `cache
      ensures buffer == old(cache) + msg && cache == Untrimmed(old(cache), msg)
    {
      buffer := msg;
      if cache != [] {
        cache := cache + msg;
        buffer := cache;
      }
      assert [] + msg == msg;
    }

    /**
     * The demultiplexer. Its outcome is that of the specification, which has no flag; the flag
     * is redundant after every call, failed ones included.
     */
    method Input(msg: seq<byte>) returns (error: Error)
      requires LawfulFramer(framer) && FlagRedundant()
      modifies `app, `sessionId, `log, `authParam, `prePipeRequest, `pipelineRequests, `cache, `needMoreRtspMessage
      ensures FlagRedundant()
      ensures error == Ok ==> (needMoreRtspMessage <==> cache != [] && cache[0] != DOLLAR)
      ensures Fed(Connection(State(), cache), error)
              == ServerFeed(handlers, framer, Connection(old(State()), old(cache)), msg)
    {
      hide ServerFeed, Stepper, Step, LawfulFramer, Lawful, Process, RtpOverRtsp, Next, ServerReader;
      var buffer := Gather(msg);
      ServerFeedIsProcess(handlers, framer, Connection(old(State()), old(cache)), msg);
      var len;
      len, error := ProcessBuffer(buffer);
      if error == Ok {
        KeepRest(msg, len, old(cache));
      }
    }

    /** The end of `input`: the unprocessed octets stay in the cache. */
    method KeepRest(msg: seq<byte>, len: nat, ghost before: seq<byte>)
      requires cache == Untrimmed(before, msg) && len <= |before + msg|
      modifies `cache
      ensures cache == (before + msg)[|before + msg| - len..]
    {
      if cache == [] {
        assert before + msg == msg;
        if len > 0 {
          cache := msg[|msg| - len..];
        }
      } else {
        cache := cache[|cache| - len..];
      }
    }

    method RunSendResponse(response: Response) returns (error: Error)
      modifies `pipelineRequests, `log
      ensures Outcome(State(), error) == SendResponse(old(State()), response)
    {
      var res := response;
      if sessionId != "" {
        res := res.(headers := res.headers[Session := sessionId]);
      }
      if pipelineRequests == [] {
        return PipelineEmpty;
      }
      var req := pipelineRequests[0];
      res := res.(headers := res.headers[CSeq := Get(req.headers, CSeq)]);
      if Pipelined(req) {
        res := res.(headers := res.headers[PipelinedRequests := req.headers[PipelinedRequests]]);
      }
      log := log + [AnsweredLater(res)];
      pipelineRequests := pipelineRequests[1..];
      return Ok;
    }

    method RunSendRtspMessage(req: Request, cseq: string)
      modifies `currentReq, `log
      ensures State() == SendRtspMessage(old(State()), req, cseq)
    {
      currentReq := req;
      currentReq := currentReq.(headers := currentReq.headers[Session := sessionId]);
      currentReq := currentReq.(headers := currentReq.headers[CSeq := cseq]);
      log := log + [Requested(currentReq)];
    }
  }
}
