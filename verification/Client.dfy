/** The client object, method by method, against its specification. */
module ClientObject {
  import opened Bytes
  import opened Options
  import opened Decimal
  import opened Messages
  import opened Stream
  import opened ClientStream
  import opened Framing
  import opened Authentication
  import opened ClientSpec
  import Interleaved
  import T = Transport

  class Client {
    const config: Config
    const framer: Framer
    var needAuth: bool
    var auth: Authenticate
    var sdp: Sdp
    var cseq: nat
    var session: SessionId
    var transports: seq<Track>
    var setupIter: int
    var cache: seq<byte>
    var needMoreRtspMessage: bool
    var isAggregate: bool
    var mediaStep: nat
    var pipelinedRequestId: int
    var pipelines: map<int, seq<Request>>
    var log: seq<ClientEvent>
    var binary: seq<seq<byte>>  // the framed packets passed to the output callback

    function State(): ClientState
      reads this
    {
      ClientState(needAuth, auth, sdp, cseq, session, transports, setupIter, isAggregate, mediaStep,
                  pipelinedRequestId, pipelines, log)
    }

    predicate FlagRedundant()
      reads this
    {
      needMoreRtspMessage ==> cache != [] && cache[0] != DOLLAR
    }

    constructor (config: Config, framer: Framer, username: string, password: string, uri: string)
      ensures this.config == config && this.framer == framer
      ensures State() == Initial(username, password, uri) && cache == [] && FlagRedundant()
    {
      this.config, this.framer := config, framer;
      needAuth, auth := false, BLANK.(username := username, password := password, uri := uri);
      sdp, cseq, session := Sdp("", []), 0, SessionId("", 60);
      transports, setupIter, cache, needMoreRtspMessage := [], -1, [], false;
      isAggregate, mediaStep, pipelinedRequestId, pipelines := false, 0, 0, map[];
      log, binary := [], [];
    }

    method Out(e: ClientEvent)
      modifies `log
      ensures log == old(log) + [e]
    {
      log := log + [e];
    }

    method PushInterleavedBinaryData(channel: byte, payload: seq<byte>)
      modifies `binary
      ensures binary == old(binary) + [Interleaved.Frame(channel, payload)]
    {
      var frame := [DOLLAR, channel, |payload| / 0x100 % 0x100, |payload| % 0x100];
      binary := binary + [frame + payload];
    }

    method RunMakeRequest(verb: Method) returns (req: Request)
      modifies `cseq, `pipelines
      ensures (State(), req) == MakeRequest(old(State()), verb)
    {
      hide Credentials, ToDecimal;
      req := Request(verb, auth.uri, map[UserAgent := USER_AGENT], "");
      if needAuth {
        req := req.(headers := req.headers[Authorization := Credentials(auth)]);
      }
      req := req.(headers := req.headers[CSeq := ToDecimal(cseq)]);
      cseq := cseq + 1;
      if session.id != "" {
        req := req.(headers := req.headers[Session := session.id]);
      }
      if pipelinedRequestId > 0 {
        req := req.(headers := req.headers[PipelinedRequests := ToDecimal(pipelinedRequestId)]);
        var queue := if pipelinedRequestId in pipelines then pipelines[pipelinedRequestId] else [];
        pipelines := pipelines[pipelinedRequestId := queue + [req]];
      }
    }

    method RunSendWith(verb: Method, extra: Headers, body: string)
      modifies `cseq, `pipelines, `log
      ensures State() == SendWith(old(State()), verb, extra, body)
    {
      hide MakeRequest;
      var req := RunMakeRequest(verb);
      req := req.(headers := extra + req.headers);
      req := req.(body := body);
      Out(Sent(req));
    }

    /** The loop over the media descriptions: the last one with the name wins. */
    method LookUp(name: string, otherwise: string) returns (uri: string)
      ensures uri == TrackUrl(sdp.medias, name, otherwise)
    {
      uri := otherwise;
      for i := 0 to |sdp.medias|
        invariant uri == TrackUrl(sdp.medias[..i], name, otherwise)
      {
        LastTrack(sdp.medias, i, name, otherwise);
        if sdp.medias[i].name == name {
          uri := sdp.medias[i].url;
        }
      }
      assert sdp.medias[..|sdp.medias|] == sdp.medias;
    }

    /** `setup` of one track. */
    method RunSendSetup(track: Track)
      modifies `auth, `transports, `setupIter, `cseq, `pipelines, `log
      ensures State() == SendSetup(old(State()), track)
    {
      hide MakeRequest, T.ToString, TrackUrl;
      auth := auth.(verb := SETUP);
      var uri := LookUp(track.0, auth.uri);
      auth := auth.(uri := uri);
      if transports == [] {
        transports := transports + [track];
        assert transports == [track];
        setupIter := |transports| - 1;
      }
      var req := RunMakeRequest(SETUP);
      req := req.(headers := req.headers[Transport := T.ToString(track.1)]);
      Out(Sent(req));
    }

    /** `setup` of all tracks: one request, or with a pipeline all of them at once. */
    method RunSetupAll(tracks: seq<Track>) returns (error: Error)
      modifies `auth, `transports, `setupIter, `cseq, `pipelines, `log
      ensures Outcome(State(), error) == SetupAll(old(State()), tracks)
    {
      hide SendSetup, SetupBurst;
      if |tracks| == 0 {
        return NeedTransport;
      }
      transports := tracks;
      setupIter := 0;
      ghost var start := State();
      SendSetupKeeps(start, tracks[0]);
      BurstFront(start, 0);
      RunSendSetup(tracks[0]);
      if pipelinedRequestId > 0 {
        BurstFront(State(), 1);
        setupIter := setupIter + 1;
        while setupIter != |transports|
          invariant 0 < setupIter <= |transports| && transports == tracks
          invariant SetupBurst(start, 0) == SetupBurst(State(), setupIter)
          decreases |transports| - setupIter
        {
          BurstFront(State(), setupIter);
          SendSetupKeeps(State(), tracks[setupIter]);
          RunSendSetup(tracks[setupIter]);
          BurstFront(State(), setupIter + 1);
          setupIter := setupIter + 1;
        }
        BurstFront(State(), setupIter);
      }
      return Ok;
    }

    method RunPlay(extra: Headers) returns (error: Error)
      modifies `auth, `mediaStep, `cseq, `pipelines, `log
      ensures Outcome(State(), error) == Control(old(State()), PLAY, extra)
    {
      hide SendWith, SendForMedia;
      auth := auth.(verb := PLAY);
      if isAggregate {
        auth := auth.(uri := sdp.aggregateUrl);
        RunSendWith(PLAY, extra, "");
        return Ok;
      }
      ghost var start := State();
      error := RunSendForNext(PLAY, extra);
      while error == Ok && pipelinedRequestId > 0 && mediaStep < |sdp.medias|
        invariant pipelinedRequestId == old(pipelinedRequestId) && sdp == old(sdp)
        invariant SendForRest(start, PLAY, extra)
                  == if error == Ok && pipelinedRequestId > 0 && mediaStep < |sdp.medias|
                     then SendForRest(State(), PLAY, extra) else Outcome(State(), error)
        decreases |sdp.medias| - mediaStep
      {
        error := RunSendForNext(PLAY, extra);
      }
    }

    method RunSendForNext(verb: Method, extra: Headers) returns (error: Error)
      modifies `auth, `mediaStep, `cseq, `pipelines, `log
      ensures Outcome(State(), error) == SendForNext(old(State()), verb, extra)
      ensures old(mediaStep) < |sdp.medias| ==> mediaStep == old(mediaStep) + 1
    {
      hide SendWith;
      if mediaStep >= |sdp.medias| {
        return Undefined;
      }
      var name := sdp.medias[mediaStep].name;
      mediaStep := mediaStep + 1;
      auth := auth.(verb := verb);
      match FirstUrl(sdp.medias, name) {
        case None =>
          return MediaNotExist;
        case Some(url) =>
          auth := auth.(uri := url);
          RunSendWith(verb, extra, "");
          return Ok;
      }
    }

    method RunAdopt(res: Response) returns (error: Error)
      modifies `session
      ensures Outcome(State(), error) == Adopt(old(State()), res)
    {
      hide ParseSession;
      if session.id == "" && Session in res.headers {
        var (id, thrown) := ParseSession(res.headers[Session]);
        if thrown {
          session := session.(id := id.id);
          return Thrown;
        }
        session := id;
      }
      return Ok;
    }

    method RunHandleUnAuth(res: Response) returns (error: Error)
      modifies `auth, `needAuth, `cseq, `log
      ensures Outcome(State(), error) == HandleUnAuth(old(State()), res)
    {
      hide Parser, Credentials;
      if WWWAuthenticate !in res.headers {
        return Thrown;
      }
      var parsed := RunParser(auth, res.headers[WWWAuthenticate]);
      auth := parsed.auth;
      if parsed.thrown {
        return Thrown;
      }
      needAuth := true;
      var req := Request(auth.verb, auth.uri, map[UserAgent := USER_AGENT], "");
      req := req.(headers := req.headers[Authorization := Credentials(auth)]);
      req := req.(headers := req.headers[CSeq := [(cseq % 256) as char]]);
      cseq := cseq + 1;
      Out(Retransmitted(req));
      return Ok;
    }

    method RunHandleDescribe(res: Response)
      modifies `sdp, `isAggregate, `log
      ensures State() == HandleDescribe(config, old(State()), res)
    {
      var base := if Other("Content-Base") in res.headers then res.headers[Other("Content-Base")]
                  else if Other("Content-Location") in res.headers then res.headers[Other("Content-Location")]
                  else auth.uri;
      sdp := config.readSdp(res.body, base, auth.uri, isAggregate);
      if sdp.aggregateUrl != "" {
        isAggregate := true;
      }
      Out(Described(res, sdp));
    }

    /** A sequential SETUP reply: keeps what was granted, then sets up the next track. */
    method RunHandleSetup(res: Response) returns (error: Error)
      modifies `auth, `session, `transports, `setupIter, `cseq, `pipelines, `log
      ensures Outcome(State(), error) == HandleSetup(config, old(State()), res)
    {
      hide T.Decode, SendSetup, Adopt;
      if !(0 <= setupIter < |transports|) {
        return Undefined;
      }
      var (media, transport) := transports[setupIter];
      if res.status != STATUS_OK {
        Out(SetUp(res, session, media, transport));
        return Ok;
      }
      if Transport !in res.headers {
        return Thrown;
      }
      var decoded := T.DecodeTransportV1(res.headers[Transport], config.uninitialised);
      if decoded.None? {
        return Undefined;
      }
      var granted := decoded.value;
      AdoptKeeps(State(), res);
      error := RunAdopt(res);
      if error != Ok {
        return;
      }
      transports := transports[setupIter := (media, granted)];
      Out(SetUp(res, session, media, granted));
      setupIter := setupIter + 1;
      if setupIter != |transports| {
        RunSendSetup(transports[setupIter]);
      }
    }

    method RunHandleControl(verb: Method, res: Response) returns (error: Error)
      modifies `auth, `mediaStep, `cseq, `pipelines, `log
      ensures Outcome(State(), error) == HandleControl(old(State()), verb, res)
    {
      hide SendForNext;
      if isAggregate || mediaStep >= |sdp.medias| || (verb in {Method.PLAY, RECORD} && res.status != STATUS_OK) {
        Out(Called(verb, res));
        return Ok;
      }
      error := RunSendForNext(verb, map[]);
    }

    method RunPipelinedSetup(req: Request, res: Response) returns (error: Error)
      modifies `session, `log
      ensures Outcome(State(), error) == PipelinedSetup(config, old(State()), req, res)
    {
      hide T.Decode, Adopt;
      if Transport !in res.headers {
        return Thrown;
      }
      var decoded := T.DecodeTransportV1(res.headers[Transport], config.uninitialised);
      if decoded.None? {
        return Undefined;
      }
      var t := decoded.value;
      error := RunAdopt(res);
      if error != Ok {
        return;
      }
      ghost var start := State();
      assert sdp.medias[0..] == sdp.medias;
      for i := 0 to |sdp.medias|
        invariant State() == start.(log := log)
        invariant SetUpCalls(start, sdp.medias, req.url, res, t)
          == SetUpCalls(State(), sdp.medias[i..], req.url, res, t)
      {
        assert sdp.medias[i..][1..] == sdp.medias[i + 1..];
        if sdp.medias[i].url == req.url {
          Out(SetUp(res, session, sdp.medias[i].name, t));
        }
      }
    }

    /** `find_if` over the pending requests of one pipeline. */
    method FindPending(reqs: seq<Request>, cseq: string) returns (k: nat)
      ensures k == FirstWith(reqs, cseq)
    {
      k := 0;
      assert reqs[0..] == reqs;
      while k < |reqs|
        invariant k <= |reqs| && FirstWith(reqs, cseq) == k + FirstWith(reqs[k..], cseq)
      {
        if Get(reqs[k].headers, CSeq) == cseq {
          return;
        }
        assert reqs[k..][1..] == reqs[k + 1..];
        k := k + 1;
      }
    }

    method RunHandlePipelined(res: Response) returns (error: Error)
      requires PipelinedRequests in res.headers
      modifies `sdp, `isAggregate, `session, `pipelines, `log
      ensures Outcome(State(), error) == HandlePipelined(config, old(State()), res)
    {
      hide Stoi, PipelinedSetup, HandleDescribe, FirstWith;
      var number := Stoi(res.headers[PipelinedRequests]);
      if number.None? {
        return Thrown;
      }
      var id := number.value;
      var pending := if id in pipelines then pipelines[id] else [];
      pipelines := pipelines[id := pending];
      if pending != [] && CSeq !in res.headers {
        return Thrown;
      }
      var k := FindPending(pending, Get(res.headers, CSeq));
      if k == |pending| {
        return PipelineNotFound;
      }
      var req := pending[k];
      if req.verb == DESCRIBE {
        RunHandleDescribe(res);
        return Ok;
      }
      if req.verb == SETUP {
        error := RunPipelinedSetup(req, res);
        if error != Ok {
          return;
        }
      } else if HasCallback(req.verb) {
        Out(Called(req.verb, res));
      }
      pipelines := pipelines[id := Without(pending, k)];
      return Ok;
    }

    method RunHandleResponse(res: Response) returns (error: Error)
      modifies `needAuth, `auth, `sdp, `cseq, `session, `transports, `setupIter, `isAggregate, `mediaStep, `pipelines,
               `log
      ensures Outcome(State(), error) == HandleResponse(config, old(State()), res)
    {
      hide HandleUnAuth, HandlePipelined, HandleDescribe, HandleSetup, HandleControl;
      if res.status == UNAUTHORIZED {
        if needAuth {
          Out(AuthFailed(auth.username, auth.password));
          return Ok;
        }
        error := RunHandleUnAuth(res);
        return;
      }
      if session.id != "" && Session !in res.headers {
        return SessionIdError;
      }
      if PipelinedRequests in res.headers {
        error := RunHandlePipelined(res);
      } else if auth.verb == DESCRIBE {
        RunHandleDescribe(res);
        error := Ok;
      } else if auth.verb == SETUP {
        error := RunHandleSetup(res);
      } else if auth.verb == RECORD {
        var ignored := RunHandleControl(RECORD, res);
        error := Ok;
      } else if auth.verb in {Method.PLAY, TEARDOWN, PAUSE} {
        error := RunHandleControl(auth.verb, res);
      } else if HasCallback(auth.verb) {
        Out(Called(auth.verb, res));
        error := Ok;
      } else {
        error := Ok;
      }
    }

    method RunHandleAsked(req: Request)
      modifies `log
      ensures State() == HandleAsked(config, old(State()), req)
    {
      var res := Response(STATUS_OK, map[CSeq := Get(req.headers, CSeq), Server := SERVER_NAME], "");
      match config.onRequest {
        case None =>
          res := res.(status := NOT_IMPLEMENTED);
        case Some(callback) =>
          Out(Asked(req));
          res := callback(req, res);
      }
      Out(ClientEvent.Replied(res));
    }

    method RunHandlePacket(channel: byte, payload: seq<byte>)
      modifies `log
      ensures State() == HandlePacket(old(State()), transports, channel, payload)
    {
      assert transports[0..] == transports;
      for i := 0 to |transports|
        invariant State() == old(State())
        invariant HandlePacket(State(), transports, channel, payload)
                  == HandlePacket(State(), transports[i..], channel, payload)
      {
        var (media, transport) := transports[i];
        if transport.interleaved.0 == channel || transport.interleaved.1 == channel {
          Out(RtpReceived(media, if transport.interleaved.0 == channel then 0 else 1, payload));
          return;
        }
        assert transports[i..][1..] == transports[i + 1..];
      }
    }

    /** One turn of the loop of `input`; `stop` after a message and when the item is not complete. */
    method Turn(buffer: seq<byte>, p: nat) returns (ret: nat, error: Error, stop: bool)
      requires p < |buffer|
      requires needMoreRtspMessage ==> buffer[p] != DOLLAR
      modifies `needAuth, `auth, `sdp, `cseq, `session, `transports, `setupIter, `isAggregate, `mediaStep, `pipelines,
               `log, `needMoreRtspMessage
      ensures match Next(ClientReader(framer), buffer[p..])
              case Malformed => error == MsgParserFailed && State() == old(State())
                                && needMoreRtspMessage == old(needMoreRtspMessage)
              case Incomplete => error == Ok && ret == 0 && stop && State() == old(State())
                                 && (needMoreRtspMessage <==> buffer[p] != DOLLAR)
              case Complete(n, item) =>
                Outcome(State(), error) == Step(config, old(State()), item) && !needMoreRtspMessage
                && (error == Ok ==> ret == n && (stop <==> item.Message?))
    {
      hide HandleResponse, HandlePacket, HandleAsked, RtpOverRtsp;
      stop := true;
      if buffer[p] == DOLLAR && !needMoreRtspMessage {
        var packet := RtpOverRtsp(buffer[p..]);
        if packet.Complete? {
          RunHandlePacket(packet.value.0, packet.value.1);
          return packet.length, Ok, false;
        }
        return 0, Ok, true;
      }
      match framer.response(buffer[p..]) {
        case Complete(n, response) =>
          needMoreRtspMessage := false;
          error := RunHandleResponse(response);
          ret := n;
        case Incomplete =>
          needMoreRtspMessage := true;
          return 0, Ok, true;
        case Malformed =>
          match framer.request(buffer[p..]) {
            case Complete(n, request) =>
              needMoreRtspMessage := false;
              RunHandleAsked(request);
              ret, error := n, Ok;
            case Incomplete =>
              needMoreRtspMessage := true;
              return 0, Ok, true;
            case Malformed =>
              return 0, MsgParserFailed, true;
          }
      }
    }

    /** The loop of `input` over the buffer; `len` octets of it stay unprocessed. */
    method ProcessBuffer(buffer: seq<byte>) returns (len: nat, error: Error)
      requires Lawful(ClientReader(framer))
      requires needMoreRtspMessage ==> buffer != [] && buffer[0] != DOLLAR
      modifies `needAuth, `auth, `sdp, `cseq, `session, `transports, `setupIter, `isAggregate, `mediaStep, `pipelines,
               `log, `needMoreRtspMessage
      ensures len <= |buffer|
      ensures Processed(State(), if error == Ok then buffer[|buffer| - len..] else [], error)
              == (var p := TakeLoop(ClientReader(framer), Stepper(config), old(State()), buffer);
                  p.(rest := if error == Ok then p.rest else []))
      ensures error == Ok && needMoreRtspMessage ==> len > 0 && buffer[|buffer| - len] != DOLLAR
      ensures error != Ok && needMoreRtspMessage ==> old(needMoreRtspMessage)
    {
      ghost var read, step := ClientReader(framer), Stepper(config);
      hide Stepper, Step, Lawful, TakeLoop, RtpOverRtsp, Next, ClientReader;
      var p := 0;
      len := |buffer|;
      assert buffer[0..] == buffer;
      var stop := false;
      while len > 0 && !stop
        invariant 0 <= p && p + len == |buffer|
        invariant !stop && needMoreRtspMessage ==> p == 0 && old(needMoreRtspMessage)
        invariant len == 0 ==> !needMoreRtspMessage
        invariant stop && needMoreRtspMessage ==> len > 0 && buffer[p] != DOLLAR
        invariant TakeLoop(read, step, old(State()), buffer)
                  == if stop then Processed(State(), buffer[p..], Ok) else TakeLoop(read, step, State(), buffer[p..])
        decreases !stop, len
      {
        LoopFront(read, step, State(), buffer[p..]);
        StepperSteps(config, State());
        var ret;
        ret, error, stop := Turn(buffer, p);
        if error != Ok {
          return;
        }
        assert buffer[p..][0..] == buffer[p..];
        assert buffer[p + ret..] == buffer[p..][ret..];
        p := p + ret;
        len := len - ret;
      }
      LoopFront(read, step, State(), buffer[p..]);
      error := Ok;
    }

    /** The octets to look at: those of the cache, if any, and the new ones. */
    method Gather(data: seq<byte>) returns (buffer: seq<byte>)
      modifies `cache
      ensures buffer == old(cache) + data && cache == Untrimmed(old(cache), data)
    {
      buffer := data;
      if cache != [] {
        cache := cache + data;
        buffer := cache;
      }
      assert [] + data == data;
    }

    /** The demultiplexer; its specification has no flag, and the flag stays redundant, after errors too. */
    method Input(data: seq<byte>) returns (error: Error)
      requires LawfulFramer(framer) && FlagRedundant()
      modifies `needAuth, `auth, `sdp, `cseq, `session, `transports, `setupIter, `isAggregate, `mediaStep, `pipelines,
               `log, `needMoreRtspMessage, `cache
      ensures FlagRedundant()
      ensures Fed(Connection(State(), cache), error)
              == ClientInput(config, framer, Connection(old(State()), old(cache)), data)
    {
      hide ClientInput, Stepper, Step, LawfulFramer, Lawful, TakeLoop, RtpOverRtsp, Next, ClientReader;
      var buffer := Gather(data);
      ClientInputIsLoop(config, framer, Connection(old(State()), old(cache)), data);
      var len;
      len, error := ProcessBuffer(buffer);
      if error == Ok {
        KeepRest(data, len, old(cache));
      }
    }

    /** The end of `input`: the unprocessed octets stay in the cache. */
    method KeepRest(data: seq<byte>, len: nat, ghost before: seq<byte>)
      requires cache == Untrimmed(before, data) && len <= |before + data|
      modifies `cache
      ensures cache == (before + data)[|before + data| - len..]
    {
      if cache == [] {
        assert before + data == data;
        if len > 0 {
          cache := data[|data| - len..];
        }
      } else {
        cache := cache[|cache| - len..];
      }
    }
  }

  lemma AdoptKeeps(s: ClientState, res: Response)
    ensures var t := Adopt(s, res).state;
            t == s.(session := t.session)
  {
    hide ParseSession;
  }

  lemma LastTrack(medias: seq<Media>, i: nat, name: string, otherwise: string)
    requires i < |medias|
    ensures TrackUrl(medias[..i + 1], name, otherwise)
            == if medias[i].name == name then medias[i].url else TrackUrl(medias[..i], name, otherwise)
  {
    assert medias[..i + 1][..i] == medias[..i];
  }

  /** The first SETUP of a burst, and the rest. */
  lemma BurstFront(s: ClientState, i: nat)
    requires i <= |s.transports|
    ensures SetupBurst(s, i)
            == if i == |s.transports| then s.(setupIter := i)
               else SetupBurst(SendSetup(s.(setupIter := i), s.transports[i]), i + 1)
    ensures SetupBurst(s, i) == SetupBurst(s.(setupIter := i), i)
  {
    hide SendSetup;
  }

  lemma SendSetupKeeps(s: ClientState, track: Track)
    requires s.transports != []
    ensures var t := SendSetup(s, track);
            t.transports == s.transports && t.setupIter == s.setupIter && t.pipeId == s.pipeId && t.sdp == s.sdp
  {
    hide T.ToString, Credentials, ToDecimal, TrackUrl;
  }
}
