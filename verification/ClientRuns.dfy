/** What holds in every run of the client: requests and replies in balance, the single retransmission. */
module ClientRuns {
  import opened Bytes
  import opened Options
  import opened Decimal
  import opened Messages
  import opened Stream
  import opened Framing
  import opened Authentication
  import opened ClientSpec
  import opened ClientPipelines
  import T = Transport

  // Counting

  function SentOn(e: ClientEvent, id: int): nat {
    if e.Sent? && PipelinedRequests in e.request.headers && e.request.headers[PipelinedRequests] == ToDecimal(id)
    then 1 else 0
  }

  function SentCount(log: seq<ClientEvent>, id: int): nat {
    if log == [] then 0 else SentCount(log[..|log| - 1], id) + SentOn(log[|log| - 1], id)
  }

  function Retransmissions(log: seq<ClientEvent>): nat {
    if log == [] then 0 else Retransmissions(log[..|log| - 1]) + if log[|log| - 1].Retransmitted? then 1 else 0
  }

  lemma LogGrows(log: seq<ClientEvent>, e: ClientEvent, id: int)
    ensures SentCount(log + [e], id) == SentCount(log, id) + SentOn(e, id)
    ensures Retransmissions(log + [e]) == Retransmissions(log) + if e.Retransmitted? then 1 else 0
  {
    assert (log + [e])[..|log|] == log;
  }

  /** Requests sent on a pipeline and no longer pending there. */
  function Settled(s: ClientState, id: int): int { SentCount(s.log, id) - |Pending(s, id)| }

  /** The credentials are those of `a`, for the method and URL of the request. */
  predicate Signed(a: Authenticate, req: Request) {
    Authorization in req.headers && req.headers[Authorization] == Credentials(a.(verb := req.verb, uri := req.url))
  }

  /** Once the client authenticates: the same secret and challenge, and every request sent carries them. */
  ghost predicate Signs(s: ClientState, t: ClientState) {
    s.needAuth ==>
      t.needAuth && t.auth == s.auth.(verb := t.auth.verb, uri := t.auth.uri)
      && s.log <= t.log
      && forall i :: |s.log| <= i < |t.log| && t.log[i].Sent? ==> Signed(s.auth, t.log[i].request)
  }

  lemma SignsTwice(s: ClientState, t: ClientState, u: ClientState)
    requires Signs(s, t) && Signs(t, u)
    ensures Signs(s, u)
  {
    hide Credentials;
    if s.needAuth {
      forall i | |s.log| <= i < |u.log| && u.log[i].Sent?
        ensures Signed(s.auth, u.log[i].request)
      {
        if i < |t.log| {
          assert u.log[i] == t.log[i];
        }
      }
    }
  }

  /** A step that sends requests and answers none: what it leaves as it was. */
  ghost predicate Quiet(s: ClientState, t: ClientState) {
    (forall id :: id > 0 ==> Settled(t, id) == Settled(s, id))
    && (forall id :: |Pending(s, id)| <= |Pending(t, id)|)
    && Retransmissions(t.log) == Retransmissions(s.log)
    && t.needAuth == s.needAuth
    && Signs(s, t)
  }

  predicate SameUser(s: ClientState, t: ClientState) {
    t.auth == s.auth.(verb := t.auth.verb, uri := t.auth.uri)
  }

  lemma QuietTwice(s: ClientState, t: ClientState, u: ClientState)
    requires Quiet(s, t) && Quiet(t, u)
    ensures Quiet(s, u)
  {
    SignsTwice(s, t, u);
    hide Settled, Ordered, Retransmissions, Pending, Signs;
  }

  /** Nothing the books look at has changed. */
  lemma Unrelated(s: ClientState, t: ClientState)
    requires t.pipelines == s.pipelines && t.log == s.log && t.needAuth == s.needAuth
    requires s.needAuth ==> SameUser(s, t)
    ensures Quiet(s, t)
  {
    hide Credentials, SentCount, Retransmissions;
  }

  lemma CallbackQuiet(s: ClientState, t: ClientState, e: ClientEvent)
    requires t.pipelines == s.pipelines && t.log == s.log + [e] && t.needAuth == s.needAuth
    requires !e.Sent? && !e.Retransmitted? && SameUser(s, t)
    ensures Quiet(s, t)
  {
    hide Credentials;
    forall id | id > 0
      ensures SentCount(t.log, id) == SentCount(s.log, id)
    {
      LogGrows(s.log, e, id);
    }
    LogGrows(s.log, e, 0);
    hide SentCount, Retransmissions;
  }

  /** One ordinary request: recorded when it is sent, whatever headers and body are added to it. */
  lemma RequestQuiet(s: ClientState, verb: Method, sent: Request)
    requires var req := MakeRequest(s, verb).1;
             PipelinedRequests in sent.headers <==> PipelinedRequests in req.headers
    requires var req := MakeRequest(s, verb).1;
             PipelinedRequests in req.headers ==> sent.headers[PipelinedRequests] == req.headers[PipelinedRequests]
    requires var req := MakeRequest(s, verb).1;
             Authorization in req.headers ==> Authorization in sent.headers
                                              && sent.headers[Authorization] == req.headers[Authorization]
    requires sent.verb == verb == s.auth.verb && sent.url == s.auth.uri
    ensures var t := Logged(MakeRequest(s, verb).0, Sent(sent));
            Quiet(s, t)
  {
    NextNumber(s, verb);
    hide Credentials, NextHeaders, ToDecimal, Number, SentCount, Retransmissions;
    var (s1, req) := MakeRequest(s, verb);
    var t := Logged(s1, Sent(sent));
    forall id | id > 0
      ensures Settled(t, id) == Settled(s, id)
    {
      LogGrows(s1.log, Sent(sent), id);
      if s.pipeId > 0 && ToDecimal(id) == ToDecimal(s.pipeId) {
        ToDecimalInjective(id, s.pipeId);
      }
    }
    LogGrows(s1.log, Sent(sent), 0);
    if s.needAuth {
      assert s.auth == s.auth.(verb := sent.verb, uri := sent.url);
      assert Signed(s.auth, sent);
    }
  }

  lemma SendWithQuiet(s: ClientState, verb: Method, extra: Headers, body: string)
    requires PipelinedRequests in extra ==> s.pipeId > 0
    requires s.auth.verb == verb
    ensures Quiet(s, SendWith(s, verb, extra, body))
  {
    NextNumber(s, verb);
    var req := MakeRequest(s, verb).1;
    RequestQuiet(s, verb, req.(headers := extra + req.headers, body := body));
    hide NextHeaders, Quiet, ToDecimal, Number;
  }

  lemma SendSetupQuiet(s: ClientState, track: Track)
    ensures Quiet(s, SendSetup(s, track))
  {
    hide NextHeaders, Quiet, ToDecimal, Number, T.ToString, TrackUrl;
    var s1 := Aimed(s, SETUP, TrackUrl(s.sdp.medias, track.0, s.auth.uri));
    var s2 := if s1.transports == [] then s1.(transports := [track], setupIter := 0) else s1;
    Unrelated(s, s2);
    var req := MakeRequest(s2, SETUP).1;
    var sent := req.(headers := req.headers[Transport := T.ToString(track.1)]);
    RequestQuiet(s2, SETUP, sent);
    QuietTwice(s, s2, Logged(MakeRequest(s2, SETUP).0, Sent(sent)));
  }

  lemma {:induction false} SetupBurstQuiet(s: ClientState, i: nat)
    requires i <= |s.transports|
    ensures Quiet(s, SetupBurst(s, i))
    decreases |s.transports| - i
  {
    hide Quiet, SendSetup;
    Unrelated(s, s.(setupIter := i));
    if i < |s.transports| {
      var s1 := s.(setupIter := i);
      SendSetupQuiet(s1, s.transports[i]);
      SetupKeepsTracks(s1, s.transports[i]);
      SetupBurstQuiet(SendSetup(s1, s.transports[i]), i + 1);
      QuietTwice(s, s1, SendSetup(s1, s.transports[i]));
      QuietTwice(s, SendSetup(s1, s.transports[i]), SetupBurst(s, i));
    }
  }

  lemma SendForMediaQuiet(s: ClientState, verb: Method, name: string, extra: Headers)
    requires PipelinedRequests !in extra
    ensures var o := SendForMedia(s, verb, name, extra);
            Quiet(s, o.state) && o.state.pipeId == s.pipeId
  {
    hide Quiet, SendWith;
    match FirstUrl(s.sdp.medias, name)
    case None => Unrelated(s, s.(auth := s.auth.(verb := verb)));
    case Some(url) =>
      var s1 := Aimed(s, verb, url);
      Unrelated(s, s1);
      SendWithQuiet(s1, verb, extra, "");
      QuietTwice(s, s1, SendWith(s1, verb, extra, ""));
      SendKeepsPipe(s1, verb, extra, "");
  }

  lemma SendKeepsPipe(s: ClientState, verb: Method, extra: Headers, body: string)
    ensures SendWith(s, verb, extra, body).pipeId == s.pipeId
  {
    hide NextHeaders;
  }

  lemma SendForNextQuiet(s: ClientState, verb: Method, extra: Headers)
    requires PipelinedRequests !in extra
    ensures Quiet(s, SendForNext(s, verb, extra).state)
  {
    hide Quiet, SendForMedia;
    if s.mediaStep >= |s.sdp.medias| {
      Unrelated(s, s);
    } else {
      var s1 := s.(mediaStep := s.mediaStep + 1);
      Unrelated(s, s1);
      SendForMediaQuiet(s1, verb, s.sdp.medias[s.mediaStep].name, extra);
      QuietTwice(s, s1, SendForMedia(s1, verb, s.sdp.medias[s.mediaStep].name, extra).state);
    }
  }

  lemma {:induction false} SendForRestQuiet(s: ClientState, verb: Method, extra: Headers)
    requires PipelinedRequests !in extra
    ensures Quiet(s, SendForRest(s, verb, extra).state)
    decreases |s.sdp.medias| - s.mediaStep
  {
    hide Quiet, SendForNext;
    SendForNextQuiet(s, verb, extra);
    NextSteps(s, verb, extra);
    var o := SendForNext(s, verb, extra);
    if o.error == Ok && s.pipeId > 0 && o.state.mediaStep < |o.state.sdp.medias| {
      SendForRestQuiet(o.state, verb, extra);
      QuietTwice(s, o.state, SendForRest(o.state, verb, extra).state);
    }
  }

  lemma ControlQuiet(s: ClientState, verb: Method, extra: Headers)
    requires PipelinedRequests !in extra
    ensures Quiet(s, Control(s, verb, extra).state)
  {
    hide Quiet, SendWith, SendForNext, SendForRest;
    var s1 := s.(auth := s.auth.(verb := verb));
    var s2 := Aimed(s1, verb, s.sdp.aggregateUrl);
    Unrelated(s, s1);
    Unrelated(s, s2);
    SendWithQuiet(s2, verb, extra, "");
    SendForNextQuiet(s1, verb, extra);
    SendForRestQuiet(s1, verb, extra);
    QuietTwice(s, s2, SendWith(s2, verb, extra, ""));
    QuietTwice(s, s1, SendForNext(s1, verb, extra).state);
    QuietTwice(s, s1, SendForRest(s1, verb, extra).state);
  }

  /** The application adds no Pipelined-Requests header of its own. */
  predicate Plain(call: ApiCall) {
    match call
    case ControlAll(_, extra) => PipelinedRequests !in extra
    case ControlMedia(_, _, extra) => PipelinedRequests !in extra
    case _ => true
  }

  lemma CallQuiet(s: ClientState, call: ApiCall)
    requires Plain(call) && !call.SetUserInfo?
    ensures Quiet(s, Call(s, call).state)
  {
    hide Quiet, SendWith, SendSetup, Control, SendForMedia;
    match call
    case Simple(verb, body) =>
      var s1 := s.(auth := s.auth.(verb := verb));
      Unrelated(s, s1);
      SendWithQuiet(s1, verb, map[], body);
      QuietTwice(s, s1, SendWith(s1, verb, map[], body));
    case SetupTracks(tracks) => SetupAllQuiet(s, tracks);
    case SetupTrack(track) => SendSetupQuiet(s, track);
    case ControlAll(verb, extra) => ControlQuiet(s, verb, extra);
    case ControlMedia(verb, media, extra) => SendForMediaQuiet(s, verb, media, extra);
    case StartPipeline(id) => Unrelated(s, Call(s, call).state);
    case StopPipeline => Unrelated(s, Call(s, call).state);
  }

  lemma SetupAllQuiet(s: ClientState, tracks: seq<Track>)
    ensures Quiet(s, SetupAll(s, tracks).state)
  {
    hide Quiet, SendSetup, SetupBurst;
    if tracks == [] {
      Unrelated(s, s);
    } else {
      var s1 := s.(transports := tracks, setupIter := 0);
      Unrelated(s, s1);
      SetupBurstQuiet(s1, 0);
      SendSetupQuiet(s1, tracks[0]);
      QuietTwice(s, s1, SetupBurst(s1, 0));
      QuietTwice(s, s1, SendSetup(s1, tracks[0]));
    }
  }

  // Replies

  lemma EntryQuiet(s: ClientState, id: int)
    ensures Quiet(s, s.(pipelines := s.pipelines[id := Pending(s, id)]))
  {
    hide Credentials, SentCount, Retransmissions, Number;
  }

  lemma AdoptQuiet(s: ClientState, res: Response)
    ensures Quiet(s, Adopt(s, res).state)
    ensures Adopt(s, res).state == s.(session := Adopt(s, res).state.session)
  {
    Unrelated(s, Adopt(s, res).state);
    hide Quiet, ParseSession;
  }

  lemma DescribeQuiet(cfg: Config, s: ClientState, res: Response)
    ensures Quiet(s, HandleDescribe(cfg, s, res))
  {
    var t := HandleDescribe(cfg, s, res);
    CallbackQuiet(s, t, t.log[|s.log|]);
    hide Quiet;
  }

  lemma SetupReplyQuiet(cfg: Config, s: ClientState, res: Response)
    ensures Quiet(s, HandleSetup(cfg, s, res).state)
  {
    hide Quiet, Adopt, SendSetup, T.Decode;
    Unrelated(s, s);
    if 0 <= s.setupIter < |s.transports| {
      var (media, requested) := s.transports[s.setupIter];
      if res.status != STATUS_OK {
        var e := SetUp(res, s.session, media, requested);
        CallbackQuiet(s, Logged(s, e), e);
      } else if Transport in res.headers {
        var granted := T.Decode(res.headers[Transport], cfg.uninitialised);
        AdoptQuiet(s, res);
        var a := Adopt(s, res);
        if granted.Some? && a.error == Ok {
          var s1 := a.state.(transports := a.state.transports[s.setupIter := (media, granted.value)]);
          var e := SetUp(res, s1.session, media, granted.value);
          var s2 := Logged(s1, e).(setupIter := s.setupIter + 1);
          CallbackQuiet(a.state, s2, e);
          QuietTwice(s, a.state, s2);
          if s2.setupIter != |s2.transports| {
            SendSetupQuiet(s2, s2.transports[s2.setupIter]);
            QuietTwice(s, s2, SendSetup(s2, s2.transports[s2.setupIter]));
          }
        }
      }
    }
  }

  lemma ControlReplyQuiet(s: ClientState, verb: Method, res: Response)
    ensures Quiet(s, HandleControl(s, verb, res).state)
  {
    hide Quiet, SendForNext;
    CallbackQuiet(s, Logged(s, Called(verb, res)), Called(verb, res));
    SendForNextQuiet(s, verb, map[]);
  }

  lemma {:induction false} SetUpCallsQuiet(s: ClientState, medias: seq<Media>, url: string, res: Response,
                                           t: T.TransportV1)
    ensures var u := SetUpCalls(s, medias, url, res, t);
            Quiet(s, u) && u.pipelines == s.pipelines
    decreases |medias|
  {
    hide Quiet;
    Unrelated(s, s);
    if medias != [] {
      var e := SetUp(res, s.session, medias[0].name, t);
      var s1 := if medias[0].url == url then Logged(s, e) else s;
      CallbackQuiet(s, Logged(s, e), e);
      SetUpCallsQuiet(s1, medias[1..], url, res, t);
      QuietTwice(s, s1, SetUpCalls(s1, medias[1..], url, res, t));
    }
  }

  lemma PipelinedSetupQuiet(cfg: Config, s: ClientState, req: Request, res: Response)
    ensures var o := PipelinedSetup(cfg, s, req, res);
            Quiet(s, o.state) && o.state.pipelines == s.pipelines
  {
    hide Quiet, Adopt, SetUpCalls, T.Decode;
    Unrelated(s, s);
    if Transport in res.headers {
      var t := T.Decode(res.headers[Transport], cfg.uninitialised);
      AdoptQuiet(s, res);
      var a := Adopt(s, res);
      if t.Some? && a.error == Ok {
        SetUpCallsQuiet(a.state, a.state.sdp.medias, req.url, res, t.value);
        QuietTwice(s, a.state, SetUpCalls(a.state, a.state.sdp.medias, req.url, res, t.value));
      }
    }
  }

  function Removed(s: ClientState, t: ClientState, id: int): nat {
    if |Pending(t, id)| < |Pending(s, id)| then 1 else 0
  }

  /** A step that may answer one pending request and may retransmit once. */
  ghost predicate Booked(s: ClientState, t: ClientState) {
    Entered(s, t) && Signs(s, t)
  }

  ghost predicate Entered(s: ClientState, t: ClientState) {
    (forall id :: id > 0 ==> Settled(t, id) == Settled(s, id) + Removed(s, t, id))
    && (s.needAuth ==> t.needAuth)
    && Retransmissions(t.log) - Retransmissions(s.log) == if t.needAuth && !s.needAuth then 1 else 0
  }

  lemma QuietIsBooked(s: ClientState, t: ClientState)
    requires Quiet(s, t)
    ensures Booked(s, t)
  {
    hide Settled, Ordered, Retransmissions, Pending, Signs;
  }

  /** Erasing the answered request. */
  lemma EraseBooked(s: ClientState, t: ClientState, id: int, k: nat)
    requires Quiet(s, t) && t.pipelines == s.pipelines && id in s.pipelines && k < |s.pipelines[id]|
    ensures Booked(s, t.(pipelines := t.pipelines[id := Without(s.pipelines[id], k)]))
  {
    hide Credentials, SentCount, Retransmissions, Number;
    var pending := s.pipelines[id];
    var u := t.(pipelines := t.pipelines[id := Without(pending, k)]);
    assert |Without(pending, k)| == |pending| - 1;
    forall i | i > 0
      ensures Settled(u, i) == Settled(s, i) + Removed(s, u, i)
    {
      assert Settled(t, i) == Settled(s, i);
    }
  }

  /** The entry `operator[]` creates for an unknown pipeline changes nothing the books look at. */
  lemma BookedAfterEntry(s: ClientState, id: int, u: ClientState)
    requires Booked(s.(pipelines := s.pipelines[id := Pending(s, id)]), u)
    ensures Booked(s, u)
  {
    EntryQuiet(s, id);
    var t := s.(pipelines := s.pipelines[id := Pending(s, id)]);
    assert forall i :: Pending(t, i) == Pending(s, i);
    hide Credentials, SentCount, Retransmissions, Ordered, Pending;
  }

  lemma PipelinedBooked(cfg: Config, s: ClientState, res: Response)
    requires PipelinedRequests in res.headers
    ensures Booked(s, HandlePipelined(cfg, s, res).state)
  {
    hide Quiet, Booked, HandleDescribe, PipelinedSetup, FirstWith, Stoi;
    Unrelated(s, s);
    QuietIsBooked(s, s);
    if Stoi(res.headers[PipelinedRequests]).Some? {
      var id := Stoi(res.headers[PipelinedRequests]).value;
      var pending := Pending(s, id);
      var s1 := s.(pipelines := s.pipelines[id := pending]);
      EntryQuiet(s, id);
      QuietIsBooked(s, s1);
      var k := FirstWith(pending, Get(res.headers, CSeq));
      if !(pending != [] && CSeq !in res.headers) && k < |pending| {
        var req := pending[k];
        if req.verb == DESCRIBE {
          DescribeQuiet(cfg, s1, res);
          QuietTwice(s, s1, HandleDescribe(cfg, s1, res));
          QuietIsBooked(s, HandleDescribe(cfg, s1, res));
        } else {
          var o := if req.verb == SETUP then PipelinedSetup(cfg, s1, req, res)
                   else if HasCallback(req.verb) then Outcome(Logged(s1, Called(req.verb, res)), Ok)
                   else Outcome(s1, Ok);
          PipelinedSetupQuiet(cfg, s1, req, res);
          CallbackQuiet(s1, Logged(s1, Called(req.verb, res)), Called(req.verb, res));
          Unrelated(s1, s1);
          QuietTwice(s, s1, o.state);
          QuietIsBooked(s, o.state);
          EraseBooked(s1, o.state, id, k);
          BookedAfterEntry(s, id, o.state.(pipelines := o.state.pipelines[id := Without(pending, k)]));
        }
      }
    }
  }

  lemma UnAuthBooked(s: ClientState, res: Response)
    requires !s.needAuth
    ensures Booked(s, HandleUnAuth(s, res).state)
  {
    hide Parser, Credentials;
    var t := HandleUnAuth(s, res).state;
    if t.log == s.log {
      Unrelated(s, t);
      QuietIsBooked(s, t);
    } else {
      var e := t.log[|s.log|];
      assert t.log == s.log + [e] && e.Retransmitted? && t.needAuth;
      forall id | id > 0
        ensures Settled(t, id) == Settled(s, id) && Removed(s, t, id) == 0
      {
        LogGrows(s.log, e, id);
      }
      LogGrows(s.log, e, 0);
      hide SentCount, Retransmissions, Settled, HandleUnAuth;
    }
  }

  lemma ResponseBooked(cfg: Config, s: ClientState, res: Response)
    ensures Booked(s, HandleResponse(cfg, s, res).state)
  {
    hide Booked, Quiet, HandleUnAuth, HandlePipelined, HandleDescribe, HandleSetup, HandleControl;
    var t := HandleResponse(cfg, s, res).state;
    var auth := AuthFailed(s.auth.username, s.auth.password);
    var called := Called(s.auth.verb, res);
    if res.status == UNAUTHORIZED {
      if s.needAuth {
        CallbackQuiet(s, Logged(s, auth), auth);
        QuietIsBooked(s, t);
      } else {
        UnAuthBooked(s, res);
      }
    } else if PipelinedRequests in res.headers && !(s.session.id != "" && Session !in res.headers) {
      PipelinedBooked(cfg, s, res);
    } else {
      Unrelated(s, s);
      DescribeQuiet(cfg, s, res);
      SetupReplyQuiet(cfg, s, res);
      ControlReplyQuiet(s, s.auth.verb, res);
      CallbackQuiet(s, Logged(s, called), called);
      QuietIsBooked(s, t);
    }
  }

  lemma {:induction false} PacketQuiet(s: ClientState, tracks: seq<Track>, channel: byte, payload: seq<byte>)
    ensures Quiet(s, HandlePacket(s, tracks, channel, payload))
    decreases |tracks|
  {
    hide Quiet;
    if tracks == [] {
      Unrelated(s, s);
    } else if Carries(tracks[0].1, channel) {
      var t := HandlePacket(s, tracks, channel, payload);
      CallbackQuiet(s, t, t.log[|s.log|]);
    } else {
      PacketQuiet(s, tracks[1..], channel, payload);
    }
  }

  lemma AskedQuiet(cfg: Config, s: ClientState, req: Request)
    ensures Quiet(s, HandleAsked(cfg, s, req))
  {
    var t := HandleAsked(cfg, s, req);
    hide Quiet;
    match cfg.onRequest
    case None => CallbackQuiet(s, t, t.log[|s.log|]);
    case Some(callback) =>
      var s1 := Logged(s, Asked(req));
      CallbackQuiet(s, s1, Asked(req));
      CallbackQuiet(s1, t, t.log[|s1.log|]);
      QuietTwice(s, s1, t);
  }

  predicate PlainOp(op: Op) { op.Do? ==> Plain(op.call) }

  predicate ChangesUser(op: Op) { op.Do? && op.call.SetUserInfo? }

  lemma UserChanged(s: ClientState, call: ApiCall)
    requires call.SetUserInfo?
    ensures Entered(s, Call(s, call).state)
  {
    hide SentCount, Retransmissions, Number;
  }

  lemma OpBooked(cfg: Config, s: ClientState, op: Op)
    requires PlainOp(op)
    ensures Entered(s, After(cfg, s, op).state)
    ensures !ChangesUser(op) ==> Signs(s, After(cfg, s, op).state)
  {
    hide Entered, Signs, Quiet, Call, HandlePacket, HandleAsked, HandleResponse;
    var t := After(cfg, s, op).state;
    match op
    case Do(call) =>
      if call.SetUserInfo? {
        UserChanged(s, call);
      } else {
        CallQuiet(s, call);
        QuietIsBooked(s, t);
      }
    case Receive(Packet(channel, payload)) =>
      PacketQuiet(s, s.transports, channel, payload);
      QuietIsBooked(s, t);
    case Receive(Message(Res(r))) => ResponseBooked(cfg, s, r);
    case Receive(Message(Req(r))) =>
      AskedQuiet(cfg, s, r);
      QuietIsBooked(s, t);
  }

  /** How many requests of pipeline `id` are answered, by a reply, in a run. */
  function AnsweredOn(cfg: Config, s: ClientState, ops: seq<Op>, id: int): nat
    decreases |ops|
  {
    if ops == [] then 0
    else
      var a := Answered(cfg, s, ops[0]);
      (if a.Some? && a.value.0 == id then 1 else 0) + AnsweredOn(cfg, After(cfg, s, ops[0]).state, ops[1..], id)
  }

  lemma OpSettles(cfg: Config, s: ClientState, op: Op)
    requires PlainOp(op)
    ensures var t := After(cfg, s, op).state;
            var a := Answered(cfg, s, op);
            forall id :: id > 0 ==> Settled(t, id) == Settled(s, id) + if a.Some? && a.value.0 == id then 1 else 0
  {
    OpBooked(cfg, s, op);
    hide After, Answered, Settled;
    var t := After(cfg, s, op).state;
    forall id | id > 0
      ensures Removed(s, t, id) == if Answered(cfg, s, op).Some? && Answered(cfg, s, op).value.0 == id then 1 else 0
    {
      ShorterExactly(cfg, s, op, id);
    }
  }

  lemma OpRetransmits(cfg: Config, s: ClientState, op: Op)
    requires PlainOp(op)
    ensures var t := After(cfg, s, op).state;
            (s.needAuth ==> t.needAuth)
            && Retransmissions(t.log) - Retransmissions(s.log) == if t.needAuth && !s.needAuth then 1 else 0
  {
    OpBooked(cfg, s, op);
    hide After, Settled, Removed, Retransmissions;
  }

  /**
   * In every run: pending requests keep increasing sequence numbers, the requests sent on a pipeline
   * are those a reply has answered and those still pending, and the client retransmits at most once.
   */
  lemma {:induction false} RunKeepsBooks(cfg: Config, s: ClientState, ops: seq<Op>)
    requires Ordered(s) && forall op :: op in ops ==> PlainOp(op)
    ensures var t := RunOps(cfg, s, ops);
            Ordered(t) && (s.needAuth ==> t.needAuth)
            && Retransmissions(t.log) - Retransmissions(s.log) == (if t.needAuth && !s.needAuth then 1 else 0)
            && forall id :: id > 0 ==>
                 SentCount(t.log, id) - SentCount(s.log, id)
                 == AnsweredOn(cfg, s, ops, id) + |Pending(t, id)| - |Pending(s, id)|
    decreases |ops|
  {
    if ops != [] {
      hide After, Answered, Ordered, SentCount, Retransmissions, Pending;
      OpRetransmits(cfg, s, ops[0]);
      OpSettles(cfg, s, ops[0]);
      OpKeepsOrder(cfg, s, ops[0]);
      var t := After(cfg, s, ops[0]).state;
      RunKeepsBooks(cfg, t, ops[1..]);
      var u := RunOps(cfg, t, ops[1..]);
      forall id | id > 0
        ensures SentCount(u.log, id) - SentCount(s.log, id)
                == AnsweredOn(cfg, s, ops, id) + |Pending(u, id)| - |Pending(s, id)|
      {
        assert Settled(t, id) == Settled(s, id) + AnsweredOn(cfg, s, ops, id) - AnsweredOn(cfg, t, ops[1..], id);
      }
    }
  }

  /** A run of an authenticating client, without `setUserInfo`: every request it sends is signed. */
  lemma {:induction false} RunSigns(cfg: Config, s: ClientState, ops: seq<Op>)
    requires s.needAuth && forall op :: op in ops ==> PlainOp(op) && !ChangesUser(op)
    ensures Signs(s, RunOps(cfg, s, ops))
    decreases |ops|
  {
    if ops != [] {
      OpBooked(cfg, s, ops[0]);
      var t := After(cfg, s, ops[0]).state;
      assert t.needAuth;
      hide After, Signs, Entered;
      RunSigns(cfg, t, ops[1..]);
      SignsTwice(s, t, RunOps(cfg, t, ops[1..]));
    }
  }

  /** From a new client: sent is answered plus pending, and the retransmissions are none or one. */
  lemma NewClientBooks(cfg: Config, username: string, password: string, uri: string, ops: seq<Op>)
    requires forall op :: op in ops ==> PlainOp(op)
    ensures var s := Initial(username, password, uri);
            var t := RunOps(cfg, s, ops);
            Ordered(t) && Retransmissions(t.log) <= 1
            && forall id :: id > 0 ==> SentCount(t.log, id) == AnsweredOn(cfg, s, ops, id) + |Pending(t, id)|
  {
    var s := Initial(username, password, uri);
    RunKeepsBooks(cfg, s, ops);
    assert forall id :: Pending(s, id) == [] && SentCount(s.log, id) == 0;
    hide RunOps, AnsweredOn, Ordered;
  }

  // A reply and its request

  lemma {:induction false} FirstWithIs(reqs: seq<Request>, cseq: string, k: nat)
    requires k <= |reqs| && (forall i :: 0 <= i < k ==> Get(reqs[i].headers, CSeq) != cseq)
    requires k < |reqs| ==> Get(reqs[k].headers, CSeq) == cseq
    ensures FirstWith(reqs, cseq) == k
  {
    if k > 0 {
      FirstWithIs(reqs[1..], cseq, k - 1);
    }
  }

  /** Whatever the order of the replies, a sequence number selects the one request that carries it. */
  lemma ReplySelects(reqs: seq<Request>, bound: nat, k: nat)
    requires Increasing(reqs, bound) && k < |reqs|
    ensures FirstWith(reqs, Get(reqs[k].headers, CSeq)) == k
    ensures FirstWith(Without(reqs, k), Get(reqs[k].headers, CSeq)) == |reqs| - 1
  {
    hide Number, Without;
    var cseq := Get(reqs[k].headers, CSeq);
    forall i | 0 <= i < |reqs| && i != k
      ensures Get(reqs[i].headers, CSeq) != cseq
    {
      assert Number(reqs[i]) != Number(reqs[k]);
      SameNumber(reqs[i], reqs[k]);
    }
    FirstWithIs(reqs, cseq, k);
    WithoutAt(reqs, k);
    hide Increasing, Get;
    FirstWithIs(Without(reqs, k), cseq, |reqs| - 1);
  }

  /** The pending request a pipelined reply speaks of, if any. */
  function Selected(s: ClientState, res: Response): Option<Request>
    requires PipelinedRequests in res.headers
  {
    match Stoi(res.headers[PipelinedRequests])
    case None => None
    case Some(id) =>
      var pending := Pending(s, id);
      var k := FirstWith(pending, Get(res.headers, CSeq));
      if k < |pending| then Some(pending[k]) else None
  }

  /** DESCRIBE stays pending: the same reply is delivered every time it arrives. */
  lemma DescribeStaysPending(cfg: Config, s: ClientState, res: Response)
    requires PipelinedRequests in res.headers && CSeq in res.headers
    requires Selected(s, res).Some? && Selected(s, res).value.verb == DESCRIBE
    ensures var o := HandlePipelined(cfg, s, res);
            o.error == Ok && Selected(o.state, res) == Selected(s, res)
            && |o.state.log| == |s.log| + 1 && o.state.log[|s.log|].Described?
  {
    hide Stoi, FirstWith;
  }

  // Where the calls and replies have no meaning

  /**
   * A pipelined SETUP reply fails exactly when it has no Transport, one that overruns the parser's
   * buffers, or a session it must take and cannot read.
   */
  lemma SetupReplyFailsExactly(cfg: Config, s: ClientState, res: Response)
    requires PipelinedRequests in res.headers && CSeq in res.headers
    requires Selected(s, res).Some? && Selected(s, res).value.verb == SETUP
    ensures var error := HandlePipelined(cfg, s, res).error;
            var unread := s.session.id == "" && Session in res.headers && ParseSession(res.headers[Session]).1;
            if Transport !in res.headers then error == Thrown
            else if T.Decode(res.headers[Transport], cfg.uninitialised).None? then error == Undefined
            else error == if unread then Thrown else Ok
  {
    hide Stoi, FirstWith, T.Decode, ParseSession, SetUpCalls;
  }

  /** `mediaStep_` only grows, so a request for each media description reads past the last one when all were used. */
  lemma {:induction false} StepRunsOutExactly(s: ClientState, verb: Method, extra: Headers)
    ensures SendForRest(s, verb, extra).error == Undefined <==> s.mediaStep >= |s.sdp.medias|
    decreases |s.sdp.medias| - s.mediaStep
  {
    hide NextHeaders;
    if s.mediaStep < |s.sdp.medias| {
      var o := SendForNext(s, verb, extra);
      if o.error == Ok && s.pipeId > 0 && o.state.mediaStep < |o.state.sdp.medias| {
        StepRunsOutExactly(o.state, verb, extra);
      }
    }
  }

  /** PLAY, RECORD, PAUSE and TEARDOWN of a presentation without aggregate control work through the list only once. */
  lemma ControlUndefinedExactly(s: ClientState, verb: Method, extra: Headers)
    ensures Control(s, verb, extra).error == Undefined <==> !s.isAggregate && s.mediaStep >= |s.sdp.medias|
  {
    hide SendWith, SendForRest;
    StepRunsOutExactly(s.(auth := s.auth.(verb := verb)), verb, extra);
  }
}
