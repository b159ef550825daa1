/** What becomes of the client's pending requests in every run, whatever the peer sends and the application calls. */
module ClientPipelines {
  import opened Bytes
  import opened Options
  import opened Decimal
  import opened Messages
  import opened Stream
  import opened Framing
  import opened Authentication
  import opened ClientSpec
  import T = Transport

  // What happens to a client: a call of its interface, or an item of the stream
  datatype Op = Do(call: ApiCall) | Receive(item: Item<Rtsp>)

  function After(cfg: Config, s: ClientState, op: Op): Outcome<ClientState> {
    match op
    case Do(call) => Call(s, call)
    case Receive(item) => Step(cfg, s, item)
  }

  function RunOps(cfg: Config, s: ClientState, ops: seq<Op>): ClientState
    decreases |ops|
  {
    if ops == [] then s else RunOps(cfg, After(cfg, s, ops[0]).state, ops[1..])
  }

  // Pending requests carry increasing sequence numbers

  function NumberOf(cseq: string): int {
    match Scan(cseq)
    case None => -1
    case Some((n, _)) => n
  }

  function Number(req: Request): int { NumberOf(Get(req.headers, CSeq)) }

  ghost predicate Increasing(reqs: seq<Request>, bound: nat) {
    (forall i :: 0 <= i < |reqs| ==> CSeq in reqs[i].headers && Number(reqs[i]) < bound)
    && forall i, j :: 0 <= i < j < |reqs| ==> Number(reqs[i]) < Number(reqs[j])
  }

  ghost predicate Ordered(s: ClientState) {
    forall id :: id in s.pipelines ==> Increasing(s.pipelines[id], s.cseq)
  }

  // Steps that only add requests

  ghost predicate Appends(before: seq<Request>, after: seq<Request>, first: nat) {
    before <= after && forall i {:trigger after[i]} :: |before| <= i < |after| ==> Number(after[i]) >= first
  }

  /** Every pipeline has kept its pending requests, in order, and may have gained some with new numbers. */
  ghost predicate Extends(s: ClientState, t: ClientState) {
    s.cseq <= t.cseq && (Ordered(s) ==> Ordered(t))
    && forall id {:trigger Pending(t, id)} :: Appends(Pending(s, id), Pending(t, id), s.cseq)
  }

  lemma AppendsTwice(a: seq<Request>, b: seq<Request>, c: seq<Request>, first: nat, second: nat)
    requires Appends(a, b, first) && Appends(b, c, second) && first <= second
    ensures Appends(a, c, first)
  {
    hide Number;
    forall i | |a| <= i < |c|
      ensures Number(c[i]) >= first
    {
      if i < |b| { assert c[i] == b[i]; }
    }
  }

  lemma ExtendsTwice(s: ClientState, t: ClientState, u: ClientState)
    requires Extends(s, t) && Extends(t, u)
    ensures Extends(s, u)
  {
    hide Ordered, Appends, Pending;
    forall id
      ensures Appends(Pending(s, id), Pending(u, id), s.cseq)
    {
      assert Appends(Pending(t, id), Pending(u, id), t.cseq);
      assert Appends(Pending(s, id), Pending(t, id), s.cseq);
      AppendsTwice(Pending(s, id), Pending(t, id), Pending(u, id), s.cseq, t.cseq);
    }
  }

  lemma Untouched(s: ClientState, t: ClientState)
    requires t.pipelines == s.pipelines && s.cseq <= t.cseq
    ensures Extends(s, t)
  {
    hide Number;
  }

  lemma IncreasingGrows(reqs: seq<Request>, bound: nat, req: Request)
    requires Increasing(reqs, bound) && CSeq in req.headers && Number(req) == bound
    ensures Increasing(reqs + [req], bound + 1)
  {
    hide Number;
  }

  lemma ScanWhole(n: int)
    ensures Scan(ToDecimal(n)) == Some((n, ""))
  {
    hide ToDecimal, Scan;
    ScanPrinted(n, "");
    assert ToDecimal(n) + "" == ToDecimal(n);
  }

  /** The next request, as a reader of its headers finds it. */
  lemma NextNumber(s: ClientState, verb: Method)
    ensures var req := Request(verb, s.auth.uri, NextHeaders(s), "");
            CSeq in req.headers && Number(req) == s.cseq
            && (s.pipeId > 0 <==> PipelinedRequests in req.headers)
            && (s.pipeId > 0 ==> req.headers[PipelinedRequests] == ToDecimal(s.pipeId))
            && (s.needAuth ==> Authorization in req.headers && req.headers[Authorization] == Credentials(s.auth))
  {
    hide ToDecimal, Scan, Credentials;
    ScanWhole(s.cseq);
  }

  lemma RequestExtends(s: ClientState, verb: Method)
    ensures Extends(s, MakeRequest(s, verb).0)
  {
    NextNumber(s, verb);
    hide Credentials, NextHeaders, ToDecimal, Number;
    var (t, req) := MakeRequest(s, verb);
    if Ordered(s) {
      forall id | id in t.pipelines
        ensures Increasing(t.pipelines[id], t.cseq)
      {
        if s.pipeId > 0 && id == s.pipeId {
          assert Increasing(Pending(s, id), s.cseq);
          IncreasingGrows(Pending(s, id), s.cseq, req);
        }
      }
    }
  }

  lemma SendWithExtends(s: ClientState, verb: Method, extra: Headers, body: string)
    ensures Extends(s, SendWith(s, verb, extra, body))
  {
    RequestExtends(s, verb);
    hide Extends, MakeRequest;
    Untouched(MakeRequest(s, verb).0, SendWith(s, verb, extra, body));
    ExtendsTwice(s, MakeRequest(s, verb).0, SendWith(s, verb, extra, body));
  }

  lemma SendSetupExtends(s: ClientState, track: Track)
    ensures Extends(s, SendSetup(s, track))
  {
    hide Extends, MakeRequest, T.ToString, TrackUrl;
    var s1 := Aimed(s, SETUP, TrackUrl(s.sdp.medias, track.0, s.auth.uri));
    var s2 := if s1.transports == [] then s1.(transports := [track], setupIter := 0) else s1;
    Untouched(s, s2);
    RequestExtends(s2, SETUP);
    var s3 := MakeRequest(s2, SETUP).0;
    Untouched(s3, SendSetup(s, track));
    ExtendsTwice(s, s2, s3);
    ExtendsTwice(s, s3, SendSetup(s, track));
  }

  lemma {:induction false} SetupBurstExtends(s: ClientState, i: nat)
    requires i <= |s.transports|
    ensures Extends(s, SetupBurst(s, i))
    decreases |s.transports| - i
  {
    hide Extends, SendSetup;
    var s1 := s.(setupIter := i);
    Untouched(s, s1);
    if i < |s.transports| {
      SendSetupExtends(s1, s.transports[i]);
      SetupKeepsTracks(s1, s.transports[i]);
      SetupBurstExtends(SendSetup(s1, s.transports[i]), i + 1);
      ExtendsTwice(s, s1, SendSetup(s1, s.transports[i]));
      ExtendsTwice(s, SendSetup(s1, s.transports[i]), SetupBurst(s, i));
    }
  }

  lemma SetupKeepsTracks(s: ClientState, track: Track)
    ensures s.transports != [] ==> SendSetup(s, track).transports == s.transports
  {
    hide T.ToString, NextHeaders, TrackUrl;
  }

  lemma SendForMediaExtends(s: ClientState, verb: Method, name: string, extra: Headers)
    ensures Extends(s, SendForMedia(s, verb, name, extra).state)
  {
    hide Extends, SendWith;
    match FirstUrl(s.sdp.medias, name)
    case None => Untouched(s, s.(auth := s.auth.(verb := verb)));
    case Some(url) =>
      var s1 := Aimed(s, verb, url);
      Untouched(s, s1);
      SendWithExtends(s1, verb, extra, "");
      ExtendsTwice(s, s1, SendWith(s1, verb, extra, ""));
  }

  lemma SendForNextExtends(s: ClientState, verb: Method, extra: Headers)
    ensures Extends(s, SendForNext(s, verb, extra).state)
  {
    hide Extends, SendForMedia;
    Untouched(s, s);
    if s.mediaStep < |s.sdp.medias| {
      var s1 := s.(mediaStep := s.mediaStep + 1);
      Untouched(s, s1);
      SendForMediaExtends(s1, verb, s.sdp.medias[s.mediaStep].name, extra);
      ExtendsTwice(s, s1, SendForMedia(s1, verb, s.sdp.medias[s.mediaStep].name, extra).state);
    }
  }

  /** A request for the next media description moves the index on by one, and nothing else that loops look at. */
  lemma NextSteps(s: ClientState, verb: Method, extra: Headers)
    ensures var o := SendForNext(s, verb, extra);
            o.error == Ok ==> s.mediaStep < |s.sdp.medias| && o.state.mediaStep == s.mediaStep + 1
                              && o.state.sdp == s.sdp && o.state.pipeId == s.pipeId
  {
    hide NextHeaders;
  }

  lemma {:induction false} SendForRestExtends(s: ClientState, verb: Method, extra: Headers)
    ensures Extends(s, SendForRest(s, verb, extra).state)
    decreases |s.sdp.medias| - s.mediaStep
  {
    hide Extends, SendForNext;
    SendForNextExtends(s, verb, extra);
    NextSteps(s, verb, extra);
    var o := SendForNext(s, verb, extra);
    if o.error == Ok && s.pipeId > 0 && o.state.mediaStep < |o.state.sdp.medias| {
      SendForRestExtends(o.state, verb, extra);
      ExtendsTwice(s, o.state, SendForRest(o.state, verb, extra).state);
    }
  }

  lemma ControlExtends(s: ClientState, verb: Method, extra: Headers)
    ensures Extends(s, Control(s, verb, extra).state)
  {
    hide Extends, SendWith, SendForNext, SendForRest;
    var s1 := s.(auth := s.auth.(verb := verb));
    var s2 := Aimed(s1, verb, s.sdp.aggregateUrl);
    Untouched(s, s1);
    Untouched(s, s2);
    SendWithExtends(s2, verb, extra, "");
    SendForNextExtends(s1, verb, extra);
    SendForRestExtends(s1, verb, extra);
    ExtendsTwice(s, s2, SendWith(s2, verb, extra, ""));
    ExtendsTwice(s, s1, SendForNext(s1, verb, extra).state);
    ExtendsTwice(s, s1, SendForRest(s1, verb, extra).state);
  }

  lemma CallExtends(s: ClientState, call: ApiCall)
    ensures Extends(s, Call(s, call).state)
  {
    hide Extends, SendWith, SendSetup, SetupBurst, Control, SendForMedia;
    match call
    case Simple(verb, body) =>
      var s1 := s.(auth := s.auth.(verb := verb));
      Untouched(s, s1);
      SendWithExtends(s1, verb, map[], body);
      ExtendsTwice(s, s1, SendWith(s1, verb, map[], body));
    case SetupTracks(tracks) =>
      var s1 := s.(transports := tracks, setupIter := 0);
      Untouched(s, s);
      Untouched(s, s1);
      if tracks != [] {
        SetupBurstExtends(s1, 0);
        SendSetupExtends(s1, tracks[0]);
        ExtendsTwice(s, s1, SetupBurst(s1, 0));
        ExtendsTwice(s, s1, SendSetup(s1, tracks[0]));
      }
    case SetupTrack(track) => SendSetupExtends(s, track);
    case ControlAll(verb, extra) => ControlExtends(s, verb, extra);
    case ControlMedia(verb, media, extra) => SendForMediaExtends(s, verb, media, extra);
    case StartPipeline(id) => Untouched(s, Call(s, call).state);
    case StopPipeline => Untouched(s, Call(s, call).state);
    case SetUserInfo(username, password) => Untouched(s, Call(s, call).state);
  }

  // Replies

  /** The callbacks a pipelined SETUP reply makes: one for every media description with its URL. */
  function SetUpEvents(session: SessionId, medias: seq<Media>, url: string, res: Response, t: T.TransportV1)
    : seq<ClientEvent>
    decreases |medias|
  {
    if medias == [] then []
    else (if medias[0].url == url then [SetUp(res, session, medias[0].name, t)] else [])
         + SetUpEvents(session, medias[1..], url, res, t)
  }

  lemma {:induction false} SetUpCallsLog(s: ClientState, medias: seq<Media>, url: string, res: Response,
                                         t: T.TransportV1)
    ensures SetUpCalls(s, medias, url, res, t) == s.(log := s.log + SetUpEvents(s.session, medias, url, res, t))
    decreases |medias|
  {
    if medias == [] {
      assert s.log + [] == s.log;
    } else {
      var e := SetUp(res, s.session, medias[0].name, t);
      var s1 := if medias[0].url == url then Logged(s, e) else s;
      SetUpCallsLog(s1, medias[1..], url, res, t);
      var rest := SetUpEvents(s.session, medias[1..], url, res, t);
      assert s.log + [e] + rest == s.log + ([e] + rest) && s.log + rest == s.log + ([] + rest);
    }
  }

  /** What a reply to the pending request `req` makes the client call, in order. */
  predicate CallsBack(cfg: Config, s: ClientState, t: ClientState, req: Request, res: Response) {
    if req.verb == SETUP then
      Transport in res.headers
      && var granted := T.Decode(res.headers[Transport], cfg.uninitialised);
         granted.Some? && t.log == s.log + SetUpEvents(t.session, s.sdp.medias, req.url, res, granted.value)
    else t.log == s.log + if HasCallback(req.verb) then [Called(req.verb, res)] else []
  }

  /** Whether the operation is a reply that answers a pending request, on which pipeline, and which. */
  function Answered(cfg: Config, s: ClientState, op: Op): (r: Option<(int, nat)>)
    ensures r.Some? ==> r.value.1 < |Pending(s, r.value.0)|
  {
    match op
    case Receive(Message(Res(res))) =>
      if res.status == UNAUTHORIZED || (s.session.id != "" && Session !in res.headers)
         || PipelinedRequests !in res.headers
      then None
      else
        (match Stoi(res.headers[PipelinedRequests])
         case None => None
         case Some(id) =>
           var pending := Pending(s, id);
           var k := FirstWith(pending, Get(res.headers, CSeq));
           if k < |pending| && pending[k].verb != DESCRIBE && After(cfg, s, op).error == Ok then Some((id, k))
           else None)
    case _ => None
  }

  lemma PipelinedSetupLog(cfg: Config, s: ClientState, req: Request, res: Response)
    ensures var o := PipelinedSetup(cfg, s, req, res);
            o.state.pipelines == s.pipelines && o.state.cseq == s.cseq
            && (o.error == Ok && req.verb == SETUP ==> CallsBack(cfg, s, o.state, req, res))
  {
    hide T.Decode, ParseSession, SetUpCalls, SetUpEvents;
    if Transport in res.headers {
      var t := T.Decode(res.headers[Transport], cfg.uninitialised);
      var a := Adopt(s, res);
      if t.Some? {
        SetUpCallsLog(a.state, a.state.sdp.medias, req.url, res, t.value);
      }
    }
  }

  lemma IncreasingWithout(reqs: seq<Request>, bound: nat, k: nat)
    requires Increasing(reqs, bound) && k < |reqs|
    ensures Increasing(Without(reqs, k), bound)
  {
    hide Number;
    var w := Without(reqs, k);
    forall i | 0 <= i < |w|
      ensures w[i] == reqs[if i < k then i else i + 1]
    {
    }
  }

  /** Request `k` of pipeline `id` is gone, and nothing else has changed. */
  ghost predicate Erases(s: ClientState, t: ClientState, id: int, k: nat)
    requires k < |Pending(s, id)|
  {
    t.cseq == s.cseq && (Ordered(s) ==> Ordered(t))
    && Pending(t, id) == Without(Pending(s, id), k) && forall i :: i != id ==> Pending(t, i) == Pending(s, i)
  }

  lemma Erased(s: ClientState, t: ClientState, id: int, k: nat)
    requires k < |Pending(s, id)| && t.cseq == s.cseq
    requires t.pipelines == s.pipelines[id := Pending(s, id)][id := Without(Pending(s, id), k)]
    ensures Erases(s, t, id, k)
  {
    hide Number;
    if Ordered(s) {
      assert Increasing(Pending(s, id), s.cseq);
      IncreasingWithout(Pending(s, id), s.cseq, k);
    }
  }

  lemma EntryExtends(s: ClientState, id: int)
    ensures Extends(s, s.(pipelines := s.pipelines[id := Pending(s, id)]))
  {
    hide Number;
  }

  /** A pipelined reply that is taken by `HandlePipelined`. */
  lemma PipelinedCases(cfg: Config, s: ClientState, res: Response)
    requires PipelinedRequests in res.headers
    ensures var o := HandlePipelined(cfg, s, res);
            var header := Stoi(res.headers[PipelinedRequests]);
            var k := if header.None? then 0 else FirstWith(Pending(s, header.value), Get(res.headers, CSeq));
            if header.Some? && k < |Pending(s, header.value)| && Pending(s, header.value)[k].verb != DESCRIBE
               && o.error == Ok
            then Erases(s, o.state, header.value, k) && CallsBack(cfg, s, o.state, Pending(s, header.value)[k], res)
            else Extends(s, o.state)
  {
    hide Stoi, FirstWith, HandleDescribe, PipelinedSetup, T.Decode, Extends, Erases, SetUpEvents;
    Untouched(s, s);
    if Stoi(res.headers[PipelinedRequests]).Some? {
      var id := Stoi(res.headers[PipelinedRequests]).value;
      var pending := Pending(s, id);
      var s1 := s.(pipelines := s.pipelines[id := pending]);
      EntryExtends(s, id);
      var k := FirstWith(pending, Get(res.headers, CSeq));
      var t := HandlePipelined(cfg, s, res).state;
      if !(pending != [] && CSeq !in res.headers) && k < |pending| {
        var req := pending[k];
        if req.verb == DESCRIBE {
          DescribeUntouched(cfg, s1, res);
          ExtendsTwice(s, s1, t);
        } else {
          PipelinedSetupLog(cfg, s1, req, res);
          if HandlePipelined(cfg, s, res).error == Ok {
            Erased(s, t, id, k);
          } else {
            Untouched(s1, t);
            ExtendsTwice(s, s1, t);
          }
        }
      }
    }
  }

  lemma DescribeUntouched(cfg: Config, s: ClientState, res: Response)
    ensures Extends(s, HandleDescribe(cfg, s, res))
  {
    var t := HandleDescribe(cfg, s, res);
    hide Extends;
    Untouched(s, t);
  }

  lemma SetupReplyExtends(cfg: Config, s: ClientState, res: Response)
    ensures Extends(s, HandleSetup(cfg, s, res).state)
  {
    hide Extends, SendSetup, T.Decode, ParseSession;
    Untouched(s, s);
    var t := HandleSetup(cfg, s, res).state;
    if 0 <= s.setupIter < |s.transports| && res.status == STATUS_OK && Transport in res.headers {
      var (media, requested) := s.transports[s.setupIter];
      var granted := T.Decode(res.headers[Transport], cfg.uninitialised);
      var a := Adopt(s, res);
      Untouched(s, a.state);
      if granted.Some? && a.error == Ok {
        var s1 := a.state.(transports := a.state.transports[s.setupIter := (media, granted.value)]);
        var s2 := Logged(s1, SetUp(res, s1.session, media, granted.value)).(setupIter := s.setupIter + 1);
        Untouched(s, s2);
        if s2.setupIter != |s2.transports| {
          SendSetupExtends(s2, s2.transports[s2.setupIter]);
          ExtendsTwice(s, s2, t);
        }
      }
    } else {
      Untouched(s, t);
    }
  }

  lemma UnAuthExtends(s: ClientState, res: Response)
    ensures Extends(s, HandleUnAuth(s, res).state)
  {
    var t := HandleUnAuth(s, res).state;
    assert t.pipelines == s.pipelines && s.cseq <= t.cseq by { hide Parser, Credentials; }
    hide Extends, HandleUnAuth;
    Untouched(s, t);
  }

  lemma ResponseExtends(cfg: Config, s: ClientState, res: Response)
    requires res.status == UNAUTHORIZED || (s.session.id != "" && Session !in res.headers)
             || PipelinedRequests !in res.headers
    ensures Extends(s, HandleResponse(cfg, s, res).state)
  {
    hide Extends, HandleUnAuth, HandlePipelined, HandleDescribe, HandleSetup, SendForNext;
    Untouched(s, s);
    UnAuthExtends(s, res);
    DescribeUntouched(cfg, s, res);
    SetupReplyExtends(cfg, s, res);
    SendForNextExtends(s, s.auth.verb, map[]);
    Untouched(s, Logged(s, Called(s.auth.verb, res)));
    Untouched(s, Logged(s, AuthFailed(s.auth.username, s.auth.password)));
  }

  lemma {:induction false} PacketExtends(s: ClientState, tracks: seq<Track>, channel: byte, payload: seq<byte>)
    ensures Extends(s, HandlePacket(s, tracks, channel, payload))
    decreases |tracks|
  {
    hide Extends;
    if tracks == [] || Carries(tracks[0].1, channel) {
      Untouched(s, HandlePacket(s, tracks, channel, payload));
    } else {
      PacketExtends(s, tracks[1..], channel, payload);
    }
  }

  /**
   * One operation: either it is a reply that answers a pending request, which is erased and called
   * back, or no pipeline loses anything.
   */
  lemma OpCases(cfg: Config, s: ClientState, op: Op)
    ensures var t := After(cfg, s, op).state;
            match Answered(cfg, s, op)
            case None => Extends(s, t)
            case Some((id, k)) =>
              Erases(s, t, id, k) && CallsBack(cfg, s, t, Pending(s, id)[k], op.item.value.response)
  {
    hide Extends, Erases, CallsBack, Call, HandlePacket, HandlePipelined, Stoi, FirstWith, HandleUnAuth,
      HandleDescribe, HandleSetup, HandleControl;
    match op
    case Do(call) => CallExtends(s, call);
    case Receive(Packet(channel, payload)) => PacketExtends(s, s.transports, channel, payload);
    case Receive(Message(Req(r))) => Untouched(s, HandleAsked(cfg, s, r));
    case Receive(Message(Res(r))) =>
      if r.status == UNAUTHORIZED || (s.session.id != "" && Session !in r.headers)
         || PipelinedRequests !in r.headers {
        ResponseExtends(cfg, s, r);
      } else {
        PipelinedCases(cfg, s, r);
      }
  }

  /** A pipeline gets shorter exactly when the operation is a reply that answers one of its requests. */
  lemma ShorterExactly(cfg: Config, s: ClientState, op: Op, id: int)
    ensures |Pending(After(cfg, s, op).state, id)| < |Pending(s, id)|
            <==> Answered(cfg, s, op).Some? && Answered(cfg, s, op).value.0 == id
  {
    OpCases(cfg, s, op);
    hide After, Answered, CallsBack, Ordered, Number, Pending;
  }

  // Whatever happens later

  /** A number that the client has used and that no request pending on the pipeline has. */
  ghost predicate Spent(s: ClientState, id: int, cseq: string) {
    NumberOf(cseq) < s.cseq && forall w :: w in Pending(s, id) ==> Get(w.headers, CSeq) != cseq
  }

  lemma ExtendsKeepsSpent(s: ClientState, t: ClientState, id: int, cseq: string)
    requires Extends(s, t) && Spent(s, id, cseq)
    ensures Spent(t, id, cseq)
  {
    hide Ordered, NumberOf;
    var before, after := Pending(s, id), Pending(t, id);
    assert Appends(before, after, s.cseq);
    forall w | w in after
      ensures Get(w.headers, CSeq) != cseq
    {
      var i :| 0 <= i < |after| && after[i] == w;
      if i < |before| { assert before[i] == after[i]; }
    }
  }

  lemma ErasesKeepsSpent(s: ClientState, t: ClientState, id: int, cseq: string, other: int, k: nat)
    requires k < |Pending(s, other)| && Erases(s, t, other, k) && Spent(s, id, cseq)
    ensures Spent(t, id, cseq)
  {
    hide Ordered, NumberOf;
    assert forall w :: w in Without(Pending(s, other), k) ==> w in Pending(s, other);
  }

  lemma OpKeepsSpent(cfg: Config, s: ClientState, op: Op, id: int, cseq: string)
    requires Spent(s, id, cseq)
    ensures Spent(After(cfg, s, op).state, id, cseq)
  {
    OpCases(cfg, s, op);
    hide After, Answered, CallsBack, Extends, Erases, Spent;
    var t := After(cfg, s, op).state;
    match Answered(cfg, s, op)
    case None => ExtendsKeepsSpent(s, t, id, cseq);
    case Some((other, k)) => ErasesKeepsSpent(s, t, id, cseq, other, k);
  }

  lemma {:induction false} RunKeepsSpent(cfg: Config, s: ClientState, ops: seq<Op>, id: int, cseq: string)
    requires Spent(s, id, cseq)
    ensures Spent(RunOps(cfg, s, ops), id, cseq)
    decreases |ops|
  {
    hide After, Spent;
    if ops != [] {
      OpKeepsSpent(cfg, s, ops[0], id, cseq);
      RunKeepsSpent(cfg, After(cfg, s, ops[0]).state, ops[1..], id, cseq);
    }
  }

  lemma SameNumber(a: Request, b: Request)
    ensures Get(a.headers, CSeq) == Get(b.headers, CSeq) ==> Number(a) == Number(b)
  {
    hide Scan;
  }

  lemma WithoutAt(reqs: seq<Request>, k: nat)
    requires k < |reqs|
    ensures |Without(reqs, k)| == |reqs| - 1
    ensures forall i :: 0 <= i < |reqs| - 1 ==> Without(reqs, k)[i] == reqs[if i < k then i else i + 1]
  {
  }

  /** An answered number is spent. */
  lemma ErasedIsSpent(s: ClientState, t: ClientState, id: int, k: nat)
    requires Ordered(s) && k < |Pending(s, id)| && Erases(s, t, id, k)
    ensures Spent(t, id, Get(Pending(s, id)[k].headers, CSeq))
  {
    hide NumberOf;
    var pending := Pending(s, id);
    assert Increasing(pending, s.cseq);
    WithoutAt(pending, k);
    hide Without;
    var rest := Pending(t, id);
    forall w | w in rest
      ensures Get(w.headers, CSeq) != Get(pending[k].headers, CSeq)
    {
      var i :| 0 <= i < |rest| && rest[i] == w;
      SameNumber(w, pending[k]);
    }
  }

  lemma {:induction false} NotFound(reqs: seq<Request>, cseq: string)
    requires forall w :: w in reqs ==> Get(w.headers, CSeq) != cseq
    ensures FirstWith(reqs, cseq) == |reqs|
  {
    if reqs != [] {
      assert reqs[0] in reqs;
      NotFound(reqs[1..], cseq);
    }
  }

  /** A reply with a spent number is an error. */
  lemma SpentIsRejected(cfg: Config, s: ClientState, id: int, res: Response)
    requires PipelinedRequests in res.headers && CSeq in res.headers && Stoi(res.headers[PipelinedRequests]) == Some(id)
    requires Spent(s, id, res.headers[CSeq])
    ensures HandlePipelined(cfg, s, res).error == PipelineNotFound
  {
    hide Stoi, FirstWith, HandleDescribe, PipelinedSetup, NumberOf;
    NotFound(Pending(s, id), res.headers[CSeq]);
  }

  /**
   * At most once: after a reply has answered a request, whatever the client is then asked to do and
   * whatever it receives, every further reply with that pipeline and number is an error.
   */
  lemma DuplicateRejected(cfg: Config, s: ClientState, op: Op, ops: seq<Op>, res: Response)
    requires Ordered(s) && Answered(cfg, s, op).Some?
    requires PipelinedRequests in res.headers && CSeq in res.headers
    requires var (id, k) := Answered(cfg, s, op).value;
             Stoi(res.headers[PipelinedRequests]) == Some(id)
             && res.headers[CSeq] == Get(Pending(s, id)[k].headers, CSeq)
    ensures var t := RunOps(cfg, After(cfg, s, op).state, ops);
            HandlePipelined(cfg, t, res).error == PipelineNotFound
            && (res.status != UNAUTHORIZED ==> HandleResponse(cfg, t, res).error in {PipelineNotFound, SessionIdError})
  {
    OpCases(cfg, s, op);
    var (id, k) := Answered(cfg, s, op).value;
    hide After, Answered, CallsBack, RunOps, Spent, Erases, Ordered, Stoi, HandlePipelined;
    var t := After(cfg, s, op).state;
    ErasedIsSpent(s, t, id, k);
    RunKeepsSpent(cfg, t, ops, id, res.headers[CSeq]);
    SpentIsRejected(cfg, RunOps(cfg, t, ops), id, res);
  }

  /** How many operations of a run answer the request with that number on that pipeline. */
  function TimesAnswered(cfg: Config, s: ClientState, ops: seq<Op>, id: int, cseq: string): nat
    decreases |ops|
  {
    if ops == [] then 0
    else
      (match Answered(cfg, s, ops[0])
       case Some((i, k)) => if i == id && Get(Pending(s, i)[k].headers, CSeq) == cseq then 1 else 0
       case None => 0)
      + TimesAnswered(cfg, After(cfg, s, ops[0]).state, ops[1..], id, cseq)
  }

  lemma OpKeepsOrder(cfg: Config, s: ClientState, op: Op)
    requires Ordered(s)
    ensures Ordered(After(cfg, s, op).state)
  {
    OpCases(cfg, s, op);
    hide After, Answered, CallsBack, Ordered;
  }

  lemma {:induction false} SpentNeverAnswered(cfg: Config, s: ClientState, ops: seq<Op>, id: int, cseq: string)
    requires Spent(s, id, cseq)
    ensures TimesAnswered(cfg, s, ops, id, cseq) == 0
    decreases |ops|
  {
    if ops != [] {
      OpKeepsSpent(cfg, s, ops[0], id, cseq);
      hide After, Answered;
      SpentNeverAnswered(cfg, After(cfg, s, ops[0]).state, ops[1..], id, cseq);
    }
  }

  /** In no run is a number answered twice. */
  lemma {:induction false} AnsweredAtMostOnce(cfg: Config, s: ClientState, ops: seq<Op>, id: int, cseq: string)
    requires Ordered(s)
    ensures TimesAnswered(cfg, s, ops, id, cseq) <= 1
    decreases |ops|
  {
    if ops != [] {
      OpCases(cfg, s, ops[0]);
      OpKeepsOrder(cfg, s, ops[0]);
      var t := After(cfg, s, ops[0]).state;
      hide After, CallsBack, Ordered, Erases, Spent, Extends;
      AnsweredAtMostOnce(cfg, t, ops[1..], id, cseq);
      match Answered(cfg, s, ops[0])
      case None =>
      case Some((i, k)) =>
        if i == id && Get(Pending(s, i)[k].headers, CSeq) == cseq {
          ErasedIsSpent(s, t, i, k);
          SpentNeverAnswered(cfg, t, ops[1..], id, cseq);
        }
    }
  }

  lemma {:induction false} RunKeepsOrder(cfg: Config, s: ClientState, ops: seq<Op>)
    requires Ordered(s)
    ensures Ordered(RunOps(cfg, s, ops))
    decreases |ops|
  {
    if ops != [] {
      OpKeepsOrder(cfg, s, ops[0]);
      hide After, Ordered;
      RunKeepsOrder(cfg, After(cfg, s, ops[0]).state, ops[1..]);
    }
  }

  /** From a new client on: no number is ever answered twice. */
  lemma NewClientAnswersOnce(cfg: Config, username: string, password: string, uri: string, ops: seq<Op>, id: int,
                             cseq: string)
    ensures var s := Initial(username, password, uri);
            Ordered(RunOps(cfg, s, ops)) && TimesAnswered(cfg, s, ops, id, cseq) <= 1
  {
    var s := Initial(username, password, uri);
    RunKeepsOrder(cfg, s, ops);
    AnsweredAtMostOnce(cfg, s, ops, id, cseq);
  }
}
