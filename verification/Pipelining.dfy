/**
 * SETUP of several tracks and an aggregate PLAY, pipelined (section 18.33 of RFC 7826) or one after
 * the other: every interleaving is safe, and the two modes do the same.
 */
module Pipelining {
  import opened Options
  import opened Text
  import opened Decimal
  import opened Messages
  import opened Stream
  import opened Authentication
  import opened Exchange
  import C = ClientSpec
  import S = ServerSpec
  import T = Transport

  /** The client's application has just asked for the tracks. */
  function Begin<A>(client: C.ClientState, server: S.ServerState<A>, tracks: seq<C.Track>): Parties<A> {
    ClientMoved(Parties(client, server, [], [], 0, 0, 0, [], [], Ok), C.SetupAll(client, tracks))
  }

  // What is being set up, and how the server's application decides

  // `pipe` 0 is the mode without pipelining; `first` is the first sequence number
  datatype Plan = Plan(
    tracks: seq<C.Track>, sdp: C.Sdp, pipe: nat, first: nat,
    grant: (string, T.TransportV1) -> T.TransportV1, serverMemory: T.Uninitialised, clientMemory: T.Uninitialised)

  function Url(p: Plan, k: nat): string {
    if k < |p.tracks| then C.TrackUrl(p.sdp.medias, p.tracks[k].0, "") else p.sdp.aggregateUrl
  }

  /** The transport a legible header stands for. */
  function Read(text: string, u: T.Uninitialised): T.TransportV1 {
    match T.Decode(text, u)
    case Some(t) => t
    case None => T.Fresh(u)
  }

  function Granted(p: Plan, k: nat): T.TransportV1
    requires k < |p.tracks|
  {
    p.grant(Url(p, k), Read(T.ToString(p.tracks[k].1), p.serverMemory))
  }

  /** The callback for reply `k`. */
  function Due(p: Plan, k: nat): Callback {
    if k < |p.tracks| then Tuned(p.tracks[k].0, Read(T.ToString(Granted(p, k)), p.clientMemory)) else Replied(PLAY)
  }

  function AllDue(p: Plan, count: nat): seq<Callback> { seq(count, k requires 0 <= k => Due(p, k)) }

  function Line(p: Plan, k: nat): SetupLine
    requires k < |p.tracks|
  {
    (Url(p, k), T.ToString(p.tracks[k].1))
  }

  function Lines(p: Plan, count: nat): seq<SetupLine>
    requires count <= |p.tracks|
  {
    seq(count, k requires 0 <= k < count => Line(p, k))
  }

  // Which requests and replies belong to the plan

  predicate Sound(p: Plan) {
    p.tracks != [] && p.pipe < 0x8000_0000 && DistinctMedias(p.sdp.medias)
    && (forall t :: t in p.tracks ==> Named(p.sdp.medias, t.0))
    && forall k :: 0 <= k < |p.tracks| ==>
         T.Legible(T.ToString(p.tracks[k].1)) && T.Legible(T.ToString(Granted(p, k)))
  }

  /** What is asked for and what is granted can be read. */
  lemma TrackRead(p: Plan, k: nat)
    requires Sound(p) && k < |p.tracks|
    ensures T.Decode(T.ToString(p.tracks[k].1), p.serverMemory) == Some(Read(T.ToString(p.tracks[k].1), p.serverMemory))
    ensures T.Decode(T.ToString(Granted(p, k)), p.clientMemory) == Some(Due(p, k).transport)
  {
    hide T.Decode, T.ToString, T.Legible, C.TrackUrl, Granted;
    T.LegibleIsRead(T.ToString(p.tracks[k].1), p.serverMemory);
    T.LegibleIsRead(T.ToString(Granted(p, k)), p.clientMemory);
  }

  predicate Waits(p: Plan, k: nat, req: Request) {
    req.verb == (if k < |p.tracks| then SETUP else PLAY) && req.url == Url(p, k)
    && CSeq in req.headers && req.headers[CSeq] == ToDecimal(p.first + k)
  }

  predicate OnPipe(p: Plan, headers: Headers) {
    (PipelinedRequests in headers <==> p.pipe > 0)
    && (p.pipe > 0 ==> headers[PipelinedRequests] == ToDecimal(p.pipe))
  }

  predicate Asks(p: Plan, k: nat, req: Request) {
    Waits(p, k, req) && OnPipe(p, req.headers)
    && (k < |p.tracks| ==> Transport in req.headers && req.headers[Transport] == T.ToString(p.tracks[k].1))
  }

  /** The server will accept the request's idea of the session. */
  predicate InSession(p: Plan, req: Request, session: string) {
    if Session in req.headers then session != "" && req.headers[Session] == session else session == "" || p.pipe > 0
  }

  predicate Answers(p: Plan, k: nat, session: string, res: Response) {
    res.status != UNAUTHORIZED && OnPipe(p, res.headers)
    && CSeq in res.headers && res.headers[CSeq] == ToDecimal(p.first + k)
    && Session in res.headers && res.headers[Session] == session
    && (k < |p.tracks| ==> res.status == STATUS_OK && Transport in res.headers
                           && res.headers[Transport] == T.ToString(Granted(p, k)))
  }

  lemma HasTracks(p: Plan)
    requires Sound(p)
    ensures p.tracks != []
  {
  }

  // The server's part

  /** The application grants track `k` by the rule. */
  predicate GrantsTrack<A>(h: S.Handlers<A>, p: Plan, app: A, k: nat, req: Request)
    requires k < |p.tracks|
  {
    var t := Read(T.ToString(p.tracks[k].1), p.serverMemory);
    Exchange.Grants(h, app, req, t) && h.onSetup(app, req, t, S.Greeting(req)).transport == Granted(p, k)
  }

  /** The application answers PLAY without 401, or defers it. */
  predicate Plays<A>(h: S.Handlers<A>, app: A, req: Request) {
    var g := h.onRequest(app, req, S.Greeting(req));
    g.r == 0 ==> g.response.status != UNAUTHORIZED && SameMarks(S.Greeting(req), g.response)
  }

  /** No authentication; the requests of the plan are granted, whatever happens to others. */
  ghost predicate Grants<A(!new)>(h: S.Handlers<A>, p: Plan) {
    Open(h)
    && (forall app: A, k: nat, req: Request {:trigger GrantsTrack(h, p, app, k, req)} ::
          k < |p.tracks| && Asks(p, k, req) ==> GrantsTrack(h, p, app, k, req))
    && forall app: A, req: Request {:trigger Plays(h, app, req)} :: Asks(p, |p.tracks|, req) ==> Plays(h, app, req)
  }

  predicate Welcome<A>(p: Plan, s: S.ServerState<A>, k: nat, req: Request) {
    s.prePipe == [] && Asks(p, k, req) && InSession(p, req, s.sessionId)
  }

  /** Neither authentication nor the session rules turn the request away. */
  lemma Admitted<A(!new)>(h: S.Handlers<A>, p: Plan, s: S.ServerState<A>, k: nat, req: Request)
    requires Grants(h, p) && Welcome(p, s, k, req)
    ensures S.HandleRequest(h, s, req) == S.Handle(h, s, req, S.Greeting(req))
  {
    assert !h.needAuth(s.app);
    hide Open, Grants, ToDecimal, T.ToString, Granted, Url, S.HandleRequest, S.Handle, S.Greeting, Verify;
    Admits(h, s, req);
    assert s.(authParam := s.authParam) == s;
  }

  /** What the server adds to a handler's reply. */
  lemma Labels(p: Plan, k: nat, req: Request, res: Response, session: string)
    requires session != "" && Asks(p, k, req) && Settles(p, k, req, res)
    ensures Answers(p, k, session, S.Labelled(res, session, req))
  {
    hide ToDecimal, T.ToString, Granted, Url;
  }

  /** A handler's reply to request `k`. */
  predicate Settles(p: Plan, k: nat, req: Request, res: Response) {
    SameMarks(S.Greeting(req), res) && res.status != UNAUTHORIZED
    && (k < |p.tracks| ==> res.status == STATUS_OK && Transport in res.headers
                           && res.headers[Transport] == T.ToString(Granted(p, k)))
  }

  lemma AsksTransport(p: Plan, k: nat, req: Request)
    requires k < |p.tracks| && Asks(p, k, req)
    ensures req.verb == SETUP && Transport in req.headers && req.headers[Transport] == T.ToString(p.tracks[k].1)
  {
    hide ToDecimal, T.ToString, Url;
  }

  lemma SetupDispatched<A(!new)>(h: S.Handlers<A>, p: Plan, s: S.ServerState<A>, k: nat, req: Request)
    requires Sound(p) && Grants(h, p) && h.uninitialised == p.serverMemory && k < |p.tracks| && Asks(p, k, req)
    ensures var d := S.Dispatch(h, s, req, S.Greeting(req));
            d.error == Ok && d.r == 0 && d.state.prePipe == s.prePipe && d.state.deferred == s.deferred
            && (if s.sessionId != "" then d.state.sessionId == s.sessionId else FitSession(d.state.sessionId))
            && d.state.log == s.log + [S.Handled(req, s.sessionId)]
            && Settles(p, k, req, d.response)
  {
    hide T.Decode, T.ToString, FitSession, ToDecimal, C.TrackUrl, S.Greeting, S.Dispatch, SameMarks, Sound, Read,
      Asks, Open, Granted, Plays;
    TrackRead(p, k);
    assert GrantsTrack(h, p, s.app, k, req);
    AsksTransport(p, k, req);
    SetupGranted(h, s, req, Read(T.ToString(p.tracks[k].1), p.serverMemory));
  }

  lemma ServerSetsUp<A(!new)>(h: S.Handlers<A>, p: Plan, s: S.ServerState<A>, k: nat, req: Request)
    returns (res: Response)
    requires Sound(p) && Grants(h, p) && h.uninitialised == p.serverMemory && k < |p.tracks|
    requires Welcome(p, s, k, req)
    requires s.sessionId == "" || FitSession(s.sessionId)
    ensures var o := S.HandleRequest(h, s, req);
            o.error == Ok && o.state.prePipe == [] && o.state.deferred == s.deferred
            && FitSession(o.state.sessionId) && (s.sessionId != "" ==> o.state.sessionId == s.sessionId)
            && o.state.log == s.log + [S.Handled(req, s.sessionId), S.Answered(res)]
            && Answers(p, k, o.state.sessionId, res)
  {
    hide Trim, C.ParseSession, Grants, S.Greeting, S.Dispatch, Settles, Answers, S.Labelled, S.HandleRequest,
      InSession, Asks, Sound;
    SetupDispatched(h, p, s, k, req);
    Admitted(h, p, s, k, req);
    var d := S.Dispatch(h, s, req, S.Greeting(req));
    res := S.Labelled(d.response, d.state.sessionId, req);
    Labels(p, k, req, d.response, d.state.sessionId);
  }

  lemma ServerPlays<A(!new)>(h: S.Handlers<A>, p: Plan, s: S.ServerState<A>, req: Request) returns (res: Response)
    requires Grants(h, p) && Welcome(p, s, |p.tracks|, req) && s.sessionId != ""
    ensures var o := S.HandleRequest(h, s, req);
            o.error == Ok && o.state.prePipe == [] && o.state.sessionId == s.sessionId
            && ((o.state.deferred == s.deferred + [req]
                 && o.state.log == s.log + [S.Handled(req, s.sessionId), S.Deferred(req)])
                || (o.state.deferred == s.deferred
                    && o.state.log == s.log + [S.Handled(req, s.sessionId), S.Answered(res)]
                    && Answers(p, |p.tracks|, s.sessionId, res)))
  {
    hide T.ToString, ToDecimal, S.Greeting, SameMarks, Granted, Answers, S.Labelled, S.HandleRequest, InSession, OnPipe;
    Admitted(h, p, s, |p.tracks|, req);
    var g := h.onRequest(s.app, req, S.Greeting(req));
    assert Plays(h, s.app, req);
    hide Grants;
    res := S.Labelled(g.response, s.sessionId, req);
    if g.r == 0 { Labels(p, |p.tracks|, req, g.response, s.sessionId); }
  }

  lemma ServerRepliesLater<A>(p: Plan, s: S.ServerState<A>, response: Response) returns (res: Response)
    requires s.deferred != [] && Asks(p, |p.tracks|, s.deferred[0]) && s.sessionId != ""
    requires response.status != UNAUTHORIZED && (p.pipe == 0 ==> PipelinedRequests !in response.headers)
    ensures var o := S.SendResponse(s, response);
            o.error == Ok && o.state == s.(deferred := s.deferred[1..], log := o.state.log)
            && o.state.log == s.log + [S.AnsweredLater(res)] && Answers(p, |p.tracks|, s.sessionId, res)
  {
    hide ToDecimal, T.ToString, Granted;
    res := S.SendResponse(s, response).state.log[|s.log|].response;
  }

  // The client's part

  lemma TrackCall(p: Plan, c: C.ClientState, k: nat, res: Response, t: T.TransportV1)
    requires Sound(p) && k < |p.tracks|
    ensures C.SetUpCalls(c, p.sdp.medias, Url(p, k), res, t)
            == C.Logged(c, C.SetUp(res, c.session, p.tracks[k].0, t))
    ensures forall otherwise :: C.TrackUrl(p.sdp.medias, p.tracks[k].0, otherwise) == Url(p, k)
  {
    assert Named(p.sdp.medias, p.tracks[k].0);
    var i :| 0 <= i < |p.sdp.medias| && p.sdp.medias[i].name == p.tracks[k].0;
    OneCall(c, p.sdp.medias, i, res, t);
    forall otherwise
      ensures C.TrackUrl(p.sdp.medias, p.tracks[k].0, otherwise) == p.sdp.medias[i].url
    {
      UrlFound(p.sdp.medias, i, otherwise);
    }
    UrlFound(p.sdp.medias, i, "");
  }

  lemma PipelinedSetupReply(cfg: C.Config, p: Plan, c: C.ClientState, k: nat, session: string, res: Response)
    returns (t: C.ClientState)
    requires Sound(p) && cfg.uninitialised == p.clientMemory && p.pipe > 0 && k < |p.tracks|
    requires Answers(p, k, session, res) && FitSession(session)
    requires c.session.id == "" || c.session.id == session
    requires c.sdp == p.sdp && C.Pending(c, p.pipe) != [] && Waits(p, k, C.Pending(c, p.pipe)[0])
    ensures C.HandleResponse(cfg, c, res) == Outcome(t, Ok)
    ensures t.log == c.log + [C.SetUp(res, t.session, p.tracks[k].0, Due(p, k).transport)]
    ensures t.session.id == session && C.Pending(t, p.pipe) == C.Pending(c, p.pipe)[1..]
    ensures t == c.(log := t.log, session := t.session, pipelines := t.pipelines)
  {
    StoiPrinted(p.pipe);
    hide T.Decode, T.ToString, ToDecimal, Stoi, Granted, Sound, FitSession, C.SetUpCalls, C.Adopt, Url, Read;
    TrackRead(p, k);
    var pending := C.Pending(c, p.pipe);
    assert C.FirstWith(pending, Get(res.headers, CSeq)) == 0;
    var s1 := c.(pipelines := c.pipelines[p.pipe := pending]);
    Adopted(s1, res, session);
    var s2 := C.Adopt(s1, res).state;
    TrackCall(p, s2, k, res, Due(p, k).transport);
    t := C.HandleResponse(cfg, c, res).state;
  }

  lemma PipelinedPlayReply(cfg: C.Config, p: Plan, c: C.ClientState, session: string, res: Response)
    returns (t: C.ClientState)
    requires p.pipe > 0 && p.pipe < 0x8000_0000
    requires Answers(p, |p.tracks|, session, res)
    requires C.Pending(c, p.pipe) != [] && Waits(p, |p.tracks|, C.Pending(c, p.pipe)[0])
    ensures C.HandleResponse(cfg, c, res) == Outcome(t, Ok)
    ensures t.log == c.log + [C.Called(PLAY, res)]
    ensures C.Pending(t, p.pipe) == C.Pending(c, p.pipe)[1..]
    ensures t == c.(log := t.log, pipelines := t.pipelines)
  {
    StoiPrinted(p.pipe);
    hide T.Decode, T.ToString, ToDecimal, Stoi, Granted, Url;
    var pending := C.Pending(c, p.pipe);
    assert C.FirstWith(pending, Get(res.headers, CSeq)) == 0;
    t := C.HandleResponse(cfg, c, res).state;
  }

  /** Request `k` has been recorded and numbered; nothing else the plan looks at has changed. */
  predicate Grew(p: Plan, c: C.ClientState, t: C.ClientState, k: nat) {
    t == c.(auth := t.auth, cseq := c.cseq + 1, pipelines := t.pipelines, log := t.log)
    && (p.pipe > 0 ==>
          var before, after := C.Pending(c, p.pipe), C.Pending(t, p.pipe);
          |after| == |before| + 1 && after[..|before|] == before && Waits(p, k, after[|before|]))
  }

  predicate Following(p: Plan, c: C.ClientState, k: nat) {
    c.sdp == p.sdp && c.pipeId == p.pipe && c.cseq == p.first + k
  }

  lemma RequestMade(p: Plan, c: C.ClientState, verb: Method, k: nat)
    requires Following(p, c, k) && c.auth.uri == Url(p, k) && verb == if k < |p.tracks| then SETUP else PLAY
    ensures var (t, req) := C.MakeRequest(c, verb);
            Grew(p, c, t, k) && t.log == c.log && t.auth == c.auth
            && Waits(p, k, req) && OnPipe(p, req.headers) && Carries(c, req) && Transport !in req.headers
  {
    hide ToDecimal, Url, Credentials;
  }

  lemma SetupSent(p: Plan, c: C.ClientState, k: nat) returns (req: Request)
    requires Sound(p) && k < |p.tracks| && Following(p, c, k) && c.transports != []
    ensures var t := C.SendSetup(c, p.tracks[k]);
            Grew(p, c, t, k) && t.log == c.log + [C.Sent(req)] && t.auth.verb == SETUP
            && Asks(p, k, req) && Carries(c, req)
  {
    hide C.TrackUrl, Sound, Url, C.NextHeaders, ToDecimal, T.ToString, C.MakeRequest, Waits, C.SetUpCalls;
    TrackCall(p, c, k, Response(0, map[], ""), c.transports[0].1);
    var c1 := C.Aimed(c, SETUP, C.TrackUrl(c.sdp.medias, p.tracks[k].0, c.auth.uri));
    RequestMade(p, c1, SETUP, k);
    var made := C.MakeRequest(c1, SETUP).1;
    req := made.(headers := made.headers[Transport := T.ToString(p.tracks[k].1)]);
    MadeHasNumber(p, k, made);
    WaitsStill(p, k, made, req);
  }

  lemma WaitsStill(p: Plan, k: nat, made: Request, sent: Request)
    requires Waits(p, k, made) && sent.verb == made.verb && sent.url == made.url
    requires CSeq in sent.headers && sent.headers[CSeq] == Get(made.headers, CSeq)
    ensures Waits(p, k, sent)
  {
    hide ToDecimal, Url;
  }

  lemma PlaySent(p: Plan, c: C.ClientState, extra: Headers) returns (req: Request)
    requires Following(p, c, |p.tracks|) && c.isAggregate
    requires Session !in extra && PipelinedRequests !in extra
    ensures var o := C.Control(c, PLAY, extra);
            o.error == Ok && Grew(p, c, o.state, |p.tracks|) && o.state.log == c.log + [C.Sent(req)]
            && o.state.auth.verb == PLAY && Asks(p, |p.tracks|, req) && Carries(c, req)
  {
    hide C.NextHeaders, ToDecimal, T.ToString, C.MakeRequest, Waits;
    var k := |p.tracks|;
    var c1 := C.Aimed(c.(auth := c.auth.(verb := PLAY)), PLAY, c.sdp.aggregateUrl);
    RequestMade(p, c1, PLAY, k);
    var made := C.MakeRequest(c1, PLAY).1;
    req := made.(headers := extra + made.headers, body := "");
    MadeHasNumber(p, k, made);
    WaitsStill(p, k, made, req);
  }

  lemma MadeHasNumber(p: Plan, k: nat, made: Request)
    requires Waits(p, k, made)
    ensures CSeq in made.headers
  {
  }

  /** A set-up reply without pipelining: the callback, and the next SETUP if there is one. */
  lemma SequentialSetupReply(cfg: C.Config, p: Plan, c: C.ClientState, k: nat, session: string, res: Response)
    returns (t: C.ClientState, called: C.ClientState, req: Request)
    requires Sound(p) && cfg.uninitialised == p.clientMemory && p.pipe == 0 && k < |p.tracks|
    requires Answers(p, k, session, res) && FitSession(session)
    requires c.session.id == "" || c.session.id == session
    requires Following(p, c, k + 1) && c.auth.verb == SETUP && InTurn(p, c, k)
    ensures C.HandleResponse(cfg, c, res) == Outcome(t, Ok)
    ensures called.log == c.log + [C.SetUp(res, t.session, p.tracks[k].0, Due(p, k).transport)]
    ensures called == c.(log := called.log, session := t.session, transports := t.transports, setupIter := k + 1)
    ensures t.session.id == session && InTurn(p, t, k + 1) && t.auth.verb == SETUP
    ensures if k + 1 < |p.tracks| then
              Grew(p, called, t, k + 1) && t.log == called.log + [C.Sent(req)] && Asks(p, k + 1, req) && Carries(t, req)
            else t == called
  {
    hide T.Decode, T.ToString, ToDecimal, Granted, FitSession, C.Adopt, Url, C.SendSetup, Sound, Waits, Read;
    Adopted(c, res, session);
    TrackRead(p, k);
    var granted := Due(p, k).transport;
    var a := C.Adopt(c, res).state;
    called := C.Logged(a.(transports := a.transports[k := (p.tracks[k].0, granted)]),
                       C.SetUp(res, a.session, p.tracks[k].0, granted)).(setupIter := k + 1);
    t := C.HandleResponse(cfg, c, res).state;
    if k + 1 < |p.tracks| {
      req := SetupSent(p, called, k + 1);
    } else {
      req := Request(SETUP, "", map[], "");
    }
  }

  /** Without pipelining, track `k` is the one being set up and the later ones are as they were asked for. */
  predicate InTurn(p: Plan, c: C.ClientState, k: nat) {
    c.setupIter == k && |c.transports| == |p.tracks|
      && forall i :: k <= i < |p.tracks| ==> c.transports[i] == p.tracks[i]
  }

  lemma SequentialPlayReply(cfg: C.Config, p: Plan, c: C.ClientState, session: string, res: Response)
    requires p.pipe == 0 && Answers(p, |p.tracks|, session, res) && c.auth.verb == PLAY && c.isAggregate
    ensures C.HandleResponse(cfg, c, res) == Outcome(C.Logged(c, C.Called(PLAY, res)), Ok)
  {
    hide ToDecimal;
  }

  // What every run keeps

  function SentSoFar<A>(y: Parties<A>): nat { y.taken + |y.toServer| }
  function RepliedSoFar<A>(y: Parties<A>): nat { y.received + |y.toClient| }
  function Delivered<A>(y: Parties<A>): nat { y.taken + RepliedSoFar(y) + y.received }

  /** PLAY has been sent before just when it has been sent after. */
  predicate Steady<A>(p: Plan, y: Parties<A>, z: Parties<A>) {
    (SentSoFar(z) > |p.tracks| <==> SentSoFar(y) > |p.tracks|) && Delivered(z) >= Delivered(y)
  }

  function Min(a: nat, b: nat): nat { if a < b then a else b }

  /** Every request sent is under way, waiting at the server, answered under way, or answered. */
  predicate Balanced<A>(p: Plan, y: Parties<A>) {
    var n := |p.tracks|;
    y.error == Ok && y.handled == y.taken
    && (if p.pipe == 0 && y.received < n then SentSoFar(y) == y.received + 1 else n <= SentSoFar(y) <= n + 1)
    && (if y.server.deferred == [] then RepliedSoFar(y) == y.taken
        else y.taken == n + 1 && RepliedSoFar(y) == n && |y.server.deferred| == 1 && Asks(p, n, y.server.deferred[0]))
  }

  ghost predicate ChannelsFit(p: Plan, taken: nat, toServer: seq<Request>, received: nat, toClient: seq<Response>,
                        session: string) {
    (forall i {:trigger toServer[i]} :: 0 <= i < |toServer| ==>
       Asks(p, taken + i, toServer[i]) && InSession(p, toServer[i], session))
    && forall i {:trigger toClient[i]} :: 0 <= i < |toClient| ==> Answers(p, received + i, session, toClient[i])
  }

  predicate ServerFits<A>(s: S.ServerState<A>, taken: nat) {
    s.prePipe == [] && if taken == 0 then s.sessionId == "" else FitSession(s.sessionId)
  }

  ghost predicate ClientFits(p: Plan, c: C.ClientState, sent: nat, received: nat, session: string) {
    received <= sent && c.isAggregate && Following(p, c, sent)
      && c.session.id == (if received == 0 then "" else session)
    && if p.pipe > 0 then
         |C.Pending(c, p.pipe)| == sent - received
         && forall i :: 0 <= i < sent - received ==> Waits(p, received + i, C.Pending(c, p.pipe)[i])
       else
         c.auth.verb == (if sent <= |p.tracks| then SETUP else PLAY) && InTurn(p, c, Min(received, |p.tracks|))
  }

  predicate Heard<A>(p: Plan, y: Parties<A>) {
    y.heard == AllDue(p, y.received) && y.setups == Lines(p, Min(SentSoFar(y), |p.tracks|))
  }

  ghost predicate OnPlan<A>(p: Plan, y: Parties<A>) {
    Balanced(p, y) && ChannelsFit(p, y.taken, y.toServer, y.received, y.toClient, y.server.sessionId)
    && ServerFits(y.server, y.taken) && ClientFits(p, y.client, SentSoFar(y), y.received, y.server.sessionId)
    && Heard(p, y)
  }

  lemma TakenFits(p: Plan, taken: nat, toServer: seq<Request>, received: nat, toClient: seq<Response>,
                  before: string, after: string, replies: seq<Response>)
    requires ChannelsFit(p, taken, toServer, received, toClient, before) && toServer != []
    requires before == after || (before == "" && toClient == [] && (p.pipe > 0 || |toServer| == 1))
    requires |replies| <= 1 && (replies != [] ==> Answers(p, received + |toClient|, after, replies[0]))
    ensures ChannelsFit(p, taken + 1, toServer[1..], received, toClient + replies, after)
  {
    hide Asks, Answers;
    forall i | 0 <= i < |toServer[1..]|
      ensures Asks(p, taken + 1 + i, toServer[1..][i]) && InSession(p, toServer[1..][i], after)
    {
      assert toServer[1..][i] == toServer[i + 1];
    }
  }

  /** The state after the server has read a request: `replies` is its answer, or nothing when it is deferred. */
  function Taken<A>(y: Parties<A>, s: S.ServerState<A>, replies: seq<Response>): Parties<A>
    requires y.toServer != []
  {
    y.(server := s, toServer := y.toServer[1..], taken := y.taken + 1,
       toClient := y.toClient + replies, handled := y.handled + 1)
  }

  /** The state the server reaches is one it may reach by reading the request at the front. */
  predicate Takes<A>(p: Plan, y: Parties<A>, s: S.ServerState<A>, replies: seq<Response>)
    requires y.toServer != []
  {
    s.prePipe == [] && FitSession(s.sessionId)
    && (if y.taken == 0 then y.server.sessionId == "" else s.sessionId == y.server.sessionId)
    && (if replies == [] then s.deferred == y.server.deferred + [y.toServer[0]] && y.taken == |p.tracks|
        else |replies| == 1 && s.deferred == y.server.deferred && Answers(p, y.taken, s.sessionId, replies[0]))
  }

  lemma TakenBalanced<A>(p: Plan, y: Parties<A>, s: S.ServerState<A>, replies: seq<Response>)
    requires Balanced(p, y) && y.toServer != [] && Takes(p, y, s, replies) && Asks(p, y.taken, y.toServer[0])
    ensures Balanced(p, Taken(y, s, replies)) && SentSoFar(Taken(y, s, replies)) == SentSoFar(y)
    ensures y.server.deferred == [] && RepliedSoFar(y) == y.taken
  {
    hide Asks, Answers, FitSession;
  }

  lemma TakenKeeps<A>(p: Plan, y: Parties<A>, s: S.ServerState<A>, replies: seq<Response>)
    requires OnPlan(p, y) && y.toServer != [] && Takes(p, y, s, replies)
    ensures OnPlan(p, Taken(y, s, replies)) && Steady(p, y, Taken(y, s, replies))
    ensures Delivered(Taken(y, s, replies)) > Delivered(y)
  {
    hide Asks, InSession, Answers, AllDue, Lines, FitSession, Waits, Following, InTurn, ChannelsFit;
    FrontAsks(p, y.taken, y.toServer, y.received, y.toClient, y.server.sessionId);
    TakenBalanced(p, y, s, replies);
    assert y.taken == 0 ==> y.toClient == [] && (p.pipe > 0 || |y.toServer| == 1);
    hide Balanced;
    TakenFits(p, y.taken, y.toServer, y.received, y.toClient, y.server.sessionId, s.sessionId, replies);
  }

  lemma FrontAsks(p: Plan, taken: nat, toServer: seq<Request>, received: nat, toClient: seq<Response>, session: string)
    requires ChannelsFit(p, taken, toServer, received, toClient, session) && toServer != []
    ensures Asks(p, taken, toServer[0]) && InSession(p, toServer[0], session)
  {
    assert Asks(p, taken + 0, toServer[0]);
    hide Asks, InSession, Answers;
  }

  /** Reading a SETUP. */
  lemma SetupTaken<A(!new)>(h: S.Handlers<A>, p: Plan, y: Parties<A>) returns (replies: seq<Response>)
    requires Sound(p) && Grants(h, p) && h.uninitialised == p.serverMemory && OnPlan(p, y)
    requires y.toServer != [] && y.taken < |p.tracks|
    ensures var o := S.HandleRequest(h, y.server, y.toServer[0]);
            Takes(p, y, o.state, replies)
            && ServerMoved(y.(toServer := y.toServer[1..], taken := y.taken + 1), o) == Taken(y, o.state, replies)
  {
    hide S.HandleRequest, Grants, Welcome, Answers, ServerMoved, OnPlan, Trim, C.ParseSession, Sound;
    var req, s := y.toServer[0], y.server;
    Invited(p, y);
    var res := ServerSetsUp(h, p, s, y.taken, req);
    var y1 := y.(toServer := y.toServer[1..], taken := y.taken + 1);
    AnsweredMove(y1, S.HandleRequest(h, s, req), req, s.sessionId, res);
    replies := [res];
  }

  /** Reading PLAY. */
  lemma PlayTaken<A(!new)>(h: S.Handlers<A>, p: Plan, y: Parties<A>) returns (replies: seq<Response>)
    requires Sound(p) && Grants(h, p) && OnPlan(p, y)
    requires y.toServer != [] && y.taken >= |p.tracks|
    ensures var o := S.HandleRequest(h, y.server, y.toServer[0]);
            Takes(p, y, o.state, replies)
            && ServerMoved(y.(toServer := y.toServer[1..], taken := y.taken + 1), o) == Taken(y, o.state, replies)
  {
    hide S.HandleRequest, Grants, Welcome, Answers, ServerMoved, OnPlan, Trim, C.ParseSession, Sound;
    var req, s := y.toServer[0], y.server;
    var y1 := y.(toServer := y.toServer[1..], taken := y.taken + 1);
    Invited(p, y);
    var res := ServerPlays(h, p, s, req);
    var o := S.HandleRequest(h, s, req);
    if o.state.deferred == s.deferred {
      AnsweredMove(y1, o, req, s.sessionId, res);
      replies := [res];
    } else {
      DeferredMove(y1, o, req, s.sessionId);
      replies := [];
      assert y.toClient + [] == y.toClient;
    }
  }

  lemma ServerTakesKeeps<A(!new)>(h: S.Handlers<A>, cfg: C.Config, p: Plan, y: Parties<A>)
    requires Sound(p) && Grants(h, p) && h.uninitialised == p.serverMemory && OnPlan(p, y)
    ensures OnPlan(p, Advance(h, cfg, y, ServerTakes)) && Steady(p, y, Advance(h, cfg, y, ServerTakes))
    ensures y.toServer != [] ==> Delivered(Advance(h, cfg, y, ServerTakes)) > Delivered(y)
  {
    hide S.HandleRequest, Grants, OnPlan, ServerMoved, Takes, Taken, Sound;
    if y.toServer != [] {
      var replies := [];
      if y.taken < |p.tracks| {
        replies := SetupTaken(h, p, y);
      } else {
        replies := PlayTaken(h, p, y);
      }
      TakenKeeps(p, y, S.HandleRequest(h, y.server, y.toServer[0]).state, replies);
    }
  }

  lemma Invited<A>(p: Plan, y: Parties<A>)
    requires Sound(p) && OnPlan(p, y) && y.toServer != []
    ensures Welcome(p, y.server, y.taken, y.toServer[0]) && y.taken <= |p.tracks|
    ensures y.error == Ok && if y.taken == 0 then y.server.sessionId == "" else FitSession(y.server.sessionId)
    ensures y.taken == |p.tracks| ==> y.server.sessionId != ""
  {
    assert Asks(p, y.taken + 0, y.toServer[0]) && InSession(p, y.toServer[0], y.server.sessionId);
    hide Asks, InSession, Answers, AllDue, Lines, Trim, C.ParseSession, ClientFits;
  }

  /** What the applications may do: reply without 401, and call `play` once, at the right time. */
  predicate Proper<A>(p: Plan, y: Parties<A>, m: Move) {
    match m
    case ServerReplies(res) => res.status != UNAUTHORIZED && (p.pipe == 0 ==> PipelinedRequests !in res.headers)
    case ClientCalls(call) =>
      call.ControlAll? && call.verb == PLAY && Session !in call.extra && PipelinedRequests !in call.extra
      && SentSoFar(y) == |p.tracks| && (p.pipe == 0 ==> y.received == |p.tracks|)
    case _ => true
  }

  lemma RepliesGrow(p: Plan, taken: nat, toServer: seq<Request>, received: nat, toClient: seq<Response>,
                    session: string, res: Response)
    requires ChannelsFit(p, taken, toServer, received, toClient, session)
    requires Answers(p, received + |toClient|, session, res)
    ensures ChannelsFit(p, taken, toServer, received, toClient + [res], session)
  {
    hide Asks, Answers, InSession;
  }

  lemma ServerRepliesKeeps<A>(h: S.Handlers<A>, cfg: C.Config, p: Plan, y: Parties<A>, response: Response)
    requires Sound(p) && OnPlan(p, y) && Proper(p, y, ServerReplies(response))
    ensures OnPlan(p, Advance(h, cfg, y, ServerReplies(response)))
    ensures Steady(p, y, Advance(h, cfg, y, ServerReplies(response)))
    ensures y.server.deferred != [] ==> Delivered(Advance(h, cfg, y, ServerReplies(response))) > Delivered(y)
  {
    hide S.SendResponse, ServerMoved, ClientFits, Asks, Answers, AllDue, Lines, FitSession, ChannelsFit, Sound;
    if y.server.deferred != [] {
      var s := y.server;
      Waiting(p, y);
      var res := ServerRepliesLater(p, s, response);
      LaterMove(y, S.SendResponse(s, response), res);
      RepliesGrow(p, y.taken, y.toServer, y.received, y.toClient, s.sessionId, res);
    }
  }

  lemma Waiting<A>(p: Plan, y: Parties<A>)
    requires Sound(p) && OnPlan(p, y) && y.server.deferred != []
    ensures y.server.sessionId != "" && Asks(p, |p.tracks|, y.server.deferred[0]) && y.error == Ok
  {
    hide Asks, Answers, ClientFits, ChannelsFit, Heard, Trim, C.ParseSession;
  }

  lemma SetupsOf(p: Plan, k: nat, req: Request)
    requires Asks(p, k, req)
    ensures SetupsIn([req]) == if k < |p.tracks| then [Line(p, k)] else []
  {
    hide ToDecimal, T.ToString, Url;
    assert [req][1..] == [];
  }

  lemma SentMove<A>(p: Plan, y: Parties<A>, o: Outcome<C.ClientState>, k: nat, req: Request)
    requires o.state.log == y.client.log + [C.Sent(req)] && o.error == Ok && y.error == Ok && Asks(p, k, req)
    ensures ClientMoved(y, o)
            == y.(client := o.state, toServer := y.toServer + [req],
                  setups := y.setups + if k < |p.tracks| then [Line(p, k)] else [])
  {
    hide RequestsIn, CallbacksIn, SetupsIn, Asks, Line;
    AddedIs(y.client.log, [C.Sent(req)]);
    ClientEvents(C.Sent(req), C.Sent(req));
    SetupsOf(p, k, req);
    assert y.heard + [] == y.heard;
  }

  lemma RequestsGrow(p: Plan, taken: nat, toServer: seq<Request>, received: nat, toClient: seq<Response>,
                     session: string, req: Request)
    requires ChannelsFit(p, taken, toServer, received, toClient, session)
    requires Asks(p, taken + |toServer|, req) && InSession(p, req, session)
    ensures ChannelsFit(p, taken, toServer + [req], received, toClient, session)
  {
    hide Asks, Answers, InSession;
  }

  /** The records of a client whose next request has been sent. */
  lemma SentFits(p: Plan, c: C.ClientState, t: C.ClientState, sent: nat, received: nat, session: string)
    requires received <= sent && ClientFits(p, c, sent, received, session) && Grew(p, c, t, sent)
    requires t.auth.verb == if sent < |p.tracks| then SETUP else PLAY
    ensures ClientFits(p, t, sent + 1, received, session)
  {
    hide Waits, Url;
  }

  lemma PlayMove<A>(h: S.Handlers<A>, cfg: C.Config, p: Plan, y: Parties<A>, extra: Headers) returns (req: Request)
    requires Sound(p) && OnPlan(p, y) && Proper(p, y, ClientCalls(C.ControlAll(PLAY, extra)))
    ensures var t := C.Control(y.client, PLAY, extra).state;
            Advance(h, cfg, y, ClientCalls(C.ControlAll(PLAY, extra)))
              == y.(client := t, toServer := y.toServer + [req])
            && Grew(p, y.client, t, |p.tracks|) && t.auth.verb == PLAY
            && Asks(p, |p.tracks|, req) && InSession(p, req, y.server.sessionId)
  {
    hide C.Control, ClientMoved, Asks, Answers, Lines, Grew, Trim, C.ParseSession, ChannelsFit, Heard;
    req := PlaySent(p, y.client, extra);
    SentMove(p, y, C.Control(y.client, PLAY, extra), |p.tracks|, req);
    assert y.setups + [] == y.setups;
  }

  lemma ClientPlaysKeeps<A>(h: S.Handlers<A>, cfg: C.Config, p: Plan, y: Parties<A>, extra: Headers)
    requires Sound(p) && OnPlan(p, y) && Proper(p, y, ClientCalls(C.ControlAll(PLAY, extra)))
    ensures OnPlan(p, Advance(h, cfg, y, ClientCalls(C.ControlAll(PLAY, extra))))
    ensures SentSoFar(Advance(h, cfg, y, ClientCalls(C.ControlAll(PLAY, extra)))) > |p.tracks|
    ensures Delivered(Advance(h, cfg, y, ClientCalls(C.ControlAll(PLAY, extra)))) == Delivered(y)
  {
    hide Advance, C.Control, Asks, Answers, AllDue, Lines, Grew, ServerFits, ClientFits, Sound, ChannelsFit, InSession;
    var req := PlayMove(h, cfg, p, y, extra);
    var t := C.Control(y.client, PLAY, extra).state;
    RequestsGrow(p, y.taken, y.toServer, y.received, y.toClient, y.server.sessionId, req);
    SentFits(p, y.client, t, |p.tracks|, y.received, y.server.sessionId);
  }

  lemma DueGrows(p: Plan, k: nat)
    ensures AllDue(p, k + 1) == AllDue(p, k) + [Due(p, k)]
    ensures k < |p.tracks| ==> Lines(p, k + 1) == Lines(p, k) + [Line(p, k)]
  {
    hide Due, Line;
  }

  lemma FrontAnswers(p: Plan, taken: nat, toServer: seq<Request>, received: nat, toClient: seq<Response>,
                     session: string)
    requires ChannelsFit(p, taken, toServer, received, toClient, session) && toClient != []
    ensures Answers(p, received, session, toClient[0])
    ensures ChannelsFit(p, taken, toServer, received + 1, toClient[1..], session)
  {
    hide Asks, InSession, Answers;
    assert Answers(p, received + 0, session, toClient[0]);
    forall i | 0 <= i < |toClient[1..]|
      ensures Answers(p, received + 1 + i, session, toClient[1..][i])
    {
      assert toClient[1..][i] == toClient[i + 1];
    }
  }

  lemma CalledAndSentMove<A>(p: Plan, y: Parties<A>, o: Outcome<C.ClientState>, e: C.ClientEvent, k: nat, req: Request)
    requires o.state.log == y.client.log + [e] + [C.Sent(req)] && o.error == Ok && y.error == Ok
    requires e.SetUp? && k < |p.tracks| && Asks(p, k, req)
    ensures ClientMoved(y, o)
            == y.(client := o.state, toServer := y.toServer + [req],
                  heard := y.heard + [Tuned(e.media, e.transport)], setups := y.setups + [Line(p, k)])
  {
    hide RequestsIn, CallbacksIn, SetupsIn, Asks, Line;
    assert y.client.log + [e] + [C.Sent(req)] == y.client.log + [e, C.Sent(req)];
    AddedIs(y.client.log, [e, C.Sent(req)]);
    ClientEvents(e, C.Sent(req));
    ClientEvents(C.Sent(req), C.Sent(req));
    ClientEvents(e, e);
    SetupsOf(p, k, req);
    assert [] + [req] == [req] && CallbacksIn([e]) + [] == CallbacksIn([e]);
  }

  /** What is known when the client is about to read reply `y.received`. */
  lemma ReplyDue<A>(p: Plan, y: Parties<A>)
    requires Sound(p) && OnPlan(p, y) && y.toClient != []
    ensures Answers(p, y.received, y.server.sessionId, y.toClient[0]) && FitSession(y.server.sessionId)
    ensures y.received <= |p.tracks| && y.received < SentSoFar(y) <= |p.tracks| + 1 && y.error == Ok
    ensures p.pipe == 0 && y.received < |p.tracks| ==> SentSoFar(y) == y.received + 1
  {
    hide Asks, Answers, Trim, C.ParseSession, ChannelsFit, Heard, ClientFits;
    FrontAnswers(p, y.taken, y.toServer, y.received, y.toClient, y.server.sessionId);
  }

  /** The state after the client has read a reply, and sent `requests`. */
  function Got<A>(p: Plan, y: Parties<A>, c: C.ClientState, requests: seq<Request>): Parties<A>
    requires y.toClient != []
  {
    y.(client := c, toClient := y.toClient[1..], received := y.received + 1, toServer := y.toServer + requests,
       heard := y.heard + [Due(p, y.received)],
       setups := y.setups + if requests != [] && y.received + 1 < |p.tracks| then [Line(p, y.received + 1)] else [])
  }

  /** The client's new state and its next request are those of the plan. */
  ghost predicate Continues<A>(p: Plan, y: Parties<A>, c: C.ClientState, requests: seq<Request>) {
    ClientFits(p, c, SentSoFar(y) + |requests|, y.received + 1, y.server.sessionId)
    && (if p.pipe == 0 && y.received + 1 < |p.tracks|
        then |requests| == 1 && Asks(p, y.received + 1, requests[0]) && InSession(p, requests[0], y.server.sessionId)
        else requests == [])
  }

  lemma GotBalanced<A>(p: Plan, y: Parties<A>, c: C.ClientState, requests: seq<Request>)
    requires Balanced(p, y) && y.toClient != [] && Continues(p, y, c, requests) && Heard(p, y)
    ensures Balanced(p, Got(p, y, c, requests)) && Heard(p, Got(p, y, c, requests))
  {
    hide Asks, ClientFits, InSession, Due, AllDue, Lines, Line;
    DueGrows(p, y.received);
    DueGrows(p, y.received + 1);
  }

  lemma GotChannels<A>(p: Plan, y: Parties<A>, requests: seq<Request>)
    requires Sound(p) && OnPlan(p, y) && y.toClient != []
    requires requests == [] || (|requests| == 1 && Asks(p, SentSoFar(y), requests[0])
                                && InSession(p, requests[0], y.server.sessionId))
    ensures ChannelsFit(p, y.taken, y.toServer + requests, y.received + 1, y.toClient[1..], y.server.sessionId)
  {
    hide Asks, Answers, ChannelsFit, Balanced, Heard, ClientFits, InSession, ServerFits, Sound;
    FrontAnswers(p, y.taken, y.toServer, y.received, y.toClient, y.server.sessionId);
    if requests == [] {
      assert y.toServer + requests == y.toServer;
    } else {
      assert requests == [requests[0]];
      RequestsGrow(p, y.taken, y.toServer, y.received + 1, y.toClient[1..], y.server.sessionId, requests[0]);
    }
  }

  lemma GotKeeps<A>(p: Plan, y: Parties<A>, c: C.ClientState, requests: seq<Request>)
    requires Sound(p) && OnPlan(p, y) && y.toClient != [] && Continues(p, y, c, requests)
    ensures OnPlan(p, Got(p, y, c, requests))
    ensures Steady(p, y, Got(p, y, c, requests)) && Delivered(Got(p, y, c, requests)) > Delivered(y)
  {
    hide Asks, Answers, ChannelsFit, Balanced, Heard, ClientFits, InSession, ServerFits, Line, Due, Sound, FitSession;
    ReplyDue(p, y);
    GotBalanced(p, y, c, requests);
    GotChannels(p, y, requests);
  }

  function Reading<A>(y: Parties<A>): Parties<A>
    requires y.toClient != []
  {
    y.(toClient := y.toClient[1..], received := y.received + 1)
  }

  lemma NothingSent<A>(y: Parties<A>)
    ensures y.toServer + [] == y.toServer && y.setups + [] == y.setups
  {
  }

  /** The first pending request is the one whose reply is next. */
  lemma PendingFront(p: Plan, c: C.ClientState, sent: nat, received: nat, session: string)
    requires ClientFits(p, c, sent, received, session) && p.pipe > 0 && received < sent
    ensures C.Pending(c, p.pipe) != [] && Waits(p, received, C.Pending(c, p.pipe)[0])
  {
    assert Waits(p, received + 0, C.Pending(c, p.pipe)[0]);
  }

  lemma PendingShrinks(p: Plan, c: C.ClientState, t: C.ClientState, sent: nat, received: nat, session: string)
    requires ClientFits(p, c, sent, received, session) && p.pipe > 0 && received < sent
    requires t == c.(log := t.log, session := t.session, pipelines := t.pipelines) && t.session.id == session
    requires C.Pending(t, p.pipe) == C.Pending(c, p.pipe)[1..]
    ensures ClientFits(p, t, sent, received + 1, session)
  {
    hide Waits, Url;
    forall i | 0 <= i < sent - (received + 1)
      ensures Waits(p, received + 1 + i, C.Pending(t, p.pipe)[i])
    {
      assert C.Pending(t, p.pipe)[i] == C.Pending(c, p.pipe)[i + 1];
    }
  }

  lemma PipelinedSetupGot<A>(cfg: C.Config, p: Plan, y: Parties<A>)
    requires Sound(p) && cfg.uninitialised == p.clientMemory && OnPlan(p, y) && y.toClient != []
    requires p.pipe > 0 && y.received < |p.tracks|
    ensures var o := C.HandleResponse(cfg, y.client, y.toClient[0]);
            ClientMoved(Reading(y), o) == Got(p, y, o.state, []) && Continues(p, y, o.state, [])
  {
    hide C.HandleResponse, Balanced, ChannelsFit, Answers, Sound, T.Decode, T.ToString, Granted, Url, Waits, Trim,
      C.ParseSession, Heard, ClientMoved;
    ReplyDue(p, y);
    var k, session, res := y.received, y.server.sessionId, y.toClient[0];
    PendingFront(p, y.client, SentSoFar(y), k, session);
    var t := PipelinedSetupReply(cfg, p, y.client, k, session, res);
    CalledMove(Reading(y), Outcome(t, Ok), C.SetUp(res, t.session, p.tracks[k].0, Due(p, k).transport));
    NothingSent(y);
    PendingShrinks(p, y.client, t, SentSoFar(y), k, session);
  }

  lemma PipelinedPlayGot<A>(cfg: C.Config, p: Plan, y: Parties<A>)
    requires Sound(p) && OnPlan(p, y) && y.toClient != []
    requires p.pipe > 0 && y.received >= |p.tracks|
    ensures var o := C.HandleResponse(cfg, y.client, y.toClient[0]);
            ClientMoved(Reading(y), o) == Got(p, y, o.state, []) && Continues(p, y, o.state, [])
  {
    hide C.HandleResponse, Balanced, ChannelsFit, Answers, T.Decode, T.ToString, Granted, Url, Waits, Trim,
      C.ParseSession, Heard, ClientMoved;
    ReplyDue(p, y);
    var k, session, res := y.received, y.server.sessionId, y.toClient[0];
    PendingFront(p, y.client, SentSoFar(y), k, session);
    var t := PipelinedPlayReply(cfg, p, y.client, session, res);
    CalledMove(Reading(y), Outcome(t, Ok), C.Called(PLAY, res));
    NothingSent(y);
    PendingShrinks(p, y.client, t, SentSoFar(y), k, session);
  }

  lemma SequentialSetupGot<A>(cfg: C.Config, p: Plan, y: Parties<A>) returns (requests: seq<Request>)
    requires Sound(p) && cfg.uninitialised == p.clientMemory && OnPlan(p, y) && y.toClient != []
    requires p.pipe == 0 && y.received < |p.tracks|
    ensures var o := C.HandleResponse(cfg, y.client, y.toClient[0]);
            ClientMoved(Reading(y), o) == Got(p, y, o.state, requests) && Continues(p, y, o.state, requests)
  {
    hide C.HandleResponse, Balanced, ChannelsFit, Answers, Sound, T.Decode, T.ToString, Granted, Url, Waits, Trim,
      C.ParseSession, Heard, ClientMoved, Asks, Line;
    ReplyDue(p, y);
    var k, session, res := y.received, y.server.sessionId, y.toClient[0];
    var t, called, req := SequentialSetupReply(cfg, p, y.client, k, session, res);
    var e := C.SetUp(res, t.session, p.tracks[k].0, Due(p, k).transport);
    if k + 1 < |p.tracks| {
      CalledAndSentMove(p, Reading(y), Outcome(t, Ok), e, k + 1, req);
      requests := [req];
    } else {
      CalledMove(Reading(y), Outcome(t, Ok), e);
      NothingSent(y);
      requests := [];
    }
  }

  lemma SequentialPlayGot<A>(cfg: C.Config, p: Plan, y: Parties<A>)
    requires Sound(p) && OnPlan(p, y) && y.toClient != []
    requires p.pipe == 0 && y.received >= |p.tracks|
    ensures var o := C.HandleResponse(cfg, y.client, y.toClient[0]);
            ClientMoved(Reading(y), o) == Got(p, y, o.state, []) && Continues(p, y, o.state, [])
  {
    hide C.HandleResponse, Balanced, ChannelsFit, Answers, T.Decode, T.ToString, Granted, Url, Waits, Trim,
      C.ParseSession, Heard, ClientMoved;
    ReplyDue(p, y);
    var k, session, res := y.received, y.server.sessionId, y.toClient[0];
    SequentialPlayReply(cfg, p, y.client, session, res);
    CalledMove(Reading(y), C.HandleResponse(cfg, y.client, res), C.Called(PLAY, res));
    NothingSent(y);
  }

  lemma ClientTakesKeeps<A>(h: S.Handlers<A>, cfg: C.Config, p: Plan, y: Parties<A>)
    requires Sound(p) && cfg.uninitialised == p.clientMemory && OnPlan(p, y)
    ensures OnPlan(p, Advance(h, cfg, y, ClientTakes)) && Steady(p, y, Advance(h, cfg, y, ClientTakes))
    ensures y.toClient != [] ==> Delivered(Advance(h, cfg, y, ClientTakes)) > Delivered(y)
  {
    hide C.HandleResponse, OnPlan, Continues, ClientMoved, Sound, Got;
    if y.toClient != [] {
      var requests := [];
      if p.pipe > 0 && y.received < |p.tracks| {
        PipelinedSetupGot(cfg, p, y);
      } else if p.pipe > 0 {
        PipelinedPlayGot(cfg, p, y);
      } else if y.received < |p.tracks| {
        requests := SequentialSetupGot(cfg, p, y);
      } else {
        SequentialPlayGot(cfg, p, y);
      }
      GotKeeps(p, y, C.HandleResponse(cfg, y.client, y.toClient[0]).state, requests);
    }
  }

  // The start

  /** A client that knows the presentation and has nothing pending; a server without a session. */
  predicate Ready<A>(p: Plan, c: C.ClientState, s: S.ServerState<A>) {
    Following(p, c, 0) && c.isAggregate && c.session.id == "" && (p.pipe > 0 ==> C.Pending(c, p.pipe) == [])
    && s.prePipe == [] && s.deferred == [] && s.sessionId == ""
  }

  ghost predicate AllAsk(p: Plan, k: nat, requests: seq<Request>) {
    forall i {:trigger requests[i]} :: 0 <= i < |requests| ==>
      Asks(p, k + i, requests[i]) && Session !in requests[i].headers
  }

  lemma AllAskRest(p: Plan, k: nat, requests: seq<Request>)
    requires AllAsk(p, k, requests) && requests != []
    ensures Asks(p, k, requests[0]) && AllAsk(p, k + 1, requests[1..])
  {
    hide Asks;
    assert Asks(p, k + 0, requests[0]);
    forall i | 0 <= i < |requests[1..]|
      ensures Asks(p, k + 1 + i, requests[1..][i]) && Session !in requests[1..][i].headers
    {
      assert requests[1..][i] == requests[i + 1];
    }
  }

  lemma {:induction false} LinesSent(p: Plan, k: nat, requests: seq<Request>)
    requires AllAsk(p, k, requests) && k + |requests| == |p.tracks|
    ensures SetupsIn(requests) == Lines(p, |p.tracks|)[k..]
    decreases |requests|
  {
    hide Asks, Line, AllAsk;
    if requests != [] {
      AllAskRest(p, k, requests);
      SetupsOf(p, k, requests[0]);
      LinesSent(p, k + 1, requests[1..]);
      SetupsSplit(requests[0], requests[1..]);
      hide SetupsIn;
      assert requests == [requests[0]] + requests[1..];
      assert Lines(p, |p.tracks|)[k..] == [Line(p, k)] + Lines(p, |p.tracks|)[k + 1..];
    }
  }

  lemma SetupsSplit(request: Request, rest: seq<Request>)
    ensures SetupsIn([request] + rest) == SetupsIn([request]) + SetupsIn(rest)
  {
    assert ([request] + rest)[1..] == rest && [request][1..] == [];
  }

  /** The pipelined SETUPs are one burst, in the order of the tracks. */
  lemma {:induction false} Burst(p: Plan, c: C.ClientState, k: nat) returns (requests: seq<Request>)
    requires Sound(p) && p.pipe > 0 && k <= |p.tracks| && c.transports == p.tracks
    requires ClientFits(p, c, k, 0, "")
    ensures var t := C.SetupBurst(c, k);
            ClientFits(p, t, |p.tracks|, 0, "") && t.log == c.log + Sents(requests)
            && |requests| == |p.tracks| - k && AllAsk(p, k, requests)
    decreases |p.tracks| - k
  {
    hide Waits, Asks, C.SendSetup, Sound;
    if k == |p.tracks| {
      requests := [];
      assert c.log + [] == c.log;
    } else {
      var c1 := c.(setupIter := k);
      assert p.tracks != [];
      var req := SetupSent(p, c1, k);
      var t1 := C.SendSetup(c1, p.tracks[k]);
      SentFits(p, c1, t1, k, 0, "");
      var rest := Burst(p, t1, k + 1);
      requests := [req] + rest;
      hide ClientFits, Grew;
      assert c.log + [C.Sent(req)] + Sents(rest) == c.log + Sents(requests);
      forall i | 0 <= i < |requests|
        ensures Asks(p, k + i, requests[i]) && Session !in requests[i].headers
      {
        if i > 0 { assert requests[i] == rest[i - 1] && Asks(p, k + 1 + (i - 1), rest[i - 1]); }
      }
    }
  }

  lemma BurstMove<A>(p: Plan, y: Parties<A>, o: Outcome<C.ClientState>, requests: seq<Request>)
    requires o.state.log == y.client.log + Sents(requests) && o.error == Ok && y.error == Ok
    requires AllAsk(p, 0, requests) && |requests| == |p.tracks|
    ensures ClientMoved(y, o)
            == y.(client := o.state, toServer := y.toServer + requests, setups := y.setups + Lines(p, |p.tracks|))
  {
    hide RequestsIn, CallbacksIn, SetupsIn, AllAsk, Sents, Lines;
    AddedIs(y.client.log, Sents(requests));
    SentsRequests(requests);
    LinesSent(p, 0, requests);
    assert y.heard + [] == y.heard;
  }

  lemma PipelinedBegins<A>(p: Plan, c: C.ClientState, s: S.ServerState<A>)
    requires Sound(p) && Ready(p, c, s) && p.pipe > 0
    ensures OnPlan(p, Begin(c, s, p.tracks)) && SentSoFar(Begin(c, s, p.tracks)) == |p.tracks|
  {
    hide Asks, Waits, C.SetupBurst, Lines, AllAsk, ClientMoved, Sents, Sound;
    HasTracks(p);
    var c1 := c.(transports := p.tracks, setupIter := 0);
    assert ClientFits(p, c1, 0, 0, "");
    var requests := Burst(p, c1, 0);
    hide ClientFits, ChannelsFit;
    BurstMove(p, Parties(c, s, [], [], 0, 0, 0, [], [], Ok), C.SetupAll(c, p.tracks), requests);
    assert [] + requests == requests && [] + Lines(p, |p.tracks|) == Lines(p, |p.tracks|);
    AsksFit(p, requests);
  }

  lemma AsksFit(p: Plan, requests: seq<Request>)
    requires AllAsk(p, 0, requests) && (p.pipe > 0 || |requests| <= 1)
    ensures ChannelsFit(p, 0, requests, 0, [], "")
  {
    hide Asks;
  }

  lemma SequentialBegins<A>(p: Plan, c: C.ClientState, s: S.ServerState<A>)
    requires Sound(p) && Ready(p, c, s) && p.pipe == 0
    ensures OnPlan(p, Begin(c, s, p.tracks)) && SentSoFar(Begin(c, s, p.tracks)) == 1
  {
    hide Asks, Waits, C.SendSetup, Line, Sound, ClientMoved, T.ToString, Url;
    HasTracks(p);
    var c1 := c.(transports := p.tracks, setupIter := 0);
    assert ClientFits(p, c1.(auth := c1.auth.(verb := SETUP)), 0, 0, "");
    var req := SetupSent(p, c1, 0);
    var t := C.SendSetup(c1, p.tracks[0]);
    SentMove(p, Parties(c, s, [], [], 0, 0, 0, [], [], Ok), Outcome(t, Ok), 0, req);
    assert [] + [req] == [req] && Lines(p, 1) == [Line(p, 0)];
    AsksFit(p, [req]);
  }

  // Every run

  /** Each move is proper where it is made. */
  predicate AllProper<A>(h: S.Handlers<A>, cfg: C.Config, p: Plan, y: Parties<A>, moves: seq<Move>)
    decreases |moves|
  {
    moves == [] || (Proper(p, y, moves[0]) && AllProper(h, cfg, p, Advance(h, cfg, y, moves[0]), moves[1..]))
  }

  /** The two applications, the memory their parsers start from, and the plan fit together. */
  ghost predicate Agreed<A(!new)>(h: S.Handlers<A>, cfg: C.Config, p: Plan) {
    Sound(p) && Grants(h, p) && h.uninitialised == p.serverMemory && cfg.uninitialised == p.clientMemory
  }

  function PlayCalls(moves: seq<Move>): nat {
    if moves == [] then 0 else (if moves[0].ClientCalls? then 1 else 0) + PlayCalls(moves[1..])
  }

  lemma AdvanceKeeps<A(!new)>(h: S.Handlers<A>, cfg: C.Config, p: Plan, y: Parties<A>, m: Move)
    requires Agreed(h, cfg, p) && OnPlan(p, y) && Proper(p, y, m)
    ensures OnPlan(p, Advance(h, cfg, y, m))
    ensures if m.ClientCalls? then SentSoFar(y) <= |p.tracks| < SentSoFar(Advance(h, cfg, y, m))
            else SentSoFar(Advance(h, cfg, y, m)) > |p.tracks| <==> SentSoFar(y) > |p.tracks|
  {
    hide Advance, OnPlan, Sound, Grants;
    match m
    case ServerTakes => ServerTakesKeeps(h, cfg, p, y);
    case ServerReplies(response) => ServerRepliesKeeps(h, cfg, p, y, response);
    case ClientTakes => ClientTakesKeeps(h, cfg, p, y);
    case ClientCalls(call) => ClientPlaysKeeps(h, cfg, p, y, call.extra);
  }

  lemma {:induction false} RunKeeps<A(!new)>(h: S.Handlers<A>, cfg: C.Config, p: Plan, y: Parties<A>, moves: seq<Move>)
    requires Agreed(h, cfg, p) && OnPlan(p, y) && AllProper(h, cfg, p, y, moves)
    ensures OnPlan(p, Proceed(h, cfg, y, moves))
    ensures (if SentSoFar(y) > |p.tracks| then 1 else 0) + PlayCalls(moves)
            == if SentSoFar(Proceed(h, cfg, y, moves)) > |p.tracks| then 1 else 0
    decreases |moves|
  {
    hide OnPlan, Agreed, Proper, Advance, SentSoFar;
    if moves != [] {
      AdvanceKeeps(h, cfg, p, y, moves[0]);
      RunKeeps(h, cfg, p, Advance(h, cfg, y, moves[0]), moves[1..]);
    }
  }

  lemma BeginsOnPlan<A>(p: Plan, c: C.ClientState, s: S.ServerState<A>)
    requires Sound(p) && Ready(p, c, s)
    ensures OnPlan(p, Begin(c, s, p.tracks)) && SentSoFar(Begin(c, s, p.tracks)) <= |p.tracks|
  {
    hide Ready, OnPlan, Begin, SentSoFar, Sound;
    HasTracks(p);
    if p.pipe > 0 {
      PipelinedBegins(p, c, s);
    } else {
      SequentialBegins(p, c, s);
    }
  }

  /**
   * Safety over every interleaving: no 454, session error, unknown pipeline or exception; every
   * request read reaches its handler; the client's session is none or the server's; the callbacks
   * so far are a prefix of one per track and one for PLAY, each with what the server granted;
   * and without pipelining the iterator points at the track being set up.
   */
  lemma EveryRunIsSafe<A(!new)>(
      h: S.Handlers<A>, cfg: C.Config, p: Plan, c: C.ClientState, s: S.ServerState<A>, moves: seq<Move>)
    requires Agreed(h, cfg, p) && Ready(p, c, s) && AllProper(h, cfg, p, Begin(c, s, p.tracks), moves)
    ensures var z := Proceed(h, cfg, Begin(c, s, p.tracks), moves);
            z.error == Ok && z.handled == z.taken
            && (z.client.session.id == "" || z.client.session.id == z.server.sessionId)
            && z.heard <= AllDue(p, |p.tracks| + 1) && z.setups <= Lines(p, |p.tracks|)
            && (p.pipe == 0 && z.received < |p.tracks| ==>
                  z.client.setupIter == z.received < |z.client.transports|)
  {
    var y := Begin(c, s, p.tracks);
    var z := Proceed(h, cfg, y, moves);
    hide Begin, Proceed, OnPlan, AllProper, Ready, Grants;
    BeginsOnPlan(p, c, s);
    RunKeeps(h, cfg, p, y, moves);
    Safe(p, z);
  }

  lemma Safe<A>(p: Plan, z: Parties<A>)
    requires OnPlan(p, z)
    ensures z.error == Ok && z.handled == z.taken
    ensures z.client.session.id == "" || z.client.session.id == z.server.sessionId
    ensures z.heard <= AllDue(p, |p.tracks| + 1) && z.setups <= Lines(p, |p.tracks|)
    ensures p.pipe == 0 && z.received < |p.tracks| ==> z.client.setupIter == z.received < |z.client.transports|
  {
    hide Due, Line, Asks, ChannelsFit, ServerFits, Waits;
    assert z.received <= |p.tracks| + 1;
  }

  /** When everything has been delivered: no request is pending, and every callback has been made exactly once. */
  lemma QuietMeansDone<A(!new)>(
      h: S.Handlers<A>, cfg: C.Config, p: Plan, c: C.ClientState, s: S.ServerState<A>, moves: seq<Move>)
    requires Agreed(h, cfg, p) && Ready(p, c, s) && AllProper(h, cfg, p, Begin(c, s, p.tracks), moves)
    requires Quiet(Proceed(h, cfg, Begin(c, s, p.tracks), moves))
    ensures var z := Proceed(h, cfg, Begin(c, s, p.tracks), moves);
            PlayCalls(moves) <= 1 && z.heard == AllDue(p, |p.tracks| + PlayCalls(moves))
            && z.setups == Lines(p, |p.tracks|) && z.client.session.id == z.server.sessionId != ""
            && (p.pipe > 0 ==> C.Pending(z.client, p.pipe) == [])
  {
    var y := Begin(c, s, p.tracks);
    var z := Proceed(h, cfg, y, moves);
    hide Begin, Proceed, OnPlan, AllProper, Ready, Grants;
    BeginsOnPlan(p, c, s);
    RunKeeps(h, cfg, p, y, moves);
    Done(p, z);
  }

  lemma Done<A>(p: Plan, z: Parties<A>)
    requires Sound(p) && OnPlan(p, z) && Quiet(z)
    ensures var calls := if SentSoFar(z) > |p.tracks| then 1 else 0;
            z.heard == AllDue(p, |p.tracks| + calls) && z.setups == Lines(p, |p.tracks|)
    ensures z.client.session.id == z.server.sessionId != ""
    ensures p.pipe > 0 ==> C.Pending(z.client, p.pipe) == []
  {
    hide AllDue, Lines, Asks, ChannelsFit, Waits, Trim, C.ParseSession;
    assert p.tracks != [];
    hide Sound;
  }

  /** From any reachable state a few deliveries, whatever the deferred reply, reach such a state. */
  lemma {:induction false} CanFinish<A(!new)>(h: S.Handlers<A>, cfg: C.Config, p: Plan, y: Parties<A>, reply: Response)
    returns (moves: seq<Move>)
    requires Agreed(h, cfg, p) && OnPlan(p, y) && Proper(p, y, ServerReplies(reply))
    ensures |moves| <= 3 * (|p.tracks| + 1) - Delivered(y)
    ensures AllProper(h, cfg, p, y, moves) && Quiet(Proceed(h, cfg, y, moves))
    decreases 3 * (|p.tracks| + 1) - Delivered(y)
  {
    DeliveredBounded(p, y);
    hide OnPlan, Grants, Sound, Advance;
    if Quiet(y) {
      moves := [];
    } else {
      var m: Move;
      if y.toServer != [] {
        m := ServerTakes;
        ServerTakesKeeps(h, cfg, p, y);
      } else if y.toClient != [] {
        m := ClientTakes;
        ClientTakesKeeps(h, cfg, p, y);
      } else {
        m := ServerReplies(reply);
        ServerRepliesKeeps(h, cfg, p, y, reply);
      }
      var z := Advance(h, cfg, y, m);
      DeliveredBounded(p, z);
      hide Delivered;
      var rest := CanFinish(h, cfg, p, z, reply);
      moves := [m] + rest;
      assert moves[1..] == rest;
    }
  }

  lemma DeliveredBounded<A>(p: Plan, y: Parties<A>)
    requires OnPlan(p, y)
    ensures Delivered(y) <= 3 * (|p.tracks| + 1)
  {
    hide ChannelsFit, ServerFits, Heard, Asks;
  }

  lemma SameDue(p: Plan, q: Plan, count: nat)
    requires q == p.(pipe := q.pipe, first := q.first)
    ensures AllDue(q, count) == AllDue(p, count)
    ensures count <= |p.tracks| ==> Lines(q, count) == Lines(p, count)
  {
    hide T.Decode, T.ToString, C.TrackUrl;
  }

  /**
   * Pipelining refines the sequential mode: once everything has been delivered, the two have sent
   * the same SETUPs in the same order and have made the same callbacks.
   */
  lemma PipelinedRefinesSequential<A(!new), B(!new)>(
      cfg: C.Config, p: Plan, q: Plan,
      h: S.Handlers<A>, c: C.ClientState, s: S.ServerState<A>, moves: seq<Move>,
      g: S.Handlers<B>, d: C.ClientState, t: S.ServerState<B>, others: seq<Move>)
    requires p.pipe > 0 && q == p.(pipe := 0, first := q.first)
    requires Agreed(h, cfg, p) && Ready(p, c, s) && AllProper(h, cfg, p, Begin(c, s, p.tracks), moves)
    requires Agreed(g, cfg, q) && Ready(q, d, t) && AllProper(g, cfg, q, Begin(d, t, q.tracks), others)
    requires Quiet(Proceed(h, cfg, Begin(c, s, p.tracks), moves))
             && Quiet(Proceed(g, cfg, Begin(d, t, q.tracks), others))
    requires PlayCalls(moves) == PlayCalls(others)
    ensures var pipelined := Proceed(h, cfg, Begin(c, s, p.tracks), moves);
            var sequential := Proceed(g, cfg, Begin(d, t, q.tracks), others);
            pipelined.setups == sequential.setups && pipelined.heard == sequential.heard
  {
    hide Agreed, Ready, AllProper, Begin, Proceed, Quiet, AllDue, Lines;
    QuietMeansDone(h, cfg, p, c, s, moves);
    QuietMeansDone(g, cfg, q, d, t, others);
    SameDue(p, q, |p.tracks| + PlayCalls(moves));
    SameDue(p, q, |p.tracks|);
  }

  /** A server that grants the track as it is asked for: the callback carries the very transport requested. */
  lemma GrantedAsAsked(p: Plan, k: nat)
    requires k < |p.tracks| && T.Canonical(p.tracks[k].1)
    requires Granted(p, k) == Read(T.ToString(p.tracks[k].1), p.serverMemory)
    ensures Due(p, k) == Tuned(p.tracks[k].0, p.tracks[k].1)
  {
    hide T.Decode, T.ToString, T.Canonical, C.TrackUrl;
    T.RoundTripExactly(p.tracks[k].1, p.serverMemory);
    T.RoundTripExactly(p.tracks[k].1, p.clientMemory);
  }

  // The premises hold of something

  predicate Wanted(p: Plan, url: string) { exists k :: 0 <= k < |p.tracks| && url == Url(p, k) }

  /** A server that grants the tracks of the plan, refuses every other SETUP and defers every other request. */
  function Choosy(p: Plan): S.Handlers<int> {
    S.Handlers(
      app => false,
      app => (app, BLANK),
      app => (app, "1"),
      (app: int, req, res) => S.HandlerReply(app + 1, app % 2, res),
      (app: int, req: Request, t: T.TransportV1, res: Response) =>
        S.SetupReply(app, 0, p.grant(req.url, t),
                     res.(status := if Wanted(p, req.url) then STATUS_OK else UNSUPPORTED_TRANSPORT)),
      (app, channel, payload) => app,
      (app, verb, res) => app,
      p.serverMemory)
  }

  lemma ChoosyGrants(p: Plan, app: int, k: nat, req: Request)
    requires k < |p.tracks| && Asks(p, k, req)
    ensures GrantsTrack(Choosy(p), p, app, k, req)
  {
    hide Url, T.ToString, T.Decode, ToDecimal, FitSession;
    OneFits();
    assert Wanted(p, req.url);
    var t := Read(T.ToString(p.tracks[k].1), p.serverMemory);
    var g := Choosy(p).onSetup(app, req, t, S.Greeting(req));
    assert g.response == S.Greeting(req) && g.r == 0 && g.transport == Granted(p, k);
    assert Choosy(p).newSession(g.app).1 == "1";
  }

  lemma OneFits()
    ensures FitSession("1")
  {
    assert C.Find("1", "timeout=").None?;
  }

  /** Every sound plan has servers, clients and states to which the theorems apply. */
  lemma PremisesMet(p: Plan, cfg: C.Config, username: string, password: string, uri: string)
    requires Sound(p) && cfg.uninitialised == p.clientMemory
    ensures var c := C.Initial(username, password, uri)
                     .(sdp := p.sdp, isAggregate := true, pipeId := p.pipe, cseq := p.first);
            Agreed(Choosy(p), cfg, p) && Ready(p, c, S.Initial(0))
  {
    hide Sound, GrantsTrack, Asks;
    var h := Choosy(p);
    forall app: int, k: nat, req: Request | k < |p.tracks| && Asks(p, k, req)
      ensures GrantsTrack(h, p, app, k, req)
    {
      ChoosyGrants(p, app, k, req);
    }
  }
}
