/**
 * A client and a server joined by two FIFO channels. Messages are records here: that octets in any
 * fragments become these messages, in order, is the matter of the demultiplexers.
 */
module Exchange {
  import opened Options
  import opened Text
  import opened Messages
  import opened Stream
  import opened Authentication
  import C = ClientSpec
  import S = ServerSpec
  import T = Transport

  // The two parties

  // Callbacks of the client's application, and what each set-up request asked for
  datatype Callback = Tuned(media: string, transport: T.TransportV1) | Replied(verb: Method)
  type SetupLine = (string, string)

  // Both ends, the messages under way, and what has been seen so far
  datatype Parties<+A> = Parties(
    client: C.ClientState, server: S.ServerState<A>, toServer: seq<Request>, toClient: seq<Response>,
    taken: nat, received: nat, handled: nat, heard: seq<Callback>, setups: seq<SetupLine>, error: Error)

  // Who moves next: the server reads a request, its application replies to a deferred one, the
  // client reads a reply, its application calls the interface
  datatype Move = ServerTakes | ServerReplies(response: Response) | ClientTakes | ClientCalls(call: C.ApiCall)

  function RequestsIn(events: seq<C.ClientEvent>): seq<Request> {
    if events == [] then []
    else (if events[0].Sent? || events[0].Retransmitted? then [events[0].request] else []) + RequestsIn(events[1..])
  }

  function CallbacksIn(events: seq<C.ClientEvent>): seq<Callback> {
    if events == [] then []
    else
      var rest := CallbacksIn(events[1..]);
      match events[0]
      case SetUp(_, _, media, transport) => [Tuned(media, transport)] + rest
      case Called(verb, _) => [Replied(verb)] + rest
      case _ => rest
  }

  function SetupsIn(requests: seq<Request>): seq<SetupLine> {
    if requests == [] then []
    else
      (if requests[0].verb == SETUP then [(requests[0].url, Get(requests[0].headers, Transport))] else [])
      + SetupsIn(requests[1..])
  }

  function RepliesIn(events: seq<S.Event>): seq<Response> {
    if events == [] then []
    else (if events[0].Answered? || events[0].AnsweredLater? then [events[0].response] else []) + RepliesIn(events[1..])
  }

  function HandledIn(events: seq<S.Event>): nat {
    if events == [] then 0 else (if events[0].Handled? then 1 else 0) + HandledIn(events[1..])
  }

  function Added<E>(before: seq<E>, after: seq<E>): seq<E> {
    if |before| <= |after| then after[|before|..] else []
  }

  function First(a: Error, b: Error): Error { if a != Ok then a else b }

  function ClientMoved<A>(y: Parties<A>, o: Outcome<C.ClientState>): Parties<A> {
    var events := Added(y.client.log, o.state.log);
    var requests := RequestsIn(events);
    y.(client := o.state, toServer := y.toServer + requests, heard := y.heard + CallbacksIn(events),
       setups := y.setups + SetupsIn(requests), error := First(y.error, o.error))
  }

  function ServerMoved<A>(y: Parties<A>, o: Outcome<S.ServerState<A>>): Parties<A> {
    var events := Added(y.server.log, o.state.log);
    y.(server := o.state, toClient := y.toClient + RepliesIn(events), handled := y.handled + HandledIn(events),
       error := First(y.error, o.error))
  }

  function Advance<A>(h: S.Handlers<A>, cfg: C.Config, y: Parties<A>, m: Move): Parties<A> {
    match m
    case ServerTakes =>
      if y.toServer == [] then y
      else
        ServerMoved(y.(toServer := y.toServer[1..], taken := y.taken + 1), S.HandleRequest(h, y.server, y.toServer[0]))
    case ServerReplies(response) =>
      if y.server.deferred == [] then y else ServerMoved(y, S.SendResponse(y.server, response))
    case ClientTakes =>
      if y.toClient == [] then y
      else
        ClientMoved(y.(toClient := y.toClient[1..], received := y.received + 1),
                    C.HandleResponse(cfg, y.client, y.toClient[0]))
    case ClientCalls(call) => ClientMoved(y, C.Call(y.client, call))
  }

  function Proceed<A>(h: S.Handlers<A>, cfg: C.Config, y: Parties<A>, moves: seq<Move>): Parties<A>
    decreases |moves|
  {
    if moves == [] then y else Proceed(h, cfg, Advance(h, cfg, y, moves[0]), moves[1..])
  }

  /** Nothing is under way or deferred. */
  predicate Quiet<A>(y: Parties<A>) { y.toServer == [] && y.toClient == [] && y.server.deferred == [] }

  // What a step adds

  lemma AddedIs<E>(before: seq<E>, more: seq<E>)
    ensures Added(before, before + more) == more
  {
  }

  lemma ServerEvents(a: S.Event, b: S.Event)
    ensures RepliesIn([a, b]) == RepliesIn([a]) + RepliesIn([b]) && HandledIn([a, b]) == HandledIn([a]) + HandledIn([b])
    ensures a.Handled? ==> RepliesIn([a]) == [] && HandledIn([a]) == 1
    ensures a.Answered? || a.AnsweredLater? ==> RepliesIn([a]) == [a.response] && HandledIn([a]) == 0
    ensures a.Deferred? ==> RepliesIn([a]) == [] && HandledIn([a]) == 0
  {
    assert [a, b][1..] == [b];
  }

  lemma AnsweredMove<A>(y: Parties<A>, o: Outcome<S.ServerState<A>>, req: Request, session: string, res: Response)
    requires o.state.log == y.server.log + [S.Handled(req, session), S.Answered(res)] && o.error == Ok && y.error == Ok
    ensures ServerMoved(y, o) == y.(server := o.state, toClient := y.toClient + [res], handled := y.handled + 1)
  {
    hide RepliesIn, HandledIn;
    var a, b := S.Handled(req, session), S.Answered(res);
    AddedIs(y.server.log, [a, b]);
    ServerEvents(a, b);
    ServerEvents(b, b);
    assert [] + [res] == [res];
  }

  lemma DeferredMove<A>(y: Parties<A>, o: Outcome<S.ServerState<A>>, req: Request, session: string)
    requires o.state.log == y.server.log + [S.Handled(req, session), S.Deferred(req)] && o.error == Ok && y.error == Ok
    ensures ServerMoved(y, o) == y.(server := o.state, handled := y.handled + 1)
  {
    hide RepliesIn, HandledIn;
    var a, b := S.Handled(req, session), S.Deferred(req);
    AddedIs(y.server.log, [a, b]);
    ServerEvents(a, b);
    ServerEvents(b, b);
    assert y.toClient + [] == y.toClient;
  }

  lemma LaterMove<A>(y: Parties<A>, o: Outcome<S.ServerState<A>>, res: Response)
    requires o.state.log == y.server.log + [S.AnsweredLater(res)] && o.error == Ok && y.error == Ok
    ensures ServerMoved(y, o) == y.(server := o.state, toClient := y.toClient + [res])
  {
    hide RepliesIn, HandledIn;
    var b: S.Event := S.AnsweredLater(res);
    AddedIs(y.server.log, [b]);
    ServerEvents(b, b);
  }

  lemma ClientEvents(a: C.ClientEvent, b: C.ClientEvent)
    ensures RequestsIn([a, b]) == RequestsIn([a]) + RequestsIn([b])
            && CallbacksIn([a, b]) == CallbacksIn([a]) + CallbacksIn([b])
    ensures a.Sent? ==> RequestsIn([a]) == [a.request] && CallbacksIn([a]) == []
    ensures a.SetUp? ==> RequestsIn([a]) == [] && CallbacksIn([a]) == [Tuned(a.media, a.transport)]
    ensures a.Called? ==> RequestsIn([a]) == [] && CallbacksIn([a]) == [Replied(a.verb)]
  {
    assert [a, b][1..] == [b];
  }

  function Sents(requests: seq<Request>): seq<C.ClientEvent> {
    seq(|requests|, i requires 0 <= i < |requests| => C.Sent(requests[i]))
  }

  lemma {:induction false} SentsRequests(requests: seq<Request>)
    ensures RequestsIn(Sents(requests)) == requests && CallbacksIn(Sents(requests)) == []
  {
    if requests != [] {
      SentsRequests(requests[1..]);
      assert Sents(requests)[1..] == Sents(requests[1..]);
    }
  }

  lemma CalledMove<A>(y: Parties<A>, o: Outcome<C.ClientState>, e: C.ClientEvent)
    requires o.state.log == y.client.log + [e] && o.error == Ok && y.error == Ok && (e.SetUp? || e.Called?)
    ensures ClientMoved(y, o)
              == y.(client := o.state,
                  heard := y.heard + [if e.SetUp? then Tuned(e.media, e.transport) else Replied(e.verb)])
  {
    hide RequestsIn, CallbacksIn;
    AddedIs(y.client.log, [e]);
    ClientEvents(e, e);
    assert y.toServer + [] == y.toServer && y.setups + [] == y.setups;
  }

  // What is asked of the applications

  predicate Holds(a: Response, b: Response, k: Header) {
    (k in a.headers <==> k in b.headers) && (k in a.headers ==> a.headers[k] == b.headers[k])
  }

  /** A handler's reply keeps the headers the protocol matches on. */
  predicate SameMarks(a: Response, b: Response) {
    Holds(a, b, CSeq) && Holds(a, b, Session) && Holds(a, b, PipelinedRequests)
  }

  /** A session identifier the client can take over as it is: not blank at its ends, and no unreadable timeout in it. */
  predicate FitSession(id: string) { id != "" && Trim(id) == id && !C.ParseSession(id).1 }

  /** A server without authentication. */
  ghost predicate Open<A(!new)>(h: S.Handlers<A>) {
    forall app: A {:trigger h.needAuth(app)} :: !h.needAuth(app)
  }

  /**
   * What the application does with this request keeps the conversation going: unless it defers it,
   * its reply has no 401 and keeps the protocol's headers, the reply to a SETUP has a Transport the
   * client can read, and a session it creates is one the client can take over.
   */
  predicate Civil<A>(h: S.Handlers<A>, s: S.ServerState<A>, req: Request) {
    if req.verb == SETUP then
      Transport in req.headers && T.Decode(req.headers[Transport], h.uninitialised).Some? ==>
        var g := h.onSetup(s.app, req, T.Decode(req.headers[Transport], h.uninitialised).value, S.Greeting(req));
        g.r == 0 ==>
          g.response.status != UNAUTHORIZED && SameMarks(S.Greeting(req), g.response)
          && if g.response.status != STATUS_OK then Shows(g.response.headers)
             else T.Legible(T.ToString(g.transport)) && (s.sessionId == "" ==> FitSession(h.newSession(g.app).1))
    else
      S.HasHandler(req.verb) ==>
        var g := h.onRequest(s.app, req, S.Greeting(req));
        g.r == 0 ==> g.response.status != UNAUTHORIZED && SameMarks(S.Greeting(req), g.response)
  }

  lemma CivilStill<A>(h: S.Handlers<A>, s: S.ServerState<A>, param: Authenticate, req: Request)
    ensures Civil(h, s.(authParam := param), req) == Civil(h, s, req)
  {
    hide T.Decode, T.ToString, T.Legible, S.Greeting, SameMarks, FitSession;
  }

  /** A Transport header is there and can be read. */
  predicate Shows(headers: Headers) { Transport in headers && T.Legible(headers[Transport]) }

  lemma TouchedKeeps(req: Request)
    requires CSeq in req.headers
    ensures S.Touched(req) == req
  {
  }

  /** Neither authentication nor the session rules turn the request away. */
  lemma Admits<A(!new)>(h: S.Handlers<A>, s: S.ServerState<A>, req: Request)
    requires s.prePipe == [] && CSeq in req.headers && S.Admitted(s.sessionId, [], req)
    requires !h.needAuth(s.app) || (Verify(s.authParam, req).passed && !Verify(s.authParam, req).thrown)
    ensures var param := if h.needAuth(s.app) then Verify(s.authParam, req).param else s.authParam;
            S.HandleRequest(h, s, req) == S.Handle(h, s.(authParam := param), req, S.Greeting(req))
  {
    hide S.Admitted, Verify, S.Handle, S.Greeting;
    TouchedKeeps(req);
    var param := if h.needAuth(s.app) then Verify(s.authParam, req).param else s.authParam;
    var s1 := s.(authParam := param);
    assert s1.(prePipe := S.PrePipeAfter(s1.prePipe, req)) == s1;
  }

  /** The application grants this SETUP at once, with a session the client can take over. */
  predicate Grants<A>(h: S.Handlers<A>, app: A, req: Request, t: T.TransportV1) {
    var g := h.onSetup(app, req, t, S.Greeting(req));
    g.r == 0 && g.response.status == STATUS_OK && SameMarks(S.Greeting(req), g.response)
    && FitSession(h.newSession(g.app).1)
  }

  /** A granted SETUP: there is a session, and the reply carries what was granted. */
  lemma SetupGranted<A>(h: S.Handlers<A>, s: S.ServerState<A>, req: Request, t: T.TransportV1)
    requires Grants(h, s.app, req, t) && req.verb == SETUP && Transport in req.headers
    requires T.Decode(req.headers[Transport], h.uninitialised) == Some(t)
    ensures var d := S.Dispatch(h, s, req, S.Greeting(req));
            d.error == Ok && d.r == 0 && d.state.prePipe == s.prePipe && d.state.deferred == s.deferred
            && (if s.sessionId != "" then d.state.sessionId == s.sessionId else FitSession(d.state.sessionId))
            && d.state.log == s.log + [S.Handled(req, s.sessionId)]
            && SameMarks(S.Greeting(req), d.response) && d.response.status == STATUS_OK
            && Transport in d.response.headers
            && d.response.headers[Transport] == T.ToString(h.onSetup(s.app, req, t, S.Greeting(req)).transport)
  {
    hide T.Decode, T.ToString, FitSession, S.Greeting;
  }

  // Sessions and set-up callbacks at the client

  /** The request belongs to the session the client knows. */
  predicate Carries(c: C.ClientState, req: Request) {
    (Session in req.headers <==> c.session.id != "") && (c.session.id != "" ==> req.headers[Session] == c.session.id)
  }

  /** The session a reply brings is the server's. */
  lemma Adopted(c: C.ClientState, res: Response, session: string)
    requires FitSession(session) && Session in res.headers && res.headers[Session] == session
    requires c.session.id == "" || c.session.id == session
    ensures var a := C.Adopt(c, res);
            a.error == Ok && a.state == c.(session := a.state.session) && a.state.session.id == session
            && (c.session.id != "" ==> a.state == c)
  {
    hide Trim, C.Find;
  }

  predicate Named(medias: seq<C.Media>, name: string) { exists m :: m in medias && m.name == name }

  predicate DistinctMedias(medias: seq<C.Media>) {
    forall i, j :: 0 <= i < j < |medias| ==> medias[i].name != medias[j].name && medias[i].url != medias[j].url
  }

  lemma {:induction false} UrlFound(medias: seq<C.Media>, i: nat, otherwise: string)
    requires DistinctMedias(medias) && i < |medias|
    ensures C.TrackUrl(medias, medias[i].name, otherwise) == medias[i].url
    decreases |medias|
  {
    if i < |medias| - 1 {
      UrlFound(medias[..|medias| - 1], i, otherwise);
    }
  }

  lemma {:induction false} NoCall(c: C.ClientState, medias: seq<C.Media>, url: string, res: Response, t: T.TransportV1)
    requires forall m :: m in medias ==> m.url != url
    ensures C.SetUpCalls(c, medias, url, res, t) == c
    decreases |medias|
  {
    if medias != [] {
      assert medias[0].url != url;
      NoCall(c, medias[1..], url, res, t);
    }
  }

  /** With distinct URLs exactly one set-up callback is made. */
  lemma {:induction false} OneCall(c: C.ClientState, medias: seq<C.Media>, i: nat, res: Response, t: T.TransportV1)
    requires DistinctMedias(medias) && i < |medias|
    ensures C.SetUpCalls(c, medias, medias[i].url, res, t)
            == C.Logged(c, C.SetUp(res, c.session, medias[i].name, t))
    decreases |medias|
  {
    if i == 0 {
      NoCall(C.Logged(c, C.SetUp(res, c.session, medias[0].name, t)), medias[1..], medias[0].url, res, t);
    } else {
      assert medias[0].url != medias[i].url && medias[1..][i - 1] == medias[i];
      OneCall(c, medias[1..], i - 1, res, t);
    }
  }
}
