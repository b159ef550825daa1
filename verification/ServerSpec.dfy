/**
 * What the server does with each message: authentication, session and pipelining rules,
 * deferral. The application behind the virtual handlers is a value of any type `A`, changed
 * by functions the theorems quantify over.
 */
module ServerSpec {
  import opened Bytes
  import opened Messages
  import opened Stream
  import opened Framing
  import opened Authentication
  import T = Transport

  datatype HandlerReply<+A> = HandlerReply(app: A, r: int, response: Response)
  datatype SetupReply<+A> = SetupReply(app: A, r: int, transport: T.TransportV1, response: Response)

  // The virtual functions of `ServerHandle`
  datatype Handlers<!A> = Handlers(
    needAuth: A -> bool,
    authParam: A -> (A, Authenticate),
    newSession: A -> (A, string),
    onRequest: (A, Request, Response) -> HandlerReply<A>,
    onSetup: (A, Request, T.TransportV1, Response) -> SetupReply<A>,
    onPacket: (A, byte, seq<byte>) -> A,
    onResponse: (A, Method, Response) -> A,
    uninitialised: T.Uninitialised)

  // What can be observed of a server: handlers that ran, messages passed to `send`, and deferrals
  datatype Event =
    | Delivered(channel: byte, payload: seq<byte>)
    | Handled(request: Request, session: string)
    | Answered(response: Response)
    | Deferred(request: Request)
    | AnsweredLater(response: Response)
    | Requested(request: Request)
    | Told(verb: Method, response: Response)

  datatype ServerState<+A> = ServerState(
    sessionId: string, deferred: seq<Request>, authParam: Authenticate, prePipe: seq<Request>,
    current: Request, app: A, log: seq<Event>)

  /** `operator[]` creates the header it does not find. */
  function Touched(req: Request): Request {
    req.(headers := req.headers[CSeq := Get(req.headers, CSeq)])
  }

  function Greeting(req: Request): Response {
    Response(STATUS_OK, map[CSeq := Get(req.headers, CSeq), Server := SERVER_NAME], "")
  }

  function Logged<A>(s: ServerState<A>, e: Event): ServerState<A> { s.(log := s.log + [e]) }

  predicate Pipelined(req: Request) { PipelinedRequests in req.headers }

  function PrePipeAfter(prePipe: seq<Request>, req: Request): seq<Request> {
    if prePipe == [] then []
    else if Pipelined(req)
      && Get(prePipe[0].headers, PipelinedRequests) == Get(req.headers, PipelinedRequests) then prePipe
    else prePipe[..|prePipe| - 1]
  }

  /** Whether the session rules let the request through to a handler. */
  predicate Admitted(sessionId: string, prePipe: seq<Request>, req: Request) {
    if Session in req.headers then sessionId == req.headers[Session]
    else sessionId == "" || (Pipelined(req) && !(prePipe != [] && Session in prePipe[0].headers))
  }

  predicate HasHandler(verb: Method) {
    verb in {OPTIONS, DESCRIBE, PLAY, PAUSE, TEARDOWN, GET_PARAMETER, SET_PARAMETER, RECORD, ANNOUNCE}
  }

  // `Undefined` where the Transport header has no defined reading
  datatype Dispatched<+A> = Dispatched(state: ServerState<A>, r: int, response: Response, error: Error)

  function ReplaySetup<A>(h: Handlers<A>, s: ServerState<A>, req: Request, res: Response): Dispatched<A> {
    if Transport !in req.headers then Dispatched(s, 0, res.(status := UNSUPPORTED_TRANSPORT), Ok)
    else
      var t := T.Decode(req.headers[Transport], h.uninitialised);
      if t.None? then Dispatched(s, 0, res, Undefined)
      else
        var g := h.onSetup(s.app, req, t.value, res);
        var s1 := Logged(s, Handled(req, s.sessionId)).(app := g.app);
        if g.r != 0 then Dispatched(s1, -1, g.response, Ok)
        else if g.response.status != STATUS_OK then Dispatched(s1, 0, g.response, Ok)
        else
          var res1 := g.response.(headers := g.response.headers[Transport := T.ToString(g.transport)]);
          if s.sessionId != "" then Dispatched(s1, 0, res1, Ok)
          else
            var (app, id) := h.newSession(s1.app);
            Dispatched(s1.(app := app, sessionId := id), 0, res1, Ok)
  }

  function Dispatch<A>(h: Handlers<A>, s: ServerState<A>, req: Request, res: Response): Dispatched<A> {
    if req.verb == SETUP then ReplaySetup(h, s, req, res)
    else if HasHandler(req.verb) then
      var g := h.onRequest(s.app, req, res);
      Dispatched(Logged(s, Handled(req, s.sessionId)).(app := g.app), g.r, g.response, Ok)
    else Dispatched(s, 0, res, Ok)
  }

  /** The headers every reply of an established session and to a pipelined request carries. */
  function Labelled(res: Response, sessionId: string, req: Request): Response {
    var res1 := if sessionId != "" then res.(headers := res.headers[Session := sessionId]) else res;
    if Pipelined(req) then res1.(headers := res1.headers[PipelinedRequests := Get(req.headers, PipelinedRequests)])
    else res1
  }

  function Handle<A>(h: Handlers<A>, s: ServerState<A>, req: Request, res: Response): Outcome<ServerState<A>> {
    var d := Dispatch(h, s, req, res);
    if d.error != Ok then Outcome(d.state, d.error)
    else if d.r != 0 then Outcome(Logged(d.state, Deferred(req)).(deferred := d.state.deferred + [req]), Ok)
    else Outcome(Logged(d.state, Answered(Labelled(d.response, d.state.sessionId, req))), Ok)
  }

  function Reject<A>(s: ServerState<A>, res: Response, status: int): ServerState<A> {
    Logged(s, Answered(res.(status := status)))
  }

  function Challenge<A>(h: Handlers<A>, s: ServerState<A>, res: Response): ServerState<A> {
    var (app, param) := h.authParam(s.app);
    var res1 := res.(status := UNAUTHORIZED, headers := res.headers[WWWAuthenticate := GenAuthInfo(param)]);
    Logged(s.(app := app, authParam := param), Answered(res1))
  }

  /** After authentication: pipelining memory, session rules, handler. */
  function Admit<A>(h: Handlers<A>, s: ServerState<A>, req: Request): Outcome<ServerState<A>> {
    var s1 := s.(prePipe := PrePipeAfter(s.prePipe, req));
    if Admitted(s1.sessionId, s1.prePipe, req) then Handle(h, s1, req, Greeting(req))
    else Outcome(Reject(s1, Greeting(req), SESSION_NOT_FOUND), Ok)
  }

  function HandleRequest<A>(h: Handlers<A>, s: ServerState<A>, request: Request): Outcome<ServerState<A>> {
    var req := Touched(request);
    if !h.needAuth(s.app) then Admit(h, s, req)
    else
      var v := Verify(s.authParam, req);
      var s1 := s.(authParam := v.param);
      if v.thrown then Outcome(s1, Thrown)
      else if v.passed then Admit(h, s1, req)
      else Outcome(Challenge(h, s1, Greeting(req)), Ok)
  }

  predicate AwaitsResponse(verb: Method) {
    verb in {OPTIONS, ANNOUNCE, GET_PARAMETER, SET_PARAMETER, TEARDOWN}
  }

  function HandleResponse<A>(h: Handlers<A>, s: ServerState<A>, res: Response): ServerState<A> {
    if AwaitsResponse(s.current.verb) then
      Logged(s, Told(s.current.verb, res)).(app := h.onResponse(s.app, s.current.verb, res))
    else s
  }

  function HandlePacket<A>(h: Handlers<A>, s: ServerState<A>, channel: byte, payload: seq<byte>): ServerState<A> {
    Logged(s, Delivered(channel, payload)).(app := h.onPacket(s.app, channel, payload))
  }

  function Step<A>(h: Handlers<A>, s: ServerState<A>, item: Item<Rtsp>): Outcome<ServerState<A>> {
    match item
    case Packet(channel, payload) => Outcome(HandlePacket(h, s, channel, payload), Ok)
    case Message(Req(r)) => HandleRequest(h, s, r)
    case Message(Res(r)) => Outcome(HandleResponse(h, s, r), Ok)
  }

  function Stepper<A>(h: Handlers<A>): (ServerState<A>, Item<Rtsp>) -> Outcome<ServerState<A>> {
    (s, item) => Step(h, s, item)
  }

  lemma StepperSteps<A>(h: Handlers<A>, s: ServerState<A>)
    ensures forall item :: Stepper(h)(s, item) == Step(h, s, item)
  {
    hide Step;
  }

  /** `input`: the items of the cache and the new octets, in order, each through `Step`. */
  ghost function ServerFeed<A>(h: Handlers<A>, f: Framer, c: Connection<ServerState<A>>, data: seq<byte>)
    : Fed<ServerState<A>>
    requires LawfulFramer(f)
  {
    ReadersLawful(f);
    Feed(ServerReader(f), Stepper(h), c, data)
  }

  lemma ServerFeedIsProcess<A>(h: Handlers<A>, f: Framer, c: Connection<ServerState<A>>, data: seq<byte>)
    requires LawfulFramer(f)
    ensures Lawful(ServerReader(f))
    ensures var p := Process(ServerReader(f), Stepper(h), c.state, c.cache + data);
            ServerFeed(h, f, c, data)
            == Fed(Connection(p.state, if p.error != Ok then Untrimmed(c.cache, data) else p.rest), p.error)
  {
    ReadersLawful(f);
    hide Lawful, Process, Feed, ServerReader, Stepper;
    FeedIsProcess(ServerReader(f), Stepper(h), c, data);
  }

  /** `sendResponse`: the oldest deferred request gets the application's reply. */
  function SendResponse<A>(s: ServerState<A>, response: Response): Outcome<ServerState<A>> {
    if s.deferred == [] then Outcome(s, PipelineEmpty)
    else
      var req := s.deferred[0];
      var res := if s.sessionId != "" then response.(headers := response.headers[Session := s.sessionId]) else response;
      var res1 := res.(headers := res.headers[CSeq := Get(req.headers, CSeq)]);
      var res2 := if Pipelined(req)
                  then res1.(headers := res1.headers[PipelinedRequests := req.headers[PipelinedRequests]]) else res1;
      Outcome(Logged(s, AnsweredLater(res2)).(deferred := s.deferred[1..]), Ok)
  }

  /** `sendRtspMessage`: a request of the server's own, with a sequence number it draws. */
  function SendRtspMessage<A>(s: ServerState<A>, request: Request, cseq: string): ServerState<A> {
    var req := request.(headers := request.headers[Session := s.sessionId][CSeq := cseq]);
    Logged(s.(current := req), Requested(req))
  }

  function Initial<A>(app: A): ServerState<A> {
    ServerState("", [], BLANK, [], Request(Unnamed(""), "", map[], ""), app, [])
  }
}
