/**
 * What the server answers, request by request, in every state a run can reach: which status, which
 * headers, which handler with what, and what it remembers.
 */
module ServerAnswers {
  import opened Options
  import opened Messages
  import opened Stream
  import opened Framing
  import opened Authentication
  import opened ServerSpec
  import opened ServerRuns
  import T = Transport

  // Replies as they leave the server

  /** A reply of the stack's own. */
  function Own(r: Request, status: int): Response {
    Response(status, map[CSeq := Get(r.headers, CSeq), Server := "rtsp2-server"], "")
  }

  /** What the stack writes over a handler's headers: the session there is, and the pipeline of the request. */
  function Labels(session: string, r: Request): Headers {
    (if session != "" then map[Session := session] else map[])
    + if PipelinedRequests in r.headers then map[PipelinedRequests := r.headers[PipelinedRequests]] else map[]
  }

  function With(res: Response, more: Headers): Response { Response(res.status, res.headers + more, res.body) }

  /** The parameters after a request that passes: the check writes the method and the URI it has seen. */
  function ParamAfter<A>(h: Handlers<A>, s: ServerState<A>, r: Request): Authenticate {
    if h.needAuth(s.app) then Verify(s.authParam, Touched(r)).param else s.authParam
  }

  // A request that fails authentication

  lemma ChallengedWith<A>(h: Handlers<A>, s: ServerState<A>, r: Request)
    requires h.needAuth(s.app) && !Verify(s.authParam, Touched(r)).passed && !Verify(s.authParam, Touched(r)).thrown
    ensures var (app, param) := h.authParam(s.app);
            var refusal := With(Own(r, 401), map[WWWAuthenticate := GenAuthInfo(param)]);
            HandleRequest(h, s, r)
            == Outcome(s.(app := app, authParam := param, log := s.log + [Answered(refusal)]), Ok)
  {
    hide Verify, GenAuthInfo, Admit;
    var (app, param) := h.authParam(s.app);
    assert Greeting(Touched(r)).headers[WWWAuthenticate := GenAuthInfo(param)]
        == With(Own(r, 401), map[WWWAuthenticate := GenAuthInfo(param)]).headers;
  }

  // A request that passes

  lemma Passed<A>(h: Handlers<A>, s: ServerState<A>, r: Request)
    requires PassesAuth(h, s, r)
    ensures HandleRequest(h, s, r) == Admit(h, s.(authParam := ParamAfter(h, s, r)), Touched(r))
  {
    hide Verify, Admit, Greeting, Challenge;
    assert s.(authParam := s.authParam) == s;
  }

  lemma AdmittedExactly(session: string, r: Request)
    ensures Admitted(session, [], Touched(r)) <==> Entitled(r, session)
  {
  }

  lemma PassedParts<A>(h: Handlers<A>, s: ServerState<A>, r: Request)
    requires s.prePipe == [] && PassesAuth(h, s, r)
    ensures var s1 := s.(authParam := ParamAfter(h, s, r));
            HandleRequest(h, s, r)
            == if Entitled(r, s.sessionId) then Handle(h, s1, Touched(r), Own(r, 200))
               else Outcome(s1.(log := s.log + [Answered(Own(r, 454))]), Ok)
  {
    hide Handle, Verify, Admitted, Entitled, PassesAuth;
    Passed(h, s, r);
    AdmittedExactly(s.sessionId, r);
    var s1 := s.(authParam := ParamAfter(h, s, r));
    assert s1.(prePipe := PrePipeAfter(s1.prePipe, Touched(r))) == s1;
    assert Greeting(Touched(r)) == Own(r, 200);
  }

  /** What answering or deferring makes of a state in which a handler has run or none was needed. */
  function Concluded<A>(s: ServerState<A>, r: Request, deferred: bool, res: Response): ServerState<A> {
    if deferred then s.(deferred := s.deferred + [Touched(r)], log := s.log + [Deferred(Touched(r))])
    else s.(log := s.log + [Answered(With(res, Labels(s.sessionId, r)))])
  }

  lemma LabelledWith(res: Response, session: string, r: Request)
    ensures Labelled(res, session, Touched(r)) == With(res, Labels(session, r))
  {
    assert Labelled(res, session, Touched(r)).headers == res.headers + Labels(session, r);
  }

  lemma Concludes<A>(h: Handlers<A>, s: ServerState<A>, r: Request, t: ServerState<A>, code: int, res: Response)
    requires Dispatch(h, s, Touched(r), Own(r, 200)) == Dispatched(t, code, res, Ok)
    ensures Handle(h, s, Touched(r), Own(r, 200)) == Outcome(Concluded(t, r, code != 0, res), Ok)
  {
    hide Dispatch, Labelled, Labels, Touched;
    LabelledWith(res, t.sessionId, r);
  }

  /** Methods with a handler of their own, SETUP apart. */
  predicate Handleable(verb: Method) {
    verb == OPTIONS || verb == DESCRIBE || verb == PLAY || verb == PAUSE || verb == TEARDOWN || verb == GET_PARAMETER
    || verb == SET_PARAMETER || verb == RECORD || verb == ANNOUNCE
  }

  /**
   * A request other than SETUP within the session rules: its handler gets it with a 200 that carries its
   * number, and its reply or deferral follows; a method without a handler is answered 200.
   */
  lemma OrdinaryAnswered<A>(h: Handlers<A>, s: ServerState<A>, r: Request)
    requires s.prePipe == [] && PassesAuth(h, s, r) && Entitled(r, s.sessionId) && r.verb != SETUP
    ensures var s1 := s.(authParam := ParamAfter(h, s, r));
            var g := h.onRequest(s.app, Touched(r), Own(r, 200));
            var asked := s1.(app := g.app, log := s.log + [Handled(Touched(r), s.sessionId)]);
            HandleRequest(h, s, r)
            == Outcome(if Handleable(r.verb) then Concluded(asked, r, g.r != 0, g.response)
                       else Concluded(s1, r, false, Own(r, 200)), Ok)
  {
    PassedParts(h, s, r);
    hide HandleRequest, PassesAuth, Entitled, ParamAfter, Concluded, Labels, Touched, Own, Handle;
    var s1 := s.(authParam := ParamAfter(h, s, r));
    assert Touched(r).verb == r.verb by { TouchedVerb(r); }
    var d := Dispatch(h, s1, Touched(r), Own(r, 200));
    Concludes(h, s1, r, d.state, d.r, d.response);
  }

  lemma TouchedVerb(r: Request)
    ensures Touched(r).verb == r.verb && Touched(r).url == r.url && Touched(r).body == r.body
    ensures Touched(r).headers == r.headers + map[CSeq := Get(r.headers, CSeq)]
    ensures (Transport in Touched(r).headers <==> Transport in r.headers)
            && (Transport in r.headers ==> Touched(r).headers[Transport] == r.headers[Transport])
  {
  }

  /**
   * A SETUP within the session rules: 461 without Transport, no meaning with one that overruns; otherwise
   * the handler gets what is asked for, and a 200 of its goes out with what is granted and with a session,
   * created if there was none.
   */
  lemma SetupAnswered<A>(h: Handlers<A>, s: ServerState<A>, r: Request)
    requires s.prePipe == [] && PassesAuth(h, s, r) && Entitled(r, s.sessionId) && r.verb == SETUP
    ensures var s1 := s.(authParam := ParamAfter(h, s, r));
            var o := HandleRequest(h, s, r);
            if Transport !in r.headers then o == Outcome(Concluded(s1, r, false, Own(r, 461)), Ok)
            else
              var t := T.Decode(r.headers[Transport], h.uninitialised);
              if t.None? then o == Outcome(s1, Undefined)
              else
                var g := h.onSetup(s.app, Touched(r), t.value, Own(r, 200));
                var asked := s1.(app := g.app, log := s.log + [Handled(Touched(r), s.sessionId)]);
                var granted := With(g.response, map[Transport := T.ToString(g.transport)]);
                var (app, id) := h.newSession(g.app);
                o == Outcome(if g.r != 0 || g.response.status != 200 then Concluded(asked, r, g.r != 0, g.response)
                             else if s.sessionId != "" then Concluded(asked, r, false, granted)
                             else Concluded(asked.(app := app, sessionId := id), r, false, granted), Ok)
  {
    PassedParts(h, s, r);
    hide HandleRequest, PassesAuth, Entitled, ParamAfter, Concluded, Labels, Touched, Own, T.Decode, T.ToString, Handle;
    TouchedVerb(r);
    var s1 := s.(authParam := ParamAfter(h, s, r));
    var d := Dispatch(h, s1, Touched(r), Own(r, 200));
    OwnStatus(r);
    if Transport in r.headers && T.Decode(r.headers[Transport], h.uninitialised).None? {
      Stops(h, s1, r);
    } else {
      Concludes(h, s1, r, d.state, d.r, d.response);
      if Transport in r.headers {
        var g := h.onSetup(s.app, Touched(r), T.Decode(r.headers[Transport], h.uninitialised).value, Own(r, 200));
        assert g.response.headers[Transport := T.ToString(g.transport)]
            == g.response.headers + map[Transport := T.ToString(g.transport)];
      }
    }
  }

  lemma OwnStatus(r: Request)
    ensures Own(r, 200).(status := 461) == Own(r, 461)
  {
  }

  lemma Stops<A>(h: Handlers<A>, s: ServerState<A>, r: Request)
    requires r.verb == SETUP && Transport in r.headers && T.Decode(r.headers[Transport], h.uninitialised).None?
    ensures Handle(h, s, Touched(r), Own(r, 200)) == Outcome(s, Undefined)
  {
    hide T.Decode, T.ToString;
  }

  // Over runs

  function Refused<A>(h: Handlers<A>, s: ServerState<A>, r: Request): Outcome<ServerState<A>> {
    Outcome(s.(authParam := ParamAfter(h, s, r), log := s.log + [Answered(Own(r, 454))]), Ok)
  }

  lemma NeverRefused<A>(h: Handlers<A>, s: ServerState<A>, r: Request)
    requires s.prePipe == [] && PassesAuth(h, s, r) && Entitled(r, s.sessionId)
    ensures HandleRequest(h, s, r) != Refused(h, s, r)
  {
    hide HandleRequest, PassesAuth, Entitled, ParamAfter, Touched, T.Decode, T.ToString, Labels;
    if r.verb == SETUP {
      SetupAnswered(h, s, r);
    } else {
      OrdinaryAnswered(h, s, r);
    }
    LongerLogs(s.log, Handled(Touched(r), s.sessionId), Deferred(Touched(r)), Answered(Own(r, 454)));
  }

  lemma LongerLogs(log: seq<Event>, a: Event, b: Event, c: Event)
    ensures forall x: Event {:trigger log + [a] + [x]} :: log + [a] + [x] != log + [c]
    ensures forall x: Event {:trigger log + [x]} :: x != c ==> log + [x] != log + [c]
  {
    forall x: Event
      ensures log + [a] + [x] != log + [c]
      ensures x != c ==> log + [x] != log + [c]
    {
      assert |log + [a] + [x]| != |log + [c]|;
      assert (log + [x])[|log|] == x && (log + [c])[|log|] == c;
    }
  }

  /**
   * After every run of a connection, a request that passes authentication is answered 454 by the stack, with
   * its own number and with no other effect, exactly when it is not entitled to the session.
   */
  lemma RefusedExactly<A>(h: Handlers<A>, app: A, ops: seq<Op>, r: Request)
    requires PassesAuth(h, RunOps(h, Initial(app), ops).state, r)
    ensures var s := RunOps(h, Initial(app), ops).state;
            HandleRequest(h, s, r) == Refused(h, s, r) <==> !Entitled(r, s.sessionId)
  {
    SessionWrittenOnce(h, Initial(app), ops);
    hide RunOps, HandleRequest, PassesAuth, Entitled, ParamAfter, Handle, Touched;
    var s := RunOps(h, Initial(app), ops).state;
    PassedParts(h, s, r);
    if Entitled(r, s.sessionId) {
      NeverRefused(h, s, r);
    }
  }

  // Replies the application sends later, and requests of the server's own

  lemma AnsweredLaterWith<A>(s: ServerState<A>, response: Response)
    ensures SendResponse(s, response)
            == if s.deferred == [] then Outcome(s, PipelineEmpty)
               else
                 var r := s.deferred[0];
                 var res := With(response, Labels(s.sessionId, r) + map[CSeq := Get(r.headers, CSeq)]);
                 Outcome(s.(deferred := s.deferred[1..], log := s.log + [AnsweredLater(res)]), Ok)
  {
    if s.deferred != [] {
      LaterHeaders(response.headers, s.sessionId, s.deferred[0]);
      hide Labels, Get;
    }
  }

  lemma LaterHeaders(headers: Headers, session: string, r: Request)
    ensures var h1 := if session != "" then headers[Session := session] else headers;
            var h2 := h1[CSeq := Get(r.headers, CSeq)];
            (if Pipelined(r) then h2[PipelinedRequests := r.headers[PipelinedRequests]] else h2)
            == headers + (Labels(session, r) + map[CSeq := Get(r.headers, CSeq)])
  {
    hide Get;
  }

  /** The request the server last sent of its own, in a run. */
  function LastSent(ops: seq<Op>, before: Method): Method {
    if ops == [] then before
    else LastSent(ops[1..], if ops[0].Notify? then ops[0].request.verb else before)
  }

  lemma {:induction false} CurrentIsLastSent<A>(h: Handlers<A>, s: ServerState<A>, ops: seq<Op>)
    requires !Fatal(RunOps(h, s, ops).error)
    ensures RunOps(h, s, ops).state.current.verb == LastSent(ops, s.current.verb)
    decreases |ops|
  {
    if ops != [] {
      OpKeepsCurrent(h, s, ops[0]);
      hide Do;
      CurrentIsLastSent(h, Do(h, s, ops[0]).state, ops[1..]);
    }
  }

  lemma OpKeepsCurrent<A>(h: Handlers<A>, s: ServerState<A>, op: Op)
    ensures Do(h, s, op).state.current.verb == if op.Notify? then op.request.verb else s.current.verb
  {
    hide HandleRequest;
    if op.Receive? && op.item.Message? && op.item.value.Req? {
      RequestKeepsCurrent(h, s, op.item.value.request);
    }
  }

  lemma RequestKeepsCurrent<A>(h: Handlers<A>, s: ServerState<A>, r: Request)
    ensures HandleRequest(h, s, r).state.current == s.current
  {
    hide Verify, GenAuthInfo, T.Decode, T.ToString, Labelled, Admitted, PrePipeAfter, Greeting, Touched;
  }

  /** Methods whose replies have a handler. */
  predicate Awaited(verb: Method) {
    verb == OPTIONS || verb == ANNOUNCE || verb == GET_PARAMETER || verb == SET_PARAMETER || verb == TEARDOWN
  }

  /**
   * A reply from the client goes to the handler of the method the server last sent, whatever has happened
   * since, if that method has one; nothing else changes.
   */
  lemma ReplyToldAs<A>(h: Handlers<A>, s: ServerState<A>, ops: seq<Op>, res: Response)
    requires !Fatal(RunOps(h, s, ops).error)
    ensures var t := RunOps(h, s, ops).state;
            var verb := LastSent(ops, s.current.verb);
            Do(h, t, Receive(Message(Res(res))))
            == Outcome(if Awaited(verb) then t.(app := h.onResponse(t.app, verb, res), log := t.log + [Told(verb, res)])
                       else t, Ok)
  {
    CurrentIsLastSent(h, s, ops);
    hide RunOps, LastSent;
  }

  /** A request of the server's own carries the session, even an empty one, and the number drawn for it. */
  lemma SentOfItsOwn<A>(h: Handlers<A>, s: ServerState<A>, request: Request, cseq: string)
    ensures var sent := Request(request.verb, request.url,
                                request.headers + map[Session := s.sessionId, CSeq := cseq], request.body);
            Do(h, s, Notify(request, cseq)) == Outcome(s.(current := sent, log := s.log + [Requested(sent)]), Ok)
  {
    assert SendRtspMessage(s, request, cseq).current.headers
        == request.headers + map[Session := s.sessionId, CSeq := cseq];
  }
}
