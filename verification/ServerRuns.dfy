/** What holds in every run of the server: sessions, admission, conservation of requests. */
module ServerRuns {
  import opened Text
  import opened Messages
  import opened Stream
  import opened Framing
  import opened Authentication
  import opened ServerSpec
  import T = Transport

  // What happens to a server: octets parsed to an item, an application reply, a request of its own
  datatype Op = Receive(item: Item<Rtsp>) | Reply(response: Response) | Notify(request: Request, cseq: string)

  function Do<A>(h: Handlers<A>, s: ServerState<A>, op: Op): Outcome<ServerState<A>> {
    match op
    case Receive(item) => Step(h, s, item)
    case Reply(response) => SendResponse(s, response)
    case Notify(request, cseq) => Outcome(SendRtspMessage(s, request, cseq), Ok)
  }

  predicate Fatal(error: Error) { error == Thrown || error == Undefined }

  /** A run goes on after `rtsp2_pipeline_empty`; an exception or undefined behaviour ends it. */
  function RunOps<A>(h: Handlers<A>, s: ServerState<A>, ops: seq<Op>): Outcome<ServerState<A>>
    decreases |ops|
  {
    if ops == [] then Outcome(s, Ok)
    else
      var o := Do(h, s, ops[0]);
      if Fatal(o.error) then o else RunOps(h, o.state, ops[1..])
  }

  // Sessions

  predicate Keeps(before: string, after: string) { before != "" ==> after == before }

  lemma DispatchKeepsSession<A>(h: Handlers<A>, s: ServerState<A>, req: Request, res: Response)
    ensures Keeps(s.sessionId, Dispatch(h, s, req, res).state.sessionId)
    ensures Dispatch(h, s, req, res).state.prePipe == s.prePipe
  {
    hide T.Decode, T.ToString;
  }

  lemma HandleRequestKeepsSession<A>(h: Handlers<A>, s: ServerState<A>, request: Request)
    ensures var t := HandleRequest(h, s, request).state;
            Keeps(s.sessionId, t.sessionId) && (s.prePipe == [] ==> t.prePipe == [])
  {
    hide Verify, GenAuthInfo, Dispatch;
    var req := Touched(request);
    var s1 := if h.needAuth(s.app) then s.(authParam := Verify(s.authParam, req).param) else s;
    DispatchKeepsSession(h, s1.(prePipe := PrePipeAfter(s1.prePipe, req)), req, Greeting(req));
  }

  lemma DoKeepsSession<A>(h: Handlers<A>, s: ServerState<A>, op: Op)
    ensures var t := Do(h, s, op).state;
            Keeps(s.sessionId, t.sessionId) && (s.prePipe == [] ==> t.prePipe == [])
  {
    hide HandleRequest;
    if op.Receive? && op.item.Message? && op.item.value.Req? {
      HandleRequestKeepsSession(h, s, op.item.value.request);
    }
  }

  /** Once there is a session it is the session of the rest of the run, and the pipelining memory stays empty. */
  lemma {:induction false} SessionWrittenOnce<A>(h: Handlers<A>, s: ServerState<A>, ops: seq<Op>)
    ensures var t := RunOps(h, s, ops).state;
            Keeps(s.sessionId, t.sessionId) && (s.prePipe == [] ==> t.prePipe == [])
    decreases |ops|
  {
    if ops != [] {
      DoKeepsSession(h, s, ops[0]);
      hide Do;
      var o := Do(h, s, ops[0]);
      if !Fatal(o.error) {
        SessionWrittenOnce(h, o.state, ops[1..]);
      }
    }
  }

  // Admission

  /** Who may reach a handler: before a session, anyone; then its Session header, or pipelining without one. */
  predicate Entitled(req: Request, session: string) {
    if Session in req.headers then req.headers[Session] == session
    else session == "" || Pipelined(req)
  }

  ghost predicate AllEntitled(log: seq<Event>) {
    forall e :: e in log && e.Handled? ==> Entitled(e.request, e.session)
  }

  lemma LoggedEntitled(log: seq<Event>, e: Event)
    requires AllEntitled(log) && (e.Handled? ==> Entitled(e.request, e.session))
    ensures AllEntitled(log + [e])
  {
  }

  lemma DispatchEntitled<A>(h: Handlers<A>, s: ServerState<A>, req: Request, res: Response)
    requires AllEntitled(s.log) && Entitled(req, s.sessionId)
    ensures AllEntitled(Dispatch(h, s, req, res).state.log)
  {
    hide T.Decode, T.ToString, AllEntitled;
    LoggedEntitled(s.log, Handled(req, s.sessionId));
  }

  lemma HandleEntitled<A>(h: Handlers<A>, s: ServerState<A>, req: Request, res: Response)
    requires AllEntitled(s.log) && Entitled(req, s.sessionId)
    ensures AllEntitled(Handle(h, s, req, res).state.log)
  {
    hide Dispatch, AllEntitled, Labelled;
    DispatchEntitled(h, s, req, res);
    var d := Dispatch(h, s, req, res);
    LoggedEntitled(d.state.log, Deferred(req));
    LoggedEntitled(d.state.log, Answered(Labelled(d.response, d.state.sessionId, req)));
  }

  lemma AdmitEntitled<A>(h: Handlers<A>, s: ServerState<A>, req: Request)
    requires AllEntitled(s.log)
    ensures AllEntitled(Admit(h, s, req).state.log)
  {
    hide Handle, AllEntitled;
    var s1 := s.(prePipe := PrePipeAfter(s.prePipe, req));
    if Admitted(s1.sessionId, s1.prePipe, req) {
      HandleEntitled(h, s1, req, Greeting(req));
    } else {
      LoggedEntitled(s.log, Answered(Greeting(req).(status := SESSION_NOT_FOUND)));
    }
  }

  lemma DoEntitled<A>(h: Handlers<A>, s: ServerState<A>, op: Op)
    requires AllEntitled(s.log)
    ensures AllEntitled(Do(h, s, op).state.log)
  {
    hide Verify, GenAuthInfo, Admit;
    if op.Receive? && op.item.Message? && op.item.value.Req? {
      var req := Touched(op.item.value.request);
      AdmitEntitled(h, s, req);
      AdmitEntitled(h, s.(authParam := Verify(s.authParam, req).param), req);
    }
  }

  /** In every run handlers run only for entitled requests. */
  lemma {:induction false} HandlersRunForEntitled<A>(h: Handlers<A>, s: ServerState<A>, ops: seq<Op>)
    requires AllEntitled(s.log)
    ensures AllEntitled(RunOps(h, s, ops).state.log)
    decreases |ops|
  {
    if ops != [] {
      DoEntitled(h, s, ops[0]);
      hide Do, AllEntitled;
      var o := Do(h, s, ops[0]);
      if !Fatal(o.error) {
        HandlersRunForEntitled(h, o.state, ops[1..]);
      }
    }
  }

  // Conservation

  /** Handlers leave the sequence number of the reply they are given alone. */
  ghost predicate KeepCSeq<A(!new)>(h: Handlers<A>) {
    (forall app: A, req: Request, res: Response {:trigger h.onRequest(app, req, res)} ::
       CSeq in res.headers ==>
         CSeq in h.onRequest(app, req, res).response.headers
         && h.onRequest(app, req, res).response.headers[CSeq] == res.headers[CSeq])
    && (forall app: A, req: Request, t: T.TransportV1, res: Response {:trigger h.onSetup(app, req, t, res)} ::
          CSeq in res.headers ==>
            CSeq in h.onSetup(app, req, t, res).response.headers
            && h.onSetup(app, req, t, res).response.headers[CSeq] == res.headers[CSeq])
  }

  function ReplyCSeq(e: Event): seq<string> {
    if e.Answered? || e.AnsweredLater? then [Get(e.response.headers, CSeq)] else []
  }

  function DeferredCSeq(e: Event): seq<string> { if e.Deferred? then [Get(e.request.headers, CSeq)] else [] }
  function LaterCSeq(e: Event): seq<string> { if e.AnsweredLater? then [Get(e.response.headers, CSeq)] else [] }

  /** The sequence numbers of the replies sent, of the requests deferred, and of the deferred replies, in order. */
  function Replied(log: seq<Event>): seq<string> {
    if log == [] then [] else Replied(log[..|log| - 1]) + ReplyCSeq(log[|log| - 1])
  }

  function EverDeferred(log: seq<Event>): seq<string> {
    if log == [] then [] else EverDeferred(log[..|log| - 1]) + DeferredCSeq(log[|log| - 1])
  }

  function RepliedLater(log: seq<Event>): seq<string> {
    if log == [] then [] else RepliedLater(log[..|log| - 1]) + LaterCSeq(log[|log| - 1])
  }

  lemma LogGrows(log: seq<Event>, e: Event)
    ensures Replied(log + [e]) == Replied(log) + ReplyCSeq(e)
    ensures EverDeferred(log + [e]) == EverDeferred(log) + DeferredCSeq(e)
    ensures RepliedLater(log + [e]) == RepliedLater(log) + LaterCSeq(e)
  {
    assert (log + [e])[..|log|] == log;
  }

  function CSeqs(reqs: seq<Request>): seq<string> {
    seq(|reqs|, i requires 0 <= i < |reqs| => Get(reqs[i].headers, CSeq))
  }

  function AcceptedCSeq(op: Op): seq<string> {
    match op
    case Receive(Message(Req(r))) => [Get(r.headers, CSeq)]
    case _ => []
  }

  /** The sequence numbers of the requests received. */
  function Accepted(ops: seq<Op>): seq<string> {
    if ops == [] then [] else AcceptedCSeq(ops[0]) + Accepted(ops[1..])
  }

  /** Answered or waiting, as a multiset; and the order in which deferred requests leave. */
  function Held<A>(s: ServerState<A>): multiset<string> { multiset(Replied(s.log)) + multiset(CSeqs(s.deferred)) }

  predicate InOrder<A>(s: ServerState<A>) { EverDeferred(s.log) == RepliedLater(s.log) + CSeqs(s.deferred) }

  predicate SameBooks<A>(s: ServerState<A>, t: ServerState<A>) {
    t.deferred == s.deferred && Replied(t.log) == Replied(s.log)
    && EverDeferred(t.log) == EverDeferred(s.log) && RepliedLater(t.log) == RepliedLater(s.log)
  }

  lemma DispatchSameBooks<A(!new)>(h: Handlers<A>, s: ServerState<A>, req: Request, res: Response)
    requires KeepCSeq(h) && CSeq in res.headers
    ensures var d := Dispatch(h, s, req, res);
            SameBooks(s, d.state) && Get(d.response.headers, CSeq) == res.headers[CSeq]
  {
    LogGrows(s.log, Handled(req, s.sessionId));
    hide T.Decode, T.ToString, Replied, EverDeferred, RepliedLater;
  }

  lemma AnswerBooked<A>(s: ServerState<A>, res: Response)
    ensures var t := Logged(s, Answered(res));
            Held(t) == Held(s) + multiset{Get(res.headers, CSeq)} && (InOrder(s) ==> InOrder(t))
  {
    LogGrows(s.log, Answered(res));
    hide Replied, EverDeferred, RepliedLater, CSeqs;
  }

  lemma DeferralBooked<A>(s: ServerState<A>, req: Request)
    ensures var t := Logged(s, Deferred(req)).(deferred := s.deferred + [req]);
            Held(t) == Held(s) + multiset{Get(req.headers, CSeq)} && (InOrder(s) ==> InOrder(t))
  {
    hide Replied, EverDeferred, RepliedLater, CSeqs, Get;
    LogGrows(s.log, Deferred(req));
    QueueGrows(s.deferred, req);
    var c := Get(req.headers, CSeq);
    assert Replied(s.log) + [] == Replied(s.log) && RepliedLater(s.log) + [] == RepliedLater(s.log);
    assert RepliedLater(s.log) + CSeqs(s.deferred) + [c] == RepliedLater(s.log) + (CSeqs(s.deferred) + [c]);
  }

  lemma QueueGrows(queue: seq<Request>, req: Request)
    ensures CSeqs(queue + [req]) == CSeqs(queue) + [Get(req.headers, CSeq)]
    ensures CSeqs([req] + queue) == [Get(req.headers, CSeq)] + CSeqs(queue)
  {
  }

  lemma HandleBooked<A(!new)>(h: Handlers<A>, s: ServerState<A>, req: Request)
    requires KeepCSeq(h)
    ensures var o := Handle(h, s, req, Greeting(req));
            if o.error == Ok then
              Held(o.state) == Held(s) + multiset{Get(req.headers, CSeq)} && (InOrder(s) ==> InOrder(o.state))
            else SameBooks(s, o.state)
  {
    hide Dispatch, KeepCSeq, Replied, EverDeferred, RepliedLater, CSeqs;
    var d := Dispatch(h, s, req, Greeting(req));
    DispatchSameBooks(h, s, req, Greeting(req));
    DeferralBooked(d.state, req);
    AnswerBooked(d.state, Labelled(d.response, d.state.sessionId, req));
  }

  lemma AdmitBooked<A(!new)>(h: Handlers<A>, s: ServerState<A>, req: Request)
    requires KeepCSeq(h)
    ensures var o := Admit(h, s, req);
            if o.error == Ok then
              Held(o.state) == Held(s) + multiset{Get(req.headers, CSeq)} && (InOrder(s) ==> InOrder(o.state))
            else SameBooks(s, o.state)
  {
    hide Handle, KeepCSeq, Replied, EverDeferred, RepliedLater, CSeqs, Admitted, PrePipeAfter;
    var s1 := s.(prePipe := PrePipeAfter(s.prePipe, req));
    HandleBooked(h, s1, req);
    AnswerBooked(s1, Greeting(req).(status := SESSION_NOT_FOUND));
  }

  /** A request read to the end is booked; one that is not leaves the books as they were. */
  lemma RequestBooked<A(!new)>(h: Handlers<A>, s: ServerState<A>, request: Request)
    requires KeepCSeq(h)
    ensures var o := HandleRequest(h, s, request);
            if o.error == Ok then
              Held(o.state) == Held(s) + multiset{Get(request.headers, CSeq)} && (InOrder(s) ==> InOrder(o.state))
            else SameBooks(s, o.state)
  {
    hide Admit, KeepCSeq, Replied, EverDeferred, RepliedLater, CSeqs, Verify, GenAuthInfo;
    var req := Touched(request);
    AdmitBooked(h, s, req);
    var s1 := s.(authParam := Verify(s.authParam, req).param);
    AdmitBooked(h, s1, req);
    var (app, param) := h.authParam(s1.app);
    var res := Greeting(req);
    AnswerBooked(s1.(app := app, authParam := param),
                 res.(status := UNAUTHORIZED, headers := res.headers[WWWAuthenticate := GenAuthInfo(param)]));
  }

  lemma ReplyBooked<A>(s: ServerState<A>, response: Response)
    ensures var t := SendResponse(s, response).state;
            Held(t) == Held(s) && (InOrder(s) ==> InOrder(t))
    ensures !Fatal(SendResponse(s, response).error)
  {
    hide InOrder, Replied, EverDeferred, RepliedLater, CSeqs;
    if s.deferred != [] {
      var t := SendResponse(s, response).state;
      var e := t.log[|s.log|];
      assert t.log == s.log + [e] && t.deferred == s.deferred[1..];
      FrontBooked(s, t, e);
    }
  }

  lemma FrontBooked<A>(s: ServerState<A>, t: ServerState<A>, e: Event)
    requires s.deferred != [] && t.deferred == s.deferred[1..] && t.log == s.log + [e]
    requires e.AnsweredLater? && Get(e.response.headers, CSeq) == Get(s.deferred[0].headers, CSeq)
    ensures Held(t) == Held(s) && (InOrder(s) ==> InOrder(t))
  {
    hide Replied, EverDeferred, RepliedLater, CSeqs, Get;
    var req, queue := s.deferred[0], s.deferred[1..];
    LogGrows(s.log, e);
    assert s.deferred == [req] + queue;
    QueueGrows(queue, req);
    var c := Get(req.headers, CSeq);
    assert EverDeferred(s.log) + [] == EverDeferred(s.log);
    assert RepliedLater(s.log) + ([c] + CSeqs(queue)) == RepliedLater(s.log) + [c] + CSeqs(queue);
  }

  lemma OtherBooked<A>(s: ServerState<A>, t: ServerState<A>, e: Event)
    requires t.log == s.log + [e] && t.deferred == s.deferred
    requires !e.Answered? && !e.AnsweredLater? && !e.Deferred?
    ensures Held(t) == Held(s) && (InOrder(s) ==> InOrder(t))
  {
    LogGrows(s.log, e);
    hide Replied, EverDeferred, RepliedLater, CSeqs;
  }

  lemma SameHeld<A>(s: ServerState<A>, t: ServerState<A>)
    requires SameBooks(s, t)
    ensures Held(t) == Held(s) && (InOrder(s) ==> InOrder(t))
  {
    hide Replied, EverDeferred, RepliedLater, CSeqs;
  }

  lemma DoBooked<A(!new)>(h: Handlers<A>, s: ServerState<A>, op: Op)
    requires KeepCSeq(h)
    ensures var o := Do(h, s, op);
            Held(o.state) == Held(s) + (if Fatal(o.error) then multiset{} else multiset(AcceptedCSeq(op)))
            && (Fatal(o.error) ==> AcceptedCSeq(op) != []) && (InOrder(s) ==> InOrder(o.state))
  {
    hide HandleRequest, SendResponse, KeepCSeq, Held, InOrder, SameBooks;
    var t := Do(h, s, op).state;
    match op
    case Reply(response) => ReplyBooked(s, response);
    case Notify(request, cseq) => OtherBooked(s, t, Requested(t.current));
    case Receive(Packet(channel, payload)) => OtherBooked(s, t, Delivered(channel, payload));
    case Receive(Message(Req(r))) =>
      RequestBooked(h, s, r);
      FailsExactly(h, s, r);
      if Fatal(HandleRequest(h, s, r).error) { SameHeld(s, t); }
    case Receive(Message(Res(r))) =>
      if AwaitsResponse(s.current.verb) {
        OtherBooked(s, t, Told(s.current.verb, r));
      }
  }

  // Which requests the server can read to the end

  /** The trimmed Authorization value is neither Basic nor long enough to hold the other scheme's name. */
  predicate TooShort(authorization: string) {
    var text := Trim(authorization);
    !StartsWith(text, BASIC) && |text| < 7
  }

  /** The request makes the server's `substr` throw. */
  predicate Unreadable<A>(h: Handlers<A>, s: ServerState<A>, r: Request) {
    h.needAuth(s.app) && Authorization in r.headers && TooShort(r.headers[Authorization])
  }

  predicate PassesAuth<A>(h: Handlers<A>, s: ServerState<A>, r: Request) {
    h.needAuth(s.app) ==> Verify(s.authParam, Touched(r)).passed && !Verify(s.authParam, Touched(r)).thrown
  }

  /** The request is a SETUP within the session rules whose Transport overruns the parser's buffers. */
  predicate Overrunning<A>(h: Handlers<A>, s: ServerState<A>, r: Request) {
    r.verb == SETUP && Transport in r.headers && T.Decode(r.headers[Transport], h.uninitialised).None?
    && PassesAuth(h, s, r) && Admitted(s.sessionId, PrePipeAfter(s.prePipe, Touched(r)), Touched(r))
  }

  lemma ThrowsExactly(p: Authenticate, r: Request)
    ensures Verify(p, r).thrown <==> Authorization in r.headers && TooShort(r.headers[Authorization])
    ensures Verify(p, r).thrown ==> !Verify(p, r).passed
  {
    hide Trim, ApplyFields, Split, BasicText, MakeResponse, StartsWith;
  }

  lemma AdmitFailsExactly<A>(h: Handlers<A>, s: ServerState<A>, req: Request)
    ensures var o := Admit(h, s, req);
            (o.error == Ok || o.error == Undefined)
            && (o.error == Undefined
                <==> req.verb == SETUP && Transport in req.headers
                     && T.Decode(req.headers[Transport], h.uninitialised).None?
                     && Admitted(s.sessionId, PrePipeAfter(s.prePipe, req), req))
  {
    hide T.Decode, T.ToString, Labelled, Admitted, PrePipeAfter, Greeting;
  }

  /** Exactly which requests end a run, and how. */
  lemma FailsExactly<A>(h: Handlers<A>, s: ServerState<A>, r: Request)
    ensures var o := HandleRequest(h, s, r);
            (o.error == Thrown <==> Unreadable(h, s, r)) && (o.error == Undefined <==> Overrunning(h, s, r))
            && (Fatal(o.error) || o.error == Ok)
  {
    hide Verify, TooShort, Admit, Challenge, Admitted, T.Decode, PrePipeAfter, Greeting;
    var req := Touched(r);
    ThrowsExactly(s.authParam, req);
    AdmitFailsExactly(h, s, req);
    AdmitFailsExactly(h, s.(authParam := Verify(s.authParam, req).param), req);
  }

  predicate Read<A>(h: Handlers<A>, s: ServerState<A>, op: Op) {
    match op
    case Receive(Message(Req(r))) => !Unreadable(h, s, r) && !Overrunning(h, s, r)
    case _ => true
  }

  /** Every request is one the server can read, in the state in which it arrives. */
  predicate AllRead<A>(h: Handlers<A>, s: ServerState<A>, ops: seq<Op>)
    decreases |ops|
  {
    ops == [] || (Read(h, s, ops[0]) && AllRead(h, Do(h, s, ops[0]).state, ops[1..]))
  }

  lemma FatalExactly<A>(h: Handlers<A>, s: ServerState<A>, op: Op)
    ensures Fatal(Do(h, s, op).error) <==> !Read(h, s, op)
  {
    hide HandleRequest, Unreadable, Overrunning, HandleResponse, HandlePacket;
    if op.Receive? && op.item.Message? && op.item.value.Req? {
      FailsExactly(h, s, op.item.value.request);
    }
  }

  /** A request no server state can fail on. */
  predicate Wholesome<A>(h: Handlers<A>, op: Op) {
    match op
    case Receive(Message(Req(r))) =>
      (Authorization in r.headers ==> !TooShort(r.headers[Authorization]))
      && (r.verb == SETUP && Transport in r.headers ==> T.Decode(r.headers[Transport], h.uninitialised).Some?)
    case _ => true
  }

  lemma {:induction false} WholesomeIsRead<A>(h: Handlers<A>, s: ServerState<A>, ops: seq<Op>)
    requires forall op :: op in ops ==> Wholesome(h, op)
    ensures AllRead(h, s, ops) && !Fatal(RunOps(h, s, ops).error)
    decreases |ops|
  {
    if ops != [] {
      assert Wholesome(h, ops[0]) && Read(h, s, ops[0]) by { hide TooShort, T.Decode, Verify, Admitted, PrePipeAfter; }
      FatalExactly(h, s, ops[0]);
      hide Do, Read, Wholesome;
      WholesomeIsRead(h, Do(h, s, ops[0]).state, ops[1..]);
    }
  }

  /**
   * Conservation: after a run the requests received are those answered and those still deferred
   * exactly when the server could read them all; deferred requests are always answered in the order
   * in which they were deferred.
   */
  lemma {:induction false} RequestsConservedExactly<A(!new)>(h: Handlers<A>, s: ServerState<A>, ops: seq<Op>)
    requires KeepCSeq(h)
    ensures var o := RunOps(h, s, ops);
            (InOrder(s) ==> InOrder(o.state))
            && (Held(o.state) == Held(s) + multiset(Accepted(ops)) <==> AllRead(h, s, ops))
            && |Held(o.state)| <= |Held(s)| + |Accepted(ops)|
            && (Fatal(o.error) <==> !AllRead(h, s, ops))
    decreases |ops|
  {
    if ops != [] {
      DoBooked(h, s, ops[0]);
      FatalExactly(h, s, ops[0]);
      hide Do, KeepCSeq, Held, InOrder, Read;
      var o := Do(h, s, ops[0]);
      var first, rest := AcceptedCSeq(ops[0]), Accepted(ops[1..]);
      assert multiset(Accepted(ops)) == multiset(first) + multiset(rest);
      if Fatal(o.error) {
        FewerHeld(Held(s), multiset(first) + multiset(rest), first[0]);
      } else {
        RequestsConservedExactly(h, o.state, ops[1..]);
        var t := RunOps(h, o.state, ops[1..]).state;
        Cancel(Held(t), Held(s), multiset(first), multiset(rest));
      }
    }
  }

  lemma FewerHeld<E>(a: multiset<E>, b: multiset<E>, x: E)
    requires x in b
    ensures a != a + b && |a| <= |a| + |b|
  {
    assert (a + b)[x] == a[x] + b[x];
  }

  lemma Cancel<E>(t: multiset<E>, s: multiset<E>, first: multiset<E>, rest: multiset<E>)
    ensures t == s + (first + rest) <==> t == s + first + rest
  {
  }

  /** From the start of a connection, for requests that no server state can fail on. */
  lemma ConnectionConserves<A(!new)>(h: Handlers<A>, app: A, ops: seq<Op>)
    requires KeepCSeq(h) && forall op :: op in ops ==> Wholesome(h, op)
    ensures var t := RunOps(h, Initial(app), ops).state;
            multiset(Accepted(ops)) == multiset(Replied(t.log)) + multiset(CSeqs(t.deferred))
            && RepliedLater(t.log) <= EverDeferred(t.log)
            && EverDeferred(t.log) == RepliedLater(t.log) + CSeqs(t.deferred)
            && t.prePipe == [] && AllEntitled(t.log)
  {
    WholesomeIsRead(h, Initial(app), ops);
    RequestsConservedExactly(h, Initial(app), ops);
    SessionWrittenOnce(h, Initial(app), ops);
    HandlersRunForEntitled(h, Initial(app), ops);
    hide KeepCSeq, RunOps, AllEntitled, Replied, EverDeferred, RepliedLater, AllRead, Wholesome;
  }
}
