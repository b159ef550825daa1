/**
 * A pipelined client and its server: any number of requests of any kind, deferred and answered in
 * any order. Replies overtake one another, so it is the sequence numbers that bring them home.
 */
module Conversation {
  import opened Options
  import opened Text
  import opened Decimal
  import opened Messages
  import opened Stream
  import opened Framing
  import opened Authentication
  import opened Exchange
  import C = ClientSpec
  import CP = ClientPipelines
  import CR = ClientRuns
  import S = ServerSpec
  import SR = ServerRuns
  import HS = Handshake
  import T = Transport

  // What a request is, for the books: its method and its sequence number
  datatype Ticket = Ticket(verb: Method, cseq: string)

  function TicketOf(req: Request): Ticket { Ticket(req.verb, Get(req.headers, CSeq)) }

  function Tickets(reqs: seq<Request>): seq<Ticket> {
    seq(|reqs|, i requires 0 <= i < |reqs| => TicketOf(reqs[i]))
  }

  function Numbers(replies: seq<Response>): seq<string> {
    seq(|replies|, i requires 0 <= i < |replies| => Get(replies[i].headers, CSeq))
  }

  function SentBy(e: C.ClientEvent): multiset<Ticket> {
    if e.Sent? then multiset{TicketOf(e.request)} else multiset{}
  }

  function HeardBy(e: C.ClientEvent): multiset<Ticket> {
    match e
    case SetUp(res, _, _, _) => multiset{Ticket(SETUP, Get(res.headers, CSeq))}
    case Called(verb, res) => multiset{Ticket(verb, Get(res.headers, CSeq))}
    case _ => multiset{}
  }

  /** The requests sent, and the requests whose callback has been made. */
  function SentIn(events: seq<C.ClientEvent>): multiset<Ticket> {
    if events == [] then multiset{} else SentIn(events[..|events| - 1]) + SentBy(events[|events| - 1])
  }

  function HeardIn(events: seq<C.ClientEvent>): multiset<Ticket> {
    if events == [] then multiset{} else HeardIn(events[..|events| - 1]) + HeardBy(events[|events| - 1])
  }

  // What belongs in the conversation

  predicate Usual(verb: Method) {
    verb in {OPTIONS, PLAY, PAUSE, TEARDOWN, RECORD, GET_PARAMETER, SET_PARAMETER}
  }

  predicate Listed(medias: seq<C.Media>, url: string) { exists m :: m in medias && m.url == url }

  predicate Expectable(medias: seq<C.Media>, req: Request) {
    CSeq in req.headers && (Usual(req.verb) || (req.verb == SETUP && Listed(medias, req.url)))
  }

  predicate OnPipe(id: nat, headers: Headers) {
    PipelinedRequests in headers && headers[PipelinedRequests] == ToDecimal(id)
  }

  predicate Fits(id: nat, medias: seq<C.Media>, req: Request) {
    Expectable(medias, req) && OnPipe(id, req.headers) && (req.verb == SETUP ==> Shows(req.headers))
  }

  /** A message speaks of the session there is. */
  predicate Speaks(headers: Headers, session: string) {
    Session in headers ==> session != "" && headers[Session] == session
  }

  // The server's part

  /** The reply to a request, as it leaves the server in a session that may be none. */
  predicate ReplyTo(id: nat, req: Request, session: string, res: Response) {
    res.status != UNAUTHORIZED && OnPipe(id, res.headers)
    && CSeq in res.headers && res.headers[CSeq] == Get(req.headers, CSeq)
    && Speaks(res.headers, session) && (session != "" ==> Session in res.headers)
    && (req.verb == SETUP ==> Shows(res.headers))
  }

  lemma Labels(id: nat, req: Request, res: Response, session: string)
    requires CSeq in req.headers && OnPipe(id, req.headers)
    requires SameMarks(S.Greeting(req), res) && res.status != UNAUTHORIZED
    requires req.verb == SETUP ==> Shows(res.headers)
    ensures ReplyTo(id, req, session, S.Labelled(res, session, req))
  {
    hide ToDecimal;
  }

  /** What reading a request does to the server: a reply, or a deferral. */
  predicate Serves<A>(id: nat, s: S.ServerState<A>, req: Request, o: Outcome<S.ServerState<A>>,
                      replies: seq<Response>) {
    o.error == Ok && o.state.prePipe == []
    && (s.sessionId != "" ==> o.state.sessionId == s.sessionId)
    && (o.state.sessionId == "" || FitSession(o.state.sessionId))
    && if replies == [] then
         o.state.deferred == s.deferred + [req] && o.state.sessionId == s.sessionId
         && o.state.log == s.log + [S.Handled(req, s.sessionId), S.Deferred(req)]
       else
         |replies| == 1 && o.state.deferred == s.deferred && ReplyTo(id, req, o.state.sessionId, replies[0])
         && o.state.log == s.log + [S.Handled(req, s.sessionId), S.Answered(replies[0])]
  }

  /** The server asks for no credentials, or the client's user is its own and the request is signed. */
  ghost predicate Trusts<A(!new)>(h: S.Handlers<A>, a: Authenticate, param: Authenticate, req: Request) {
    Open(h) || (Agree(a, param) && CR.Signed(a, req) && ',' !in req.url)
  }

  lemma TrustedPasses<A(!new)>(h: S.Handlers<A>, s: S.ServerState<A>, a: Authenticate, req: Request)
    requires Trusts(h, a, s.authParam, req) && CSeq in req.headers
    ensures !h.needAuth(s.app) || (Verify(s.authParam, req).passed && !Verify(s.authParam, req).thrown)
  {
    hide Verify, Agree, CR.Signed;
    if h.needAuth(s.app) {
      HS.SignedPasses(a, s.authParam, req);
      TouchedKeeps(req);
    }
  }

  /** A SETUP the server can read: deferred, refused or granted, with a Transport in every reply. */
  lemma SetupHandled<A>(h: S.Handlers<A>, s: S.ServerState<A>, req: Request)
    requires Civil(h, s, req) && req.verb == SETUP && Shows(req.headers)
    ensures var d := S.Dispatch(h, s, req, S.Greeting(req));
            d.error == Ok && d.state.prePipe == s.prePipe && d.state.deferred == s.deferred
            && (if s.sessionId != "" then d.state.sessionId == s.sessionId
                else d.state.sessionId == "" || FitSession(d.state.sessionId))
            && (d.r != 0 ==> d.state.sessionId == s.sessionId)
            && d.state.log == s.log + [S.Handled(req, s.sessionId)]
            && (d.r == 0 ==> SameMarks(S.Greeting(req), d.response) && d.response.status != UNAUTHORIZED
                             && Shows(d.response.headers))
  {
    hide T.Decode, T.ToString, T.Legible, FitSession, S.Greeting;
    T.LegibleIsRead(req.headers[Transport], h.uninitialised);
  }

  lemma SetupServed<A(!new)>(h: S.Handlers<A>, s: S.ServerState<A>, a: Authenticate, id: nat, medias: seq<C.Media>,
                             req: Request)
    returns (replies: seq<Response>)
    requires Civil(h, s, req) && s.prePipe == [] && Fits(id, medias, req) && Speaks(req.headers, s.sessionId)
    requires (s.sessionId == "" || FitSession(s.sessionId)) && req.verb == SETUP && Trusts(h, a, s.authParam, req)
    ensures Serves(id, s, req, S.HandleRequest(h, s, req), replies)
  {
    hide ToDecimal, Trim, C.ParseSession, Civil, S.Greeting, S.Dispatch, S.Labelled, S.HandleRequest, Listed,
      SameMarks, Trusts, Verify, Shows;
    TrustedPasses(h, s, a, req);
    var s1 := s.(authParam := if h.needAuth(s.app) then Verify(s.authParam, req).param else s.authParam);
    CivilStill(h, s, s1.authParam, req);
    SetupHandled(h, s1, req);
    Admits(h, s, req);
    var d := S.Dispatch(h, s1, req, S.Greeting(req));
    if d.r != 0 {
      replies := [];
    } else {
      Labels(id, req, d.response, d.state.sessionId);
      replies := [S.Labelled(d.response, d.state.sessionId, req)];
    }
  }

  lemma UsualServed<A(!new)>(h: S.Handlers<A>, s: S.ServerState<A>, a: Authenticate, id: nat, medias: seq<C.Media>,
                             req: Request)
    returns (replies: seq<Response>)
    requires Civil(h, s, req) && s.prePipe == [] && Fits(id, medias, req) && Speaks(req.headers, s.sessionId)
    requires (s.sessionId == "" || FitSession(s.sessionId)) && Usual(req.verb) && Trusts(h, a, s.authParam, req)
    ensures Serves(id, s, req, S.HandleRequest(h, s, req), replies)
  {
    hide ToDecimal, FitSession, S.Greeting, S.Labelled, S.HandleRequest, Listed, SameMarks, Trusts, Verify;
    TrustedPasses(h, s, a, req);
    Admits(h, s, req);
    var g := h.onRequest(s.app, req, S.Greeting(req));
    if g.r != 0 {
      replies := [];
    } else {
      Labels(id, req, g.response, s.sessionId);
      replies := [S.Labelled(g.response, s.sessionId, req)];
    }
  }

  lemma ServedLater<A>(s: S.ServerState<A>, id: nat, response: Response) returns (res: Response)
    requires s.deferred != [] && CSeq in s.deferred[0].headers && OnPipe(id, s.deferred[0].headers)
    requires response.status != UNAUTHORIZED && Session !in response.headers
    requires s.deferred[0].verb == SETUP ==> Shows(response.headers)
    ensures var o := S.SendResponse(s, response);
            o.error == Ok && o.state == s.(deferred := s.deferred[1..], log := o.state.log)
            && o.state.log == s.log + [S.AnsweredLater(res)] && ReplyTo(id, s.deferred[0], s.sessionId, res)
  {
    hide ToDecimal;
    res := S.SendResponse(s, response).state.log[|s.log|].response;
  }

  // The client's part: replies

  lemma {:induction false} Found(reqs: seq<Request>, cseq: string)
    requires cseq in SR.CSeqs(reqs)
    ensures C.FirstWith(reqs, cseq) < |reqs|
  {
    var i :| 0 <= i < |reqs| && SR.CSeqs(reqs)[i] == cseq;
    if i > 0 && Get(reqs[0].headers, CSeq) != cseq {
      assert SR.CSeqs(reqs[1..])[i - 1] == cseq;
      Found(reqs[1..], cseq);
    }
  }

  lemma WithoutCounts(reqs: seq<Request>, k: nat)
    requires k < |reqs|
    ensures multiset(SR.CSeqs(C.Without(reqs, k))) + multiset{Get(reqs[k].headers, CSeq)} == multiset(SR.CSeqs(reqs))
    ensures multiset(Tickets(C.Without(reqs, k))) + multiset{TicketOf(reqs[k])} == multiset(Tickets(reqs))
  {
    var a, b := reqs[..k], reqs[k + 1..];
    assert SR.CSeqs(reqs) == SR.CSeqs(a) + [Get(reqs[k].headers, CSeq)] + SR.CSeqs(b);
    assert SR.CSeqs(C.Without(reqs, k)) == SR.CSeqs(a) + SR.CSeqs(b);
    assert Tickets(reqs) == Tickets(a) + [TicketOf(reqs[k])] + Tickets(b);
    assert Tickets(C.Without(reqs, k)) == Tickets(a) + Tickets(b);
  }

  /** A reply the client can take: its request is pending, and it has what that request needs. */
  predicate Takeable(c: C.ClientState, id: nat, k: nat, session: string, res: Response) {
    res.status != UNAUTHORIZED && OnPipe(id, res.headers) && CSeq in res.headers
    && Speaks(res.headers, session) && (c.session.id != "" ==> Session in res.headers)
    && (c.session.id == "" || c.session.id == session) && (session == "" || FitSession(session))
    && DistinctMedias(c.sdp.medias)
    && k < |C.Pending(c, id)| && C.FirstWith(C.Pending(c, id), res.headers[CSeq]) == k
    && Expectable(c.sdp.medias, C.Pending(c, id)[k])
    && (C.Pending(c, id)[k].verb == SETUP ==> Shows(res.headers))
  }

  /** What taking it does: one callback, for the method of the request and with its number; the request is gone. */
  predicate TakesReply(c: C.ClientState, id: nat, k: nat, session: string, res: Response, t: C.ClientState,
                       e: C.ClientEvent)
    requires k < |C.Pending(c, id)|
  {
    t.log == c.log + [e] && (e.SetUp? || e.Called?)
    && HeardBy(e) == multiset{TicketOf(C.Pending(c, id)[k])} && SentBy(e) == multiset{}
    && C.Pending(t, id) == C.Without(C.Pending(c, id), k)
    && t == c.(log := t.log, session := t.session, pipelines := t.pipelines)
    && (t.session == c.session || (t.session.id == session && Session in res.headers))
  }

  lemma UsualReplyTaken(cfg: C.Config, c: C.ClientState, id: nat, k: nat, session: string, res: Response)
    returns (t: C.ClientState, e: C.ClientEvent)
    requires 0 < id < 0x8000_0000 && Takeable(c, id, k, session, res) && Usual(C.Pending(c, id)[k].verb)
    ensures C.HandleResponse(cfg, c, res) == Outcome(t, Ok) && TakesReply(c, id, k, session, res, t, e)
  {
    StoiPrinted(id);
    hide ToDecimal, Stoi, FitSession, Listed, C.FirstWith, DistinctMedias;
    t := C.HandleResponse(cfg, c, res).state;
    e := C.Called(C.Pending(c, id)[k].verb, res);
  }

  lemma ListedCall(c: C.ClientState, url: string, res: Response, t: T.TransportV1) returns (media: string)
    requires DistinctMedias(c.sdp.medias) && Listed(c.sdp.medias, url)
    ensures C.SetUpCalls(c, c.sdp.medias, url, res, t) == C.Logged(c, C.SetUp(res, c.session, media, t))
  {
    var m :| m in c.sdp.medias && m.url == url;
    var i :| 0 <= i < |c.sdp.medias| && c.sdp.medias[i] == m;
    OneCall(c, c.sdp.medias, i, res, t);
    media := m.name;
  }

  /** A reply brings the server's session, or none to a client without one. */
  lemma AdoptedIfAny(c: C.ClientState, res: Response, session: string)
    requires Speaks(res.headers, session) && (session == "" || FitSession(session))
    requires (c.session.id == "" || c.session.id == session) && (c.session.id != "" ==> Session in res.headers)
    ensures var a := C.Adopt(c, res);
            a.error == Ok && a.state == c.(session := a.state.session)
            && (a.state.session == c.session || (a.state.session.id == session && Session in res.headers))
  {
    hide Trim, C.ParseSession;
    if Session in res.headers {
      Adopted(c, res, session);
    }
  }

  lemma SetupReplyTaken(cfg: C.Config, c: C.ClientState, id: nat, k: nat, session: string, res: Response)
    returns (t: C.ClientState, e: C.ClientEvent)
    requires 0 < id < 0x8000_0000 && Takeable(c, id, k, session, res) && C.Pending(c, id)[k].verb == SETUP
    ensures C.HandleResponse(cfg, c, res) == Outcome(t, Ok) && TakesReply(c, id, k, session, res, t, e)
  {
    StoiPrinted(id);
    hide ToDecimal, Stoi, Trim, C.ParseSession, T.Decode, T.Legible, Listed, C.FirstWith, DistinctMedias, C.SetUpCalls,
      C.Adopt;
    var pending := C.Pending(c, id);
    var s1 := c.(pipelines := c.pipelines[id := pending]);
    T.LegibleIsRead(res.headers[Transport], cfg.uninitialised);
    var granted := T.Decode(res.headers[Transport], cfg.uninitialised).value;
    AdoptedIfAny(s1, res, session);
    var a := C.Adopt(s1, res).state;
    var media := ListedCall(a, pending[k].url, res, granted);
    t := C.HandleResponse(cfg, c, res).state;
    e := C.SetUp(res, a.session, media, granted);
  }

  // The client's part: requests

  predicate Clean(extra: Headers) { Session !in extra && PipelinedRequests !in extra }

  ghost predicate AllSent(id: nat, c: C.ClientState, requests: seq<Request>) {
    forall q :: q in requests ==> Fits(id, c.sdp.medias, q) && Carries(c, q)
  }

  ghost predicate AllExpectable(medias: seq<C.Media>, requests: seq<Request>) {
    forall w :: w in requests ==> Expectable(medias, w)
  }

  /** A call that has sent `requests` and recorded them, in order, as `records`. */
  ghost predicate Sends(id: nat, c: C.ClientState, t: C.ClientState, records: seq<Request>, requests: seq<Request>) {
    t.pipeId == c.pipeId && t.sdp == c.sdp && t.session == c.session && t.isAggregate == c.isAggregate
    && t.log == c.log + Sents(requests)
    && C.Pending(t, id) == C.Pending(c, id) + records && Tickets(records) == Tickets(requests)
    && AllExpectable(c.sdp.medias, records) && AllSent(id, c, requests)
    && c.cseq <= t.cseq && NumberedFrom(c.cseq, records)
    && (NoCommas(c) ==> NoCommas(t) && forall q :: q in requests ==> ',' !in q.url)
  }

  /** No URL the client may use has a comma, which Digest credentials would lose. */
  ghost predicate NoCommas(c: C.ClientState) {
    ',' !in c.auth.uri && ',' !in c.sdp.aggregateUrl && forall m :: m in c.sdp.medias ==> ',' !in m.url
  }

  ghost predicate NumberedFrom(first: nat, records: seq<Request>) { forall w :: w in records ==> first <= CP.Number(w) }

  lemma SendsNothing(id: nat, c: C.ClientState, t: C.ClientState)
    requires t.pipeId == c.pipeId && t.sdp == c.sdp && t.session == c.session && t.isAggregate == c.isAggregate
    requires t.log == c.log && t.pipelines == c.pipelines && t.cseq == c.cseq
    requires NoCommas(c) ==> NoCommas(t)
    ensures Sends(id, c, t, [], [])
  {
    assert c.log + [] == c.log && C.Pending(c, id) + [] == C.Pending(c, id);
  }

  lemma SendsTwice(id: nat, c: C.ClientState, t: C.ClientState, u: C.ClientState,
                   a: seq<Request>, ra: seq<Request>, b: seq<Request>, rb: seq<Request>)
    requires Sends(id, c, t, ra, a) && Sends(id, t, u, rb, b)
    ensures Sends(id, c, u, ra + rb, a + b)
  {
    hide Expectable, Fits, Carries, CP.Number, NoCommas;
    assert c.log + Sents(a) + Sents(b) == c.log + Sents(a + b);
    assert C.Pending(c, id) + ra + rb == C.Pending(c, id) + (ra + rb);
    assert Tickets(ra + rb) == Tickets(ra) + Tickets(rb) && Tickets(a + b) == Tickets(a) + Tickets(b);
    forall q | q in a + b
      ensures Fits(id, c.sdp.medias, q) && Carries(c, q)
    {
      assert q in a || q in b;
      assert q in b ==> Carries(t, q) && Carries(c, q) by { SameSignature(c, t); }
    }
  }

  lemma SameSignature(c: C.ClientState, t: C.ClientState)
    requires t.session == c.session
    ensures forall q :: Carries(t, q) == Carries(c, q)
  {
  }

  lemma RequestRecorded(id: nat, c: C.ClientState, verb: Method)
    requires id > 0 && c.pipeId == id
    requires Usual(verb) || (verb == SETUP && Listed(c.sdp.medias, c.auth.uri))
    ensures var (t, req) := C.MakeRequest(c, verb);
            C.Pending(t, id) == C.Pending(c, id) + [req] && t == c.(cseq := c.cseq + 1, pipelines := t.pipelines)
            && Expectable(c.sdp.medias, req) && OnPipe(id, req.headers) && Carries(c, req)
            && req.verb == verb && req.url == c.auth.uri && CP.Number(req) == c.cseq
  {
    CP.NextNumber(c, verb);
    hide ToDecimal, Listed, Credentials, CP.Number;
  }

  /** A request with a few more headers and a body goes out as it was recorded. */
  lemma SendsOne(id: nat, c: C.ClientState, verb: Method, sent: Request) returns (record: Request)
    requires id > 0 && c.pipeId == id
    requires Usual(verb) || (verb == SETUP && Listed(c.sdp.medias, c.auth.uri))
    requires var req := C.MakeRequest(c, verb).1;
             sent.verb == verb && sent.url == c.auth.uri
             && (forall k :: k in req.headers ==> k in sent.headers && sent.headers[k] == req.headers[k])
             && (Session in sent.headers ==> Session in req.headers)
             && (verb == SETUP ==> Shows(sent.headers))
    ensures Sends(id, c, C.Logged(C.MakeRequest(c, verb).0, C.Sent(sent)), [record], [sent])
  {
    hide C.MakeRequest, Listed, ToDecimal, CP.Number;
    RequestRecorded(id, c, verb);
    record := C.MakeRequest(c, verb).1;
    assert Sents([sent]) == [C.Sent(sent)];
    assert Tickets([record]) == [TicketOf(record)] && Tickets([sent]) == [TicketOf(sent)];
  }

  lemma SendWithSends(id: nat, c: C.ClientState, verb: Method, extra: Headers, body: string)
    returns (records: seq<Request>, requests: seq<Request>)
    requires id > 0 && c.pipeId == id && Usual(verb) && Clean(extra)
    ensures Sends(id, c, C.SendWith(c, verb, extra, body), records, requests)
  {
    hide C.MakeRequest, Sends;
    var req := C.MakeRequest(c, verb).1;
    assert req.verb == verb && req.url == c.auth.uri by { Made(c, verb); }
    var sent := req.(headers := extra + req.headers, body := body);
    var record := SendsOne(id, c, verb, sent);
    records, requests := [record], [sent];
  }

  lemma Made(c: C.ClientState, verb: Method)
    ensures var req := C.MakeRequest(c, verb).1;
            req.verb == verb && req.url == c.auth.uri && Transport !in req.headers
  {
    hide ToDecimal, Credentials;
  }

  /** A track of the description, asked for with a transport that can be read. */
  predicate Askable(medias: seq<C.Media>, track: C.Track) {
    Named(medias, track.0) && T.Legible(T.ToString(track.1))
  }

  lemma SetupSends(id: nat, c: C.ClientState, track: C.Track) returns (records: seq<Request>, requests: seq<Request>)
    requires id > 0 && c.pipeId == id && DistinctMedias(c.sdp.medias) && Askable(c.sdp.medias, track)
    ensures Sends(id, c, C.SendSetup(c, track), records, requests)
  {
    hide C.MakeRequest, Sends, T.ToString, T.Legible, C.TrackUrl;
    var m :| m in c.sdp.medias && m.name == track.0;
    var i :| 0 <= i < |c.sdp.medias| && c.sdp.medias[i] == m;
    UrlFound(c.sdp.medias, i, c.auth.uri);
    var c1 := C.Aimed(c, SETUP, C.TrackUrl(c.sdp.medias, track.0, c.auth.uri));
    var c2 := if c1.transports == [] then c1.(transports := [track], setupIter := 0) else c1;
    assert Listed(c2.sdp.medias, c2.auth.uri);
    AimedAtListed(c, SETUP, c1.auth.uri);
    SendsNothing(id, c, c2);
    Made(c2, SETUP);
    var req := C.MakeRequest(c2, SETUP).1;
    var sent := req.(headers := req.headers[Transport := T.ToString(track.1)]);
    var record := SendsOne(id, c2, SETUP, sent);
    SendsTwice(id, c, c2, C.SendSetup(c, track), [], [], [sent], [record]);
    records, requests := [] + [record], [] + [sent];
  }

  ghost predicate AllAskable(medias: seq<C.Media>, tracks: seq<C.Track>) {
    forall t :: t in tracks ==> Askable(medias, t)
  }

  lemma {:induction false} BurstSends(id: nat, c: C.ClientState, i: nat)
    returns (records: seq<Request>, requests: seq<Request>)
    requires id > 0 && c.pipeId == id && DistinctMedias(c.sdp.medias) && i <= |c.transports|
    requires AllAskable(c.sdp.medias, c.transports)
    ensures Sends(id, c, C.SetupBurst(c, i), records, requests)
    decreases |c.transports| - i
  {
    hide C.SendSetup, Sends, DistinctMedias;
    var c1 := c.(setupIter := i);
    SendsNothing(id, c, c1);
    if i == |c.transports| {
      records, requests := [], [];
    } else {
      var t := C.SendSetup(c1, c.transports[i]);
      var ra, a := SetupSends(id, c1, c.transports[i]);
      CP.SetupKeepsTracks(c1, c.transports[i]);
      SendsKeeps(id, c1, t, ra, a);
      var rb, b := BurstSends(id, t, i + 1);
      SendsTwice(id, c, c1, t, [], [], a, ra);
      SendsTwice(id, c, t, C.SetupBurst(c, i), [] + a, [] + ra, b, rb);
      records, requests := [] + ra + rb, [] + a + b;
    }
  }

  lemma SendsKeeps(id: nat, c: C.ClientState, t: C.ClientState, records: seq<Request>, requests: seq<Request>)
    requires Sends(id, c, t, records, requests)
    ensures t.pipeId == c.pipeId && t.sdp == c.sdp && t.session == c.session && t.isAggregate == c.isAggregate
  {
  }

  /** Calls a pipelined conversation may make. */
  ghost predicate MayCall(c: C.ClientState, call: C.ApiCall) {
    match call
    case Simple(verb, _) => verb in {OPTIONS, GET_PARAMETER, SET_PARAMETER}
    case SetupTracks(tracks) => tracks != [] && AllAskable(c.sdp.medias, tracks)
    case SetupTrack(track) => Askable(c.sdp.medias, track)
    case ControlAll(verb, extra) => verb in {PLAY, PAUSE, RECORD, TEARDOWN} && c.isAggregate && Clean(extra)
    case ControlMedia(verb, media, extra) =>
      verb in {PLAY, PAUSE, RECORD, TEARDOWN} && C.FirstUrl(c.sdp.medias, media).Some? && Clean(extra)
    case _ => false
  }

  lemma {:induction false} FirstUrlListed(medias: seq<C.Media>, name: string)
    ensures var u := C.FirstUrl(medias, name);
            u.Some? ==> Listed(medias, u.value)
  {
    if medias != [] {
      assert medias[0] in medias;
      FirstUrlListed(medias[1..], name);
    }
  }

  lemma AimedAtListed(c: C.ClientState, verb: Method, url: string)
    requires Listed(c.sdp.medias, url) || url == c.sdp.aggregateUrl
    ensures NoCommas(c) ==> NoCommas(C.Aimed(c, verb, url))
  {
  }

  lemma CallSends(id: nat, c: C.ClientState, call: C.ApiCall) returns (records: seq<Request>, requests: seq<Request>)
    requires id > 0 && c.pipeId == id && DistinctMedias(c.sdp.medias) && MayCall(c, call)
    ensures C.Call(c, call).error == Ok && Sends(id, c, C.Call(c, call).state, records, requests)
  {
    hide C.SendWith, C.SendSetup, C.SetupBurst, Sends, Askable, DistinctMedias, AllAskable;
    var c1 := c;
    match call {
      case Simple(verb, body) =>
        c1 := c.(auth := c.auth.(verb := verb));
        records, requests := SendWithSends(id, c1, verb, map[], body);
      case SetupTracks(tracks) =>
        c1 := c.(transports := tracks, setupIter := 0);
        records, requests := BurstSends(id, c1, 0);
      case SetupTrack(track) =>
        records, requests := SetupSends(id, c1, track);
      case ControlAll(verb, extra) =>
        c1 := C.Aimed(c.(auth := c.auth.(verb := verb)), verb, c.sdp.aggregateUrl);
        records, requests := SendWithSends(id, c1, verb, extra, "");
      case ControlMedia(verb, media, extra) =>
        FirstUrlListed(c.sdp.medias, media);
        AimedAtListed(c, verb, C.FirstUrl(c.sdp.medias, media).value);
        c1 := C.Aimed(c, verb, C.FirstUrl(c.sdp.medias, media).value);
        records, requests := SendWithSends(id, c1, verb, extra, "");
    }
    SendsNothing(id, c, c1);
    SendsTwice(id, c, c1, C.Call(c, call).state, [], [], requests, records);
    assert [] + records == records && [] + requests == requests;
  }

  // What every run keeps

  ghost predicate InBalance(pending: seq<Request>, toServer: seq<Request>, deferred: seq<Request>,
                            toClient: seq<Response>) {
    multiset(SR.CSeqs(pending))
    == multiset(SR.CSeqs(toServer)) + multiset(SR.CSeqs(deferred)) + multiset(Numbers(toClient))
  }

  /** Pending under the same number means the same method. */
  ghost predicate Twins(pending: seq<Request>, q: Request) {
    forall w :: w in pending && Get(w.headers, CSeq) == Get(q.headers, CSeq) ==> w.verb == q.verb
  }

  ghost predicate Answerable(id: nat, pending: seq<Request>, r: Response) {
    r.status != UNAUTHORIZED && OnPipe(id, r.headers) && CSeq in r.headers
    && forall w :: w in pending && Get(w.headers, CSeq) == r.headers[CSeq] && w.verb == SETUP ==>
         Shows(r.headers)
  }

  ghost predicate Matched(id: nat, medias: seq<C.Media>, pending: seq<Request>, toServer: seq<Request>,
                          deferred: seq<Request>, toClient: seq<Response>) {
    (forall q :: q in toServer ==> Fits(id, medias, q) && Twins(pending, q))
    && (forall q :: q in deferred ==> Fits(id, medias, q) && Twins(pending, q))
    && forall r :: r in toClient ==> Answerable(id, pending, r)
  }

  /** Only the end of the reply channel carries the session, once the client has it all of the channel. */
  ghost predicate InSession(client: string, server: string, toServer: seq<Request>, toClient: seq<Response>) {
    (server == "" || FitSession(server)) && (client == "" || client == server)
    && (forall q :: q in toServer ==> Speaks(q.headers, server))
    && (forall r :: r in toClient ==> Speaks(r.headers, server))
    && (forall i, j :: 0 <= i < j < |toClient| && Session in toClient[i].headers ==> Session in toClient[j].headers)
    && (client != "" ==> forall r :: r in toClient ==> Session in r.headers)
  }

  /** Since position `k` of the log, every request sent has had its callback or is pending. */
  ghost predicate Kept(k: nat, log: seq<C.ClientEvent>, pending: seq<Request>) {
    k <= |log| && SentIn(log[k..]) == HeardIn(log[k..]) + multiset(Tickets(pending))
  }

  ghost predicate Talk<A>(id: nat, k: nat, y: Parties<A>) {
    var pending := C.Pending(y.client, id);
    y.error == Ok && y.handled == y.taken && y.server.prePipe == []
    && 0 < id < 0x8000_0000 && y.client.pipeId == id && DistinctMedias(y.client.sdp.medias)
    && CP.Ordered(y.client) && AllExpectable(y.client.sdp.medias, pending)
    && InBalance(pending, y.toServer, y.server.deferred, y.toClient)
    && Matched(id, y.client.sdp.medias, pending, y.toServer, y.server.deferred, y.toClient)
    && InSession(y.client.session.id, y.server.sessionId, y.toServer, y.toClient)
    && Kept(k, y.client.log, pending)
  }

  /** The server asks for no credentials, or it agrees with the client and every request under way is signed. */
  ghost predicate Trusted<A(!new)>(h: S.Handlers<A>, y: Parties<A>) {
    Open(h)
    || (y.client.needAuth && Agree(y.client.auth, y.server.authParam) && NoCommas(y.client)
        && forall q :: q in y.toServer ==> CR.Signed(y.client.auth, q) && ',' !in q.url)
  }

  lemma FrontTrusted<A(!new)>(h: S.Handlers<A>, y: Parties<A>)
    requires Trusted(h, y) && y.toServer != []
    ensures Trusts(h, y.client.auth, y.server.authParam, y.toServer[0])
  {
    hide Agree, CR.Signed, NoCommas;
    assert y.toServer[0] in y.toServer;
  }

  // The server reads a request

  lemma TakenBalanced(pending: seq<Request>, toServer: seq<Request>, deferred: seq<Request>, toClient: seq<Response>,
                      later: seq<Request>, replies: seq<Response>)
    requires InBalance(pending, toServer, deferred, toClient) && toServer != []
    requires if replies == [] then later == [toServer[0]]
             else later == [] && |replies| == 1 && Get(replies[0].headers, CSeq) == Get(toServer[0].headers, CSeq)
    ensures InBalance(pending, toServer[1..], deferred + later, toClient + replies)
  {
    hide Get, SR.CSeqs, Numbers;
    var req, rest := toServer[0], toServer[1..];
    assert toServer == [req] + rest;
    SR.QueueGrows(rest, req);
    if replies == [] {
      SR.QueueGrows(deferred, req);
      assert toClient + replies == toClient;
    } else {
      NumbersGrow(toClient, replies[0]);
      assert replies == [replies[0]] && deferred + later == deferred;
    }
  }

  lemma NumbersGrow(replies: seq<Response>, res: Response)
    ensures Numbers(replies + [res]) == Numbers(replies) + [Get(res.headers, CSeq)]
    ensures Numbers([res] + replies) == [Get(res.headers, CSeq)] + Numbers(replies)
  {
  }

  lemma TakenMatched(id: nat, medias: seq<C.Media>, pending: seq<Request>, toServer: seq<Request>,
                     deferred: seq<Request>, toClient: seq<Response>, session: string,
                     later: seq<Request>, replies: seq<Response>)
    requires Matched(id, medias, pending, toServer, deferred, toClient) && toServer != []
    requires if replies == [] then later == [toServer[0]]
             else later == [] && |replies| == 1 && ReplyTo(id, toServer[0], session, replies[0])
    ensures Matched(id, medias, pending, toServer[1..], deferred + later, toClient + replies)
  {
    hide Fits, OnPipe, Speaks;
    assert toServer[0] in toServer && Twins(pending, toServer[0]);
    forall r | r in toClient + replies
      ensures Answerable(id, pending, r)
    {
      if r !in toClient { assert r == replies[0]; }
    }
  }

  lemma TakenSession(client: string, before: string, after: string, toServer: seq<Request>, toClient: seq<Response>,
                     replies: seq<Response>)
    requires InSession(client, before, toServer, toClient) && toServer != []
    requires (before != "" ==> after == before) && (after == "" || FitSession(after))
    requires |replies| <= 1
    requires replies != [] ==> Speaks(replies[0].headers, after) && (after != "" ==> Session in replies[0].headers)
    ensures InSession(client, after, toServer[1..], toClient + replies)
  {
    hide FitSession;
    var both := toClient + replies;
    forall i, j | 0 <= i < j < |both| && Session in both[i].headers
      ensures Session in both[j].headers
    {
      assert both[i] in toClient;
    }
  }

  /** The request at the front, as the server finds it. */
  lemma FrontRequest<A>(id: nat, k: nat, y: Parties<A>)
    requires Talk(id, k, y) && y.toServer != []
    ensures Fits(id, y.client.sdp.medias, y.toServer[0]) && Speaks(y.toServer[0].headers, y.server.sessionId)
    ensures y.server.prePipe == [] && y.error == Ok && (y.server.sessionId == "" || FitSession(y.server.sessionId))
  {
    hide Fits, Speaks, FitSession, CP.Ordered, Kept, InBalance;
    assert y.toServer[0] in y.toServer;
  }

  lemma ServedMove<A(!new)>(h: S.Handlers<A>, id: nat, k: nat, y: Parties<A>) returns (replies: seq<Response>)
    requires Talk(id, k, y) && Trusted(h, y) && y.toServer != [] && Civil(h, y.server, y.toServer[0])
    ensures var o := S.HandleRequest(h, y.server, y.toServer[0]);
            Serves(id, y.server, y.toServer[0], o, replies)
            && ServerMoved(y.(toServer := y.toServer[1..], taken := y.taken + 1), o)
               == y.(server := o.state, toServer := y.toServer[1..], taken := y.taken + 1,
                     toClient := y.toClient + replies, handled := y.handled + 1)
  {
    hide S.HandleRequest, Civil, Talk, ServerMoved, FitSession, Listed, OnPipe, Speaks, ReplyTo, Trusts, Trusted;
    FrontTrusted(h, y);
    FrontRequest(id, k, y);
    var req, s := y.toServer[0], y.server;
    var y1 := y.(toServer := y.toServer[1..], taken := y.taken + 1);
    if req.verb == SETUP {
      replies := SetupServed(h, s, y.client.auth, id, y.client.sdp.medias, req);
    } else {
      replies := UsualServed(h, s, y.client.auth, id, y.client.sdp.medias, req);
    }
    var o := S.HandleRequest(h, s, req);
    if replies == [] {
      DeferredMove(y1, o, req, s.sessionId);
      assert y.toClient + replies == y.toClient;
    } else {
      AnsweredMove(y1, o, req, s.sessionId, replies[0]);
      assert replies == [replies[0]];
    }
  }

  lemma ServedKeeps<A>(id: nat, k: nat, y: Parties<A>, o: Outcome<S.ServerState<A>>, replies: seq<Response>)
    requires Talk(id, k, y) && y.toServer != [] && Serves(id, y.server, y.toServer[0], o, replies)
    ensures Talk(id, k, y.(server := o.state, toServer := y.toServer[1..], taken := y.taken + 1,
                           toClient := y.toClient + replies, handled := y.handled + 1))
  {
    hide InBalance, Matched, InSession, Kept, CP.Ordered, AllExpectable, DistinctMedias, FitSession, OnPipe, Speaks;
    var pending := C.Pending(y.client, id);
    var req, later := y.toServer[0], if replies == [] then [y.toServer[0]] else [];
    assert o.state.deferred == y.server.deferred + later;
    TakenBalanced(pending, y.toServer, y.server.deferred, y.toClient, later, replies);
    var medias, session := y.client.sdp.medias, o.state.sessionId;
    TakenMatched(id, medias, pending, y.toServer, y.server.deferred, y.toClient, session, later, replies);
    SessionFits(y.client.session.id, y.server.sessionId, y.toServer, y.toClient);
    TakenSession(y.client.session.id, y.server.sessionId, o.state.sessionId, y.toServer, y.toClient, replies);
  }

  lemma SessionFits(client: string, server: string, toServer: seq<Request>, toClient: seq<Response>)
    requires InSession(client, server, toServer, toClient)
    ensures server == "" || FitSession(server)
  {
    hide FitSession, Speaks;
  }

  lemma ServerTakesKeeps<A(!new)>(h: S.Handlers<A>, cfg: C.Config, id: nat, k: nat, y: Parties<A>)
    requires Talk(id, k, y) && Trusted(h, y) && Courteous(h, y, ServerTakes)
    ensures Talk(id, k, Advance(h, cfg, y, ServerTakes))
  {
    hide S.HandleRequest, Civil, Talk, ServerMoved, Serves, Trusted;
    if y.toServer != [] {
      var replies := ServedMove(h, id, k, y);
      ServedKeeps(id, k, y, S.HandleRequest(h, y.server, y.toServer[0]), replies);
    }
  }

  // The server's application replies to the oldest deferred request

  lemma LaterBalanced(pending: seq<Request>, toServer: seq<Request>, deferred: seq<Request>, toClient: seq<Response>,
                      res: Response)
    requires InBalance(pending, toServer, deferred, toClient) && deferred != []
    requires Get(res.headers, CSeq) == Get(deferred[0].headers, CSeq)
    ensures InBalance(pending, toServer, deferred[1..], toClient + [res])
  {
    hide Get, SR.CSeqs, Numbers;
    assert deferred == [deferred[0]] + deferred[1..];
    SR.QueueGrows(deferred[1..], deferred[0]);
    NumbersGrow(toClient, res);
  }

  lemma LaterMatched(id: nat, medias: seq<C.Media>, pending: seq<Request>, toServer: seq<Request>,
                     deferred: seq<Request>, toClient: seq<Response>, session: string, res: Response)
    requires Matched(id, medias, pending, toServer, deferred, toClient) && deferred != []
    requires ReplyTo(id, deferred[0], session, res)
    ensures Matched(id, medias, pending, toServer, deferred[1..], toClient + [res])
  {
    hide Fits, OnPipe, Speaks;
    assert deferred[0] in deferred && Twins(pending, deferred[0]);
    forall r | r in toClient + [res]
      ensures Answerable(id, pending, r)
    {
      if r !in toClient { assert r == res; }
    }
  }

  lemma LaterSession(client: string, server: string, toServer: seq<Request>, toClient: seq<Response>, res: Response)
    requires InSession(client, server, toServer, toClient)
    requires Speaks(res.headers, server) && (server != "" ==> Session in res.headers)
    ensures InSession(client, server, toServer, toClient + [res])
  {
    hide FitSession;
    var both := toClient + [res];
    forall i, j | 0 <= i < j < |both| && Session in both[i].headers
      ensures Session in both[j].headers
    {
      assert both[i] in toClient;
    }
  }

  lemma ServerRepliesKeeps<A>(h: S.Handlers<A>, cfg: C.Config, id: nat, k: nat, y: Parties<A>, response: Response)
    requires Talk(id, k, y) && Courteous(h, y, ServerReplies(response))
    ensures Talk(id, k, Advance(h, cfg, y, ServerReplies(response)))
  {
    hide InBalance, Matched, InSession, Kept, CP.Ordered, AllExpectable, DistinctMedias, FitSession, OnPipe, Speaks,
      S.SendResponse, ServerMoved;
    if y.server.deferred != [] {
      var s, pending := y.server, C.Pending(y.client, id);
      FrontDeferred(id, y.client.sdp.medias, pending, y.toServer, s.deferred, y.toClient);
      var res := ServedLater(s, id, response);
      LaterMove(y, S.SendResponse(s, response), res);
      LaterBalanced(pending, y.toServer, s.deferred, y.toClient, res);
      LaterMatched(id, y.client.sdp.medias, pending, y.toServer, s.deferred, y.toClient, s.sessionId, res);
      LaterSession(y.client.session.id, s.sessionId, y.toServer, y.toClient, res);
    }
  }

  lemma FrontDeferred(id: nat, medias: seq<C.Media>, pending: seq<Request>, toServer: seq<Request>,
                      deferred: seq<Request>, toClient: seq<Response>)
    requires Matched(id, medias, pending, toServer, deferred, toClient) && deferred != []
    ensures CSeq in deferred[0].headers && OnPipe(id, deferred[0].headers)
  {
    hide OnPipe;
    assert deferred[0] in deferred;
  }

  // The client reads a reply

  lemma {:induction false} CountsAdd(a: seq<C.ClientEvent>, b: seq<C.ClientEvent>)
    ensures SentIn(a + b) == SentIn(a) + SentIn(b) && HeardIn(a + b) == HeardIn(a) + HeardIn(b)
    decreases |b|
  {
    hide SentBy, HeardBy;
    if b == [] {
      assert a + b == a;
    } else {
      var n := |b| - 1;
      assert (a + b)[..|a + b| - 1] == a + b[..n];
      CountsAdd(a, b[..n]);
    }
  }

  lemma OneEvent(e: C.ClientEvent)
    ensures SentIn([e]) == SentBy(e) && HeardIn([e]) == HeardBy(e)
  {
    assert [e][..0] == [];
  }

  lemma LogSuffix(k: nat, log: seq<C.ClientEvent>, more: seq<C.ClientEvent>)
    requires k <= |log|
    ensures (log + more)[k..] == log[k..] + more
  {
  }

  /** A number under way is the number of exactly one pending request. */
  lemma HasPending(pending: seq<Request>, toServer: seq<Request>, deferred: seq<Request>, toClient: seq<Response>,
                   cseq: string)
    requires InBalance(pending, toServer, deferred, toClient)
    requires cseq in SR.CSeqs(toServer) || cseq in SR.CSeqs(deferred) || cseq in Numbers(toClient)
    ensures cseq in SR.CSeqs(pending)
  {
    hide SR.CSeqs, Numbers;
    assert multiset(SR.CSeqs(pending))[cseq] > 0;
  }

  lemma FrontReply<A>(id: nat, k: nat, y: Parties<A>) returns (i: nat)
    requires Talk(id, k, y) && y.toClient != []
    ensures Takeable(y.client, id, i, y.server.sessionId, y.toClient[0]) && y.error == Ok && 0 < id < 0x8000_0000
  {
    hide FitSession, OnPipe, DistinctMedias, CP.Ordered, Kept, C.FirstWith, Listed;
    var pending, res := C.Pending(y.client, id), y.toClient[0];
    assert res in y.toClient;
    assert Numbers(y.toClient)[0] == res.headers[CSeq];
    HasPending(pending, y.toServer, y.server.deferred, y.toClient, res.headers[CSeq]);
    Found(pending, res.headers[CSeq]);
    i := C.FirstWith(pending, res.headers[CSeq]);
    assert pending[i] in pending;
  }

  lemma GotBalanced(pending: seq<Request>, toServer: seq<Request>, deferred: seq<Request>, toClient: seq<Response>,
                    i: nat)
    requires InBalance(pending, toServer, deferred, toClient) && toClient != [] && i < |pending|
    requires Get(pending[i].headers, CSeq) == Get(toClient[0].headers, CSeq)
    ensures InBalance(C.Without(pending, i), toServer, deferred, toClient[1..])
  {
    hide Get, C.Without, Tickets;
    WithoutCounts(pending, i);
    var cseq := Get(toClient[0].headers, CSeq);
    assert Numbers(toClient) == [cseq] + Numbers(toClient[1..]);
    hide SR.CSeqs, Numbers;
    Cancel(multiset(SR.CSeqs(C.Without(pending, i))),
           multiset(SR.CSeqs(toServer)) + multiset(SR.CSeqs(deferred)) + multiset(Numbers(toClient[1..])), cseq);
  }

  lemma Cancel<E>(a: multiset<E>, b: multiset<E>, x: E)
    requires a + multiset{x} == b + multiset{x}
    ensures a == b
  {
    assert a == a + multiset{x} - multiset{x};
  }

  lemma GotMatched(id: nat, medias: seq<C.Media>, pending: seq<Request>, toServer: seq<Request>,
                   deferred: seq<Request>, toClient: seq<Response>, i: nat)
    requires Matched(id, medias, pending, toServer, deferred, toClient) && toClient != [] && i < |pending|
    requires AllExpectable(medias, pending)
    ensures Matched(id, medias, C.Without(pending, i), toServer, deferred, toClient[1..])
    ensures AllExpectable(medias, C.Without(pending, i))
  {
    hide Fits, OnPipe, Expectable, C.Without;
    var rest := C.Without(pending, i);
    Subset(pending, i);
    forall q | q in toServer || q in deferred
      ensures Twins(rest, q)
    {
      assert Twins(pending, q);
    }
    forall r | r in toClient[1..]
      ensures Answerable(id, rest, r)
    {
      assert Answerable(id, pending, r);
    }
  }

  lemma Subset(pending: seq<Request>, i: nat)
    requires i < |pending|
    ensures forall w :: w in C.Without(pending, i) ==> w in pending
  {
  }

  lemma GotSession(before: string, after: string, server: string, toServer: seq<Request>, toClient: seq<Response>)
    requires InSession(before, server, toServer, toClient) && toClient != []
    requires after == before || (after == server && Session in toClient[0].headers)
    ensures InSession(after, server, toServer, toClient[1..])
  {
    hide FitSession, Speaks;
    var rest := toClient[1..];
    forall r | r in rest && after != ""
      ensures Session in r.headers
    {
      var j :| 0 <= j < |rest| && rest[j] == r;
      assert toClient[j + 1] == r;
    }
    forall a, b | 0 <= a < b < |rest| && Session in rest[a].headers
      ensures Session in rest[b].headers
    {
      assert rest[a] == toClient[a + 1] && rest[b] == toClient[b + 1];
    }
  }

  lemma GotKept(k: nat, log: seq<C.ClientEvent>, pending: seq<Request>, i: nat, e: C.ClientEvent)
    requires Kept(k, log, pending) && i < |pending|
    requires SentBy(e) == multiset{} && HeardBy(e) == multiset{TicketOf(pending[i])}
    ensures Kept(k, log + [e], C.Without(pending, i))
  {
    hide SentIn, HeardIn, SentBy, HeardBy, Tickets, C.Without, TicketOf, SR.CSeqs;
    LogSuffix(k, log, [e]);
    CountsAdd(log[k..], [e]);
    OneEvent(e);
    WithoutCounts(pending, i);
  }

  lemma ReplyTaken<A>(h: S.Handlers<A>, cfg: C.Config, id: nat, k: nat, y: Parties<A>)
    returns (i: nat, t: C.ClientState, e: C.ClientEvent)
    requires Talk(id, k, y) && y.toClient != []
    ensures Takeable(y.client, id, i, y.server.sessionId, y.toClient[0])
    ensures TakesReply(y.client, id, i, y.server.sessionId, y.toClient[0], t, e)
    ensures t == C.HandleResponse(cfg, y.client, y.toClient[0]).state
    ensures var z := Advance(h, cfg, y, ClientTakes);
            z == y.(client := t, toClient := y.toClient[1..], received := y.received + 1, heard := z.heard)
  {
    hide Talk, C.HandleResponse, ClientMoved, TakesReply, Takeable;
    i := FrontReply(id, k, y);
    var session, res := y.server.sessionId, y.toClient[0];
    TakeableIs(y.client, id, i, session, res);
    if C.Pending(y.client, id)[i].verb == SETUP {
      t, e := SetupReplyTaken(cfg, y.client, id, i, session, res);
    } else {
      t, e := UsualReplyTaken(cfg, y.client, id, i, session, res);
    }
    TakesReplyIs(y.client, id, i, session, res, t, e);
    CalledMove(y.(toClient := y.toClient[1..], received := y.received + 1), Outcome(t, Ok), e);
  }

  lemma TakeableIs(c: C.ClientState, id: nat, k: nat, session: string, res: Response)
    requires Takeable(c, id, k, session, res)
    ensures k < |C.Pending(c, id)|
    ensures C.Pending(c, id)[k].verb == SETUP || Usual(C.Pending(c, id)[k].verb)
    ensures CSeq in res.headers && Get(C.Pending(c, id)[k].headers, CSeq) == res.headers[CSeq]
  {
    hide FitSession, OnPipe, DistinctMedias, Listed;
  }

  lemma TakesReplyIs(c: C.ClientState, id: nat, k: nat, session: string, res: Response, t: C.ClientState,
                     e: C.ClientEvent)
    requires k < |C.Pending(c, id)| && TakesReply(c, id, k, session, res, t, e)
    ensures t.log == c.log + [e] && (e.SetUp? || e.Called?)
    ensures t.auth == c.auth && t.needAuth == c.needAuth && t.sdp == c.sdp
  {
  }

  lemma ClientTakesKeeps<A>(h: S.Handlers<A>, cfg: C.Config, id: nat, k: nat, y: Parties<A>)
    requires Talk(id, k, y)
    ensures Talk(id, k, Advance(h, cfg, y, ClientTakes))
  {
    if y.toClient != [] {
      hide InBalance, Matched, InSession, Kept, CP.Ordered, AllExpectable, DistinctMedias, Takeable,
        C.HandleResponse, Advance,
        TicketOf, HeardBy, SentBy;
      var i, t, e := ReplyTaken(h, cfg, id, k, y);
      var c, pending := y.client, C.Pending(y.client, id);
      TakeableIs(c, id, i, y.server.sessionId, y.toClient[0]);
      OrderKept(cfg, c, y.toClient[0]);
      GotBalanced(pending, y.toServer, y.server.deferred, y.toClient, i);
      GotMatched(id, c.sdp.medias, pending, y.toServer, y.server.deferred, y.toClient, i);
      GotSession(c.session.id, t.session.id, y.server.sessionId, y.toServer, y.toClient);
      GotKept(k, c.log, pending, i, e);
    }
  }

  lemma OrderKept(cfg: C.Config, c: C.ClientState, res: Response)
    requires CP.Ordered(c)
    ensures CP.Ordered(C.HandleResponse(cfg, c, res).state)
  {
    hide C.HandleResponse, CP.Ordered;
    CP.OpKeepsOrder(cfg, c, CP.Receive(Message(Res(res))));
  }

  // The client's application calls the interface

  lemma CSeqsJoin(a: seq<Request>, b: seq<Request>)
    ensures SR.CSeqs(a + b) == SR.CSeqs(a) + SR.CSeqs(b)
  {
    hide Get;
  }

  lemma AddedCounts(pending: seq<Request>, records: seq<Request>, requests: seq<Request>)
    requires Tickets(records) == Tickets(requests)
    ensures SR.CSeqs(pending + records) == SR.CSeqs(pending) + SR.CSeqs(requests)
    ensures Tickets(pending + records) == Tickets(pending) + Tickets(requests)
  {
    assert |records| == |Tickets(records)| == |Tickets(requests)| == |requests|;
    forall i | 0 <= i < |records|
      ensures Get(records[i].headers, CSeq) == Get(requests[i].headers, CSeq)
    {
      assert Tickets(records)[i] == Tickets(requests)[i];
    }
    assert SR.CSeqs(records) == SR.CSeqs(requests);
    CSeqsJoin(pending, records);
    assert Tickets(pending + records) == Tickets(pending) + Tickets(records);
  }

  lemma CalledBalanced(pending: seq<Request>, toServer: seq<Request>, deferred: seq<Request>, toClient: seq<Response>,
                       records: seq<Request>, requests: seq<Request>)
    requires InBalance(pending, toServer, deferred, toClient) && Tickets(records) == Tickets(requests)
    ensures InBalance(pending + records, toServer + requests, deferred, toClient)
  {
    hide Get, Tickets, SR.CSeqs, Numbers;
    AddedCounts(pending, records, requests);
    CSeqsJoin(toServer, requests);
  }

  /** No two pending requests have the same number. */
  lemma Distinct(reqs: seq<Request>, bound: nat, i: nat, j: nat)
    requires CP.Increasing(reqs, bound) && i < |reqs| && j < |reqs|
    requires Get(reqs[i].headers, CSeq) == Get(reqs[j].headers, CSeq)
    ensures i == j
  {
    hide CP.Number;
    CP.SameNumber(reqs[i], reqs[j]);
  }

  /** What is under way has the number of an old pending request, so it says nothing of the new ones. */
  lemma NotNew(pending: seq<Request>, records: seq<Request>, bound: nat, cseq: string)
    requires CP.Increasing(pending + records, bound) && cseq in SR.CSeqs(pending)
    ensures forall w :: w in records ==> Get(w.headers, CSeq) != cseq
  {
    hide CP.Increasing, Get;
    var i :| 0 <= i < |pending| && SR.CSeqs(pending)[i] == cseq;
    var all := pending + records;
    forall w | w in records
      ensures Get(w.headers, CSeq) != cseq
    {
      var j :| 0 <= j < |records| && records[j] == w;
      assert all[i] == pending[i] && all[|pending| + j] == w;
      if Get(w.headers, CSeq) == cseq {
        Distinct(all, bound, i, |pending| + j);
      }
    }
  }

  lemma NewTwins(pending: seq<Request>, records: seq<Request>, requests: seq<Request>, bound: nat, q: Request)
    requires CP.Increasing(pending + records, bound) && Tickets(records) == Tickets(requests) && q in requests
    ensures Twins(pending + records, q)
  {
    hide CP.Increasing, Get;
    var j :| 0 <= j < |requests| && requests[j] == q;
    assert |records| == |Tickets(records)| == |Tickets(requests)| == |requests|;
    assert Tickets(records)[j] == Tickets(requests)[j];
    var all := pending + records;
    assert all[|pending| + j] == records[j];
    forall w | w in all && Get(w.headers, CSeq) == Get(q.headers, CSeq)
      ensures w.verb == q.verb
    {
      var i :| 0 <= i < |all| && all[i] == w;
      Distinct(all, bound, i, |pending| + j);
    }
  }

  lemma InCSeqs(reqs: seq<Request>, replies: seq<Response>)
    ensures forall q :: q in reqs ==> Get(q.headers, CSeq) in SR.CSeqs(reqs)
    ensures forall r :: r in replies ==> Get(r.headers, CSeq) in Numbers(replies)
  {
    hide Get;
    forall q | q in reqs
      ensures Get(q.headers, CSeq) in SR.CSeqs(reqs)
    {
      var i :| 0 <= i < |reqs| && reqs[i] == q;
      assert SR.CSeqs(reqs)[i] == Get(q.headers, CSeq);
    }
    forall r | r in replies
      ensures Get(r.headers, CSeq) in Numbers(replies)
    {
      var i :| 0 <= i < |replies| && replies[i] == r;
      assert Numbers(replies)[i] == Get(r.headers, CSeq);
    }
  }

  lemma CalledMatched(id: nat, medias: seq<C.Media>, pending: seq<Request>, toServer: seq<Request>,
                      deferred: seq<Request>, toClient: seq<Response>,
                      records: seq<Request>, requests: seq<Request>, bound: nat)
    requires Matched(id, medias, pending, toServer, deferred, toClient)
    requires InBalance(pending, toServer, deferred, toClient)
    requires CP.Increasing(pending + records, bound) && Tickets(records) == Tickets(requests)
    requires forall q :: q in requests ==> Fits(id, medias, q)
    ensures Matched(id, medias, pending + records, toServer + requests, deferred, toClient)
  {
    hide CP.Increasing, Fits, OnPipe, Tickets, SR.CSeqs, Numbers, InBalance, Get;
    InCSeqs(toServer, toClient);
    InCSeqs(deferred, toClient);
    var all := pending + records;
    forall q | q in toServer || q in deferred
      ensures Twins(all, q)
    {
      HasPending(pending, toServer, deferred, toClient, Get(q.headers, CSeq));
      NotNew(pending, records, bound, Get(q.headers, CSeq));
      assert Twins(pending, q);
    }
    forall q | q in requests
      ensures Twins(all, q)
    {
      NewTwins(pending, records, requests, bound, q);
    }
    forall r | r in toClient
      ensures Answerable(id, all, r)
    {
      assert Answerable(id, pending, r);
      assert Get(r.headers, CSeq) == r.headers[CSeq] by { Present(r.headers); }
      HasPending(pending, toServer, deferred, toClient, Get(r.headers, CSeq));
      NotNew(pending, records, bound, Get(r.headers, CSeq));
    }
  }

  lemma Present(headers: Headers)
    requires CSeq in headers
    ensures Get(headers, CSeq) == headers[CSeq]
  {
  }

  lemma CalledSession(c: C.ClientState, server: string, toServer: seq<Request>, toClient: seq<Response>,
                      requests: seq<Request>)
    requires InSession(c.session.id, server, toServer, toClient) && forall q :: q in requests ==> Carries(c, q)
    ensures InSession(c.session.id, server, toServer + requests, toClient)
  {
    hide FitSession;
  }

  lemma {:induction false} SentsCount(requests: seq<Request>)
    ensures SentIn(Sents(requests)) == multiset(Tickets(requests)) && HeardIn(Sents(requests)) == multiset{}
  {
    if requests == [] {
      NothingSent();
    } else {
      var n := |requests| - 1;
      var e := C.Sent(requests[n]);
      SentsCount(requests[..n]);
      LastSent(requests);
      CountsAdd(Sents(requests[..n]), [e]);
      OneEvent(e);
      SentCounts(requests[n]);
      hide SentIn, HeardIn, Sents, Tickets, TicketOf, SentBy, HeardBy;
      assert multiset(Tickets(requests)) == multiset(Tickets(requests[..n])) + multiset{TicketOf(requests[n])};
    }
  }

  lemma NothingSent()
    ensures SentIn(Sents([])) == multiset(Tickets([])) && HeardIn(Sents([])) == multiset{}
  {
  }

  lemma SentCounts(req: Request)
    ensures SentBy(C.Sent(req)) == multiset{TicketOf(req)} && HeardBy(C.Sent(req)) == multiset{}
  {
  }

  lemma LastSent(requests: seq<Request>)
    requires requests != []
    ensures var n := |requests| - 1;
            Sents(requests) == Sents(requests[..n]) + [C.Sent(requests[n])]
            && Tickets(requests) == Tickets(requests[..n]) + [TicketOf(requests[n])]
  {
    hide TicketOf;
  }

  lemma CalledKept(k: nat, log: seq<C.ClientEvent>, pending: seq<Request>, records: seq<Request>,
                   requests: seq<Request>)
    requires Kept(k, log, pending) && Tickets(records) == Tickets(requests)
    ensures Kept(k, log + Sents(requests), pending + records)
  {
    hide SentIn, HeardIn, Sents, Tickets, SR.CSeqs;
    LogSuffix(k, log, Sents(requests));
    CountsAdd(log[k..], Sents(requests));
    SentsCount(requests);
    AddedCounts(pending, records, requests);
  }

  lemma SentMove<A>(y: Parties<A>, o: Outcome<C.ClientState>, requests: seq<Request>)
    requires o.state.log == y.client.log + Sents(requests) && o.error == Ok && y.error == Ok
    ensures var z := ClientMoved(y, o);
            z == y.(client := o.state, toServer := y.toServer + requests, setups := z.setups)
  {
    hide RequestsIn, CallbacksIn, SetupsIn, Sents;
    AddedIs(y.client.log, Sents(requests));
    SentsRequests(requests);
    assert y.heard + [] == y.heard;
  }

  lemma CallOrdered(c: C.ClientState, call: C.ApiCall)
    requires CP.Ordered(c)
    ensures CP.Ordered(C.Call(c, call).state)
  {
    hide C.Call, CP.Ordered, CP.Appends;
    CP.CallExtends(c, call);
  }

  lemma Records(id: nat, c: C.ClientState, t: C.ClientState, records: seq<Request>, requests: seq<Request>)
    requires Sends(id, c, t, records, requests) && CP.Ordered(t)
    ensures C.Pending(t, id) == C.Pending(c, id) + records && Tickets(records) == Tickets(requests)
    ensures t.log == c.log + Sents(requests) && AllExpectable(c.sdp.medias, records) && AllSent(id, c, requests)
    ensures t.pipeId == c.pipeId && t.sdp == c.sdp && t.session == c.session
    ensures CP.Increasing(C.Pending(c, id) + records, t.cseq)
  {
    hide CP.Increasing, Tickets, Sents, AllExpectable, AllSent, NumberedFrom;
    if id !in t.pipelines {
      NoneIncreasing(t.cseq);
    }
  }

  lemma NoneIncreasing(bound: nat)
    ensures CP.Increasing([], bound)
  {
  }

  lemma ClientCallsKeeps<A>(h: S.Handlers<A>, cfg: C.Config, id: nat, k: nat, y: Parties<A>, call: C.ApiCall)
    requires Talk(id, k, y) && MayCall(y.client, call)
    ensures Talk(id, k, Advance(h, cfg, y, ClientCalls(call)))
  {
    hide InBalance, Matched, InSession, Kept, CP.Ordered, DistinctMedias, C.Call, MayCall, ClientMoved, Sends,
      Tickets, Sents,
      Expectable, Fits, Carries, CP.Increasing;
    var c, pending := y.client, C.Pending(y.client, id);
    var records, requests := CallSends(id, c, call);
    var t := C.Call(c, call).state;
    CallOrdered(c, call);
    Records(id, c, t, records, requests);
    SentMove(y, C.Call(c, call), requests);
    CalledBalanced(pending, y.toServer, y.server.deferred, y.toClient, records, requests);
    CalledMatched(id, c.sdp.medias, pending, y.toServer, y.server.deferred, y.toClient, records, requests, t.cseq);
    CalledSession(c, y.server.sessionId, y.toServer, y.toClient, requests);
    CalledKept(k, c.log, pending, records, requests);
  }

  // Credentials

  lemma ServerKeepsTrust<A(!new)>(h: S.Handlers<A>, cfg: C.Config, id: nat, k: nat, y: Parties<A>)
    requires Talk(id, k, y) && Trusted(h, y) && Courteous(h, y, ServerTakes)
    ensures Trusted(h, Advance(h, cfg, y, ServerTakes))
  {
    hide S.HandleRequest, Civil, Talk, ServerMoved, Serves, Agree, CR.Signed, NoCommas, Open;
    if y.toServer != [] && !Open(h) {
      assert y.toServer[0] in y.toServer;
      var replies := ServedMove(h, id, k, y);
      HS.SignedStep(h, y.server, y.client.auth, SR.Receive(Message(Req(y.toServer[0]))));
    }
  }

  lemma LaterKeepsTrust<A(!new)>(h: S.Handlers<A>, cfg: C.Config, y: Parties<A>, response: Response)
    requires Trusted(h, y)
    ensures Trusted(h, Advance(h, cfg, y, ServerReplies(response)))
  {
    hide Agree, CR.Signed, NoCommas, Open, RepliesIn, HandledIn;
  }

  lemma ReplyKeepsTrust<A(!new)>(h: S.Handlers<A>, cfg: C.Config, id: nat, k: nat, y: Parties<A>)
    requires Talk(id, k, y) && Trusted(h, y)
    ensures Trusted(h, Advance(h, cfg, y, ClientTakes))
  {
    hide Talk, C.HandleResponse, Takeable, TakesReply, Agree, CR.Signed, NoCommas, Open, ClientMoved, C.Pending;
    if y.toClient != [] {
      var i, t, e := ReplyTaken(h, cfg, id, k, y);
      TakeableIs(y.client, id, i, y.server.sessionId, y.toClient[0]);
      TakesReplyIs(y.client, id, i, y.server.sessionId, y.toClient[0], t, e);
      SameUrls(y.client, t);
    }
  }

  lemma SameUrls(c: C.ClientState, t: C.ClientState)
    requires t.sdp == c.sdp && t.auth == c.auth
    ensures NoCommas(t) == NoCommas(c)
  {
  }

  lemma SignedStill(a: Authenticate, b: Authenticate, param: Authenticate)
    requires b == a.(verb := b.verb, uri := b.uri)
    ensures Agree(a, param) == Agree(b, param)
    ensures forall q :: CR.Signed(a, q) == CR.Signed(b, q)
  {
    hide Credentials;
    forall q
      ensures CR.Signed(a, q) == CR.Signed(b, q)
    {
      assert a.(verb := q.verb, uri := q.url) == b.(verb := q.verb, uri := q.url);
    }
  }

  /** The requests of a call are signed, and what was signed stays so. */
  lemma CallStaysSigned(id: nat, c: C.ClientState, call: C.ApiCall, param: Authenticate)
    returns (requests: seq<Request>)
    requires id > 0 && c.pipeId == id && DistinctMedias(c.sdp.medias) && MayCall(c, call)
    requires c.needAuth && NoCommas(c) && Agree(c.auth, param)
    ensures var t := C.Call(c, call).state;
            C.Call(c, call).error == Ok && t.log == c.log + Sents(requests)
            && t.needAuth && NoCommas(t) && Agree(t.auth, param)
            && (forall q :: CR.Signed(c.auth, q) ==> CR.Signed(t.auth, q))
            && forall q :: q in requests ==> CR.Signed(t.auth, q) && ',' !in q.url
  {
    hide C.Call, MayCall, Agree, CR.Signed, NoCommas, Tickets, Sents, AllSent, AllExpectable, DistinctMedias,
      NumberedFrom;
    var records;
    records, requests := CallSends(id, c, call);
    hide C.Pending;
    CallSigns(c, call, requests);
    SignedStill(c.auth, C.Call(c, call).state.auth, param);
  }

  lemma CallKeepsTrust<A(!new)>(h: S.Handlers<A>, cfg: C.Config, id: nat, k: nat, y: Parties<A>, call: C.ApiCall)
    requires Talk(id, k, y) && Trusted(h, y) && MayCall(y.client, call)
    ensures Trusted(h, Advance(h, cfg, y, ClientCalls(call)))
  {
    hide Talk, C.Call, MayCall, ClientMoved, Agree, CR.Signed, NoCommas, Open, Sents, CP.Ordered, DistinctMedias;
    TalkIs(id, k, y);
    if !Open(h) {
      var requests := CallStaysSigned(id, y.client, call, y.server.authParam);
      SentMove(y, C.Call(y.client, call), requests);
    }
  }

  lemma CallSigns(c: C.ClientState, call: C.ApiCall, requests: seq<Request>)
    requires MayCall(c, call) && c.needAuth && C.Call(c, call).state.log == c.log + Sents(requests)
    ensures var t := C.Call(c, call).state;
            t.needAuth && t.auth == c.auth.(verb := t.auth.verb, uri := t.auth.uri)
            && forall q :: q in requests ==> CR.Signed(c.auth, q)
  {
    hide C.Call, CR.Signed, CR.Settled, CR.Retransmissions, C.Pending, AllAskable, Askable;
    CR.CallQuiet(c, call);
    var t := C.Call(c, call).state;
    forall q | q in requests
      ensures CR.Signed(c.auth, q)
    {
      var i :| 0 <= i < |requests| && requests[i] == q;
      assert t.log[|c.log| + i] == C.Sent(q);
    }
  }

  // No number is used twice

  ghost predicate Once(sent: multiset<Ticket>, bound: nat) {
    forall t :: t in sent ==> sent[t] == 1 && CP.NumberOf(t.cseq) < bound
  }

  ghost predicate SentOnce(k: nat, c: C.ClientState) {
    k <= |c.log| && Once(SentIn(c.log[k..]), c.cseq)
  }

  lemma OnceMore(sent: multiset<Ticket>, bound: nat, records: seq<Request>, next: nat)
    requires Once(sent, bound) && bound <= next && NumberedFrom(bound, records) && CP.Increasing(records, next)
    ensures Once(sent + multiset(Tickets(records)), next)
  {
    hide Scan;
    var added := Tickets(records);
    forall t | t in sent + multiset(added)
      ensures (sent + multiset(added))[t] == 1 && CP.NumberOf(t.cseq) < next
    {
      if t in added {
        var i :| 0 <= i < |added| && added[i] == t;
        assert records[i] in records && CP.NumberOf(t.cseq) == CP.Number(records[i]);
        assert t !in sent;
        forall j | 0 <= j < |added| && added[j] == t
          ensures j == i
        {
          Distinct(records, next, i, j);
        }
        OnlyOnce(added, i);
      } else {
        assert multiset(added)[t] == 0 by { assert t !in multiset(added); }
      }
    }
  }

  lemma OnlyOnce<E>(s: seq<E>, i: nat)
    requires i < |s| && forall j :: 0 <= j < |s| && s[j] == s[i] ==> j == i
    ensures multiset(s)[s[i]] == 1
  {
    assert s == s[..i] + [s[i]] + s[i + 1..];
    assert s[i] !in s[..i] && s[i] !in s[i + 1..];
  }

  lemma IncreasingRest(a: seq<Request>, b: seq<Request>, bound: nat)
    requires CP.Increasing(a + b, bound)
    ensures CP.Increasing(b, bound)
  {
    hide CP.Number;
    forall i | 0 <= i < |b|
      ensures b[i] == (a + b)[|a| + i]
    {
    }
  }

  lemma CallSendsOnce(id: nat, k: nat, c: C.ClientState, call: C.ApiCall)
    requires id > 0 && c.pipeId == id && DistinctMedias(c.sdp.medias) && MayCall(c, call) && CP.Ordered(c)
             && SentOnce(k, c)
    ensures SentOnce(k, C.Call(c, call).state)
  {
    hide CP.Ordered, DistinctMedias, C.Call, MayCall, Tickets, Sents, CP.Increasing, Once, SentIn, HeardIn,
      NumberedFrom,
      AllSent, AllExpectable;
    var records, requests := CallSends(id, c, call);
    var t := C.Call(c, call).state;
    CallOrdered(c, call);
    Records(id, c, t, records, requests);
    IncreasingRest(C.Pending(c, id), records, t.cseq);
    LogSuffix(k, c.log, Sents(requests));
    CountsAdd(c.log[k..], Sents(requests));
    SentsCount(requests);
    OnceMore(SentIn(c.log[k..]), c.cseq, records, t.cseq);
  }

  lemma ReplySendsNothing<A>(h: S.Handlers<A>, cfg: C.Config, id: nat, k: nat, y: Parties<A>)
    requires Talk(id, k, y) && SentOnce(k, y.client)
    ensures SentOnce(k, Advance(h, cfg, y, ClientTakes).client)
  {
    if y.toClient != [] {
      hide Talk, C.HandleResponse, Advance, Once, SentIn, HeardIn, Takeable, TicketOf, HeardBy, SentBy;
      var i, t, e := ReplyTaken(h, cfg, id, k, y);
      TakeableIs(y.client, id, i, y.server.sessionId, y.toClient[0]);
      LogSuffix(k, y.client.log, [e]);
      CountsAdd(y.client.log[k..], [e]);
      OneEvent(e);
      assert SentIn(y.client.log[k..]) + multiset{} == SentIn(y.client.log[k..]);
    }
  }

  // Every run

  /**
   * The server's application replies without 401 or a session of its own, and to a SETUP with a
   * Transport, at once or later; the client's makes only calls of the conversation.
   */
  ghost predicate Courteous<A>(h: S.Handlers<A>, y: Parties<A>, m: Move) {
    match m
    case ServerTakes => y.toServer != [] ==> Civil(h, y.server, y.toServer[0])
    case ServerReplies(res) =>
      res.status != UNAUTHORIZED && Session !in res.headers
      && (y.server.deferred != [] && y.server.deferred[0].verb == SETUP ==> Shows(res.headers))
    case ClientCalls(call) => MayCall(y.client, call)
    case _ => true
  }

  ghost predicate AllCourteous<A>(h: S.Handlers<A>, cfg: C.Config, y: Parties<A>, moves: seq<Move>)
    decreases |moves|
  {
    moves == [] || (Courteous(h, y, moves[0]) && AllCourteous(h, cfg, Advance(h, cfg, y, moves[0]), moves[1..]))
  }

  lemma MoveKeeps<A(!new)>(h: S.Handlers<A>, cfg: C.Config, id: nat, k: nat, y: Parties<A>, m: Move)
    requires Talk(id, k, y) && SentOnce(k, y.client) && Trusted(h, y) && Courteous(h, y, m)
    ensures var z := Advance(h, cfg, y, m);
            Talk(id, k, z) && SentOnce(k, z.client) && Trusted(h, z)
  {
    hide Talk, SentOnce, Civil, MayCall, Trusted;
    match m
    case ServerTakes =>
      ServerTakesKeeps(h, cfg, id, k, y);
      ServerKeepsTrust(h, cfg, id, k, y);
    case ServerReplies(response) =>
      ServerRepliesKeeps(h, cfg, id, k, y, response);
      LaterKeepsTrust(h, cfg, y, response);
    case ClientTakes =>
      ClientTakesKeeps(h, cfg, id, k, y);
      ReplySendsNothing(h, cfg, id, k, y);
      ReplyKeepsTrust(h, cfg, id, k, y);
    case ClientCalls(call) =>
      ClientCallsKeeps(h, cfg, id, k, y, call);
      CallKeepsTrust(h, cfg, id, k, y, call);
      TalkIs(id, k, y);
      CallSendsOnce(id, k, y.client, call);
  }

  lemma TalkIs<A>(id: nat, k: nat, y: Parties<A>)
    requires Talk(id, k, y)
    ensures id > 0 && y.client.pipeId == id && DistinctMedias(y.client.sdp.medias) && CP.Ordered(y.client)
    ensures y.error == Ok
  {
    hide InBalance, Matched, InSession, Kept, CP.Ordered, DistinctMedias, AllExpectable;
  }

  lemma {:induction false} MovesKeep<A(!new)>(h: S.Handlers<A>, cfg: C.Config, id: nat, k: nat, y: Parties<A>,
                                       moves: seq<Move>)
    requires Talk(id, k, y) && SentOnce(k, y.client) && Trusted(h, y) && AllCourteous(h, cfg, y, moves)
    ensures var z := Proceed(h, cfg, y, moves);
            Talk(id, k, z) && SentOnce(k, z.client) && Trusted(h, z)
    decreases |moves|
  {
    hide Talk, SentOnce, Trusted, Civil, Courteous, Advance;
    if moves != [] {
      MoveKeeps(h, cfg, id, k, y, moves[0]);
      MovesKeep(h, cfg, id, k, Advance(h, cfg, y, moves[0]), moves[1..]);
    }
  }

  function Meet<A>(c: C.ClientState, s: S.ServerState<A>): Parties<A> { Parties(c, s, [], [], 0, 0, 0, [], [], Ok) }

  /**
   * A client about to pipeline under `id`, and a server with which it has nothing outstanding: one
   * that asks for no credentials, or one with which a handshake has brought it to agreement.
   */
  ghost predicate Opening<A(!new)>(h: S.Handlers<A>, id: nat, c: C.ClientState, s: S.ServerState<A>) {
    (Open(h) || (c.needAuth && Agree(c.auth, s.authParam) && NoCommas(c)))
    && 0 < id < 0x8000_0000 && c.pipeId == id && C.Pending(c, id) == [] && CP.Ordered(c) && DistinctMedias(c.sdp.medias)
    && s.prePipe == [] && s.deferred == []
    && (s.sessionId == "" || FitSession(s.sessionId)) && (c.session.id == "" || c.session.id == s.sessionId)
  }

  lemma Opens<A(!new)>(h: S.Handlers<A>, id: nat, c: C.ClientState, s: S.ServerState<A>)
    requires Opening(h, id, c, s)
    ensures Talk(id, |c.log|, Meet(c, s)) && SentOnce(|c.log|, c) && Trusted(h, Meet(c, s))
  {
    hide FitSession, DistinctMedias, CP.Ordered, Open, Agree, NoCommas;
    assert c.log[|c.log|..] == [];
  }

  /**
   * Every interleaving of every conversation is safe: nothing fails, no request is refused, the
   * client's session is none or the server's; and since the conversation began, each request sent
   * has had its one callback, of its own method and with its own number, or is pending and under way.
   */
  lemma ConversationIsSafe<A(!new)>(
      h: S.Handlers<A>, cfg: C.Config, id: nat, c: C.ClientState, s: S.ServerState<A>, moves: seq<Move>)
    requires Opening(h, id, c, s) && AllCourteous(h, cfg, Meet(c, s), moves)
    ensures var z := Proceed(h, cfg, Meet(c, s), moves);
            var pending := C.Pending(z.client, id);
            z.error == Ok && z.handled == z.taken
            && (z.client.session.id == "" || z.client.session.id == z.server.sessionId)
            && |c.log| <= |z.client.log|
            && var events := z.client.log[|c.log|..];
               SentIn(events) == HeardIn(events) + multiset(Tickets(pending))
               && (forall t :: HeardIn(events)[t] <= 1)
               && multiset(SR.CSeqs(pending))
                  == multiset(SR.CSeqs(z.toServer)) + multiset(SR.CSeqs(z.server.deferred))
                     + multiset(Numbers(z.toClient))
  {
    Opens(h, id, c, s);
    hide Opening, Talk, SentOnce, Trusted, Civil, AllCourteous, Proceed;
    MovesKeep(h, cfg, id, |c.log|, Meet(c, s), moves);
    SafeSoFar(id, |c.log|, Proceed(h, cfg, Meet(c, s), moves));
  }

  lemma SafeSoFar<A>(id: nat, k: nat, z: Parties<A>)
    requires Talk(id, k, z) && SentOnce(k, z.client)
    ensures z.error == Ok && z.handled == z.taken && k <= |z.client.log|
    ensures z.client.session.id == "" || z.client.session.id == z.server.sessionId
    ensures var pending := C.Pending(z.client, id);
            var events := z.client.log[k..];
            SentIn(events) == HeardIn(events) + multiset(Tickets(pending))
            && (forall t :: HeardIn(events)[t] <= 1)
            && multiset(SR.CSeqs(pending))
               == multiset(SR.CSeqs(z.toServer)) + multiset(SR.CSeqs(z.server.deferred))
                     + multiset(Numbers(z.toClient))
  {
    hide Matched, CP.Ordered, DistinctMedias, AllExpectable, SentIn, HeardIn, Tickets, SR.CSeqs, Numbers,
      FitSession, Speaks, CP.NumberOf;
    var events := z.client.log[k..];
    forall t
      ensures HeardIn(events)[t] <= 1
    {
      assert HeardIn(events)[t] <= SentIn(events)[t];
      assert SentIn(events)[t] <= 1;
    }
  }

  /** When everything has been delivered, nothing is pending, and callbacks and requests match one to one. */
  lemma ConversationEnds<A(!new)>(
      h: S.Handlers<A>, cfg: C.Config, id: nat, c: C.ClientState, s: S.ServerState<A>, moves: seq<Move>)
    requires Opening(h, id, c, s) && AllCourteous(h, cfg, Meet(c, s), moves)
    requires Quiet(Proceed(h, cfg, Meet(c, s), moves))
    ensures var z := Proceed(h, cfg, Meet(c, s), moves);
            C.Pending(z.client, id) == []
            && |c.log| <= |z.client.log| && SentIn(z.client.log[|c.log|..]) == HeardIn(z.client.log[|c.log|..])
  {
    hide Opening, Civil, AllCourteous, Proceed, SentIn, HeardIn;
    ConversationIsSafe(h, cfg, id, c, s, moves);
    var z := Proceed(h, cfg, Meet(c, s), moves);
    var pending := C.Pending(z.client, id);
    assert |multiset(SR.CSeqs(pending))| == |pending|;
    assert Tickets([]) == [];
  }

  // Every conversation can end

  /** The application is civil whatever it is asked, in every state. */
  ghost predicate AlwaysCivil<A(!new)>(h: S.Handlers<A>) {
    forall s: S.ServerState<A>, req: Request {:trigger Civil(h, s, req)} :: Civil(h, s, req)
  }

  /** A reply that suits every deferred request. */
  predicate Suits(reply: Response) {
    reply.status != UNAUTHORIZED && Session !in reply.headers && Shows(reply.headers)
  }

  // How many deliveries what is under way or deferred still needs
  function Due<A>(y: Parties<A>): nat { 3 * |y.toServer| + 2 * |y.server.deferred| + |y.toClient| }

  lemma TakingProgresses<A(!new)>(h: S.Handlers<A>, cfg: C.Config, id: nat, k: nat, y: Parties<A>)
    requires Talk(id, k, y) && Trusted(h, y) && y.toServer != [] && Civil(h, y.server, y.toServer[0])
    ensures Due(Advance(h, cfg, y, ServerTakes)) < Due(y)
  {
    hide S.HandleRequest, Civil, Talk, ServerMoved, Trusted, FitSession, ReplyTo;
    var replies := ServedMove(h, id, k, y);
  }

  lemma ReplyingProgresses<A>(h: S.Handlers<A>, cfg: C.Config, id: nat, k: nat, y: Parties<A>, reply: Response)
    requires Talk(id, k, y) && y.server.deferred != [] && Courteous(h, y, ServerReplies(reply))
    ensures Due(Advance(h, cfg, y, ServerReplies(reply))) < Due(y)
  {
    hide InBalance, Matched, InSession, Kept, CP.Ordered, AllExpectable, DistinctMedias, OnPipe, S.SendResponse,
      ServerMoved, ReplyTo;
    var s := y.server;
    FrontDeferred(id, y.client.sdp.medias, C.Pending(y.client, id), y.toServer, s.deferred, y.toClient);
    var res := ServedLater(s, id, reply);
    LaterMove(y, S.SendResponse(s, reply), res);
  }

  lemma HearingProgresses<A>(h: S.Handlers<A>, cfg: C.Config, id: nat, k: nat, y: Parties<A>)
    requires Talk(id, k, y) && y.toClient != []
    ensures Due(Advance(h, cfg, y, ClientTakes)) < Due(y)
  {
    hide Talk, Advance, Takeable, TakesReply;
    var i, t, e := ReplyTaken(h, cfg, id, k, y);
  }

  lemma TakesKeeps<A(!new)>(h: S.Handlers<A>, cfg: C.Config, id: nat, k: nat, y: Parties<A>)
    requires Talk(id, k, y) && Trusted(h, y) && Courteous(h, y, ServerTakes)
    ensures var z := Advance(h, cfg, y, ServerTakes);
            Talk(id, k, z) && Trusted(h, z)
  {
    hide Talk, Trusted, Courteous, Advance;
    ServerTakesKeeps(h, cfg, id, k, y);
    ServerKeepsTrust(h, cfg, id, k, y);
  }

  /**
   * From every state of a conversation deliveries and replies to what is deferred, no more than the
   * measure, lead to a quiet one.
   */
  lemma {:induction false} CanEnd<A(!new)>(h: S.Handlers<A>, cfg: C.Config, id: nat, k: nat, y: Parties<A>,
                                           reply: Response)
    returns (moves: seq<Move>)
    requires AlwaysCivil(h) && Talk(id, k, y) && Trusted(h, y) && Suits(reply)
    ensures |moves| <= Due(y) && (forall m :: m in moves ==> !m.ClientCalls?)
    ensures AllCourteous(h, cfg, y, moves) && Quiet(Proceed(h, cfg, y, moves))
    decreases Due(y)
  {
    hide Talk, Trusted, Advance, Civil, Shows;
    if Quiet(y) {
      moves := [];
    } else {
      var m: Move;
      if y.toServer != [] {
        m := ServerTakes;
        assert Civil(h, y.server, y.toServer[0]);
        TakesKeeps(h, cfg, id, k, y);
        TakingProgresses(h, cfg, id, k, y);
      } else if y.toClient != [] {
        m := ClientTakes;
        ClientTakesKeeps(h, cfg, id, k, y);
        ReplyKeepsTrust(h, cfg, id, k, y);
        HearingProgresses(h, cfg, id, k, y);
      } else {
        m := ServerReplies(reply);
        ServerRepliesKeeps(h, cfg, id, k, y, reply);
        LaterKeepsTrust(h, cfg, y, reply);
        ReplyingProgresses(h, cfg, id, k, y, reply);
      }
      assert Courteous(h, y, m);
      hide Due, Courteous, AlwaysCivil;
      var rest := CanEnd(h, cfg, id, k, Advance(h, cfg, y, m), reply);
      moves := [m] + rest;
      assert moves[1..] == rest;
    }
  }

  lemma {:induction false} Continued<A>(h: S.Handlers<A>, cfg: C.Config, y: Parties<A>, a: seq<Move>, b: seq<Move>)
    ensures Proceed(h, cfg, y, a + b) == Proceed(h, cfg, Proceed(h, cfg, y, a), b)
    ensures AllCourteous(h, cfg, y, a) && AllCourteous(h, cfg, Proceed(h, cfg, y, a), b)
            ==> AllCourteous(h, cfg, y, a + b)
    decreases |a|
  {
    hide Advance, Courteous;
    if a == [] {
      assert a + b == b;
    } else {
      assert (a + b)[1..] == a[1..] + b;
      Continued(h, cfg, Advance(h, cfg, y, a[0]), a[1..], b);
    }
  }

  /**
   * No conversation is stuck: however it has gone so far, deliveries and replies alone bring it to
   * an end where nothing is pending and every request has had its callback.
   */
  lemma EveryConversationCanEnd<A(!new)>(h: S.Handlers<A>, cfg: C.Config, id: nat, c: C.ClientState,
                                         s: S.ServerState<A>, moves: seq<Move>, reply: Response)
    returns (more: seq<Move>)
    requires AlwaysCivil(h) && Opening(h, id, c, s) && AllCourteous(h, cfg, Meet(c, s), moves) && Suits(reply)
    ensures forall m :: m in more ==> !m.ClientCalls?
    ensures AllCourteous(h, cfg, Meet(c, s), moves + more)
    ensures var z := Proceed(h, cfg, Meet(c, s), moves + more);
            Quiet(z) && C.Pending(z.client, id) == [] && |c.log| <= |z.client.log|
            && SentIn(z.client.log[|c.log|..]) == HeardIn(z.client.log[|c.log|..])
  {
    hide Opening, Talk, SentOnce, Trusted, AlwaysCivil, AllCourteous, Proceed, SentIn, HeardIn, Suits;
    var y := Meet(c, s);
    Opens(h, id, c, s);
    MovesKeep(h, cfg, id, |c.log|, y, moves);
    more := CanEnd(h, cfg, id, |c.log|, Proceed(h, cfg, y, moves), reply);
    Continued(h, cfg, y, moves, more);
    ConversationEnds(h, cfg, id, c, s, moves + more);
  }

  // The premises hold of something

  /** A server that overrides no handler: requests are answered as they come, SETUP as it asks. */
  function Defaults(session: string, memory: T.Uninitialised): S.Handlers<()> {
    S.Handlers(
      app => false,
      app => ((), BLANK),
      app => ((), session),
      (app: (), req: Request, res: Response) => S.HandlerReply((), 0, res),
      (app: (), req: Request, t: T.TransportV1, res: Response) => S.SetupReply((), 0, t, res),
      (app, channel, payload) => (),
      (app, verb, res) => (),
      memory)
  }

  lemma DefaultsAreCivil(session: string, memory: T.Uninitialised, s: S.ServerState<()>, req: Request)
    requires FitSession(session)
    ensures Civil(Defaults(session, memory), s, req)
  {
    hide T.Decode, T.ToString, T.Legible, FitSession;
    if Transport in req.headers {
      T.DecodedIsLegible(req.headers[Transport], memory);
    }
  }

  lemma SomeReplySuits(memory: T.Uninitialised)
    ensures Suits(Response(STATUS_OK, map[Transport := T.ToString(T.Fresh(memory))], ""))
  {
    hide T.ToString, T.Legible;
    T.DecodedIsLegible("", memory);
  }

  /** Such a server and any client that has just chosen its pipeline and heard of the media meet the premises. */
  lemma PremisesMet(session: string, memory: T.Uninitialised, id: nat, sdp: C.Sdp, username: string, password: string,
                    uri: string)
    requires FitSession(session) && 0 < id < 0x8000_0000 && DistinctMedias(sdp.medias)
    ensures var h := Defaults(session, memory);
            var c := C.Initial(username, password, uri).(sdp := sdp, pipeId := id);
            AlwaysCivil(h) && Opening(h, id, c, S.Initial(()))
            && Suits(Response(STATUS_OK, map[Transport := T.ToString(T.Fresh(memory))], ""))
  {
    hide FitSession, DistinctMedias, Civil, T.ToString, T.Legible;
    var h := Defaults(session, memory);
    SomeReplySuits(memory);
    forall s: S.ServerState<()>, req: Request
      ensures Civil(h, s, req)
    {
      DefaultsAreCivil(session, memory, s, req);
    }
  }
}
