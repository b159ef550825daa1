/** Challenge and response between the two sides: one refusal, one retransmission, then no more. */
module Handshake {
  import opened Messages
  import opened Stream
  import opened Framing
  import opened Authentication
  import S = ServerSpec
  import SR = ServerRuns
  import C = ClientSpec
  import CP = ClientPipelines
  import CR = ClientRuns

  // The server's side

  /** Whether the server refuses the request and sends a challenge, or fails on it. */
  predicate Challenged<A>(h: S.Handlers<A>, s: S.ServerState<A>, op: SR.Op) {
    match op
    case Receive(Message(Req(r))) => h.needAuth(s.app) && !Verify(s.authParam, S.Touched(r)).passed
    case _ => false
  }

  function Challenges<A>(h: S.Handlers<A>, s: S.ServerState<A>, ops: seq<SR.Op>): nat
    decreases |ops|
  {
    if ops == [] then 0
    else (if Challenged(h, s, ops[0]) then 1 else 0) + Challenges(h, SR.Do(h, s, ops[0]).state, ops[1..])
  }

  lemma SignedPasses(a: Authenticate, p: Authenticate, r: Request)
    requires Agree(a, p) && CR.Signed(a, r) && ',' !in r.url
    ensures var v := Verify(p, S.Touched(r));
            v.passed && !v.thrown && Agree(a, v.param)
  {
    var client := a.(verb := r.verb, uri := r.url);
    AgreementPasses(client, p, S.Touched(r));
    hide Verify, Credentials;
  }

  lemma AdmitKeepsParam<A>(h: S.Handlers<A>, s: S.ServerState<A>, req: Request)
    ensures S.Admit(h, s, req).state.authParam == s.authParam && S.Admit(h, s, req).error != Thrown
  {
    hide S.T.Decode, S.T.ToString, S.Labelled;
  }

  predicate SignedOp(a: Authenticate, op: SR.Op) {
    match op
    case Receive(Message(Req(r))) => CR.Signed(a, r) && ',' !in r.url
    case _ => true
  }

  lemma SignedStep<A>(h: S.Handlers<A>, s: S.ServerState<A>, a: Authenticate, op: SR.Op)
    requires Agree(a, s.authParam) && SignedOp(a, op)
    ensures !Challenged(h, s, op) && SR.Do(h, s, op).error != Thrown && Agree(a, SR.Do(h, s, op).state.authParam)
  {
    hide Verify, S.Admit, Agree, Credentials;
    if op.Receive? && op.item.Message? && op.item.value.Req? {
      var r := op.item.value.request;
      SignedPasses(a, s.authParam, r);
      var v := Verify(s.authParam, S.Touched(r));
      AdmitKeepsParam(h, s, S.Touched(r));
      AdmitKeepsParam(h, s.(authParam := v.param), S.Touched(r));
    }
  }

  /** A server that agrees with the signer challenges none of the signed requests of a run. */
  lemma {:induction false} SignedRunUnchallenged<A>(h: S.Handlers<A>, s: S.ServerState<A>, a: Authenticate,
                                                    ops: seq<SR.Op>)
    requires Agree(a, s.authParam) && forall op :: op in ops ==> SignedOp(a, op)
    ensures Challenges(h, s, ops) == 0 && SR.RunOps(h, s, ops).error != Thrown
    ensures Agree(a, SR.RunOps(h, s, ops).state.authParam)
    decreases |ops|
  {
    if ops != [] {
      SignedStep(h, s, a, ops[0]);
      hide SR.Do, Challenged, Agree, SignedOp;
      SignedRunUnchallenged(h, SR.Do(h, s, ops[0]).state, a, ops[1..]);
    }
  }

  // Both sides

  /**
   * The server's parameters can be met by the client's user, nothing exchanged holds a comma, and
   * Basic credentials can be encoded.
   */
  predicate Compatible(signedChar: bool, client: Authenticate, server: Authenticate) {
    server.scheme in {BASIC, DIGEST}
    && client.username == server.username && client.password == server.password
    && ',' !in server.realm && ',' !in server.nonce && ',' !in server.opaqueText
    && ',' !in client.opaqueText && ',' !in client.uri
    && (server.scheme == BASIC ==> Encodable(signedChar, client))
  }

  /** The reply that refuses a request and challenges the client. */
  function Refusal<A>(h: S.Handlers<A>, s: S.ServerState<A>, r: Request): Response {
    var res := S.Greeting(S.Touched(r));
    res.(status := UNAUTHORIZED, headers := res.headers[WWWAuthenticate := GenAuthInfo(h.authParam(s.app).1)])
  }

  /** The refusal of an unsigned request, and nothing else. */
  lemma UnsignedRefused<A>(h: S.Handlers<A>, s: S.ServerState<A>, r: Request)
    requires h.needAuth(s.app) && Authorization !in r.headers
    ensures var (app, param) := h.authParam(s.app);
            S.HandleRequest(h, s, r)
            == Outcome(s.(app := app, authParam := param, log := s.log + [S.Answered(Refusal(h, s, r))]), Ok)
  {
    hide S.Admit, GenAuthInfo;
  }

  /** The client's one automatic answer to a challenge it can meet. */
  lemma ChallengeAnswered(signedChar: bool, cfg: C.Config, c: C.ClientState, res: Response, param: Authenticate)
    requires !c.needAuth && res.status == UNAUTHORIZED
    requires WWWAuthenticate in res.headers && res.headers[WWWAuthenticate] == GenAuthInfo(param)
    requires Compatible(signedChar, c.auth, param)
    ensures var o := C.HandleResponse(cfg, c, res);
            o.error == Ok && o.state.needAuth && Agree(o.state.auth, param)
            && |o.state.log| == |c.log| + 1 && o.state.log[|c.log|].Retransmitted?
            && var r := o.state.log[|c.log|].request;
               r.verb == c.auth.verb && r.url == c.auth.uri && CR.Signed(o.state.auth, r)
  {
    hide Parser, GenAuthInfo, Credentials, Agree;
    ChallengeBringsAgreement(c.auth, param);
    var auth := Parser(c.auth, GenAuthInfo(param)).auth;
    SignedByItself(auth, c.auth.verb, c.auth.uri);
  }

  /** After the refusal and the answer the two sides agree, so every later conversation is signed. */
  lemma HandshakeAgrees<A>(signedChar: bool, h: S.Handlers<A>, s: S.ServerState<A>, cfg: C.Config, c: C.ClientState,
                           r: Request)
    requires h.needAuth(s.app) && !c.needAuth && Authorization !in r.headers
    requires Compatible(signedChar, c.auth, h.authParam(s.app).1)
    ensures var c1 := C.HandleResponse(cfg, c, Refusal(h, s, r)).state;
            c1.needAuth && Agree(c1.auth, S.HandleRequest(h, s, r).state.authParam)
  {
    hide S.HandleRequest, C.HandleResponse, GenAuthInfo, Agree, Credentials;
    UnsignedRefused(h, s, r);
    ChallengeAnswered(signedChar, cfg, c, Refusal(h, s, r), h.authParam(s.app).1);
  }

  // Which request the client repeats

  /** The client's last event is a request to the method and URL it has last aimed at. */
  predicate LastSentIsAimed(c: C.ClientState) {
    c.log != [] && c.log[|c.log| - 1].Sent?
    && c.log[|c.log| - 1].request.verb == c.auth.verb && c.log[|c.log| - 1].request.url == c.auth.uri
  }

  lemma SendWithAims(c: C.ClientState, verb: Method, extra: Headers, body: string)
    requires c.auth.verb == verb
    ensures LastSentIsAimed(C.SendWith(c, verb, extra, body))
  {
    hide C.NextHeaders;
  }

  lemma SendSetupAims(c: C.ClientState, track: C.Track)
    ensures LastSentIsAimed(C.SendSetup(c, track))
  {
    hide C.NextHeaders, C.TrackUrl, S.T.ToString;
  }

  lemma {:induction false} BurstAims(c: C.ClientState, i: nat)
    requires i <= |c.transports| && (i == |c.transports| ==> LastSentIsAimed(c))
    ensures LastSentIsAimed(C.SetupBurst(c, i))
    decreases |c.transports| - i
  {
    hide C.SendSetup;
    if i < |c.transports| {
      var c1 := c.(setupIter := i);
      SendSetupAims(c1, c.transports[i]);
      CP.SetupKeepsTracks(c1, c.transports[i]);
      BurstAims(C.SendSetup(c1, c.transports[i]), i + 1);
    }
  }

  lemma SendForMediaAims(c: C.ClientState, verb: Method, name: string, extra: Headers)
    ensures var o := C.SendForMedia(c, verb, name, extra);
            o.error == Ok ==> LastSentIsAimed(o.state)
  {
    hide C.SendWith;
    if C.FirstUrl(c.sdp.medias, name).Some? {
      SendWithAims(C.Aimed(c, verb, C.FirstUrl(c.sdp.medias, name).value), verb, extra, "");
    }
  }

  lemma SendForNextAims(c: C.ClientState, verb: Method, extra: Headers)
    ensures var o := C.SendForNext(c, verb, extra);
            o.error == Ok ==> LastSentIsAimed(o.state)
  {
    hide LastSentIsAimed, C.SendForMedia;
    if c.mediaStep < |c.sdp.medias| {
      SendForMediaAims(c.(mediaStep := c.mediaStep + 1), verb, c.sdp.medias[c.mediaStep].name, extra);
    }
  }

  lemma {:induction false} SendForRestAims(c: C.ClientState, verb: Method, extra: Headers)
    ensures var o := C.SendForRest(c, verb, extra);
            o.error == Ok ==> LastSentIsAimed(o.state)
    decreases |c.sdp.medias| - c.mediaStep
  {
    hide LastSentIsAimed, C.SendForNext;
    SendForNextAims(c, verb, extra);
    CP.NextSteps(c, verb, extra);
    var o := C.SendForNext(c, verb, extra);
    if o.error == Ok && c.pipeId > 0 && o.state.mediaStep < |o.state.sdp.medias| {
      SendForRestAims(o.state, verb, extra);
    }
  }

  predicate Sends(call: C.ApiCall) { !call.StartPipeline? && !call.StopPipeline? && !call.SetUserInfo? }

  /** After a call that sends, the client has last aimed at the request it has last sent. */
  lemma CallAims(c: C.ClientState, call: C.ApiCall)
    requires Sends(call) && C.Call(c, call).error == Ok
    ensures LastSentIsAimed(C.Call(c, call).state)
  {
    hide C.SendWith, C.SendSetup, C.SetupBurst, C.SendForMedia, C.SendForNext, C.SendForRest;
    match call
    case Simple(verb, body) => SendWithAims(c.(auth := c.auth.(verb := verb)), verb, map[], body);
    case SetupTracks(tracks) =>
      var c1 := c.(transports := tracks, setupIter := 0);
      SendSetupAims(c1, tracks[0]);
      BurstAims(c1, 0);
    case SetupTrack(track) => SendSetupAims(c, track);
    case ControlAll(verb, extra) =>
      var c1 := c.(auth := c.auth.(verb := verb));
      SendWithAims(C.Aimed(c1, verb, c.sdp.aggregateUrl), verb, extra, "");
      SendForNextAims(c1, verb, extra);
      SendForRestAims(c1, verb, extra);
    case ControlMedia(verb, media, extra) => SendForMediaAims(c, verb, media, extra);
  }

  /** The automatic answer repeats the refused request exactly when that was the last one aimed. */
  lemma AnswerRepeatsExactly<A>(signedChar: bool, h: S.Handlers<A>, s: S.ServerState<A>, cfg: C.Config,
                                c: C.ClientState, r: Request)
    requires !c.needAuth && Compatible(signedChar, c.auth, h.authParam(s.app).1)
    ensures var c1 := C.HandleResponse(cfg, c, Refusal(h, s, r)).state;
            |c1.log| == |c.log| + 1 && c1.log[|c.log|].Retransmitted?
            && var again := c1.log[|c.log|].request;
               again.verb == r.verb && again.url == r.url <==> r.verb == c.auth.verb && r.url == c.auth.uri
  {
    hide C.HandleResponse, GenAuthInfo;
    ChallengeAnswered(signedChar, cfg, c, Refusal(h, s, r), h.authParam(s.app).1);
  }

  /**
   * With two unsigned requests under way, the first refusal makes the client repeat the second
   * request, and the second refusal calls the authentication callback.
   */
  lemma TwoUnderWay<A>(signedChar: bool, h: S.Handlers<A>, s: S.ServerState<A>, cfg: C.Config, username: string,
                       password: string, uri: string)
    requires Compatible(signedChar, C.Initial(username, password, uri).auth, h.authParam(s.app).1)
    ensures var c0 := C.Initial(username, password, uri);
            var c1 := C.Call(c0, C.Simple(OPTIONS, "")).state;
            var c2 := C.Call(c1, C.Simple(DESCRIBE, "")).state;
            |c2.log| == 2 && c2.log[0].Sent? && c2.log[0].request.verb == OPTIONS && c2.log[1].Sent?
            && var refusal := Refusal(h, s, c2.log[0].request);
               var c3 := C.HandleResponse(cfg, c2, refusal).state;
               |c3.log| == 3 && c3.log[2].Retransmitted? && c3.log[2].request.verb == DESCRIBE
               && C.HandleResponse(cfg, c3, Refusal(h, s, c2.log[1].request)).state.log
                  == c3.log + [C.AuthFailed(c3.auth.username, c3.auth.password)]
  {
    hide GenAuthInfo, Parser, Credentials, Agree, C.NextHeaders;
    var c0 := C.Initial(username, password, uri);
    var c1 := C.Call(c0, C.Simple(OPTIONS, "")).state;
    var c2 := C.Call(c1, C.Simple(DESCRIBE, "")).state;
    assert |c1.log| == 1;
    assert c2.auth == c0.auth.(verb := DESCRIBE);
    var refusal := Refusal(h, s, c2.log[0].request);
    ChallengeAnswered(signedChar, cfg, c2, refusal, h.authParam(s.app).1);
  }

  lemma SignedByItself(a: Authenticate, verb: Method, uri: string)
    requires a.verb == verb && a.uri == uri
    ensures a == a.(verb := verb, uri := uri)
  {
  }

  /**
   * The handshake: an unsigned request is refused once, the client's retransmission passes, and
   * in every later run the server challenges none of the client's requests.
   */
  lemma HandshakeComplete<A>(
      signedChar: bool, h: S.Handlers<A>, s: S.ServerState<A>, cfg: C.Config, c: C.ClientState, r: Request,
      clientOps: seq<CP.Op>, serverOps: seq<SR.Op>)
    requires h.needAuth(s.app) && !c.needAuth
    requires Authorization !in r.headers
    requires Compatible(signedChar, c.auth, h.authParam(s.app).1)
    requires forall op :: op in clientOps ==> CR.PlainOp(op) && !CR.ChangesUser(op)
    requires var c1 := C.HandleResponse(cfg, c, Refusal(h, s, r)).state;
             var c2 := CP.RunOps(cfg, c1, clientOps);
             forall op :: op in serverOps && op.Receive? && op.item.Message? && op.item.value.Req? ==>
               ',' !in op.item.value.request.url
               && exists i :: |c1.log| <= i < |c2.log| && c2.log[i] == C.Sent(op.item.value.request)
    ensures var s1 := S.HandleRequest(h, s, r).state;
            var c1 := C.HandleResponse(cfg, c, Refusal(h, s, r)).state;
            s1.log == s.log + [S.Answered(Refusal(h, s, r))]
            && |c1.log| == |c.log| + 1 && c1.log[|c.log|].Retransmitted?
            && var again := SR.Receive(Message(Req(c1.log[|c.log|].request)));
               !Challenged(h, s1, again)
               && Challenges(h, s1, [again] + serverOps) == 0
               && SR.RunOps(h, s1, [again] + serverOps).error != Thrown
               && CR.Retransmissions(CP.RunOps(cfg, c1, clientOps).log) == CR.Retransmissions(c1.log)
  {
    hide S.HandleRequest, C.HandleResponse, CP.RunOps, Challenges, SR.RunOps, GenAuthInfo, Agree, Credentials,
      CR.Retransmissions;
    var param := h.authParam(s.app).1;
    UnsignedRefused(h, s, r);
    var s1 := S.HandleRequest(h, s, r).state;
    var res := Refusal(h, s, r);
    ChallengeAnswered(signedChar, cfg, c, res, param);
    var c1 := C.HandleResponse(cfg, c, res).state;
    var again := SR.Receive(Message(Req(c1.log[|c.log|].request)));
    CR.RunSigns(cfg, c1, clientOps);
    var ops := [again] + serverOps;
    forall op | op in ops
      ensures SignedOp(c1.auth, op)
    {
    }
    SignedRunUnchallenged(h, s1, c1.auth, ops);
    SignedStep(h, s1, c1.auth, again);
    RetransmitsNoMore(cfg, c1, clientOps);
  }

  lemma {:induction false} RetransmitsNoMore(cfg: C.Config, c: C.ClientState, ops: seq<CP.Op>)
    requires c.needAuth && forall op :: op in ops ==> CR.PlainOp(op)
    ensures CR.Retransmissions(CP.RunOps(cfg, c, ops).log) == CR.Retransmissions(c.log)
    decreases |ops|
  {
    if ops != [] {
      CR.OpRetransmits(cfg, c, ops[0]);
      hide CP.After, CR.Retransmissions, CR.Settled;
      RetransmitsNoMore(cfg, CP.After(cfg, c, ops[0]).state, ops[1..]);
    }
  }
}
