/** What the client does: its requests, the replies it takes, pipelining and sequential set-up. */
module ClientSpec {
  import opened Bytes
  import opened Options
  import opened Text
  import opened Decimal
  import opened Messages
  import opened Stream
  import opened ClientStream
  import opened Framing
  import opened Authentication
  import T = Transport

  // The session description, with the control URLs already resolved
  datatype Media = Media(name: string, url: string)
  datatype Sdp = Sdp(aggregateUrl: string, medias: seq<Media>)

  datatype SessionId = SessionId(id: string, timeout: int)

  type Track = (string, T.TransportV1)

  // Messages passed to the output callback, and the other callbacks, in order
  datatype ClientEvent =
    | Sent(request: Request)
    | Retransmitted(request: Request)
    | Replied(response: Response)
    | Called(verb: Method, response: Response)
    | Described(response: Response, sdp: Sdp)
    | SetUp(response: Response, session: SessionId, media: string, transport: T.TransportV1)
    | RtpReceived(media: string, isRtcp: nat, payload: seq<byte>)
    | AuthFailed(username: string, password: string)
    | Asked(request: Request)

  // The SDP reader (of the text, the base URL, the client's URL and whether control is aggregate), the
  // request callback when there is one, and what uninitialised memory holds
  datatype Config = Config(
    readSdp: (string, string, string, bool) -> Sdp,
    onRequest: Option<(Request, Response) -> Response>,
    uninitialised: T.Uninitialised)

  datatype ClientState = ClientState(
    needAuth: bool, auth: Authenticate, sdp: Sdp, cseq: nat, session: SessionId,
    transports: seq<Track>, setupIter: int, isAggregate: bool, mediaStep: nat,
    pipeId: int, pipelines: map<int, seq<Request>>, log: seq<ClientEvent>)

  const USER_AGENT := "rtsp2-client"

  function Logged(s: ClientState, e: ClientEvent): ClientState { s.(log := s.log + [e]) }

  function Pending(s: ClientState, id: int): seq<Request> {
    if id in s.pipelines then s.pipelines[id] else []
  }

  // Requests

  /** The headers of the next ordinary request. */
  function NextHeaders(s: ClientState): Headers {
    var h0: Headers := map[UserAgent := USER_AGENT];
    var h1 := if s.needAuth then h0[Authorization := Credentials(s.auth)] else h0;
    var h2 := h1[CSeq := ToDecimal(s.cseq)];
    var h3 := if s.session.id != "" then h2[Session := s.session.id] else h2;
    if s.pipeId > 0 then h3[PipelinedRequests := ToDecimal(s.pipeId)] else h3
  }

  /** `MakeV1RequstByName`: the request, and the state that has recorded it. */
  function MakeRequest(s: ClientState, verb: Method): (ClientState, Request) {
    var req := Request(verb, s.auth.uri, NextHeaders(s), "");
    var s1 := s.(cseq := s.cseq + 1);
    (if s.pipeId > 0 then s1.(pipelines := s1.pipelines[s.pipeId := Pending(s1, s.pipeId) + [req]]) else s1, req)
  }

  /** `map::insert`: fields the request already has are kept. */
  function SendWith(s: ClientState, verb: Method, extra: Headers, body: string): ClientState {
    var (s1, req) := MakeRequest(s, verb);
    Logged(s1, Sent(req.(headers := extra + req.headers, body := body)))
  }

  function Aimed(s: ClientState, verb: Method, uri: string): ClientState {
    s.(auth := s.auth.(verb := verb, uri := uri))
  }

  /** The URL of the last media description with that name. */
  function TrackUrl(medias: seq<Media>, name: string, otherwise: string): string {
    if medias == [] then otherwise
    else if medias[|medias| - 1].name == name then medias[|medias| - 1].url
    else TrackUrl(medias[..|medias| - 1], name, otherwise)
  }

  function SendSetup(s: ClientState, track: Track): ClientState {
    var s1 := Aimed(s, SETUP, TrackUrl(s.sdp.medias, track.0, s.auth.uri));
    var s2 := if s1.transports == [] then s1.(transports := [track], setupIter := 0) else s1;
    var (s3, req) := MakeRequest(s2, SETUP);
    Logged(s3, Sent(req.(headers := req.headers[Transport := T.ToString(track.1)])))
  }

  /** SETUPs from track `i` on, as one burst. */
  function SetupBurst(s: ClientState, i: nat): ClientState
    requires i <= |s.transports|
    decreases |s.transports| - i
  {
    if i == |s.transports| then s.(setupIter := i)
    else SetupBurst(SendSetup(s.(setupIter := i), s.transports[i]), i + 1)
  }

  function SetupAll(s: ClientState, tracks: seq<Track>): Outcome<ClientState> {
    if tracks == [] then Outcome(s, NeedTransport)
    else
      var s1 := s.(transports := tracks, setupIter := 0);
      if s.pipeId > 0 then Outcome(SetupBurst(s1, 0), Ok) else Outcome(SendSetup(s1, tracks[0]), Ok)
  }

  function FirstUrl(medias: seq<Media>, name: string): Option<string> {
    if medias == [] then None
    else if medias[0].name == name then Some(medias[0].url)
    else FirstUrl(medias[1..], name)
  }

  function SendForMedia(s: ClientState, verb: Method, name: string, extra: Headers): Outcome<ClientState> {
    match FirstUrl(s.sdp.medias, name)
    case None => Outcome(s.(auth := s.auth.(verb := verb)), MediaNotExist)
    case Some(url) => Outcome(SendWith(Aimed(s, verb, url), verb, extra, ""), Ok)
  }

  /** The next media description of a request made one by one; past the last one there is no meaning. */
  function SendForNext(s: ClientState, verb: Method, extra: Headers): Outcome<ClientState> {
    if s.mediaStep >= |s.sdp.medias| then Outcome(s, Undefined)
    else SendForMedia(s.(mediaStep := s.mediaStep + 1), verb, s.sdp.medias[s.mediaStep].name, extra)
  }

  function SendForRest(s: ClientState, verb: Method, extra: Headers): (o: Outcome<ClientState>)
    decreases |s.sdp.medias| - s.mediaStep
  {
    var o := SendForNext(s, verb, extra);
    if o.error == Ok && s.pipeId > 0 && o.state.mediaStep < |o.state.sdp.medias|
    then SendForRest(o.state, verb, extra) else o
  }

  /** PLAY, RECORD, PAUSE and TEARDOWN of the whole presentation. */
  function Control(s: ClientState, verb: Method, extra: Headers): Outcome<ClientState> {
    var s1 := s.(auth := s.auth.(verb := verb));
    if s.isAggregate then Outcome(SendWith(Aimed(s1, verb, s.sdp.aggregateUrl), verb, extra, ""), Ok)
    else if verb == TEARDOWN then SendForNext(s1, verb, extra)
    else SendForRest(s1, verb, extra)
  }

  datatype ApiCall =
    | Simple(verb: Method, body: string)  // options, describe, setParmeters, getParmeters
    | SetupTracks(tracks: seq<Track>)
    | SetupTrack(track: Track)
    | ControlAll(verb: Method, extra: Headers)
    | ControlMedia(verb: Method, media: string, extra: Headers)
    | StartPipeline(id: int)
    | StopPipeline
    | SetUserInfo(username: string, password: string)

  function Call(s: ClientState, call: ApiCall): Outcome<ClientState> {
    match call
    case Simple(verb, body) => Outcome(SendWith(s.(auth := s.auth.(verb := verb)), verb, map[], body), Ok)
    case SetupTracks(tracks) => SetupAll(s, tracks)
    case SetupTrack(track) => Outcome(SendSetup(s, track), Ok)
    case ControlAll(verb, extra) => Control(s, verb, extra)
    case ControlMedia(verb, media, extra) => SendForMedia(s, verb, media, extra)
    case StartPipeline(id) => Outcome(s.(pipeId := id), Ok)
    case StopPipeline => Outcome(s.(pipeId := 0), Ok)
    case SetUserInfo(username, password) =>
      Outcome(s.(auth := s.auth.(username := username, password := password)), Ok)
  }

  // Replies

  function Find(s: string, pattern: string): (r: Option<nat>)
    ensures r.Some? ==> r.value + |pattern| <= |s|
  {
    if StartsWith(s, pattern) then Some(0)
    else if s == "" then None
    else match Find(s[1..], pattern)
         case None => None
         case Some(n) => Some(n + 1)
  }

  /** `RtspSessionId::parse`: the whole trimmed text is the identifier, a timeout in it included. */
  function ParseSession(text: string): (SessionId, bool) {
    match Find(text, "timeout=")
    case None => (SessionId(Trim(text), 60), false)
    case Some(n) =>
      match Stoi(text[n + 8..])
      case None => (SessionId(Trim(text), 60), true)
      case Some(t) => (SessionId(Trim(text), t), false)
  }

  /** Takes the session of the first reply that carries one. */
  function Adopt(s: ClientState, res: Response): Outcome<ClientState> {
    if s.session.id == "" && Session in res.headers then
      var (id, thrown) := ParseSession(res.headers[Session]);
      Outcome(s.(session := if thrown then s.session.(id := id.id) else id), if thrown then Thrown else Ok)
    else Outcome(s, Ok)
  }

  /** `handleUnAuth`: the challenge is answered once, with a CSeq that is a single character. */
  function HandleUnAuth(s: ClientState, res: Response): Outcome<ClientState> {
    if WWWAuthenticate !in res.headers then Outcome(s, Thrown)
    else
      var parsed := Parser(s.auth, res.headers[WWWAuthenticate]);
      var s1 := s.(auth := parsed.auth);
      if parsed.thrown then Outcome(s1, Thrown)
      else
        var req := Request(s1.auth.verb, s1.auth.uri,
                           map[UserAgent := USER_AGENT, Authorization := Credentials(s1.auth),
                               CSeq := [(s1.cseq % 256) as char]], "");
        Outcome(Logged(s1.(needAuth := true, cseq := s1.cseq + 1), Retransmitted(req)), Ok)
  }

  function HandleDescribe(cfg: Config, s: ClientState, res: Response): ClientState {
    var base := if Other("Content-Base") in res.headers then res.headers[Other("Content-Base")]
                else if Other("Content-Location") in res.headers then res.headers[Other("Content-Location")]
                else s.auth.uri;
    var sdp := cfg.readSdp(res.body, base, s.auth.uri, s.isAggregate);
    Logged(s.(sdp := sdp, isAggregate := s.isAggregate || sdp.aggregateUrl != ""), Described(res, sdp))
  }

  function HandleSetup(cfg: Config, s: ClientState, res: Response): Outcome<ClientState> {
    if !(0 <= s.setupIter < |s.transports|) then Outcome(s, Undefined)
    else
      var (media, requested) := s.transports[s.setupIter];
      if res.status != STATUS_OK then Outcome(Logged(s, SetUp(res, s.session, media, requested)), Ok)
      else if Transport !in res.headers then Outcome(s, Thrown)
      else
        var granted := T.Decode(res.headers[Transport], cfg.uninitialised);
        if granted.None? then Outcome(s, Undefined)
        else
          var a := Adopt(s, res);
          if a.error != Ok then a
          else
            var s1 := a.state.(transports := a.state.transports[s.setupIter := (media, granted.value)]);
            var s2 := Logged(s1, SetUp(res, s1.session, media, granted.value)).(setupIter := s.setupIter + 1);
            Outcome(if s2.setupIter != |s2.transports| then SendSetup(s2, s2.transports[s2.setupIter]) else s2, Ok)
  }

  /** Replies to PLAY, RECORD, PAUSE and TEARDOWN: the callback, or the next media description. */
  function HandleControl(s: ClientState, verb: Method, res: Response): Outcome<ClientState> {
    if s.isAggregate || s.mediaStep >= |s.sdp.medias|
       || (verb in {PLAY, RECORD} && res.status != STATUS_OK)
    then Outcome(Logged(s, Called(verb, res)), Ok)
    else SendForNext(s, verb, map[])
  }

  function FirstWith(reqs: seq<Request>, cseq: string): (k: nat)
    ensures k <= |reqs|
    ensures k < |reqs| ==> Get(reqs[k].headers, CSeq) == cseq
  {
    if reqs == [] || Get(reqs[0].headers, CSeq) == cseq then 0 else 1 + FirstWith(reqs[1..], cseq)
  }

  function Without(reqs: seq<Request>, k: nat): seq<Request>
    requires k < |reqs|
  {
    reqs[..k] + reqs[k + 1..]
  }

  /** One set-up callback for every media description with the URL of the request. */
  function SetUpCalls(s: ClientState, medias: seq<Media>, url: string, res: Response, t: T.TransportV1): ClientState
    decreases |medias|
  {
    if medias == [] then s
    else
      var s1 := if medias[0].url == url then Logged(s, SetUp(res, s.session, medias[0].name, t)) else s;
      SetUpCalls(s1, medias[1..], url, res, t)
  }

  function PipelinedSetup(cfg: Config, s: ClientState, req: Request, res: Response): Outcome<ClientState> {
    if Transport !in res.headers then Outcome(s, Thrown)
    else
      var t := T.Decode(res.headers[Transport], cfg.uninitialised);
      if t.None? then Outcome(s, Undefined)
      else
        var a := Adopt(s, res);
        if a.error != Ok then a
        else Outcome(SetUpCalls(a.state, a.state.sdp.medias, req.url, res, t.value), Ok)
  }

  predicate HasCallback(verb: Method) {
    verb in {OPTIONS, PLAY, TEARDOWN, PAUSE, SET_PARAMETER, GET_PARAMETER, RECORD, ANNOUNCE, REDIRECT}
  }

  function HandlePipelined(cfg: Config, s: ClientState, res: Response): Outcome<ClientState>
    requires PipelinedRequests in res.headers
  {
    match Stoi(res.headers[PipelinedRequests])
    case None => Outcome(s, Thrown)
    case Some(id) =>
      var pending := Pending(s, id);
      var s1 := s.(pipelines := s.pipelines[id := pending]);
      if pending != [] && CSeq !in res.headers then Outcome(s1, Thrown)
      else
        var k := FirstWith(pending, Get(res.headers, CSeq));
        if k == |pending| then Outcome(s1, PipelineNotFound)
        else
          var req := pending[k];
          if req.verb == DESCRIBE then Outcome(HandleDescribe(cfg, s1, res), Ok)
          else
            var o := if req.verb == SETUP then PipelinedSetup(cfg, s1, req, res)
                     else if HasCallback(req.verb) then Outcome(Logged(s1, Called(req.verb, res)), Ok)
                     else Outcome(s1, Ok);
            if o.error != Ok then o
            else Outcome(o.state.(pipelines := o.state.pipelines[id := Without(pending, k)]), Ok)
  }

  function HandleResponse(cfg: Config, s: ClientState, res: Response): Outcome<ClientState> {
    if res.status == UNAUTHORIZED then
      if s.needAuth then Outcome(Logged(s, AuthFailed(s.auth.username, s.auth.password)), Ok)
      else HandleUnAuth(s, res)
    else if s.session.id != "" && Session !in res.headers then Outcome(s, SessionIdError)
    else if PipelinedRequests in res.headers then HandlePipelined(cfg, s, res)
    else if s.auth.verb == DESCRIBE then Outcome(HandleDescribe(cfg, s, res), Ok)
    else if s.auth.verb == SETUP then HandleSetup(cfg, s, res)
    else if s.auth.verb == RECORD then Outcome(HandleControl(s, RECORD, res).state, Ok)
    else if s.auth.verb in {PLAY, TEARDOWN, PAUSE} then HandleControl(s, s.auth.verb, res)
    else if HasCallback(s.auth.verb) then Outcome(Logged(s, Called(s.auth.verb, res)), Ok)
    else Outcome(s, Ok)
  }

  /** A request of the server's: the callback's reply, or 501. */
  function HandleAsked(cfg: Config, s: ClientState, req: Request): ClientState {
    var res := Response(STATUS_OK, map[CSeq := Get(req.headers, CSeq), Server := SERVER_NAME], "");
    match cfg.onRequest
    case None => Logged(s, Replied(res.(status := NOT_IMPLEMENTED)))
    case Some(callback) => Logged(Logged(s, Asked(req)), Replied(callback(req, res)))
  }

  predicate Carries(t: T.TransportV1, channel: byte) {
    t.interleaved.0 == channel || t.interleaved.1 == channel
  }

  function HandlePacket(s: ClientState, tracks: seq<Track>, channel: byte, payload: seq<byte>): ClientState
    decreases |tracks|
  {
    if tracks == [] then s
    else if Carries(tracks[0].1, channel) then
      Logged(s, RtpReceived(tracks[0].0, if tracks[0].1.interleaved.0 == channel then 0 else 1, payload))
    else HandlePacket(s, tracks[1..], channel, payload)
  }

  function Step(cfg: Config, s: ClientState, item: Item<Rtsp>): Outcome<ClientState> {
    match item
    case Packet(channel, payload) => Outcome(HandlePacket(s, s.transports, channel, payload), Ok)
    case Message(Res(r)) => HandleResponse(cfg, s, r)
    case Message(Req(r)) => Outcome(HandleAsked(cfg, s, r), Ok)
  }

  function Stepper(cfg: Config): (ClientState, Item<Rtsp>) -> Outcome<ClientState> {
    (s, item) => Step(cfg, s, item)
  }

  lemma StepperSteps(cfg: Config, s: ClientState)
    ensures forall item :: Stepper(cfg)(s, item) == Step(cfg, s, item)
  {
    hide Step;
  }

  /** `input`: packets up to and including one message. */
  ghost function ClientInput(cfg: Config, f: Framer, c: Connection<ClientState>, data: seq<byte>): Fed<ClientState>
    requires LawfulFramer(f)
  {
    ReadersLawful(f);
    ClientFeed(ClientReader(f), Stepper(cfg), c, data)
  }

  lemma ClientInputIsLoop(cfg: Config, f: Framer, c: Connection<ClientState>, data: seq<byte>)
    requires LawfulFramer(f)
    ensures Lawful(ClientReader(f))
    ensures var p := TakeLoop(ClientReader(f), Stepper(cfg), c.state, c.cache + data);
            ClientInput(cfg, f, c, data)
            == Fed(Connection(p.state, if p.error != Ok then Untrimmed(c.cache, data) else p.rest), p.error)
  {
    ReadersLawful(f);
    hide Lawful, TakeLoop, ClientFeed, ClientReader, Stepper;
    ClientFeedIsLoop(ClientReader(f), Stepper(cfg), c, data);
  }

  function Initial(username: string, password: string, uri: string): ClientState {
    ClientState(false, BLANK.(username := username, password := password, uri := uri), Sdp("", []), 0,
                SessionId("", 60), [], -1, false, 0, 0, map[], [])
  }
}
