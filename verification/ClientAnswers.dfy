/**
 * What the client sends for each call and makes of each reply: the whole request, header by header, and
 * the callback, error or further request a reply leads to.
 */
module ClientAnswers {
  import opened Options
  import opened Text
  import opened Decimal
  import opened Messages
  import opened Stream
  import opened Authentication
  import opened ClientSpec
  import T = Transport

  // Requests

  /** The headers of the stack's own that the next request carries. */
  function OwnHeaders(s: ClientState): Headers {
    map[UserAgent := "rtsp2-client", CSeq := ToDecimal(s.cseq)]
    + (if s.needAuth then map[Authorization := Credentials(s.auth)] else map[])
    + (if s.session.id != "" then map[Session := s.session.id] else map[])
    + if s.pipeId > 0 then map[PipelinedRequests := ToDecimal(s.pipeId)] else map[]
  }

  /**
   * The client after one request: it has aimed at the method and URL, counted on, recorded the request as
   * it was made if it pipelines, and sent it with what the call adds.
   */
  function Asking(s: ClientState, verb: Method, uri: string, sent: Headers -> Headers, body: string): ClientState {
    var s1 := s.(auth := s.auth.(verb := verb, uri := uri));
    var made := Request(verb, uri, OwnHeaders(s1), "");
    s1.(cseq := s.cseq + 1,
        pipelines := if s.pipeId > 0 then s.pipelines + map[s.pipeId := Pending(s, s.pipeId) + [made]]
                     else s.pipelines,
        log := s.log + [Sent(Request(verb, uri, sent(OwnHeaders(s1)), body))])
  }

  /** Headers a call adds give way to the stack's own. */
  function Adding(extra: Headers): Headers -> Headers { own => extra + own }

  function AskingFor(t: T.TransportV1): Headers -> Headers { own => own + map[Transport := T.ToString(t)] }

  lemma OwnHeadersAre(s: ClientState)
    ensures NextHeaders(s) == OwnHeaders(s)
  {
    hide Credentials, ToDecimal;
  }

  lemma RequestMade(s: ClientState, verb: Method)
    ensures var made := Request(verb, s.auth.uri, OwnHeaders(s), "");
            MakeRequest(s, verb)
            == (s.(cseq := s.cseq + 1,
                   pipelines := if s.pipeId > 0 then s.pipelines + map[s.pipeId := Pending(s, s.pipeId) + [made]]
                                else s.pipelines), made)
  {
    OwnHeadersAre(s);
    hide NextHeaders, OwnHeaders;
    assert s.pipeId > 0 ==>
        s.pipelines[s.pipeId := Pending(s, s.pipeId) + [Request(verb, s.auth.uri, OwnHeaders(s), "")]]
        == s.pipelines + map[s.pipeId := Pending(s, s.pipeId) + [Request(verb, s.auth.uri, OwnHeaders(s), "")]];
  }

  /** Where the client aimed before makes no difference to what it asks. */
  lemma SameAsking(s: ClientState, s1: ClientState, verb: Method, uri: string, sent: Headers -> Headers, body: string)
    requires s1 == s.(auth := s.auth.(verb := s1.auth.verb, uri := s1.auth.uri))
    ensures Asking(s1, verb, uri, sent, body) == Asking(s, verb, uri, sent, body)
  {
    hide OwnHeaders;
    assert s1.(auth := s1.auth.(verb := verb, uri := uri)) == s.(auth := s.auth.(verb := verb, uri := uri));
  }

  lemma SendWithAsks(s: ClientState, verb: Method, extra: Headers, body: string)
    requires s.auth.verb == verb
    ensures SendWith(s, verb, extra, body) == Asking(s, verb, s.auth.uri, Adding(extra), body)
  {
    RequestMade(s, verb);
    hide MakeRequest, OwnHeaders;
    assert s.(auth := s.auth.(verb := verb, uri := s.auth.uri)) == s;
  }

  /** OPTIONS, DESCRIBE and the parameter requests, to the URL the client is at. */
  lemma SimpleAsks(s: ClientState, verb: Method, body: string)
    ensures Call(s, Simple(verb, body)) == Outcome(Asking(s, verb, s.auth.uri, Adding(map[]), body), Ok)
  {
    hide SendWith, Asking;
    var s1 := s.(auth := s.auth.(verb := verb));
    SendWithAsks(s1, verb, map[], body);
    SameAsking(s, s1, verb, s.auth.uri, Adding(map[]), body);
  }

  /** The first request of a client, with number 0 and nothing but its agent. */
  lemma FirstRequest(username: string, password: string, uri: string, verb: Method, body: string)
    ensures var s := Initial(username, password, uri);
            Call(s, Simple(verb, body)).state.log
            == [Sent(Request(verb, uri, map[UserAgent := "rtsp2-client", CSeq := "0"], body))]
  {
    var s := Initial(username, password, uri);
    SimpleAsks(s, verb, body);
    assert ToDecimal(0) == "0";
    var s1 := s.(auth := s.auth.(verb := verb));
    assert OwnHeaders(s1) == map[UserAgent := "rtsp2-client", CSeq := "0"];
    assert map[] + OwnHeaders(s1) == OwnHeaders(s1);
    hide OwnHeaders, Credentials;
  }

  // The media description a name stands for: SETUP takes the last one, the other requests the first

  predicate LastNamed(medias: seq<Media>, name: string, k: nat) {
    k < |medias| && medias[k].name == name && forall j :: k < j < |medias| ==> medias[j].name != name
  }

  predicate FirstNamed(medias: seq<Media>, name: string, k: nat) {
    k < |medias| && medias[k].name == name && forall j :: 0 <= j < k ==> medias[j].name != name
  }

  predicate NotNamed(medias: seq<Media>, name: string) { forall j :: 0 <= j < |medias| ==> medias[j].name != name }

  lemma {:induction false} LastUrl(medias: seq<Media>, name: string, otherwise: string)
    ensures forall k: nat {:trigger medias[k]} :: LastNamed(medias, name, k) ==>
              TrackUrl(medias, name, otherwise) == medias[k].url
    ensures NotNamed(medias, name) ==> TrackUrl(medias, name, otherwise) == otherwise
    decreases |medias|
  {
    if medias != [] && medias[|medias| - 1].name != name {
      var front := medias[..|medias| - 1];
      LastUrl(front, name, otherwise);
      forall k: nat | LastNamed(medias, name, k)
        ensures TrackUrl(medias, name, otherwise) == medias[k].url
      {
        assert LastNamed(front, name, k) && front[k] == medias[k];
      }
    }
  }

  lemma {:induction false} FirstUrlIs(medias: seq<Media>, name: string)
    ensures forall k: nat {:trigger medias[k]} :: FirstNamed(medias, name, k) ==>
              FirstUrl(medias, name) == Some(medias[k].url)
    ensures NotNamed(medias, name) ==> FirstUrl(medias, name) == None
  {
    if medias != [] && medias[0].name != name {
      var rest := medias[1..];
      FirstUrlIs(rest, name);
      forall k: nat | FirstNamed(medias, name, k)
        ensures FirstUrl(medias, name) == Some(medias[k].url)
      {
        assert forall j :: 0 <= j < k - 1 ==> rest[j] == medias[j + 1];
        assert rest[k - 1] == medias[k] && FirstNamed(rest, name, k - 1);
      }
    }
  }

  /** One SETUP; without a list of tracks this one becomes the list. */
  lemma SetupAsks(s: ClientState, track: Track)
    ensures var uri := TrackUrl(s.sdp.medias, track.0, s.auth.uri);
            var listed := if s.transports == [] then s.(transports := [track], setupIter := 0) else s;
            Call(s, SetupTrack(track)) == Outcome(Asking(listed, SETUP, uri, AskingFor(track.1), ""), Ok)
  {
    var s1 := Aimed(s, SETUP, TrackUrl(s.sdp.medias, track.0, s.auth.uri));
    var s2 := if s1.transports == [] then s1.(transports := [track], setupIter := 0) else s1;
    RequestMade(s2, SETUP);
    hide MakeRequest, OwnHeaders, TrackUrl, T.ToString;
    assert OwnHeaders(s2)[Transport := T.ToString(track.1)] == OwnHeaders(s2) + map[Transport := T.ToString(track.1)];
  }

  /** Without pipelining only the first of several tracks is asked for; without tracks there is an error. */
  lemma SetupAllAsks(s: ClientState, tracks: seq<Track>)
    requires s.pipeId <= 0
    ensures Call(s, SetupTracks(tracks))
            == if tracks == [] then Outcome(s, NeedTransport)
               else Call(s.(transports := tracks, setupIter := 0), SetupTrack(tracks[0]))
  {
    hide SendSetup;
  }

  /** A request for one media description, by its name. */
  lemma MediaAsks(s: ClientState, verb: Method, media: string, extra: Headers)
    ensures var o := Call(s, ControlMedia(verb, media, extra));
            (NotNamed(s.sdp.medias, media) ==> o == Outcome(s.(auth := s.auth.(verb := verb)), MediaNotExist))
            && forall k: nat {:trigger s.sdp.medias[k]} :: FirstNamed(s.sdp.medias, media, k) ==>
                 o == Outcome(Asking(s, verb, s.sdp.medias[k].url, Adding(extra), ""), Ok)
  {
    hide FirstUrl, Asking, SendWith;
    FirstUrlIs(s.sdp.medias, media);
    forall k: nat | FirstNamed(s.sdp.medias, media, k)
      ensures Call(s, ControlMedia(verb, media, extra))
              == Outcome(Asking(s, verb, s.sdp.medias[k].url, Adding(extra), ""), Ok)
    {
      var s1 := Aimed(s, verb, s.sdp.medias[k].url);
      SendWithAsks(s1, verb, extra, "");
      SameAsking(s, s1, verb, s1.auth.uri, Adding(extra), "");
    }
  }

  /** With aggregate control, one request to the presentation. */
  lemma AggregateAsks(s: ClientState, verb: Method, extra: Headers)
    requires s.isAggregate
    ensures Call(s, ControlAll(verb, extra)) == Outcome(Asking(s, verb, s.sdp.aggregateUrl, Adding(extra), ""), Ok)
  {
    hide Asking, SendWith;
    var s1 := Aimed(s.(auth := s.auth.(verb := verb)), verb, s.sdp.aggregateUrl);
    SendWithAsks(s1, verb, extra, "");
    SameAsking(s, s1, verb, s1.auth.uri, Adding(extra), "");
  }

  /** The first media description with that name, or their number. */
  function Named(medias: seq<Media>, name: string): (k: nat)
    ensures if k < |medias| then FirstNamed(medias, name, k) else k == |medias| && NotNamed(medias, name)
  {
    if medias == [] || medias[0].name == name then 0
    else
      var k := Named(medias[1..], name);
      assert forall j :: 0 <= j < |medias| - 1 ==> medias[1..][j] == medias[j + 1];
      assert forall j :: 0 < j < |medias| ==> medias[j] == medias[1..][j - 1];
      k + 1
  }

  lemma NameFound(medias: seq<Media>, k: nat)
    requires k < |medias|
    ensures Named(medias, medias[k].name) <= k
  {
    hide Named;
  }

  /** The state after a request for the media description that is next. */
  function AskingNext(s: ClientState, verb: Method, extra: Headers): ClientState
    requires s.mediaStep < |s.sdp.medias|
  {
    NameFound(s.sdp.medias, s.mediaStep);
    var k := Named(s.sdp.medias, s.sdp.medias[s.mediaStep].name);
    Asking(s.(mediaStep := s.mediaStep + 1), verb, s.sdp.medias[k].url, Adding(extra), "")
  }

  lemma NextAsks(s: ClientState, verb: Method, extra: Headers)
    ensures SendForNext(s, verb, extra)
            == if s.mediaStep < |s.sdp.medias| then Outcome(AskingNext(s, verb, extra), Ok) else Outcome(s, Undefined)
  {
    hide SendForMedia, Asking, Named;
    if s.mediaStep < |s.sdp.medias| {
      var name := s.sdp.medias[s.mediaStep].name;
      NameFound(s.sdp.medias, s.mediaStep);
      var k := Named(s.sdp.medias, name);
      MediaAsks(s.(mediaStep := s.mediaStep + 1), verb, name, extra);
      assert FirstNamed(s.sdp.medias, name, k) && s.sdp.medias[k].name == name;
    }
  }

  /** All the media descriptions not asked for yet, in order. */
  function AskingRest(s: ClientState, verb: Method, extra: Headers): ClientState
    decreases |s.sdp.medias| - s.mediaStep
  {
    if s.mediaStep < |s.sdp.medias| then AskingRest(AskingNext(s, verb, extra), verb, extra) else s
  }

  /** Without aggregate control: the next media description, or, pipelined and but for TEARDOWN, all that are left. */
  lemma OneByOneAsks(s: ClientState, verb: Method, extra: Headers)
    requires !s.isAggregate && s.mediaStep < |s.sdp.medias|
    ensures Call(s, ControlAll(verb, extra))
            == Outcome(if s.pipeId > 0 && verb != TEARDOWN then AskingRest(s, verb, extra)
                       else AskingNext(s, verb, extra), Ok)
  {
    var s1 := s.(auth := s.auth.(verb := verb));
    NextAsks(s1, verb, extra);
    RestAsks(s1, verb, extra);
    SameNext(s, s1, verb, extra);
    hide SendForNext, SendForRest, AskingNext, AskingRest;
  }

  lemma SameNext(s: ClientState, s1: ClientState, verb: Method, extra: Headers)
    requires s1 == s.(auth := s.auth.(verb := verb)) && s.mediaStep < |s.sdp.medias|
    ensures AskingNext(s1, verb, extra) == AskingNext(s, verb, extra)
    ensures AskingRest(s1, verb, extra) == AskingRest(s, verb, extra)
  {
    hide OwnHeaders, Named;
  }

  lemma {:induction false} RestAsks(s: ClientState, verb: Method, extra: Headers)
    requires s.mediaStep < |s.sdp.medias|
    ensures SendForRest(s, verb, extra)
            == Outcome(if s.pipeId > 0 then AskingRest(s, verb, extra) else AskingNext(s, verb, extra), Ok)
    decreases |s.sdp.medias| - s.mediaStep
  {
    NextAsks(s, verb, extra);
    hide SendForNext, OwnHeaders, Named;
    var t := AskingNext(s, verb, extra);
    if s.pipeId > 0 && t.mediaStep < |t.sdp.medias| {
      RestAsks(t, verb, extra);
    }
  }

  /** Several tracks, pipelined: one SETUP after the other, in their order. */
  function AskingTracks(s: ClientState, i: nat): ClientState
    requires i <= |s.transports|
    decreases |s.transports| - i
  {
    if i == |s.transports| then s.(setupIter := i)
    else
      var uri := TrackUrl(s.sdp.medias, s.transports[i].0, s.auth.uri);
      AskingTracks(Asking(s.(setupIter := i), SETUP, uri, AskingFor(s.transports[i].1), ""), i + 1)
  }

  lemma {:induction false} BurstAsks(s: ClientState, i: nat)
    requires i <= |s.transports|
    ensures SetupBurst(s, i) == AskingTracks(s, i)
    decreases |s.transports| - i
  {
    if i < |s.transports| {
      var s1 := s.(setupIter := i);
      SetupAsks(s1, s.transports[i]);
      hide SendSetup, OwnHeaders, TrackUrl;
      BurstAsks(SendSetup(s1, s.transports[i]), i + 1);
    }
  }

  lemma PipelinedTracksAsk(s: ClientState, tracks: seq<Track>)
    requires s.pipeId > 0 && tracks != []
    ensures Call(s, SetupTracks(tracks)) == Outcome(AskingTracks(s.(transports := tracks, setupIter := 0), 0), Ok)
  {
    hide SetupBurst, AskingTracks;
    BurstAsks(s.(transports := tracks, setupIter := 0), 0);
  }

  /** The calls that send nothing. */
  lemma OthersAskNothing(s: ClientState, id: int, username: string, password: string)
    ensures Call(s, StartPipeline(id)) == Outcome(s.(pipeId := id), Ok)
    ensures Call(s, StopPipeline) == Outcome(s.(pipeId := 0), Ok)
    ensures Call(s, SetUserInfo(username, password))
            == Outcome(s.(auth := s.auth.(username := username, password := password)), Ok)
  {
    hide SendWith, SendSetup, SetupAll, Control, SendForMedia;
  }

  // Replies

  function Adds(s: ClientState, events: seq<ClientEvent>): ClientState { s.(log := s.log + events) }

  /**
   * A 401: a client that authenticates already gives up on the user; any other reads the challenge and
   * answers with the request it last aimed at, whose number is one character.
   */
  lemma UnauthorizedAnswered(cfg: Config, s: ClientState, res: Response)
    requires res.status == 401
    ensures var o := HandleResponse(cfg, s, res);
            if s.needAuth then o == Outcome(Adds(s, [AuthFailed(s.auth.username, s.auth.password)]), Ok)
            else if WWWAuthenticate !in res.headers then o == Outcome(s, Thrown)
            else
              var p := Parser(s.auth, res.headers[WWWAuthenticate]);
              var s1 := s.(auth := p.auth);
              var headers := map[UserAgent := "rtsp2-client", Authorization := Credentials(p.auth),
                                 CSeq := [(s.cseq % 256) as char]];
              o == if p.thrown then Outcome(s1, Thrown)
                   else Outcome(Adds(s1.(needAuth := true, cseq := s.cseq + 1),
                                     [Retransmitted(Request(p.auth.verb, p.auth.uri, headers, ""))]), Ok)
  {
    hide Parser, Credentials;
  }

  /** In a session, a reply without one is an error and changes nothing. */
  lemma SessionMissed(cfg: Config, s: ClientState, res: Response)
    requires res.status != 401 && s.session.id != "" && Session !in res.headers
    ensures HandleResponse(cfg, s, res) == Outcome(s, SessionIdError)
  {
    hide HandleUnAuth;
  }

  predicate Ordinary(s: ClientState, res: Response) {
    res.status != 401 && (s.session.id != "" ==> Session in res.headers) && PipelinedRequests !in res.headers
  }

  predicate ForEach(verb: Method) { verb == PLAY || verb == RECORD || verb == PAUSE || verb == TEARDOWN }

  predicate Simply(verb: Method) {
    verb == OPTIONS || verb == SET_PARAMETER || verb == GET_PARAMETER || verb == ANNOUNCE || verb == REDIRECT
  }

  /** Replies to requests for the whole presentation go to the callback of the method last aimed at. */
  lemma SimplyCalledBack(cfg: Config, s: ClientState, res: Response)
    requires Ordinary(s, res) && s.auth.verb != DESCRIBE && s.auth.verb != SETUP && !ForEach(s.auth.verb)
    ensures HandleResponse(cfg, s, res)
            == Outcome(if Simply(s.auth.verb) then Adds(s, [Called(s.auth.verb, res)]) else s, Ok)
  {
    hide HandleUnAuth, HandleDescribe, HandleSetup, HandleControl;
  }

  /**
   * PLAY, RECORD, PAUSE and TEARDOWN: the callback when there is nothing left to ask for, or a PLAY or
   * RECORD has failed; otherwise the request for the next media description.
   */
  lemma ControlAnswered(cfg: Config, s: ClientState, res: Response)
    requires Ordinary(s, res) && ForEach(s.auth.verb)
    ensures HandleResponse(cfg, s, res)
            == Outcome(if s.isAggregate || s.mediaStep >= |s.sdp.medias|
                          || ((s.auth.verb == PLAY || s.auth.verb == RECORD) && res.status != 200)
                       then Adds(s, [Called(s.auth.verb, res)])
                       else AskingNext(s, s.auth.verb, map[]), Ok)
  {
    NextAsks(s, s.auth.verb, map[]);
    hide HandleUnAuth, HandleDescribe, HandleSetup, SendForNext, AskingNext;
  }

  /** The base of a description: Content-Base, else Content-Location, else the client's URL. */
  function BaseOf(s: ClientState, res: Response): string {
    if Other("Content-Base") in res.headers then res.headers[Other("Content-Base")]
    else if Other("Content-Location") in res.headers then res.headers[Other("Content-Location")]
    else s.auth.uri
  }

  /** A description is read against its base and called back; aggregate control, once there, stays. */
  lemma DescribedAs(cfg: Config, s: ClientState, res: Response)
    requires Ordinary(s, res) && s.auth.verb == DESCRIBE
    ensures var sdp := cfg.readSdp(res.body, BaseOf(s, res), s.auth.uri, s.isAggregate);
            HandleResponse(cfg, s, res)
            == Outcome(Adds(s.(sdp := sdp, isAggregate := s.isAggregate || sdp.aggregateUrl != ""),
                            [Described(res, sdp)]), Ok)
  {
    hide HandleUnAuth, HandleSetup, HandleControl;
  }

  /** A SETUP that is not granted: the callback for the track as it was asked for, and no further SETUP. */
  lemma SetupRefused(cfg: Config, s: ClientState, res: Response)
    requires Ordinary(s, res) && s.auth.verb == SETUP && 0 <= s.setupIter < |s.transports| && res.status != 200
    ensures var track := s.transports[s.setupIter];
            HandleResponse(cfg, s, res) == Outcome(Adds(s, [SetUp(res, s.session, track.0, track.1)]), Ok)
  {
    hide HandleUnAuth, HandleDescribe, HandleControl, SendSetup, T.Decode;
  }

  /**
   * A SETUP that is granted: what is granted replaces what was asked for, the callback is made in the
   * session the reply may bring, and the next track, if there is one, is asked for.
   */
  lemma SetupContinued(cfg: Config, s: ClientState, res: Response)
    requires Ordinary(s, res) && s.auth.verb == SETUP && 0 <= s.setupIter < |s.transports| && res.status == 200
    requires Transport in res.headers && T.Decode(res.headers[Transport], cfg.uninitialised).Some?
    requires s.session.id == "" && Session in res.headers ==> !ParseSession(res.headers[Session]).1
    ensures var granted := T.Decode(res.headers[Transport], cfg.uninitialised).value;
            var k := s.setupIter;
            var session := if s.session.id == "" && Session in res.headers then ParseSession(res.headers[Session]).0
                           else s.session;
            var t := Adds(s.(session := session, transports := s.transports[k := (s.transports[k].0, granted)],
                             setupIter := k + 1),
                          [SetUp(res, session, s.transports[k].0, granted)]);
            HandleResponse(cfg, s, res)
            == Outcome(if k + 1 == |s.transports| then t
                       else
                         var next := s.transports[k + 1];
                         Asking(t, SETUP, TrackUrl(s.sdp.medias, next.0, s.auth.uri), AskingFor(next.1), ""), Ok)
  {
    hide HandleUnAuth, HandleDescribe, HandleControl, SendSetup, T.Decode, ParseSession, Asking, TrackUrl, T.ToString;
    var granted := T.Decode(res.headers[Transport], cfg.uninitialised).value;
    var k := s.setupIter;
    var session := if s.session.id == "" && Session in res.headers then ParseSession(res.headers[Session]).0
                   else s.session;
    var t := Adds(s.(session := session, transports := s.transports[k := (s.transports[k].0, granted)],
                     setupIter := k + 1),
                  [SetUp(res, session, s.transports[k].0, granted)]);
    if k + 1 < |s.transports| {
      SetupAsks(t, s.transports[k + 1]);
    }
  }

  /** A pipelined reply other than to DESCRIBE and SETUP: the callback of its own request's method, if it has one. */
  lemma PipelinedCalledBack(cfg: Config, s: ClientState, res: Response, id: int, k: nat)
    requires res.status != 401 && (s.session.id != "" ==> Session in res.headers)
    requires PipelinedRequests in res.headers && Stoi(res.headers[PipelinedRequests]) == Some(id)
    requires CSeq in res.headers && k < |Pending(s, id)| && FirstWith(Pending(s, id), res.headers[CSeq]) == k
    requires Pending(s, id)[k].verb != DESCRIBE && Pending(s, id)[k].verb != SETUP
    ensures var pending := Pending(s, id);
            var verb := pending[k].verb;
            HandleResponse(cfg, s, res)
            == Outcome(Adds(s.(pipelines := s.pipelines + map[id := pending[..k] + pending[k + 1..]]),
                            if ForEach(verb) || Simply(verb) then [Called(verb, res)] else []), Ok)
  {
    hide HandleUnAuth, HandleDescribe, HandleSetup, HandleControl, Stoi, FirstWith, PipelinedSetup;
    var pending := Pending(s, id);
    var rest := pending[..k] + pending[k + 1..];
    assert s.pipelines[id := pending][id := rest] == s.pipelines + map[id := rest];
    assert s.log + [] == s.log;
  }

  /** A request of the server's: with a callback its answer, which starts as a 200 with the number; otherwise 501. */
  lemma AskedAnswered(cfg: Config, s: ClientState, req: Request)
    ensures var start := Response(200, map[CSeq := Get(req.headers, CSeq), Server := "rtsp2-server"], "");
            HandleAsked(cfg, s, req)
            == match cfg.onRequest
               case None => Adds(s, [Replied(start.(status := 501))])
               case Some(callback) => Adds(s, [Asked(req), Replied(callback(req, start))])
  {
  }

  // Sessions

  /** Where a pattern first occurs. */
  predicate Occurs(s: string, pattern: string, k: nat) {
    k <= |s| && StartsWith(s[k..], pattern)
  }

  lemma {:induction false} FindFirst(s: string, pattern: string)
    ensures match Find(s, pattern)
            case Some(k) => Occurs(s, pattern, k) && forall j: nat {:trigger Occurs(s, pattern, j)} ::
                              j < k ==> !Occurs(s, pattern, j)
            case None => forall j: nat {:trigger Occurs(s, pattern, j)} :: !Occurs(s, pattern, j)
  {
    assert s[0..] == s;
    if !StartsWith(s, pattern) && s != "" {
      FindFirst(s[1..], pattern);
      forall j: nat | 0 < j <= |s|
        ensures Occurs(s, pattern, j) == Occurs(s[1..], pattern, j - 1)
      {
        assert s[1..][j - 1..] == s[j..];
      }
    }
  }

  /** The identifier is the whole trimmed text; the timeout is the number behind the first `timeout=`, or 60. */
  lemma SessionRead(text: string, k: nat)
    requires Occurs(text, "timeout=", k) || (k == |text| && forall j: nat :: !Occurs(text, "timeout=", j))
    requires forall j: nat {:trigger Occurs(text, "timeout=", j)} :: j < k ==> !Occurs(text, "timeout=", j)
    ensures Occurs(text, "timeout=", k) ==> k + 8 <= |text|
    ensures var (id, thrown) := ParseSession(text);
            id.id == Trim(text)
            && if Occurs(text, "timeout=", k) then
                 match Stoi(text[k + 8..])
                 case Some(n) => id.timeout == n && !thrown
                 case None => id.timeout == 60 && thrown
               else id.timeout == 60 && !thrown
  {
    FindFirst(text, "timeout=");
    hide Find, Trim, Stoi;
  }
}
