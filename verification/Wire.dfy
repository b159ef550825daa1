/**
 * Client and server over two octet channels: each call of `input` gets as many octets as the network
 * cares to deliver, and the client stops after every message. Both see what they would see if whole
 * messages were passed.
 */
module Wire {
  import opened Bytes
  import opened Messages
  import opened Stream
  import opened ClientStream
  import opened Framing
  import opened Exchange
  import opened Authentication
  import C = ClientSpec
  import S = ServerSpec
  import SR = ServerRuns
  import T = Transport
  import Talk = Conversation

  // `toString` of requests and responses
  datatype Printer = Printer(request: Request -> seq<byte>, response: Response -> seq<byte>)

  // Messages on the wire

  function Text<M>(show: M -> seq<byte>, messages: seq<M>): seq<byte> {
    if messages == [] then [] else show(messages[0]) + Text(show, messages[1..])
  }

  /** The parser undoes the printer on this message. */
  ghost predicate ReadBack<M>(read: seq<byte> -> Read<M>, show: M -> seq<byte>, m: M) {
    show(m) != [] && show(m)[0] != DOLLAR && read(show(m)) == Complete(|show(m)|, m)
  }

  ghost predicate AllReadBack<M>(read: seq<byte> -> Read<M>, show: M -> seq<byte>, messages: seq<M>) {
    forall m :: m in messages ==> ReadBack(read, show, m)
  }

  lemma {:induction false} TextConcat<M>(show: M -> seq<byte>, a: seq<M>, b: seq<M>)
    ensures Text(show, a + b) == Text(show, a) + Text(show, b)
    decreases |a|
  {
    if a == [] {
      assert a + b == b;
    } else {
      TextConcat(show, a[1..], b);
      assert (a + b)[1..] == a[1..] + b;
    }
  }

  /**
   * The front of a buffer that holds the beginning of what is left of a channel: nothing, part of
   * the first message, or that message and the beginning of the rest.
   */
  lemma FrontOfText<M(!new)>(read: seq<byte> -> Read<M>, whole: seq<byte>, n: nat, m: M, rest: seq<byte>,
                             b: seq<byte>, tail: seq<byte>)
    requires Lawful(read) && n <= |whole| && whole[..n] != [] && whole[0] != DOLLAR
    requires read(whole[..n]) == Complete(n, m) && whole[n..] == rest && b + tail == whole && b != []
    ensures if |b| < n then Next(read, b).Incomplete?
            else Next(read, b) == Complete(n, Message(m)) && b[n..] + tail == rest
  {
    var text := whole[..n];
    assert b[0] == whole[0];
    if |b| < n {
      var more := text[|b|..];
      assert b == whole[..|b|] == text[..|b|] && text == b + more;
      assert !read(b).Incomplete? ==> read(b + more) == read(b);
    } else {
      assert b == text + b[n..];
      assert read(text + b[n..]) == read(text);
    }
  }

  lemma TextFront<M(!new)>(show: M -> seq<byte>, messages: seq<M>)
    requires messages != []
    ensures var n := |show(messages[0])|;
            n <= |Text(show, messages)| && Text(show, messages)[..n] == show(messages[0])
            && Text(show, messages)[n..] == Text(show, messages[1..])
  {
  }

  /** What both readers make of a channel of messages they read back. */
  lemma NextMessage<M(!new), R(!new)>(read: seq<byte> -> Read<R>, show: M -> seq<byte>, wrap: M -> R,
                                      messages: seq<M>, b: seq<byte>, tail: seq<byte>)
    requires Lawful(read) && messages != [] && b != [] && b + tail == Text(show, messages)
    requires var text := show(messages[0]);
             text != [] && text[0] != DOLLAR && read(text) == Complete(|text|, wrap(messages[0]))
    ensures var n := |show(messages[0])|;
            if |b| < n then Next(read, b).Incomplete?
            else Next(read, b) == Complete(n, Message(wrap(messages[0]))) && b[n..] + tail == Text(show, messages[1..])
  {
    hide Text, Lawful, Next;
    TextFront(show, messages);
    FrontOfText(read, Text(show, messages), |show(messages[0])|, wrap(messages[0]), Text(show, messages[1..]), b,
                tail);
  }

  // The parties on the wire

  datatype Wired<+A> = Wired(client: Connection<C.ClientState>, server: Connection<S.ServerState<A>>,
                             toServer: seq<byte>, toClient: seq<byte>, error: Error)

  // `input` of either side with the next octets, `sendResponse`, or a call of the client's interface
  datatype WireMove =
    | ServerHears(count: nat) | ServerSays(response: Response) | ClientHears(count: nat) | ClientSays(call: C.ApiCall)

  function ClientSaid(pr: Printer, before: C.ClientState, after: C.ClientState): seq<byte> {
    Text(pr.request, RequestsIn(Added(before.log, after.log)))
  }

  function ServerSaid<A>(pr: Printer, before: S.ServerState<A>, after: S.ServerState<A>): seq<byte> {
    Text(pr.response, RepliesIn(Added(before.log, after.log)))
  }

  function Min(a: nat, b: nat): nat { if a < b then a else b }

  ghost function Relay<A>(h: S.Handlers<A>, cfg: C.Config, f: Framer, pr: Printer, w: Wired<A>, m: WireMove): Wired<A>
    requires LawfulFramer(f)
  {
    match m
    case ServerHears(count) =>
      var k := Min(count, |w.toServer|);
      var fed := S.ServerFeed(h, f, w.server, w.toServer[..k]);
      w.(server := fed.connection, toServer := w.toServer[k..],
         toClient := w.toClient + ServerSaid(pr, w.server.state, fed.connection.state), error := fed.error)
    case ServerSays(response) =>
      if w.server.state.deferred == [] then w
      else
        var o := S.SendResponse(w.server.state, response);
        w.(server := w.server.(state := o.state),
           toClient := w.toClient + ServerSaid(pr, w.server.state, o.state), error := o.error)
    case ClientHears(count) =>
      var k := Min(count, |w.toClient|);
      var fed := C.ClientInput(cfg, f, w.client, w.toClient[..k]);
      w.(client := fed.connection, toClient := w.toClient[k..],
         toServer := w.toServer + ClientSaid(pr, w.client.state, fed.connection.state), error := fed.error)
    case ClientSays(call) =>
      var o := C.Call(w.client.state, call);
      w.(client := w.client.(state := o.state),
         toServer := w.toServer + ClientSaid(pr, w.client.state, o.state), error := o.error)
  }

  /** Up to the first error, which ends the connection. */
  ghost function RelayAll<A>(h: S.Handlers<A>, cfg: C.Config, f: Framer, pr: Printer, w: Wired<A>,
                             moves: seq<WireMove>): Wired<A>
    requires LawfulFramer(f)
    decreases |moves|
  {
    if moves == [] || w.error != Ok then w
    else RelayAll(h, cfg, f, pr, Relay(h, cfg, f, pr, w, moves[0]), moves[1..])
  }

  /** Every message a move has sent is one the other side reads back. */
  ghost predicate Printed<A>(f: Framer, pr: Printer, before: Wired<A>, after: Wired<A>) {
    AllReadBack(f.request, pr.request, RequestsIn(Added(before.client.state.log, after.client.state.log)))
    && AllReadBack(f.response, pr.response, RepliesIn(Added(before.server.state.log, after.server.state.log)))
  }

  ghost predicate AllPrinted<A>(h: S.Handlers<A>, cfg: C.Config, f: Framer, pr: Printer, w: Wired<A>,
                                moves: seq<WireMove>)
    requires LawfulFramer(f)
    decreases |moves|
  {
    moves == [] || w.error != Ok
    || (Printed(f, pr, w, Relay(h, cfg, f, pr, w, moves[0]))
        && AllPrinted(h, cfg, f, pr, Relay(h, cfg, f, pr, w, moves[0]), moves[1..]))
  }

  // The same, with whole messages

  /** What is cached and what is on the wire are together the messages under way. */
  ghost predicate Carried<A>(f: Framer, pr: Printer, w: Wired<A>, y: Parties<A>) {
    w.server.cache + w.toServer == Text(pr.request, y.toServer)
    && w.client.cache + w.toClient == Text(pr.response, y.toClient)
    && AllReadBack(f.request, pr.request, y.toServer) && AllReadBack(f.response, pr.response, y.toClient)
  }

  ghost predicate Matches<A>(f: Framer, pr: Printer, w: Wired<A>, y: Parties<A>) {
    w.client.state == y.client && w.server.state == y.server && w.error == y.error
    && (w.error == Ok ==> Carried(f, pr, w, y))
  }

  // What the server sees of a call

  lemma {:induction false} RepliesConcat(a: seq<S.Event>, b: seq<S.Event>)
    ensures RepliesIn(a + b) == RepliesIn(a) + RepliesIn(b)
    decreases |a|
  {
    if a == [] {
      assert a + b == b;
    } else {
      RepliesConcat(a[1..], b);
      assert (a + b)[1..] == a[1..] + b;
      RepliesFront(a);
      RepliesFront(a + b);
      hide RepliesIn;
      var first, rest := RepliesIn([a[0]]), RepliesIn(a[1..]);
      assert first + rest + RepliesIn(b) == first + (rest + RepliesIn(b));
    }
  }

  lemma RepliesFront(a: seq<S.Event>)
    requires a != []
    ensures RepliesIn(a) == RepliesIn([a[0]]) + RepliesIn(a[1..])
  {
    assert [a[0]][1..] == [];
    assert RepliesIn([]) == [];
  }

  lemma RepliesAdded(a: seq<S.Event>, b: seq<S.Event>, c: seq<S.Event>)
    requires a <= b <= c
    ensures RepliesIn(Added(a, c)) == RepliesIn(Added(a, b)) + RepliesIn(Added(b, c))
  {
    assert c[|a|..] == b[|a|..] + c[|b|..];
    RepliesConcat(b[|a|..], c[|b|..]);
  }

  lemma RepliesJoin(sent: seq<Response>, a: seq<S.Event>, b: seq<S.Event>, c: seq<S.Event>)
    requires a <= b <= c
    ensures sent + RepliesIn(Added(a, b)) + RepliesIn(Added(b, c)) == sent + RepliesIn(Added(a, c))
  {
    hide RepliesIn, Added;
    RepliesAdded(a, b, c);
  }

  lemma DispatchLogs<A>(h: S.Handlers<A>, s: S.ServerState<A>, req: Request, res: Response)
    ensures s.log <= S.Dispatch(h, s, req, res).state.log
  {
    hide T.Decode, T.ToString;
  }

  lemma HandleLogs<A>(h: S.Handlers<A>, s: S.ServerState<A>, req: Request, res: Response)
    ensures s.log <= S.Handle(h, s, req, res).state.log
  {
    hide S.Dispatch, S.Labelled;
    DispatchLogs(h, s, req, res);
  }

  lemma AdmitLogs<A>(h: S.Handlers<A>, s: S.ServerState<A>, req: Request)
    ensures s.log <= S.Admit(h, s, req).state.log
  {
    hide S.Handle, S.Greeting, S.Admitted, S.PrePipeAfter;
    HandleLogs(h, s.(prePipe := S.PrePipeAfter(s.prePipe, req)), req, S.Greeting(req));
  }

  lemma RequestLogs<A>(h: S.Handlers<A>, s: S.ServerState<A>, request: Request)
    ensures s.log <= S.HandleRequest(h, s, request).state.log
  {
    hide S.Admit, S.Greeting, Verify, GenAuthInfo;
    var req := S.Touched(request);
    AdmitLogs(h, s, req);
    AdmitLogs(h, s.(authParam := Verify(s.authParam, req).param), req);
  }

  lemma TakesStep<A>(h: S.Handlers<A>, cfg: C.Config, y: Parties<A>)
    requires y.toServer != [] && y.error == Ok
    ensures var z := Advance(h, cfg, y, ServerTakes);
            var o := S.HandleRequest(h, y.server, y.toServer[0]);
            z.server == o.state && z.error == o.error && z.client == y.client && z.toServer == y.toServer[1..]
            && z.toClient == y.toClient + RepliesIn(Added(y.server.log, z.server.log)) && y.server.log <= z.server.log
  {
    hide S.HandleRequest, RepliesIn, HandledIn, Added;
    RequestLogs(h, y.server, y.toServer[0]);
  }

  /** The server's application is civil to the requests among the items, in the states in which it gets them. */
  predicate CivilTo<A>(h: S.Handlers<A>, s: S.ServerState<A>, items: seq<Item<Rtsp>>)
    decreases |items|
  {
    items == []
    || ((items[0].Message? && items[0].value.Req? ==> Civil(h, s, items[0].value.request))
        && (S.Step(h, s, items[0]).error == Ok ==> CivilTo(h, S.Step(h, s, items[0]).state, items[1..])))
  }

  lemma FrontParsed(read: seq<byte> -> Read<Rtsp>, b: seq<byte>, n: nat, q: Request)
    requires Lawful(read) && b != [] && Next(read, b) == Complete(n, Message(Req(q)))
    ensures n <= |b| && Parse(read, b).items == [Message(Req(q))] + Parse(read, b[n..]).items
  {
    hide Lawful, Next;
    FrontItem(read, b, n, Message(Req(q)));
  }

  lemma FrontCivil<A>(h: S.Handlers<A>, s: S.ServerState<A>, q: Request, items: seq<Item<Rtsp>>)
    requires CivilTo(h, s, [Message(Req(q))] + items)
    ensures Civil(h, s, q)
    ensures S.HandleRequest(h, s, q).error == Ok ==> CivilTo(h, S.HandleRequest(h, s, q).state, items)
  {
    hide S.HandleRequest, Civil;
    assert ([Message(Req(q))] + items)[1..] == items;
  }

  /**
   * What the server's loop does with the octets there are: it takes the whole requests among them,
   * until one fails, and leaves the beginning of the next.
   */
  lemma {:induction false} ServerDrains<A>(h: S.Handlers<A>, cfg: C.Config, f: Framer, pr: Printer, y: Parties<A>,
                                           b: seq<byte>, tail: seq<byte>)
    returns (moves: seq<Move>)
    requires LawfulFramer(f) && Lawful(ServerReader(f)) && y.error == Ok
    requires b + tail == Text(pr.request, y.toServer) && AllReadBack(f.request, pr.request, y.toServer)
    ensures forall m :: m in moves ==> m.ServerTakes?
    ensures var p := Process(ServerReader(f), S.Stepper(h), y.server, b);
            var z := Proceed(h, cfg, y, moves);
            p.state == z.server && p.error == z.error && z.client == y.client && y.server.log <= z.server.log
            && z.toClient == y.toClient + RepliesIn(Added(y.server.log, z.server.log))
            && (p.error == Ok ==> p.rest + tail == Text(pr.request, z.toServer))
            && AllReadBack(f.request, pr.request, z.toServer)
    ensures CivilTo(h, y.server, Parse(ServerReader(f), b).items) ==> Talk.AllCourteous(h, cfg, y, moves)
    decreases |y.toServer|
  {
    hide Lawful, Process, Next, ServerReader, S.Stepper, S.Step, Text, RepliesIn, Added, ReadBack, Advance, Civil,
      CivilTo, Parse;
    ProcessFront(ServerReader(f), S.Stepper(h), y.server, b);
    S.StepperSteps(h, y.server);
    Unchanged(y);
    if y.toServer == [] {
      NoText(pr.request);
      moves := [];
    } else if b == [] {
      moves := [];
    } else {
      var q := y.toServer[0];
      var n := |pr.request(q)|;
      RequestReadBack(f, pr, q);
      NextMessage(ServerReader(f), pr.request, q => Req(q), y.toServer, b, tail);
      if |b| < n {
        moves := [];
      } else {
        TakesStep(h, cfg, y);
        MessageStep(h, y.server, q);
        FrontParsed(ServerReader(f), b, n, q);
        var civil := CivilTo(h, y.server, Parse(ServerReader(f), b).items);
        if civil { FrontCivil(h, y.server, q, Parse(ServerReader(f), b[n..]).items); }
        var z := Advance(h, cfg, y, ServerTakes);
        if z.error != Ok {
          moves := [ServerTakes];
        } else {
          var rest := ServerDrains(h, cfg, f, pr, z, b[n..], tail);
          moves := [ServerTakes] + rest;
          assert moves[1..] == rest;
          var u := Proceed(h, cfg, z, rest);
          RepliesJoin(y.toClient, y.server.log, z.server.log, u.server.log);
        }
      }
    }
  }

  lemma Unchanged<A>(y: Parties<A>)
    ensures y.toClient == y.toClient + RepliesIn(Added(y.server.log, y.server.log))
    ensures y.toServer == y.toServer + RequestsIn(Added(y.client.log, y.client.log))
  {
  }

  lemma NoText<M>(show: M -> seq<byte>)
    ensures Text(show, []) == []
  {
  }

  lemma RequestReadBack(f: Framer, pr: Printer, q: Request)
    requires ReadBack(f.request, pr.request, q)
    ensures pr.request(q) != [] && pr.request(q)[0] != DOLLAR
    ensures ServerReader(f)(pr.request(q)) == Complete(|pr.request(q)|, Req(q))
  {
  }

  lemma MessageStep<A>(h: S.Handlers<A>, s: S.ServerState<A>, q: Request)
    ensures S.Step(h, s, Message(Req(q))) == S.HandleRequest(h, s, q)
  {
  }

  // What the client sees of a call

  lemma ResponseReadBack(f: Framer, pr: Printer, r: Response)
    requires ReadBack(f.response, pr.response, r)
    ensures pr.response(r) != [] && pr.response(r)[0] != DOLLAR
    ensures ClientReader(f)(pr.response(r)) == Complete(|pr.response(r)|, Res(r))
  {
  }

  lemma ReplyStep(cfg: C.Config, c: C.ClientState, r: Response)
    ensures C.Step(cfg, c, Message(Res(r))) == C.HandleResponse(cfg, c, r)
  {
  }

  /** The client's loop takes the reply at the front, if all of it is there, and no other. */
  lemma ClientTakesOne<A>(h: S.Handlers<A>, cfg: C.Config, f: Framer, pr: Printer, y: Parties<A>, b: seq<byte>,
                          tail: seq<byte>)
    returns (moves: seq<Move>)
    requires LawfulFramer(f) && Lawful(ClientReader(f)) && y.error == Ok
    requires b + tail == Text(pr.response, y.toClient) && AllReadBack(f.response, pr.response, y.toClient)
    ensures forall m :: m in moves ==> m.ClientTakes?
    ensures var p := TakeLoop(ClientReader(f), C.Stepper(cfg), y.client, b);
            var z := Proceed(h, cfg, y, moves);
            p.state == z.client && p.error == z.error && z.server == y.server
            && z.toServer == y.toServer + RequestsIn(Added(y.client.log, z.client.log))
            && (p.error == Ok ==> p.rest + tail == Text(pr.response, z.toClient))
            && AllReadBack(f.response, pr.response, z.toClient)
  {
    hide Lawful, TakeLoop, Next, ClientReader, C.Stepper, C.Step, Text, RequestsIn, Added, ReadBack, C.HandleResponse;
    LoopFront(ClientReader(f), C.Stepper(cfg), y.client, b);
    C.StepperSteps(cfg, y.client);
    Unchanged(y);
    moves := [];
    if y.toClient == [] {
      NoText(pr.response);
    } else if b != [] {
      var r := y.toClient[0];
      ResponseReadBack(f, pr, r);
      NextMessage(ClientReader(f), pr.response, r => Res(r), y.toClient, b, tail);
      if |b| >= |pr.response(r)| {
        ReplyStep(cfg, y.client, r);
        moves := [ClientTakes];
      }
    }
  }

  // The two descriptions agree

  lemma SentOn<M>(read: seq<byte> -> Read<M>, show: M -> seq<byte>, cache: seq<byte>, wire: seq<byte>,
                  under: seq<M>, more: seq<M>)
    requires cache + wire == Text(show, under) && AllReadBack(read, show, under) && AllReadBack(read, show, more)
    ensures cache + (wire + Text(show, more)) == Text(show, under + more) && AllReadBack(read, show, under + more)
  {
    hide Text, ReadBack;
    TextConcat(show, under, more);
    assert cache + (wire + Text(show, more)) == cache + wire + Text(show, more);
  }

  lemma Delivered(cache: seq<byte>, wire: seq<byte>, k: nat)
    requires k <= |wire|
    ensures cache + wire[..k] + wire[k..] == cache + wire
  {
  }

  lemma ServerHearsIs<A>(h: S.Handlers<A>, cfg: C.Config, f: Framer, pr: Printer, w: Wired<A>, y: Parties<A>,
                         count: nat)
    returns (moves: seq<Move>)
    requires LawfulFramer(f) && Matches(f, pr, w, y) && w.error == Ok
    requires Printed(f, pr, w, Relay(h, cfg, f, pr, w, ServerHears(count)))
    ensures Matches(f, pr, Relay(h, cfg, f, pr, w, ServerHears(count)), Proceed(h, cfg, y, moves))
    ensures forall m :: m in moves ==> m.ServerTakes?
    ensures Polite(h, f, w, ServerHears(count)) ==> Talk.AllCourteous(h, cfg, y, moves)
  {
    hide Lawful, LawfulFramer, Process, CivilTo, Parse, Talk.AllCourteous, S.ServerFeed, ServerReader, S.Stepper, Text,
      RepliesIn, RequestsIn, Added, ReadBack, AllReadBack, Proceed;
    var k := Min(count, |w.toServer|);
    var chunk, tail := w.toServer[..k], w.toServer[k..];
    Delivered(w.server.cache, w.toServer, k);
    S.ServerFeedIsProcess(h, f, w.server, chunk);
    moves := ServerDrains(h, cfg, f, pr, y, w.server.cache + chunk, tail);
    var v, z := Relay(h, cfg, f, pr, w, ServerHears(count)), Proceed(h, cfg, y, moves);
    if v.error == Ok {
      var replies := RepliesIn(Added(y.server.log, z.server.log));
      SentOn(f.response, pr.response, w.client.cache, w.toClient, y.toClient, replies);
    }
  }

  lemma ClientHearsIs<A>(h: S.Handlers<A>, cfg: C.Config, f: Framer, pr: Printer, w: Wired<A>, y: Parties<A>,
                         count: nat)
    returns (moves: seq<Move>)
    requires LawfulFramer(f) && Matches(f, pr, w, y) && w.error == Ok
    requires Printed(f, pr, w, Relay(h, cfg, f, pr, w, ClientHears(count)))
    ensures Matches(f, pr, Relay(h, cfg, f, pr, w, ClientHears(count)), Proceed(h, cfg, y, moves))
    ensures forall m :: m in moves ==> m.ClientTakes?
  {
    hide Lawful, LawfulFramer, TakeLoop, C.ClientInput, ClientReader, C.Stepper, Text, RepliesIn, RequestsIn, Added,
      ReadBack, AllReadBack, Proceed;
    var k := Min(count, |w.toClient|);
    var chunk, tail := w.toClient[..k], w.toClient[k..];
    Delivered(w.client.cache, w.toClient, k);
    C.ClientInputIsLoop(cfg, f, w.client, chunk);
    moves := ClientTakesOne(h, cfg, f, pr, y, w.client.cache + chunk, tail);
    var v, z := Relay(h, cfg, f, pr, w, ClientHears(count)), Proceed(h, cfg, y, moves);
    if v.error == Ok {
      var requests := RequestsIn(Added(y.client.log, z.client.log));
      SentOn(f.request, pr.request, w.server.cache, w.toServer, y.toServer, requests);
    }
  }

  lemma ServerSaysIs<A>(h: S.Handlers<A>, cfg: C.Config, f: Framer, pr: Printer, w: Wired<A>, y: Parties<A>,
                        response: Response)
    requires LawfulFramer(f) && Matches(f, pr, w, y) && w.error == Ok
    requires Printed(f, pr, w, Relay(h, cfg, f, pr, w, ServerSays(response)))
    ensures Matches(f, pr, Relay(h, cfg, f, pr, w, ServerSays(response)), Advance(h, cfg, y, ServerReplies(response)))
  {
    hide LawfulFramer, S.SendResponse, Text, RepliesIn, RequestsIn, HandledIn, Added, ReadBack, AllReadBack;
    if y.server.deferred != [] {
      var o := S.SendResponse(y.server, response);
      if o.error == Ok {
        SentOn(f.response, pr.response, w.client.cache, w.toClient, y.toClient,
               RepliesIn(Added(y.server.log, o.state.log)));
      }
    }
  }

  lemma ClientSaysIs<A>(h: S.Handlers<A>, cfg: C.Config, f: Framer, pr: Printer, w: Wired<A>, y: Parties<A>,
                        call: C.ApiCall)
    requires LawfulFramer(f) && Matches(f, pr, w, y) && w.error == Ok
    requires Printed(f, pr, w, Relay(h, cfg, f, pr, w, ClientSays(call)))
    ensures Matches(f, pr, Relay(h, cfg, f, pr, w, ClientSays(call)), Advance(h, cfg, y, ClientCalls(call)))
  {
    hide LawfulFramer, C.Call, Text, RepliesIn, RequestsIn, CallbacksIn, SetupsIn, Added, ReadBack, AllReadBack;
    var o := C.Call(y.client, call);
    if o.error == Ok {
      var requests := RequestsIn(Added(y.client.log, o.state.log));
      SentOn(f.request, pr.request, w.server.cache, w.toServer, y.toServer, requests);
    }
  }

  predicate Speaks(m: Move) { m.ServerReplies? || m.ClientCalls? }

  /** What the two applications do, in order. */
  function Spoken(moves: seq<Move>): seq<Move> {
    if moves == [] then [] else (if Speaks(moves[0]) then [moves[0]] else []) + Spoken(moves[1..])
  }

  function SpokenBy(m: WireMove): seq<Move> {
    match m
    case ServerSays(response) => [ServerReplies(response)]
    case ClientSays(call) => [ClientCalls(call)]
    case _ => []
  }

  function SpokenOnWire(moves: seq<WireMove>): seq<Move> {
    if moves == [] then [] else SpokenBy(moves[0]) + SpokenOnWire(moves[1..])
  }

  lemma {:induction false} SpokenConcat(a: seq<Move>, b: seq<Move>)
    ensures Spoken(a + b) == Spoken(a) + Spoken(b)
    decreases |a|
  {
    if a == [] {
      assert a + b == b;
    } else {
      SpokenConcat(a[1..], b);
      assert (a + b)[1..] == a[1..] + b;
    }
  }

  lemma {:induction false} DeliveriesSayNothing(moves: seq<Move>)
    requires forall m :: m in moves ==> !Speaks(m)
    ensures Spoken(moves) == []
    decreases |moves|
  {
    if moves != [] { DeliveriesSayNothing(moves[1..]); }
  }

  lemma OneMove<A>(h: S.Handlers<A>, cfg: C.Config, y: Parties<A>, m: Move)
    ensures Proceed(h, cfg, y, [m]) == Advance(h, cfg, y, m) && Spoken([m]) == if Speaks(m) then [m] else []
    ensures Talk.Courteous(h, y, m) ==> Talk.AllCourteous(h, cfg, y, [m])
  {
    hide Advance, Talk.Courteous;
  }

  /** What the applications may do in a conversation, as `Conversation` has it. */
  ghost predicate Polite<A>(h: S.Handlers<A>, f: Framer, w: Wired<A>, m: WireMove)
    requires LawfulFramer(f)
  {
    var y := Talk.Meet(w.client.state, w.server.state);
    match m
    case ServerHears(count) =>
      ReadersLawful(f);
      var chunk := w.toServer[..Min(count, |w.toServer|)];
      CivilTo(h, w.server.state, Parse(ServerReader(f), w.server.cache + chunk).items)
    case ServerSays(response) => Talk.Courteous(h, y, ServerReplies(response))
    case ClientSays(call) => Talk.Courteous(h, y, ClientCalls(call))
    case _ => true
  }

  ghost predicate AllPolite<A>(h: S.Handlers<A>, cfg: C.Config, f: Framer, pr: Printer, w: Wired<A>,
                               moves: seq<WireMove>)
    requires LawfulFramer(f)
    decreases |moves|
  {
    moves == [] || w.error != Ok
    || (Polite(h, f, w, moves[0]) && AllPolite(h, cfg, f, pr, Relay(h, cfg, f, pr, w, moves[0]), moves[1..]))
  }

  lemma {:induction false} HearingIsCourteous<A>(h: S.Handlers<A>, cfg: C.Config, y: Parties<A>, moves: seq<Move>)
    requires forall m :: m in moves ==> m.ClientTakes?
    ensures Talk.AllCourteous(h, cfg, y, moves)
    decreases |moves|
  {
    hide Advance;
    if moves != [] {
      assert moves[0].ClientTakes? && Talk.Courteous(h, y, moves[0]);
      HearingIsCourteous(h, cfg, Advance(h, cfg, y, moves[0]), moves[1..]);
    }
  }

  /** One move on the wire is no, one or several moves of whole messages. */
  lemma MoveRefines<A(!new)>(h: S.Handlers<A>, cfg: C.Config, f: Framer, pr: Printer, w: Wired<A>, y: Parties<A>,
                             m: WireMove)
    returns (moves: seq<Move>)
    requires LawfulFramer(f) && Matches(f, pr, w, y) && w.error == Ok
    requires Printed(f, pr, w, Relay(h, cfg, f, pr, w, m))
    ensures Matches(f, pr, Relay(h, cfg, f, pr, w, m), Proceed(h, cfg, y, moves)) && Spoken(moves) == SpokenBy(m)
    ensures Polite(h, f, w, m) ==> Talk.AllCourteous(h, cfg, y, moves)
  {
    hide LawfulFramer, Relay, Printed, Carried, Proceed, Spoken, Talk.AllCourteous, Talk.MayCall, Advance, Civil,
      CivilTo, Parse, Lawful, ServerReader;
    match m
    case ServerHears(count) =>
      moves := ServerHearsIs(h, cfg, f, pr, w, y, count);
      DeliveriesSayNothing(moves);
    case ClientHears(count) =>
      moves := ClientHearsIs(h, cfg, f, pr, w, y, count);
      DeliveriesSayNothing(moves);
      HearingIsCourteous(h, cfg, y, moves);
    case ServerSays(response) =>
      ServerSaysIs(h, cfg, f, pr, w, y, response);
      OneMove(h, cfg, y, ServerReplies(response));
      moves := [ServerReplies(response)];
    case ClientSays(call) =>
      ClientSaysIs(h, cfg, f, pr, w, y, call);
      OneMove(h, cfg, y, ClientCalls(call));
      moves := [ClientCalls(call)];
  }

  /**
   * Refinement: whatever the network does with the octets, and though the client lags, the two
   * parties go through states that whole messages would lead to, with the same application calls and
   * replies in the same order, and fail where whole messages would make them fail.
   */
  lemma {:induction false} WireRefines<A(!new)>(
      h: S.Handlers<A>, cfg: C.Config, f: Framer, pr: Printer, w: Wired<A>, y: Parties<A>, moves: seq<WireMove>)
    returns (whole: seq<Move>)
    requires LawfulFramer(f) && Matches(f, pr, w, y) && AllPrinted(h, cfg, f, pr, w, moves)
    ensures var v := RelayAll(h, cfg, f, pr, w, moves);
            Matches(f, pr, v, Proceed(h, cfg, y, whole)) && (v.error == Ok ==> Spoken(whole) == SpokenOnWire(moves))
    ensures AllPolite(h, cfg, f, pr, w, moves) ==> Talk.AllCourteous(h, cfg, y, whole)
    decreases |moves|
  {
    hide LawfulFramer, Relay, Printed, Matches, Polite, Advance, Talk.Courteous, SpokenBy, Speaks;
    MatchingError(f, pr, w, y);
    whole := [];
    if moves != [] && w.error == Ok {
      var first := MoveRefines(h, cfg, f, pr, w, y, moves[0]);
      var w1 := Relay(h, cfg, f, pr, w, moves[0]);
      var y1 := Proceed(h, cfg, y, first);
      var rest := WireRefines(h, cfg, f, pr, w1, y1, moves[1..]);
      Talk.Continued(h, cfg, y, first, rest);
      SpokenConcat(first, rest);
      FailsForGood(h, cfg, f, pr, w1, moves[1..]);
      whole := first + rest;
    }
  }

  lemma MatchingError<A>(f: Framer, pr: Printer, w: Wired<A>, y: Parties<A>)
    requires Matches(f, pr, w, y)
    ensures w.error == y.error
  {
    hide Carried;
  }

  lemma FailsForGood<A>(h: S.Handlers<A>, cfg: C.Config, f: Framer, pr: Printer, w: Wired<A>, moves: seq<WireMove>)
    requires LawfulFramer(f)
    ensures w.error != Ok ==> RelayAll(h, cfg, f, pr, w, moves).error != Ok
  {
    hide LawfulFramer, Relay;
  }

  /** An application that is always civil is so to whatever the octets hold. */
  lemma {:induction false} AlwaysCivilTo<A(!new)>(h: S.Handlers<A>, s: S.ServerState<A>, items: seq<Item<Rtsp>>)
    requires Talk.AlwaysCivil(h)
    ensures CivilTo(h, s, items)
    decreases |items|
  {
    hide Civil, S.Step;
    if items != [] {
      assert items[0].Message? && items[0].value.Req? ==> Civil(h, s, items[0].value.request);
      AlwaysCivilTo(h, S.Step(h, s, items[0]).state, items[1..]);
    }
  }

  // A conversation over octets

  function Joined<A>(c: C.ClientState, s: S.ServerState<A>): Wired<A> {
    Wired(Connection(c, []), Connection(s, []), [], [], Ok)
  }

  /** No octet is cached or under way, and nothing is deferred. */
  predicate AllHeard<A>(v: Wired<A>) {
    v.client.cache + v.toClient == [] && v.server.cache + v.toServer == [] && v.server.state.deferred == []
  }

  lemma NothingWritten<M>(read: seq<byte> -> Read<M>, show: M -> seq<byte>, messages: seq<M>)
    requires AllReadBack(read, show, messages)
    ensures Text(show, messages) == [] <==> messages == []
  {
    if messages != [] {
      assert ReadBack(read, show, messages[0]);
      assert |Text(show, messages)| >= |show(messages[0])| > 0;
    }
  }

  /**
   * The conversation, octet by octet: with every cutting of both streams nothing fails, the client's
   * session is none or the server's, and each request sent has had its one callback or is pending; once
   * no octet is cached or under way and nothing is deferred, none is pending.
   */
  lemma ConversationOverOctets<A(!new)>(
      h: S.Handlers<A>, cfg: C.Config, f: Framer, pr: Printer, id: nat, c: C.ClientState, s: S.ServerState<A>,
      moves: seq<WireMove>)
    requires LawfulFramer(f) && Talk.Opening(h, id, c, s)
    requires AllPrinted(h, cfg, f, pr, Joined(c, s), moves) && AllPolite(h, cfg, f, pr, Joined(c, s), moves)
    ensures var v := RelayAll(h, cfg, f, pr, Joined(c, s), moves);
            var pending := C.Pending(v.client.state, id);
            v.error == Ok
            && (v.client.state.session.id == "" || v.client.state.session.id == v.server.state.sessionId)
            && |c.log| <= |v.client.state.log|
            && var events := v.client.state.log[|c.log|..];
               Talk.SentIn(events) == Talk.HeardIn(events) + multiset(Talk.Tickets(pending))
               && (forall t :: Talk.HeardIn(events)[t] <= 1)
               && (AllHeard(v) ==> pending == [])
  {
    hide LawfulFramer, Talk.Opening, AllPrinted, AllPolite, Talk.AllCourteous, RelayAll, Proceed,
      Talk.SentIn, Talk.HeardIn, Talk.Tickets, AllReadBack, Text, C.Pending, SR.CSeqs, Talk.Numbers;
    NoText(pr.request);
    NoText(pr.response);
    NoneRead(f, pr);
    assert Matches(f, pr, Joined(c, s), Talk.Meet(c, s));
    var whole := WireRefines(h, cfg, f, pr, Joined(c, s), Talk.Meet(c, s), moves);
    Talk.ConversationIsSafe(h, cfg, id, c, s, whole);
    var v, z := RelayAll(h, cfg, f, pr, Joined(c, s), moves), Proceed(h, cfg, Talk.Meet(c, s), whole);
    if AllHeard(v) {
      NothingWritten(f.request, pr.request, z.toServer);
      NothingWritten(f.response, pr.response, z.toClient);
      Talk.ConversationEnds(h, cfg, id, c, s, whole);
    }
  }

  lemma NoneRead(f: Framer, pr: Printer)
    ensures AllReadBack(f.request, pr.request, []) && AllReadBack(f.response, pr.response, [])
  {
  }
}
