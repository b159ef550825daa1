/** Octets in any fragments: what the two demultiplexers make of them, down to every reply and callback. */
module Fragmentation {
  import opened Bytes
  import opened Messages
  import opened Stream
  import opened ClientStream
  import opened Framing
  import S = ServerSpec
  import SR = ServerRuns
  import C = ClientSpec
  import CP = ClientPipelines

  lemma NothingCached<M(!new)>(read: seq<byte> -> Read<M>)
    requires Lawful(read)
    ensures Settled(read, [])
  {
  }

  /**
   * A server fed in any fragments and one fed everything at once reach the same state: handlers
   * run, replies sent, session, deferred queue; they fail alike, and without failure the caches agree.
   */
  lemma ServerFragmentation<A>(h: S.Handlers<A>, f: Framer, s: S.ServerState<A>, chunks: seq<seq<byte>>)
    requires LawfulFramer(f)
    ensures Lawful(ServerReader(f))
    ensures var pieces := FeedAll(ServerReader(f), S.Stepper(h), Connection(s, []), chunks);
            var whole := S.ServerFeed(h, f, Connection(s, []), Concat(chunks));
            pieces.error == whole.error && pieces.connection.state == whole.connection.state
            && (pieces.error == Ok ==> pieces == whole)
  {
    ReadersLawful(f);
    NothingCached(ServerReader(f));
    hide Lawful, ServerReader, S.Stepper, FeedAll, Feed, Parse, Settled;
    FragmentationIndependent(ServerReader(f), S.Stepper(h), Connection(s, []), chunks);
  }

  function Receipts(items: seq<Item<Rtsp>>): seq<SR.Op> {
    if items == [] then [] else [SR.Receive(items[0])] + Receipts(items[1..])
  }

  /** A stream that parses is a run of the server, so every theorem about runs is one about octets. */
  lemma {:induction false} ServerItemsAreOps<A>(h: S.Handlers<A>, s: S.ServerState<A>, items: seq<Item<Rtsp>>)
    ensures Run(S.Stepper(h), s, items) == SR.RunOps(h, s, Receipts(items))
    decreases |items|
  {
    if items != [] {
      S.StepperSteps(h, s);
      OkOrFatal(h, s, items[0]);
      assert Receipts(items)[1..] == Receipts(items[1..]);
      hide S.Step, S.Stepper;
      var o := S.Step(h, s, items[0]);
      ServerItemsAreOps(h, o.state, items[1..]);
    }
  }

  lemma OkOrFatal<A>(h: S.Handlers<A>, s: S.ServerState<A>, item: Item<Rtsp>)
    ensures S.Step(h, s, item).error == Ok || SR.Fatal(S.Step(h, s, item).error)
  {
    hide S.HandleRequest, S.HandleResponse, S.HandlePacket, SR.Unreadable, SR.Overrunning;
    if item.Message? && item.value.Req? {
      SR.FailsExactly(h, s, item.value.request);
    }
  }

  /**
   * The client lags, but loses, repeats and reorders nothing: after calls that succeed, the items it
   * has acted on, followed by the parse of its cache, are the parse of all octets received.
   */
  lemma ClientNeverLoses(cfg: C.Config, f: Framer, s: C.ClientState, chunks: seq<seq<byte>>)
    requires Lawful(ClientReader(f))
    requires ClientFeedAll(ClientReader(f), C.Stepper(cfg), Connection(s, []), chunks).error == Ok
    ensures var t := ClientFeedAll(ClientReader(f), C.Stepper(cfg), Connection(s, []), chunks).connection;
            var items := Delivered(ClientReader(f), [], chunks);
            Run(C.Stepper(cfg), s, items) == Outcome(t.state, Ok)
            && Parse(ClientReader(f), Concat(chunks)) == Prepend(items, Parse(ClientReader(f), t.cache))
  {
    hide Lawful, ClientReader, C.Stepper, Parse, Run, Prepend;
    NothingLost(ClientReader(f), C.Stepper(cfg), Connection(s, []), chunks);
    assert [] + Concat(chunks) == Concat(chunks);
  }

  /** Empty calls, one more than there are messages waiting, bring it to where the server's loop would be. */
  lemma ClientCatchesUp(cfg: C.Config, f: Framer, c: Connection<C.ClientState>, k: nat)
    requires Lawful(ClientReader(f))
    requires k > MessageCount(Parse(ClientReader(f), c.cache).items)
    ensures var t := ClientFeedAll(ClientReader(f), C.Stepper(cfg), c, Nothing(k));
            var o := Run(C.Stepper(cfg), c.state, Parse(ClientReader(f), c.cache).items);
            t.connection.state == o.state && (o.error != Ok ==> t.error == o.error)
            && (t.error == Ok ==> Settled(ClientReader(f), t.connection.cache))
  {
    hide Lawful, ClientReader, C.Stepper, Run, ClientFeedAll, MessageCount;
    Drains(ClientReader(f), C.Stepper(cfg), c, k);
    assert c.cache + [] == c.cache;
    RestIsSettled(ClientReader(f), c.cache);
    hide Parse;
  }

  function ClientReceipts(items: seq<Item<Rtsp>>): seq<CP.Op> {
    if items == [] then [] else [CP.Receive(items[0])] + ClientReceipts(items[1..])
  }

  lemma {:induction false} ClientItemsAreOps(cfg: C.Config, s: C.ClientState, items: seq<Item<Rtsp>>)
    requires Run(C.Stepper(cfg), s, items).error == Ok
    ensures Run(C.Stepper(cfg), s, items).state == CP.RunOps(cfg, s, ClientReceipts(items))
    decreases |items|
  {
    if items != [] {
      C.StepperSteps(cfg, s);
      assert ClientReceipts(items)[1..] == ClientReceipts(items[1..]);
      hide C.Step, C.Stepper;
      ClientItemsAreOps(cfg, C.Step(cfg, s, items[0]).state, items[1..]);
    }
  }
}
