/** From the datagrams one side frames to the callbacks of the other, whatever the network does with the octets. */
module Delivery {
  import opened Bytes
  import opened Messages
  import opened Stream
  import opened ClientStream
  import opened Framing
  import opened Interleaved
  import C = ClientSpec
  import S = ServerSpec

  // Towards the client

  /** The track uses the channel, for RTP or for RTCP. */
  predicate Uses(track: C.Track, channel: byte) {
    channel == track.1.interleaved.0 || channel == track.1.interleaved.1
  }

  /** The first track that uses the channel, or the number of tracks. */
  function TrackOf(tracks: seq<C.Track>, channel: byte): (k: nat)
    ensures k <= |tracks| && (k < |tracks| ==> Uses(tracks[k], channel))
    ensures forall i :: 0 <= i < k ==> !Uses(tracks[i], channel)
  {
    if tracks == [] || Uses(tracks[0], channel) then 0 else 1 + TrackOf(tracks[1..], channel)
  }

  const RTP: nat := 0
  const RTCP: nat := 1

  /** What one datagram is called back as: RTP exactly on the first channel of its track; nothing without a track. */
  function CallbackFor(tracks: seq<C.Track>, d: Datagram): seq<C.ClientEvent> {
    var k := TrackOf(tracks, d.channel);
    if k == |tracks| then []
    else [C.RtpReceived(tracks[k].0, if d.channel == tracks[k].1.interleaved.0 then RTP else RTCP, d.payload)]
  }

  function CallbacksFor(tracks: seq<C.Track>, ds: seq<Datagram>): seq<C.ClientEvent> {
    if ds == [] then [] else CallbackFor(tracks, ds[0]) + CallbacksFor(tracks, ds[1..])
  }

  lemma {:induction false} PacketCalledBack(s: C.ClientState, tracks: seq<C.Track>, d: Datagram)
    ensures C.HandlePacket(s, tracks, d.channel, d.payload) == s.(log := s.log + CallbackFor(tracks, d))
    decreases |tracks|
  {
    if tracks == [] {
      assert s.log + [] == s.log;
    } else if !Uses(tracks[0], d.channel) {
      PacketCalledBack(s, tracks[1..], d);
    }
  }

  lemma CallbackStep(cfg: C.Config, s: C.ClientState, d: Datagram)
    ensures C.Step(cfg, s, Packet(d.channel, d.payload)) == Outcome(s.(log := s.log + CallbackFor(s.transports, d)), Ok)
  {
    hide C.HandleResponse, C.HandleAsked, C.HandlePacket, CallbackFor;
    PacketCalledBack(s, s.transports, d);
  }

  lemma RunsNothing<T, M>(step: (T, Item<M>) -> Outcome<T>, s: T)
    ensures Run(step, s, []) == Outcome(s, Ok)
  {
  }

  lemma RunFirst<T, M>(step: (T, Item<M>) -> Outcome<T>, s: T, item: Item<M>, t: T, rest: seq<Item<M>>)
    requires step(s, item) == Outcome(t, Ok)
    ensures Run(step, s, [item] + rest) == Run(step, t, rest)
  {
    assert ([item] + rest)[1..] == rest;
  }

  lemma {:induction false} PacketsCalledBack(cfg: C.Config, s: C.ClientState, ds: seq<Datagram>)
    ensures Run(C.Stepper(cfg), s, Packets(ds)) == Outcome(s.(log := s.log + CallbacksFor(s.transports, ds)), Ok)
    decreases |ds|
  {
    hide CallbackFor, C.HandlePacket, C.Step, C.Stepper, Run;
    if ds == [] {
      RunsNothing(C.Stepper(cfg), s);
      assert s.log + [] == s.log;
    } else {
      var d := ds[0];
      var t := s.(log := s.log + CallbackFor(s.transports, d));
      C.StepperSteps(cfg, s);
      CallbackStep(cfg, s, d);
      RunFirst(C.Stepper(cfg), s, Packet(d.channel, d.payload), t, Packets(ds[1..]));
      PacketsCalledBack(cfg, t, ds[1..]);
      assert s.log + CallbackFor(s.transports, d) + CallbacksFor(s.transports, ds[1..])
          == s.log + (CallbackFor(s.transports, d) + CallbacksFor(s.transports, ds[1..]));
    }
  }

  /**
   * Datagrams framed by the server and fed in any chunks: one callback for each whose channel some track
   * uses, in order, none for the others, and nothing else changes.
   */
  lemma ClientDelivers(cfg: C.Config, f: Framer, s: C.ClientState, ds: seq<Datagram>, chunks: seq<seq<byte>>)
    requires Lawful(ClientReader(f)) && forall d :: d in ds ==> Fits(d)
    requires Concat(chunks) == Framed(ds)
    ensures ClientFeedAll(ClientReader(f), C.Stepper(cfg), Connection(s, []), chunks)
            == Fed(Connection(s.(log := s.log + CallbacksFor(s.transports, ds)), []), Ok)
  {
    hide Lawful, ClientReader, C.Stepper, ClientFeedAll, Run, Framed, CallbacksFor;
    ClientReceivesFramed(ClientReader(f), C.Stepper(cfg), s, ds, chunks);
    PacketsCalledBack(cfg, s, ds);
  }

  // Towards the server

  function Deliveries(ds: seq<Datagram>): seq<S.Event> {
    if ds == [] then [] else [S.Delivered(ds[0].channel, ds[0].payload)] + Deliveries(ds[1..])
  }

  /** What the application makes of the packets, one after the other. */
  function AfterPackets<A>(onPacket: (A, byte, seq<byte>) -> A, app: A, ds: seq<Datagram>): A
    decreases |ds|
  {
    if ds == [] then app else AfterPackets(onPacket, onPacket(app, ds[0].channel, ds[0].payload), ds[1..])
  }

  lemma PacketStep<A>(h: S.Handlers<A>, s: S.ServerState<A>, d: Datagram)
    ensures S.Step(h, s, Packet(d.channel, d.payload))
            == Outcome(s.(app := h.onPacket(s.app, d.channel, d.payload),
                          log := s.log + [S.Delivered(d.channel, d.payload)]), Ok)
  {
    hide S.HandleRequest, S.HandleResponse;
  }

  lemma {:induction false} PacketsHandled<A>(h: S.Handlers<A>, s: S.ServerState<A>, ds: seq<Datagram>)
    ensures Run(S.Stepper(h), s, Packets(ds))
            == Outcome(s.(app := AfterPackets(h.onPacket, s.app, ds), log := s.log + Deliveries(ds)), Ok)
    decreases |ds|
  {
    hide S.Stepper, S.Step, Run;
    if ds == [] {
      RunsNothing(S.Stepper(h), s);
      assert s.log + [] == s.log;
    } else {
      var d := ds[0];
      var t := s.(app := h.onPacket(s.app, d.channel, d.payload), log := s.log + [S.Delivered(d.channel, d.payload)]);
      S.StepperSteps(h, s);
      PacketStep(h, s, d);
      RunFirst(S.Stepper(h), s, Packet(d.channel, d.payload), t, Packets(ds[1..]));
      PacketsHandled(h, t, ds[1..]);
      assert t.log + Deliveries(ds[1..]) == s.log + ([S.Delivered(d.channel, d.payload)] + Deliveries(ds[1..]));
    }
  }

  /** Datagrams framed by the client and fed in any chunks: every one is handed over, in order. */
  lemma ServerDelivers<A>(h: S.Handlers<A>, f: Framer, s: S.ServerState<A>, ds: seq<Datagram>,
                          chunks: seq<seq<byte>>)
    requires Lawful(ServerReader(f)) && forall d :: d in ds ==> Fits(d)
    requires Concat(chunks) == Framed(ds)
    ensures FeedAll(ServerReader(f), S.Stepper(h), Connection(s, []), chunks)
            == Fed(Connection(s.(app := AfterPackets(h.onPacket, s.app, ds), log := s.log + Deliveries(ds)), []), Ok)
  {
    hide Lawful, ServerReader, S.Stepper, FeedAll, Run, Framed, Deliveries, AfterPackets;
    ServerReceivesFramed(ServerReader(f), S.Stepper(h), s, ds, chunks);
    PacketsHandled(h, s, ds);
  }
}
