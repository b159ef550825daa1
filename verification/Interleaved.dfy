/** Interleaved framing (section 10.12 of RFC 2326): what one side frames, the other side delivers. */
module Interleaved {
  import opened Bytes
  import opened Messages
  import opened Stream
  import opened ClientStream

  /** `pushInterleavedBinaryData` and `sendRtpRtcp`: only sixteen bits of the length are written. */
  function Frame(channel: byte, payload: seq<byte>): seq<byte> {
    [DOLLAR, channel, |payload| / 0x100 % 0x100, |payload| % 0x100] + payload
  }

  /** An `int` channel number loses all but its low eight bits. */
  function FrameOn(channel: int, payload: seq<byte>): seq<byte> { Frame(channel % 0x100, payload) }

  /** Section 10.12 of RFC 2326: a dollar sign, the channel, two octets of length in network order, the data. */
  predicate IsInterleaved(b: seq<byte>, channel: byte, payload: seq<byte>) {
    |b| >= 4 + |payload| && b[0] == 0x24 && b[1] == channel && b[2] as int * 0x100 + b[3] == |payload|
    && b[4..4 + |payload|] == payload
  }

  /** The receiver takes what section 10.12 says is there, and nothing else. */
  lemma ReadsInterleaved(b: seq<byte>, channel: byte, payload: seq<byte>)
    requires b != [] && b[0] == 0x24
    ensures RtpOverRtsp(b) == Complete(4 + |payload|, (channel, payload)) <==> IsInterleaved(b, channel, payload)
  {
    if |b| >= 4 {
      PacketLength(b[2], b[3]);
      hide BitOr;
    }
  }

  lemma LengthOctets(n: nat)
    requires n < TWO16
    ensures n / 0x100 % 0x100 * 0x100 + n % 0x100 == n
  {
  }

  /** A frame is what section 10.12 says exactly when its length fits in sixteen bits. */
  lemma FrameIsInterleaved(channel: byte, payload: seq<byte>)
    ensures IsInterleaved(Frame(channel, payload), channel, payload) <==> |payload| < TWO16
  {
    var b := Frame(channel, payload);
    assert b[4..] == payload;
    if |payload| < TWO16 {
      LengthOctets(|payload|);
      assert b[4..4 + |payload|] == b[4..];
    }
  }

  datatype Datagram = Datagram(channel: byte, payload: seq<byte>)

  predicate Fits(d: Datagram) { |d.payload| < TWO16 }

  function Framed(ds: seq<Datagram>): seq<byte> {
    if ds == [] then [] else Frame(ds[0].channel, ds[0].payload) + Framed(ds[1..])
  }

  function Packets<M>(ds: seq<Datagram>): seq<Item<M>> {
    if ds == [] then [] else [Packet(ds[0].channel, ds[0].payload)] + Packets(ds[1..])
  }

  lemma WrittenLength(n: nat)
    ensures BitOr(n / 0x100 % 0x100 * 0x100, n % 0x100) == n % TWO16
  {
    PacketLength(n / 0x100 % 0x100, n % 0x100);
    hide BitOr;
    var q, r := n / 0x100, n % 0x100;
    assert n == q / 0x100 * TWO16 + (q % 0x100 * 0x100 + r);
    LowBits(q / 0x100, q % 0x100 * 0x100 + r);
  }

  lemma LowBits(q: nat, r: nat)
    requires r < TWO16
    ensures (q * TWO16 + r) % TWO16 == r
  {
  }

  /** The receiver takes as many octets as the sixteen bits say. */
  lemma FrameRead(channel: byte, payload: seq<byte>, more: seq<byte>)
    ensures var n := |payload| % TWO16;
            RtpOverRtsp(Frame(channel, payload) + more) == Complete(n + 4, (channel, payload[..n]))
  {
    var b := Frame(channel, payload) + more;
    var n := |payload| % TWO16;
    WrittenLength(|payload|);
    assert n <= |payload|;
    assert b[2] == |payload| / 0x100 % 0x100 && b[3] == |payload| % 0x100;
    assert b[4..4 + n] == payload[..n];
    hide BitOr;
  }

  lemma {:induction false} ParseFramed<M(!new)>(read: seq<byte> -> Read<M>, ds: seq<Datagram>)
    requires Lawful(read) && forall d :: d in ds ==> Fits(d)
    ensures Parse(read, Framed(ds)) == Trace(Packets(ds), [], false)
  {
    if ds != [] {
      var d, rest := ds[0], Framed(ds[1..]);
      var b := Framed(ds);
      assert Fits(d);
      FrameRead(d.channel, d.payload, rest);
      ShortLength(d);
      assert b[0] == DOLLAR;
      assert d.payload[..|d.payload|] == d.payload;
      assert b[|d.payload| + 4..] == rest;
      ParseFramed(read, ds[1..]);
      hide Frame, RtpOverRtsp, Lawful;
    }
  }

  lemma ShortLength(d: Datagram)
    requires Fits(d)
    ensures |d.payload| % TWO16 == |d.payload|
  {
  }

  /** One frame is delivered as it was sent exactly when its length fits in sixteen bits. */
  lemma FrameDeliveredExactly<M(!new)>(read: seq<byte> -> Read<M>, d: Datagram)
    requires Lawful(read)
    ensures Parse(read, Frame(d.channel, d.payload)) == Trace([Packet(d.channel, d.payload)], [], false) <==> Fits(d)
  {
    var b := Frame(d.channel, d.payload);
    if Fits(d) {
      ParseFramed(read, [d]);
      assert Framed([d]) == b + Framed([]) == b;
      assert Packets<M>([d]) == [Packet(d.channel, d.payload)];
    } else {
      FrameRead(d.channel, d.payload, []);
      assert b + [] == b && b[0] == DOLLAR;
      hide RtpOverRtsp, Lawful;
      assert Parse(read, b).items[0] == Packet(d.channel, d.payload[..|d.payload| % TWO16]);
    }
  }

  /** Client to server: any datagrams, any fragmentation, exactly those packets and an empty cache. */
  lemma ServerReceivesFramed<S, M(!new)>(
      read: seq<byte> -> Read<M>, step: (S, Item<M>) -> Outcome<S>, s: S, ds: seq<Datagram>, chunks: seq<seq<byte>>)
    requires Lawful(read) && forall d :: d in ds ==> Fits(d)
    requires Concat(chunks) == Framed(ds)
    ensures var f := FeedAll(read, step, Connection(s, []), chunks);
            var o := Run(step, s, Packets(ds));
            f.connection.state == o.state && f.error == o.error
            && (f.error == Ok ==> f.connection.cache == [])
  {
    hide Lawful, Framed, Run;
    assert Parse(read, []) == Trace([], [], false);
    FragmentationIndependent(read, step, Connection(s, []), chunks);
    ParseFramed(read, ds);
    hide Parse;
    assert [] + Concat(chunks) == Framed(ds);
  }

  lemma {:induction false} PacketsAreNoMessages<M>(ds: seq<Datagram>)
    ensures MessageCount<M>(Packets(ds)) == 0
  {
    if ds != [] {
      PacketsAreNoMessages<M>(ds[1..]);
      CountPrepended<M>(Packet(ds[0].channel, ds[0].payload), Packets(ds[1..]));
    }
  }

  lemma {:induction false} CountConcat<M>(a: seq<Item<M>>, b: seq<Item<M>>)
    ensures MessageCount(a + b) == MessageCount(a) + MessageCount(b)
    decreases |a|
  {
    if a == [] {
      assert a + b == b;
    } else {
      CountConcat(a[1..], b);
      assert (a + b)[1..] == a[1..] + b;
    }
  }

  /** Without messages in the stream the client keeps up with the server's loop. */
  lemma {:induction false} PacketsOnly<S, M(!new)>(
      read: seq<byte> -> Read<M>, step: (S, Item<M>) -> Outcome<S>, c: Connection<S>, chunks: seq<seq<byte>>)
    requires Lawful(read)
    requires MessageCount(Parse(read, c.cache + Concat(chunks)).items) == 0
    ensures ClientFeedAll(read, step, c, chunks) == FeedAll(read, step, c, chunks)
    decreases |chunks|
  {
    hide Lawful, Parse, Take, Run, MessageCount;
    if chunks != [] {
      var b, more := c.cache + chunks[0], Concat(chunks[1..]);
      assert b + more == c.cache + Concat(chunks);
      var t := Parse(read, b);
      ParseAppend(read, b, more);
      CountConcat(t.items, Parse(read, t.rest + more).items);
      TakeCases(read, b);
      assert ClientFeed(read, step, c, chunks[0]) == Feed(read, step, c, chunks[0]);
      var f := Feed(read, step, c, chunks[0]);
      if f.error == Ok {
        PacketsOnly(read, step, f.connection, chunks[1..]);
      }
    }
  }

  /** Server to client: the same. */
  lemma ClientReceivesFramed<S, M(!new)>(
      read: seq<byte> -> Read<M>, step: (S, Item<M>) -> Outcome<S>, s: S, ds: seq<Datagram>, chunks: seq<seq<byte>>)
    requires Lawful(read) && forall d :: d in ds ==> Fits(d)
    requires Concat(chunks) == Framed(ds)
    ensures var f := ClientFeedAll(read, step, Connection(s, []), chunks);
            var o := Run(step, s, Packets(ds));
            f.connection.state == o.state && f.error == o.error
            && (f.error == Ok ==> f.connection.cache == [])
  {
    hide Lawful, Framed, Run, Parse, FeedAll, ClientFeedAll;
    ServerReceivesFramed(read, step, s, ds, chunks);
    ParseFramed(read, ds);
    assert [] + Concat(chunks) == Framed(ds);
    PacketsAreNoMessages<M>(ds);
    PacketsOnly(read, step, Connection(s, []), chunks);
  }
}
