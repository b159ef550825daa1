/** RTP packets for one H.264 NAL unit: single packets and FU-A fragments (section 5.8 of RFC 6184). */
module H264Packer {
  import opened Bytes
  import opened AnnexB
  import opened Options

  const MAX_PAYLOAD: nat := 1400

  // The octets the start code test reads are there
  predicate Readable(frame: seq<byte>) {
    |frame| >= 1
    && (frame[0] == 0 ==> |frame| >= 2 && (frame[1] == 0 ==> |frame| >= 3 && (frame[2] == 0 ==> |frame| >= 4)))
  }

  function RemoveStartCode(frame: seq<byte>): (nal: seq<byte>)
    requires Readable(frame)
  {
    if frame[0] == 0 && frame[1] == 0 then
      if frame[2] == 1 then frame[3..]
      else if frame[2] == 0 && frame[3] == 1 then frame[4..]
      else frame
    else frame
  }

  /** A frame of the splitter loses exactly its start code. */
  lemma StartCodeRemoved(frame: seq<byte>)
    requires StartsWithCode(frame) && Readable(frame)
    ensures frame == [0, 0, 1] + RemoveStartCode(frame) || frame == [0, 0, 0, 1] + RemoveStartCode(frame)
  {
  }

  function BigEndian16(n: nat): (s: seq<byte>)
    ensures |s| == 2
  {
    [n / 0x100 % 256, n % 256]
  }

  function BigEndian32(n: nat): (s: seq<byte>)
    ensures |s| == 4
  {
    [n / 0x100_0000 % 256, n / 0x1_0000 % 256, n / 0x100 % 256, n % 256]
  }

  /** The twelve octet RTP header: version 2, no padding, extension or CSRC. */
  function Header(marker: bool, pt: byte, sequence: nat, timestamp: nat, ssrc: nat): (h: seq<byte>)
    ensures |h| == 12
  {
    [0x80, BitOr(if marker then 0x80 else 0, pt) % 256]
    + BigEndian16(sequence) + BigEndian32(timestamp) + BigEndian32(ssrc)
  }

  // `& 0xE0 | 0x1C` and `& 0x1F` on the NAL header; `& 0x3F` with `| 0x80` or `| 0x40` on the FU header
  function Indicator(h: byte): byte { h / 32 * 32 + 0x1C }
  function TypeBits(h: byte): byte { h % 32 }
  function StartHeader(fu: byte): byte { fu % 64 + 0x80 }
  function MiddleHeader(fu: byte): byte { fu % 64 }
  function EndHeader(fu: byte): byte { fu % 64 + 0x40 }

  /** The low six bits, all that later fragment headers read of an earlier one. */
  predicate SameType(fu: byte, t: byte) { fu % 64 == t % 64 }

  lemma SameTypeReflexive(t: byte)
    ensures SameType(t, t)
  {
  }

  lemma FragmentHeaders(fu: byte, t: byte)
    requires SameType(fu, t)
    ensures StartHeader(fu) == StartHeader(t) && SameType(StartHeader(fu), t)
    ensures MiddleHeader(fu) == MiddleHeader(t) && SameType(MiddleHeader(fu), t)
    ensures EndHeader(fu) == EndHeader(t)
  {
  }

  function PacketCount(n: nat): nat {
    if n == 0 then 0 else if n <= MAX_PAYLOAD then 1 else (n - 2) / MAX_PAYLOAD + 1
  }

  lemma NothingToSend()
    ensures PacketCount(0) == 0
  {
  }

  function Min(a: nat, b: nat): nat { if a < b then a else b }

  /** The payload of packet `i`, in closed form; a NAL of 1401 octets gets a start fragment and no end. */
  function Payload(nal: seq<byte>, i: nat): seq<byte>
    requires i < PacketCount(|nal|)
  {
    if |nal| <= MAX_PAYLOAD then nal
    else
      var header := if i == 0 then StartHeader(TypeBits(nal[0]))
                    else if i == PacketCount(|nal|) - 1 then EndHeader(TypeBits(nal[0]))
                    else MiddleHeader(TypeBits(nal[0]));
      [Indicator(nal[0]), header] + nal[1 + MAX_PAYLOAD * i..Min(|nal|, 1 + MAX_PAYLOAD * (i + 1))]
  }

  predicate Marked(n: nat, i: nat) {
    i == PacketCount(n) - 1 && n != MAX_PAYLOAD + 1
  }

  /** Consecutive 16-bit sequence numbers, with wrap. */
  function Numbered(first: nat, i: nat): (n: nat)
    ensures n < TWO16
  {
    (first + i) % TWO16
  }

  function Increment16(n: nat): nat { if n + 1 == TWO16 then 0 else n + 1 }

  lemma FirstNumber(first: nat)
    requires first < TWO16
    ensures Numbered(first, 0) == first
  {
  }

  lemma NextNumber(first: nat, i: nat)
    ensures Increment16(Numbered(first, i)) == Numbered(first, i + 1)
  {
  }

  datatype Stream = Stream(pt: byte, ssrc: nat, timestamp: nat)

  function Packet(nal: seq<byte>, i: nat, sequence: nat, s: Stream): seq<byte>
    requires i < PacketCount(|nal|)
  {
    Header(Marked(|nal|, i), s.pt, Numbered(sequence, i), s.timestamp, s.ssrc) + Payload(nal, i)
  }

  function Packets(nal: seq<byte>, sequence: nat, s: Stream): (packets: seq<seq<byte>>)
    ensures |packets| == PacketCount(|nal|)
  {
    seq(PacketCount(|nal|), i requires 0 <= i < PacketCount(|nal|) => Packet(nal, i, sequence, s))
  }

  class H264RtpPacker {
    var sequence: nat
    const ssrc: nat
    const pt: byte
    var emitted: seq<seq<byte>>  // what the packet callback received

    constructor (sequence: nat, pt: byte, ssrc: nat)
      requires sequence < TWO16 && ssrc < TWO32
      ensures this.sequence == sequence && this.pt == pt && this.ssrc == ssrc && emitted == []
    {
      this.sequence, this.pt, this.ssrc := sequence, pt, ssrc;
      emitted := [];
    }

    method WriteHeader(rtp: array<byte>, marker: bool, timestamp: nat)
      requires rtp.Length == 1500
      modifies rtp
      ensures rtp[..12] == Header(marker, pt, sequence, timestamp, ssrc)
    {
      rtp[0] := 0x80;
      rtp[1] := BitOr(if marker then 0x80 else 0, pt) % 256;
      rtp[2], rtp[3] := sequence / 0x100 % 256, sequence % 256;
      rtp[4], rtp[5] := timestamp / 0x100_0000 % 256, timestamp / 0x1_0000 % 256;
      rtp[6], rtp[7] := timestamp / 0x100 % 256, timestamp % 256;
      rtp[8], rtp[9] := ssrc / 0x100_0000 % 256, ssrc / 0x1_0000 % 256;
      rtp[10], rtp[11] := ssrc / 0x100 % 256, ssrc % 256;
    }

    method Copy(rtp: array<byte>, at: nat, data: seq<byte>)
      requires rtp.Length == 1500 && at + |data| <= 1500
      modifies rtp
      ensures rtp[..at + |data|] == old(rtp[..at]) + data
    {
      forall j | 0 <= j < |data| {
        rtp[at + j] := data[j];
      }
      assert rtp[..at] == old(rtp[..at]);
    }

    /** The RTP header with its marker, the fragment header if any, the data; then the callback. */
    method Send(rtp: array<byte>, marker: bool, timestamp: nat, fragment: seq<byte>, data: seq<byte>)
      requires rtp.Length == 1500 && 12 + |fragment| + |data| <= 1500
      modifies rtp, `emitted
      ensures emitted == old(emitted) + [Header(marker, pt, sequence, timestamp, ssrc) + fragment + data]
    {
      hide Header;
      WriteHeader(rtp, marker, timestamp);
      Copy(rtp, 12, fragment);
      Copy(rtp, 12 + |fragment|, data);
      emitted := emitted + [rtp[..12 + |fragment| + |data|]];
    }

    /** One NAL unit, through one 1500-octet buffer; nothing is sent for a frame that is only a start code. */
    method Pack(frame: seq<byte>, timestamp: nat)
      requires Readable(frame) && sequence < TWO16
      modifies this
      ensures var nal := RemoveStartCode(frame);
              emitted == old(emitted) + Packets(nal, old(sequence), Stream(pt, ssrc, timestamp))
              && sequence == Numbered(old(sequence), PacketCount(|nal|))
    {
      hide Header, Packets, PacketCount, Marked, Payload, Packet, Indicator, BitOr, RemoveStartCode, Readable;
      var rtp := new byte[1500];
      var nal := RemoveStartCode(frame);
      var p, len := 0, |nal|;
      var start := true;
      var h: byte := *;  // after a mere start code, the octet behind the frame: not used
      if nal != [] { h := nal[0]; }
      var indicator := Indicator(h);
      var fuHeader := TypeBits(h);
      SameTypeReflexive(fuHeader);
      NothingToSend();
      hide Numbered, Increment16, SameType, StartHeader, MiddleHeader, EndHeader, TypeBits;
      ghost var k := 0;
      ghost var n, first, s := |nal|, sequence, Stream(pt, ssrc, timestamp);
      ghost var packets := Packets(nal, first, s);
      assert sequence == Numbered(first, 0) by { FirstNumber(first); }
      while len > 0
        invariant p + len == n && 0 <= len && SameType(fuHeader, TypeBits(h))
        invariant start <==> k == 0
        invariant k == 0 ==> p == 0
        invariant k > 0 ==> n > MAX_PAYLOAD && p == 1 + MAX_PAYLOAD * k
        invariant k <= |packets| == PacketCount(n) && (len == 0 ==> k == |packets|)
        invariant emitted == old(emitted) + packets[..k]
        invariant sequence == Numbered(first, k)
      {
        PacketAt(nal, k, len, first, s);
        assert p + len == |nal|;
        assert nal[p..p + len] == nal[p..];
        NextNumber(first, k);
        FragmentHeaders(fuHeader, TypeBits(h));
        OneMore(old(emitted), packets, k);
        if len <= MAX_PAYLOAD {
          if start {
            Send(rtp, true, timestamp, [], nal[p..p + len]);
          } else {
            fuHeader := EndHeader(fuHeader);
            Send(rtp, true, timestamp, [indicator, fuHeader], nal[p..p + len]);
          }
          sequence := Increment16(sequence);
          assert packets[..k + 1] == packets;
          return;
        }
        if start {
          fuHeader := StartHeader(fuHeader);
          p := p + 1;
          len := len - 1;
          start := false;
        } else {
          fuHeader := MiddleHeader(fuHeader);
        }
        Send(rtp, false, timestamp, [indicator, fuHeader], nal[p..p + MAX_PAYLOAD]);
        sequence := Increment16(sequence);
        len := len - MAX_PAYLOAD;
        p := p + MAX_PAYLOAD;
        k := k + 1;
      }
      assert packets[..k] == packets;
    }
  }

  lemma OneMore(before: seq<seq<byte>>, packets: seq<seq<byte>>, k: nat)
    requires k < |packets|
    ensures before + packets[..k] + [packets[k]] == before + packets[..k + 1]
  {
  }

  /** What the loop is about to send, as a packet of the closed form. */
  lemma PacketAt(nal: seq<byte>, k: nat, len: nat, first: nat, s: Stream)
    requires 0 < len <= |nal|
    requires if k == 0 then len == |nal| else |nal| > MAX_PAYLOAD && |nal| == 1 + MAX_PAYLOAD * k + len
    ensures var packets, p, number := Packets(nal, first, s), |nal| - len, Numbered(first, k);
            k < |packets| == PacketCount(|nal|)
            && packets[..k] + [packets[k]] == packets[..k + 1]
            && (len <= MAX_PAYLOAD ==> |packets| == k + 1)
            && (len > MAX_PAYLOAD ==> (|packets| == k + 1 <==> k == 0 && len == MAX_PAYLOAD + 1))
            && packets[k]
               == if len <= MAX_PAYLOAD then
                    Header(true, s.pt, number, s.timestamp, s.ssrc)
                    + (if k == 0 then [] else [Indicator(nal[0]), EndHeader(TypeBits(nal[0]))]) + nal[p..]
                  else if k == 0 then
                    Header(false, s.pt, number, s.timestamp, s.ssrc)
                    + [Indicator(nal[0]), StartHeader(TypeBits(nal[0]))] + nal[1..1 + MAX_PAYLOAD]
                  else
                    Header(false, s.pt, number, s.timestamp, s.ssrc)
                    + [Indicator(nal[0]), MiddleHeader(TypeBits(nal[0]))] + nal[p..p + MAX_PAYLOAD]
  {
    hide Header;
    CountAt(|nal|, k, len);
    if len > MAX_PAYLOAD && k > 0 { assert |nal| != MAX_PAYLOAD + 1; }
    assert nal[|nal| - len..|nal|] == nal[|nal| - len..];
  }

  /** Where packet `k` stands when `len` octets are left to send. */
  lemma CountAt(n: nat, k: nat, len: nat)
    requires 0 < len <= n
    requires if k == 0 then len == n else n > MAX_PAYLOAD && n == 1 + MAX_PAYLOAD * k + len
    ensures k < PacketCount(n)
    ensures len <= MAX_PAYLOAD ==> k == PacketCount(n) - 1 && n != MAX_PAYLOAD + 1
    ensures len > MAX_PAYLOAD ==> (k == PacketCount(n) - 1 <==> k == 0 && len == MAX_PAYLOAD + 1)
  {
    if k > 0 {
      assert n - 2 == MAX_PAYLOAD * k + (len - 1);
    }
  }

  // A receiver, after section 5.8 of RFC 6184

  // The unit types of section 5.2 that stand for themselves; 24 to 29 announce aggregates and fragments
  predicate SingleUnit(h: byte) { 1 <= h % 32 <= 23 }

  predicate IsFragment(p: seq<byte>) { |p| > 14 && p[12] % 32 == 28 }

  predicate MarkerBit(p: seq<byte>)
    requires |p| > 12
  {
    p[1] >= 0x80
  }

  predicate StartBit(p: seq<byte>)
    requires IsFragment(p)
  {
    p[13] >= 0x80
  }

  predicate EndBit(p: seq<byte>)
    requires IsFragment(p)
  {
    p[13] / 0x40 % 2 == 1
  }

  function Number(p: seq<byte>): nat
    requires |p| > 12
  {
    p[2] as int * 0x100 + p[3]
  }

  /** Fragments of one NAL unit: start bit first, end bit and marker last, numbers consecutive. */
  predicate Complete(packets: seq<seq<byte>>) {
    |packets| >= 2
    && (forall i :: 0 <= i < |packets| ==> IsFragment(packets[i]))
    && (forall i :: 0 <= i < |packets| ==> (StartBit(packets[i]) <==> i == 0))
    && (forall i :: 0 <= i < |packets| ==> (EndBit(packets[i]) <==> i == |packets| - 1))
    && (forall i :: 0 <= i < |packets| ==> (MarkerBit(packets[i]) <==> i == |packets| - 1))
    && (forall i :: 0 <= i < |packets| - 1 ==> Number(packets[i + 1]) == (Number(packets[i]) + 1) % TWO16)
  }

  predicate AllFragments(packets: seq<seq<byte>>) {
    forall p :: p in packets ==> IsFragment(p)
  }

  function Bodies(packets: seq<seq<byte>>): seq<byte>
    requires AllFragments(packets)
  {
    if packets == [] then [] else assert packets[0] in packets; packets[0][14..] + Bodies(packets[1..])
  }

  function Depacketize(packets: seq<seq<byte>>): Option<seq<byte>> {
    if |packets| == 1 && |packets[0]| > 12 && SingleUnit(packets[0][12]) && MarkerBit(packets[0]) then
      Some(packets[0][12..])
    else if Complete(packets) then
      Some([packets[0][12] / 32 * 32 + packets[0][13] % 32] + Bodies(packets))
    else
      None
  }

  lemma MarkerOctet(pt: byte)
    requires pt < 0x80
    ensures BitOr(0x80, pt) == 0x80 + pt && BitOr(0, pt) == pt
  {
    assert Pow2(7) == 0x80;
    BitOrDisjoint(1, pt, 7);
    BitOrZero(pt);
  }

  lemma HeaderOctets(marker: bool, pt: byte, sequence: nat, timestamp: nat, ssrc: nat)
    requires pt < 0x80 && sequence < TWO16
    ensures var h := Header(marker, pt, sequence, timestamp, ssrc);
            h[1] == (if marker then 0x80 + pt else pt) && h[2] == sequence / 0x100 && h[3] == sequence % 0x100
  {
    hide BitOr, BigEndian16, BigEndian32;
    MarkerOctet(pt);
    SixteenBits(sequence);
  }

  lemma SixteenBits(n: nat)
    requires n < TWO16
    ensures BigEndian16(n) == [n / 0x100, n % 0x100]
  {
    TwoOctets(n);
  }

  lemma HeaderReads(marker: bool, pt: byte, sequence: nat, timestamp: nat, ssrc: nat, rest: seq<byte>)
    requires pt < 0x80 && sequence < TWO16 && rest != []
    ensures var p := Header(marker, pt, sequence, timestamp, ssrc) + rest;
            |p| == 12 + |rest| && p[12..] == rest && p[12] == rest[0]
            && (MarkerBit(p) <==> marker) && Number(p) == sequence
  {
    hide Header;
    HeaderOctets(marker, pt, sequence, timestamp, ssrc);
    TwoOctets(sequence);
  }

  lemma TwoOctets(n: nat)
    requires n < TWO16
    ensures n / 0x100 % 0x100 == n / 0x100 && n == n / 0x100 * 0x100 + n % 0x100
  {
  }

  /** Packet count above the limit: the ceiling of (n - 1) / 1400. */
  lemma CountIsCeiling(n: nat)
    requires n > 1400
    ensures (PacketCount(n) - 1) * 1400 < n - 1 <= PacketCount(n) * 1400
  {
  }

  lemma FragmentReads(nal: seq<byte>, i: nat, sequence: nat, s: Stream)
    requires |nal| > MAX_PAYLOAD && i < PacketCount(|nal|) && s.pt < 0x80
    ensures var p := Packet(nal, i, sequence, s);
            IsFragment(p) && |p| <= 1414
            && (StartBit(p) <==> i == 0)
            && (EndBit(p) <==> i == PacketCount(|nal|) - 1 && i != 0)
            && (MarkerBit(p) <==> Marked(|nal|, i))
            && Number(p) == Numbered(sequence, i)
            && p[12] / 32 * 32 + p[13] % 32 == nal[0]
            && p[14..] == nal[1 + MAX_PAYLOAD * i..Min(|nal|, 1 + MAX_PAYLOAD * (i + 1))]
  {
    hide Header, BitOr, Numbered, PacketCount, Payload, Marked;
    var payload := Payload(nal, i);
    PayloadReads(nal, i);
    HeaderReads(Marked(|nal|, i), s.pt, Numbered(sequence, i), s.timestamp, s.ssrc, payload);
    var p := Packet(nal, i, sequence, s);
    assert p[13] == p[12..][1] && p[14..] == p[12..][2..];
  }

  lemma PayloadReads(nal: seq<byte>, i: nat)
    requires |nal| > MAX_PAYLOAD && i < PacketCount(|nal|)
    ensures var f := Payload(nal, i);
            2 < |f| <= 1402 && f[0] % 32 == 28
            && (f[1] >= 0x80 <==> i == 0)
            && (f[1] / 0x40 % 2 == 1 <==> i == PacketCount(|nal|) - 1 && i != 0)
            && f[0] / 32 * 32 + f[1] % 32 == nal[0]
            && f[2..] == nal[1 + MAX_PAYLOAD * i..Min(|nal|, 1 + MAX_PAYLOAD * (i + 1))]
  {
    SliceBounds(|nal|, i);
    hide PacketCount;
  }

  lemma SliceBounds(n: nat, i: nat)
    requires n > MAX_PAYLOAD && i < PacketCount(n)
    ensures 1 + MAX_PAYLOAD * i < n
    ensures i < PacketCount(n) - 1 ==> 1 + MAX_PAYLOAD * (i + 1) < n
    ensures i == PacketCount(n) - 1 ==> n <= 1 + MAX_PAYLOAD * (i + 1)
  {
    CountIsCeiling(n);
  }

  lemma BodiesCons(p: seq<byte>, rest: seq<seq<byte>>)
    requires IsFragment(p) && AllFragments(rest)
    ensures AllFragments([p] + rest) && Bodies([p] + rest) == p[14..] + Bodies(rest)
  {
    hide IsFragment;
    assert ([p] + rest)[1..] == rest;
  }

  lemma NoBodies(packets: seq<seq<byte>>)
    ensures AllFragments(packets[|packets|..]) && Bodies(packets[|packets|..]) == []
  {
  }

  lemma {:induction false} BodiesFrom(nal: seq<byte>, i: nat, sequence: nat, s: Stream)
    requires |nal| > MAX_PAYLOAD && i <= PacketCount(|nal|) && s.pt < 0x80
    ensures var packets := Packets(nal, sequence, s);
            AllFragments(packets[i..])
            && Bodies(packets[i..]) == nal[Min(|nal|, 1 + MAX_PAYLOAD * i)..]
    decreases PacketCount(|nal|) - i
  {
    hide Header, BitOr, Numbered, PacketCount, Payload, Packet, Marked, Bodies, AllFragments, IsFragment, Min;
    var packets := Packets(nal, sequence, s);
    if i == |packets| {
      NoBodies(packets);
      PastTheEnd(|nal|);
    } else {
      BodiesFrom(nal, i + 1, sequence, s);
      FragmentReads(nal, i, sequence, s);
      SliceBounds(|nal|, i);
      PiecesJoin(nal, i);
      assert packets[i] == Packet(nal, i, sequence, s);
      assert packets[i..] == [packets[i]] + packets[i + 1..];
      BodiesCons(packets[i], packets[i + 1..]);
    }
  }

  lemma PastTheEnd(n: nat)
    requires n > MAX_PAYLOAD
    ensures Min(n, 1 + MAX_PAYLOAD * PacketCount(n)) == n
  {
    CountIsCeiling(n);
  }

  lemma PiecesJoin(nal: seq<byte>, i: nat)
    requires 1 + MAX_PAYLOAD * i < |nal|
    ensures var from, to := Min(|nal|, 1 + MAX_PAYLOAD * i), Min(|nal|, 1 + MAX_PAYLOAD * (i + 1));
            from == 1 + MAX_PAYLOAD * i <= to && nal[from..to] + nal[to..] == nal[from..]
  {
  }

  /** The fragments of every longer NAL unit carry exactly its octets, for 1401 octets too. */
  lemma FragmentsCarryNal(nal: seq<byte>, sequence: nat, s: Stream)
    requires |nal| > 1400 && s.pt < 0x80
    ensures var packets := Packets(nal, sequence, s);
            AllFragments(packets)
            && [packets[0][12] / 32 * 32 + packets[0][13] % 32] + Bodies(packets) == nal
  {
    var packets := Packets(nal, sequence, s);
    BodiesFrom(nal, 0, sequence, s);
    FragmentReads(nal, 0, sequence, s);
    hide Header, BitOr, Numbered, Payload, Packet;
    assert packets[0] == Packet(nal, 0, sequence, s);
    assert packets[0..] == packets;
  }

  lemma CompleteExactly(nal: seq<byte>, sequence: nat, s: Stream)
    requires |nal| > 1400 && s.pt < 0x80
    ensures Complete(Packets(nal, sequence, s)) <==> |nal| != 1401
  {
    var packets := Packets(nal, sequence, s);
    CountIsCeiling(|nal|);
    if |nal| == 1401 {
      assert |packets| == 1;
    } else {
      hide *;
      assert |packets| >= 2 by { CountIsCeiling(|nal|); TwoAtLeast(|nal|); }
      forall i | 0 <= i < |packets|
        ensures GoodFragment(packets, i, sequence)
      {
        GoodAt(nal, i, sequence, s);
      }
      GoodIsComplete(packets, sequence);
    }
  }

  lemma TwoAtLeast(n: nat)
    requires n > 1401
    ensures PacketCount(n) >= 2
  {
  }

  ghost predicate GoodFragment(packets: seq<seq<byte>>, i: nat, sequence: nat)
    requires i < |packets|
  {
    var p := packets[i];
    IsFragment(p) && (StartBit(p) <==> i == 0) && (EndBit(p) <==> i == |packets| - 1)
    && (MarkerBit(p) <==> i == |packets| - 1) && Number(p) == Numbered(sequence, i)
  }

  lemma GoodAt(nal: seq<byte>, i: nat, sequence: nat, s: Stream)
    requires |nal| > 1401 && i < PacketCount(|nal|) && s.pt < 0x80
    ensures GoodFragment(Packets(nal, sequence, s), i, sequence)
  {
    FragmentReads(nal, i, sequence, s);
    TwoAtLeast(|nal|);
    hide Header, BitOr, Numbered, PacketCount, Payload, StartBit, EndBit, MarkerBit, Number, IsFragment, Packet;
    assert Packets(nal, sequence, s)[i] == Packet(nal, i, sequence, s);
  }

  lemma GoodIsComplete(packets: seq<seq<byte>>, sequence: nat)
    requires |packets| >= 2
    requires forall i :: 0 <= i < |packets| ==> GoodFragment(packets, i, sequence)
    ensures Complete(packets)
  {
    hide StartBit, EndBit, MarkerBit, Number, Numbered;
    forall i | 0 <= i < |packets|
      ensures IsFragment(packets[i]) && (StartBit(packets[i]) <==> i == 0)
      ensures (EndBit(packets[i]) <==> i == |packets| - 1) && (MarkerBit(packets[i]) <==> i == |packets| - 1)
    {
      assert GoodFragment(packets, i, sequence);
    }
    forall i | 0 <= i < |packets| - 1
      ensures Number(packets[i + 1]) == (Number(packets[i]) + 1) % TWO16
    {
      assert GoodFragment(packets, i, sequence) && GoodFragment(packets, i + 1, sequence);
      Successor(sequence, i);
    }
  }

  lemma Successor(first: nat, i: nat)
    ensures Numbered(first, i + 1) == (Numbered(first, i) + 1) % TWO16
  {
  }

  /**
   * Reassembly gives the NAL unit back exactly when there is one and the packer neither left a fragment
   * train without its end (1401 octets) nor sent unfragmented a unit whose type is not a single NAL unit's.
   */
  lemma ReassemblyExactly(nal: seq<byte>, sequence: nat, s: Stream)
    requires s.pt < 0x80
    ensures Depacketize(Packets(nal, sequence, s)) == Some(nal)
            <==> nal != [] && |nal| != 1401 && (|nal| > 1400 || SingleUnit(nal[0]))
  {
    var packets := Packets(nal, sequence, s);
    hide BitOr, Header, Numbered;
    if nal == [] {
      assert packets == [];
    } else if |nal| <= 1400 {
      HeaderReads(true, s.pt, Numbered(sequence, 0), s.timestamp, s.ssrc, nal);
      assert packets == [Packet(nal, 0, sequence, s)];
    } else {
      FragmentsCarryNal(nal, sequence, s);
      CompleteExactly(nal, sequence, s);
      FragmentReads(nal, 0, sequence, s);
      hide Packet, Complete, Payload;
      assert packets[0] == Packet(nal, 0, sequence, s);
    }
  }

  // The fixed header of section 5.1 of RFC 3550, as a receiver reads it

  function Version(p: seq<byte>): nat
    requires |p| >= 12
  {
    p[0] / 0x40
  }

  /** Neither padding, nor an extension, nor contributing sources. */
  predicate Plain(p: seq<byte>)
    requires |p| >= 12
  {
    p[0] / 0x20 % 2 == 0 && p[0] / 0x10 % 2 == 0 && p[0] % 0x10 == 0
  }

  function PayloadType(p: seq<byte>): nat
    requires |p| >= 12
  {
    p[1] % 0x80
  }

  function Word32(p: seq<byte>, i: nat): nat
    requires i + 4 <= |p|
  {
    ((p[i] as int * 0x100 + p[i + 1]) * 0x100 + p[i + 2]) * 0x100 + p[i + 3]
  }

  function Timestamp(p: seq<byte>): nat
    requires |p| >= 12
  {
    Word32(p, 4)
  }

  function Source(p: seq<byte>): nat
    requires |p| >= 12
  {
    Word32(p, 8)
  }

  lemma ThirtyTwoBits(n: nat)
    requires n < TWO32
    ensures Word32(BigEndian32(n), 0) == n
  {
    var a, b, c := n / 0x100, n / 0x1_0000, n / 0x100_0000;
    assert a / 0x100 == b && b / 0x100 == c;
  }

  lemma HeaderFields(marker: bool, pt: byte, sequence: nat, timestamp: nat, ssrc: nat, rest: seq<byte>)
    requires pt < 0x80 && sequence < TWO16 && timestamp < TWO32 && ssrc < TWO32
    ensures var p := Header(marker, pt, sequence, timestamp, ssrc) + rest;
            Version(p) == 2 && Plain(p) && PayloadType(p) == pt && Timestamp(p) == timestamp && Source(p) == ssrc
  {
    hide BitOr, BigEndian16, BigEndian32;
    MarkerOctet(pt);
    ThirtyTwoBits(timestamp);
    ThirtyTwoBits(ssrc);
    var p := Header(marker, pt, sequence, timestamp, ssrc) + rest;
    assert p[4..8] == BigEndian32(timestamp) && p[8..12] == BigEndian32(ssrc);
    WordAt(p, 4);
    WordAt(p, 8);
  }

  lemma WordAt(p: seq<byte>, i: nat)
    requires i + 4 <= |p|
    ensures Word32(p, i) == Word32(p[i..i + 4], 0)
  {
  }

  /**
   * Every packet, single or fragment, carries the packer's type and source and the time of the call; the
   * numbers go up by one and the last packet is marked, but for the unit of 1401 octets.
   */
  lemma PacketsReadAsRtp(nal: seq<byte>, sequence: nat, s: Stream)
    requires s.pt < 0x80 && s.timestamp < TWO32 && s.ssrc < TWO32
    ensures var packets := Packets(nal, sequence, s);
            forall i :: 0 <= i < |packets| ==>
              var p := packets[i];
              |p| > 12 && Version(p) == 2 && Plain(p) && PayloadType(p) == s.pt
              && Timestamp(p) == s.timestamp && Source(p) == s.ssrc
              && Number(p) == (sequence + i) % TWO16
              && (MarkerBit(p) <==> i == |packets| - 1 && |nal| != 1401)
  {
    hide Header, BitOr, Payload, PacketCount, Version, Plain, PayloadType, Timestamp, Source, Number, MarkerBit;
    var packets := Packets(nal, sequence, s);
    forall i | 0 <= i < |packets|
      ensures var p := packets[i];
              |p| > 12 && Version(p) == 2 && Plain(p) && PayloadType(p) == s.pt
              && Timestamp(p) == s.timestamp && Source(p) == s.ssrc
              && Number(p) == (sequence + i) % TWO16
              && (MarkerBit(p) <==> i == |packets| - 1 && |nal| != 1401)
    {
      PayloadPresent(nal, i);
      HeaderFields(Marked(|nal|, i), s.pt, Numbered(sequence, i), s.timestamp, s.ssrc, Payload(nal, i));
      HeaderReads(Marked(|nal|, i), s.pt, Numbered(sequence, i), s.timestamp, s.ssrc, Payload(nal, i));
    }
  }

  lemma PayloadPresent(nal: seq<byte>, i: nat)
    requires i < PacketCount(|nal|)
    ensures Payload(nal, i) != []
  {
  }
}
