/**
 * The byte stream of one connection: `$`-framed packets (section 10.12 of RFC 2326) between
 * RTSP messages, and a reference parser of the whole stream.
 */
module Stream {
  import opened Bytes
  import opened Messages

  // What a message parser says of the front of a buffer: an error, not yet, or a message and its length
  datatype Read<+M> = Malformed | Incomplete | Complete(length: nat, value: M)

  /** What the demultiplexers rely on: lengths within the buffer, and answers that later octets do not change. */
  ghost predicate Lawful<M(!new)>(read: seq<byte> -> Read<M>) {
    (forall b :: read(b).Complete? ==> 0 < read(b).length <= |b|)
    && (forall b: seq<byte>, more: seq<byte> {:trigger read(b + more)} ::
          !read(b).Incomplete? ==> read(b + more) == read(b))
  }

  datatype Item<+M> = Packet(channel: byte, payload: seq<byte>) | Message(value: M)

  const DOLLAR: byte := 0x24

  /** The length, channel and payload of an interleaved packet, once all of it is there. */
  function RtpOverRtsp(b: seq<byte>): (r: Read<(byte, seq<byte>)>)
    ensures !r.Malformed?
    ensures r.Complete? ==> 4 <= r.length <= |b|
  {
    if |b| < 4 then Incomplete
    else
      var length := BitOr(b[2] as int * 0x100, b[3]);
      if length > |b| - 4 then Incomplete
      else Complete(length + 4, (b[1], b[4..4 + length]))
  }

  lemma PacketLength(high: byte, low: byte)
    ensures BitOr(high as int * 0x100, low) == high as int * 0x100 + low
  {
    assert Pow2(8) == 0x100;
    BitOrDisjoint(high, low, 8);
  }

  lemma PacketStable(b: seq<byte>, more: seq<byte>)
    requires RtpOverRtsp(b).Complete?
    ensures RtpOverRtsp(b + more) == RtpOverRtsp(b)
  {
    hide BitOr;
    var length := BitOr(b[2] as int * 0x100, b[3]);
    assert (b + more)[4..4 + length] == b[4..4 + length];
  }

  /** The item at the front of a nonempty buffer. */
  function Next<M>(read: seq<byte> -> Read<M>, b: seq<byte>): Read<Item<M>>
    requires b != []
  {
    if b[0] == DOLLAR then
      match RtpOverRtsp(b)
      case Malformed => Malformed
      case Incomplete => Incomplete
      case Complete(n, (channel, payload)) => Complete(n, Packet(channel, payload))
    else
      match read(b)
      case Malformed => Malformed
      case Incomplete => Incomplete
      case Complete(n, m) => Complete(n, Message(m))
  }

  lemma NextLawful<M(!new)>(read: seq<byte> -> Read<M>, b: seq<byte>, more: seq<byte>)
    requires Lawful(read) && b != []
    ensures Next(read, b).Complete? ==> 0 < Next(read, b).length <= |b|
    ensures !Next(read, b).Incomplete? ==> Next(read, b + more) == Next(read, b)
  {
    hide RtpOverRtsp;
    if b[0] == DOLLAR {
      if RtpOverRtsp(b).Complete? { PacketStable(b, more); }
    } else {
      assert !read(b).Incomplete? ==> read(b + more) == read(b);
    }
  }

  // The reference parse of a whole stream
  datatype Trace<+M> = Trace(items: seq<Item<M>>, rest: seq<byte>, failed: bool)

  ghost function Parse<M(!new)>(read: seq<byte> -> Read<M>, b: seq<byte>): Trace<M>
    requires Lawful(read)
    decreases |b|
  {
    if b == [] then Trace([], [], false)
    else
      NextLawful(read, b, []);
      match Next(read, b)
      case Malformed => Trace([], b, true)
      case Incomplete => Trace([], b, false)
      case Complete(n, item) =>
        var t := Parse(read, b[n..]);
        Trace([item] + t.items, t.rest, t.failed)
  }

  function Prepend<M>(items: seq<Item<M>>, t: Trace<M>): Trace<M> {
    Trace(items + t.items, t.rest, t.failed)
  }

  /** More octets: what was parsed stays, and the parse goes on from the unparsed rest. */
  lemma {:induction false} ParseAppend<M(!new)>(read: seq<byte> -> Read<M>, a: seq<byte>, b: seq<byte>)
    requires Lawful(read)
    ensures var t := Parse(read, a);
            if t.failed then Parse(read, a + b) == t.(rest := t.rest + b)
            else Parse(read, a + b) == Prepend(t.items, Parse(read, t.rest + b))
    decreases |a|
  {
    hide Next, Lawful;
    var t := Parse(read, a);
    if a == [] {
      assert a + b == b == t.rest + b;
    } else {
      NextLawful(read, a, b);
      match Next(read, a)
      case Malformed =>
      case Incomplete =>
      case Complete(n, item) =>
        ParseAppend(read, a[n..], b);
        assert (a + b)[n..] == a[n..] + b;
    }
  }

  /** The unparsed rest holds no complete item. */
  lemma {:induction false} RestIsSettled<M(!new)>(read: seq<byte> -> Read<M>, b: seq<byte>)
    requires Lawful(read)
    ensures var t := Parse(read, b);
            !t.failed ==> Parse(read, t.rest) == Trace([], t.rest, false)
    decreases |b|
  {
    if b != [] {
      NextLawful(read, b, []);
      hide Next, Lawful;
      match Next(read, b)
      case Malformed =>
      case Incomplete =>
      case Complete(n, item) => RestIsSettled(read, b[n..]);
    }
  }

  ghost predicate Settled<M(!new)>(read: seq<byte> -> Read<M>, cache: seq<byte>)
    requires Lawful(read)
  {
    Parse(read, cache) == Trace([], cache, false)
  }

  // Acting on items

  datatype Outcome<+S> = Outcome(state: S, error: Error)

  function Run<S, M>(step: (S, Item<M>) -> Outcome<S>, s: S, items: seq<Item<M>>): Outcome<S>
    decreases |items|
  {
    if items == [] then Outcome(s, Ok)
    else
      var o := step(s, items[0]);
      if o.error != Ok then o else Run(step, o.state, items[1..])
  }

  lemma {:induction false} RunConcat<S, M>(
      step: (S, Item<M>) -> Outcome<S>, s: S, a: seq<Item<M>>, b: seq<Item<M>>)
    ensures var o := Run(step, s, a);
            Run(step, s, a + b) == if o.error != Ok then o else Run(step, o.state, b)
    decreases |a|
  {
    if a == [] {
      assert a + b == b;
    } else {
      assert (a + b)[1..] == a[1..] + b;
      var o := step(s, a[0]);
      if o.error == Ok {
        RunConcat(step, o.state, a[1..], b);
      }
    }
  }

  // A connection between two calls of `input`
  datatype Connection<+S> = Connection(state: S, cache: seq<byte>)
  datatype Fed<+S> = Fed(connection: Connection<S>, error: Error)

  /** On an error the cache is left untrimmed: with the new octets when it was in use, else empty. */
  function Untrimmed(cache: seq<byte>, data: seq<byte>): seq<byte> {
    if cache == [] then [] else cache + data
  }

  /** The server's `input`: every item that is complete, until one of them ends the call. */
  ghost function Feed<S, M(!new)>(read: seq<byte> -> Read<M>, step: (S, Item<M>) -> Outcome<S>,
                            c: Connection<S>, data: seq<byte>): Fed<S>
    requires Lawful(read)
  {
    var t := Parse(read, c.cache + data);
    var o := Run(step, c.state, t.items);
    if o.error != Ok then Fed(Connection(o.state, Untrimmed(c.cache, data)), o.error)
    else if t.failed then Fed(Connection(o.state, Untrimmed(c.cache, data)), MsgParserFailed)
    else Fed(Connection(o.state, t.rest), Ok)
  }

  /** Calls of `input`, up to the first that fails. */
  ghost function FeedAll<S, M(!new)>(read: seq<byte> -> Read<M>, step: (S, Item<M>) -> Outcome<S>,
                               c: Connection<S>, chunks: seq<seq<byte>>): Fed<S>
    requires Lawful(read)
    decreases |chunks|
  {
    if chunks == [] then Fed(c, Ok)
    else
      var f := Feed(read, step, c, chunks[0]);
      if f.error != Ok then f else FeedAll(read, step, f.connection, chunks[1..])
  }

  function Concat(chunks: seq<seq<byte>>): seq<byte>
    decreases |chunks|
  {
    if chunks == [] then [] else chunks[0] + Concat(chunks[1..])
  }

  lemma FeedTwice<S, M(!new)>(read: seq<byte> -> Read<M>, step: (S, Item<M>) -> Outcome<S>,
                        c: Connection<S>, a: seq<byte>, b: seq<byte>)
    requires Lawful(read)
    ensures var f := Feed(read, step, c, a);
            var whole := Feed(read, step, c, a + b);
            if f.error != Ok then whole.error == f.error && whole.connection.state == f.connection.state
            else
              var g := Feed(read, step, f.connection, b);
              Settled(read, f.connection.cache)
              && whole.error == g.error && whole.connection.state == g.connection.state
              && (g.error == Ok ==> whole == g)
  {
    hide Lawful, Parse, Run, Untrimmed;
    var t := Parse(read, c.cache + a);
    var o := Run(step, c.state, t.items);
    ParseAppend(read, c.cache + a, b);
    assert c.cache + a + b == c.cache + (a + b);
    if o.error == Ok && !t.failed {
      RestIsSettled(read, c.cache + a);
      var u := Parse(read, t.rest + b);
      RunConcat(step, c.state, t.items, u.items);
      assert Parse(read, c.cache + (a + b)) == Trace(t.items + u.items, u.rest, u.failed);
      assert Feed(read, step, c, a) == Fed(Connection(o.state, t.rest), Ok);
    } else if !t.failed {
      RunConcat(step, c.state, t.items, Parse(read, t.rest + b).items);
    }
  }

  /**
   * Fragmentation independence: however the stream is cut into calls, the state reached, the
   * error that ends the calls and, without an error, the cache are those of one call with all of it.
   */
  lemma {:induction false} FragmentationIndependent<S, M(!new)>(
      read: seq<byte> -> Read<M>, step: (S, Item<M>) -> Outcome<S>, c: Connection<S>, chunks: seq<seq<byte>>)
    requires Lawful(read) && Settled(read, c.cache)
    ensures var f := FeedAll(read, step, c, chunks);
            var whole := Feed(read, step, c, Concat(chunks));
            whole.error == f.error && whole.connection.state == f.connection.state
            && (f.error == Ok ==> whole == f)
    decreases |chunks|
  {
    if chunks == [] {
      assert c.cache + [] == c.cache;
    } else {
      FeedTwice(read, step, c, chunks[0], Concat(chunks[1..]));
      var f := Feed(read, step, c, chunks[0]);
      if f.error == Ok {
        FragmentationIndependent(read, step, f.connection, chunks[1..]);
      }
    }
  }

  // The call as the loops make it: one item at a time from the front of the buffer

  datatype Processed<+S> = Processed(state: S, rest: seq<byte>, error: Error)

  ghost function Process<S, M(!new)>(read: seq<byte> -> Read<M>, step: (S, Item<M>) -> Outcome<S>,
                                     s: S, b: seq<byte>): Processed<S>
    requires Lawful(read)
    decreases |b|
  {
    if b == [] then Processed(s, [], Ok)
    else
      NextLawful(read, b, []);
      match Next(read, b)
      case Malformed => Processed(s, b, MsgParserFailed)
      case Incomplete => Processed(s, b, Ok)
      case Complete(n, item) =>
        var o := step(s, item);
        if o.error != Ok then Processed(o.state, b, o.error) else Process(read, step, o.state, b[n..])
  }

  /** One turn of the loop. */
  lemma ProcessFront<S, M(!new)>(read: seq<byte> -> Read<M>, step: (S, Item<M>) -> Outcome<S>, s: S, b: seq<byte>)
    requires Lawful(read)
    ensures b == [] ==> Process(read, step, s, b) == Processed(s, [], Ok)
    ensures b != [] && Next(read, b).Malformed? ==> Process(read, step, s, b) == Processed(s, b, MsgParserFailed)
    ensures b != [] && Next(read, b).Incomplete? ==> Process(read, step, s, b) == Processed(s, b, Ok)
    ensures b != [] && Next(read, b).Complete? ==>
              var r := Next(read, b);
              var o := step(s, r.value);
              0 < r.length <= |b|
              && Process(read, step, s, b)
                   == if o.error != Ok then Processed(o.state, b, o.error)
                    else Process(read, step, o.state, b[r.length..])
  {
    if b != [] { NextLawful(read, b, []); }
    hide Next, Lawful;
  }

  lemma {:induction false} ProcessIsRun<S, M(!new)>(
      read: seq<byte> -> Read<M>, step: (S, Item<M>) -> Outcome<S>, s: S, b: seq<byte>)
    requires Lawful(read)
    ensures var p := Process(read, step, s, b);
            var t := Parse(read, b);
            var o := Run(step, s, t.items);
            p.state == o.state
            && p.error == (if o.error != Ok then o.error else if t.failed then MsgParserFailed else Ok)
            && (p.error == Ok ==> p.rest == t.rest)
    decreases |b|
  {
    if b != [] {
      NextLawful(read, b, []);
      match Next(read, b)
      case Malformed =>
      case Incomplete =>
      case Complete(n, item) =>
        var t := Parse(read, b[n..]);
        assert ([item] + t.items)[1..] == t.items;
        var o := step(s, item);
        if o.error == Ok {
          hide Next, Lawful;
          ProcessIsRun(read, step, o.state, b[n..]);
        }
    }
  }

  /** The call in terms of the loop. */
  lemma FeedIsProcess<S, M(!new)>(read: seq<byte> -> Read<M>, step: (S, Item<M>) -> Outcome<S>,
                                  c: Connection<S>, data: seq<byte>)
    requires Lawful(read)
    ensures var p := Process(read, step, c.state, c.cache + data);
            Feed(read, step, c, data)
            == Fed(Connection(p.state, if p.error != Ok then Untrimmed(c.cache, data) else p.rest), p.error)
  {
    hide Lawful, Parse, Run, Process;
    ProcessIsRun(read, step, c.state, c.cache + data);
  }
}
