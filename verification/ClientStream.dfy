/** The client's demultiplexer: each call stops after the first RTSP message. */
module ClientStream {
  import opened Bytes
  import opened Messages
  import opened Stream

  /** What one call takes from the buffer: packets, and at most one message, which ends it. */
  ghost function Take<M(!new)>(read: seq<byte> -> Read<M>, b: seq<byte>): Trace<M>
    requires Lawful(read)
    decreases |b|
  {
    if b == [] then Trace([], [], false)
    else
      NextLawful(read, b, []);
      match Next(read, b)
      case Malformed => Trace([], b, true)
      case Incomplete => Trace([], b, false)
      case Complete(n, item) =>
        if item.Message? then Trace([item], b[n..], false)
        else Prepend([item], Take(read, b[n..]))
  }

  function MessageCount<M>(items: seq<Item<M>>): nat
    decreases |items|
  {
    if items == [] then 0 else (if items[0].Message? then 1 else 0) + MessageCount(items[1..])
  }

  ghost function ClientFeed<S, M(!new)>(read: seq<byte> -> Read<M>, step: (S, Item<M>) -> Outcome<S>,
                                        c: Connection<S>, data: seq<byte>): Fed<S>
    requires Lawful(read)
  {
    var t := Take(read, c.cache + data);
    var o := Run(step, c.state, t.items);
    if o.error != Ok then Fed(Connection(o.state, Untrimmed(c.cache, data)), o.error)
    else if t.failed then Fed(Connection(o.state, Untrimmed(c.cache, data)), MsgParserFailed)
    else Fed(Connection(o.state, t.rest), Ok)
  }

  ghost function ClientFeedAll<S, M(!new)>(read: seq<byte> -> Read<M>, step: (S, Item<M>) -> Outcome<S>,
                                           c: Connection<S>, chunks: seq<seq<byte>>): Fed<S>
    requires Lawful(read)
    decreases |chunks|
  {
    if chunks == [] then Fed(c, Ok)
    else
      var f := ClientFeed(read, step, c, chunks[0]);
      if f.error != Ok then f else ClientFeedAll(read, step, f.connection, chunks[1..])
  }

  /** The items that the calls deliver while they succeed. */
  ghost function Delivered<M(!new)>(read: seq<byte> -> Read<M>, cache: seq<byte>, chunks: seq<seq<byte>>): seq<Item<M>>
    requires Lawful(read)
    decreases |chunks|
  {
    if chunks == [] then []
    else
      var t := Take(read, cache + chunks[0]);
      t.items + Delivered(read, t.rest, chunks[1..])
  }

  /** What a call leaves in the buffer parses, with later octets, to what the call did not deliver. */
  ghost predicate ParsesOn<M(!new)>(read: seq<byte> -> Read<M>, a: seq<byte>, b: seq<byte>)
    requires Lawful(read)
  {
    var t := Take(read, a);
    !t.failed ==> Parse(read, a + b) == Prepend(t.items, Parse(read, t.rest + b))
  }

  lemma {:induction false} TakeAppend<M(!new)>(read: seq<byte> -> Read<M>, a: seq<byte>, b: seq<byte>)
    requires Lawful(read)
    ensures ParsesOn(read, a, b)
    decreases |a|
  {
    if a != [] && Next(read, a).Complete? {
      var n, item := Next(read, a).length, Next(read, a).value;
      TakeDecreases(read, a, n, item);
      if !item.Message? {
        TakeAppend(read, a[n..], b);
      }
      TakeAppendItem(read, a, b, n, item);
    } else {
      PrependNothing(Parse(read, a + b));
      assert a == [] ==> a + b == [] + b;
    }
  }

  lemma TakeAppendItem<M(!new)>(read: seq<byte> -> Read<M>, a: seq<byte>, b: seq<byte>, n: nat, item: Item<M>)
    requires Lawful(read) && a != [] && Next(read, a) == Complete(n, item) && n <= |a|
    requires !item.Message? ==> ParsesOn(read, a[n..], b)
    ensures ParsesOn(read, a, b)
  {
    hide *;
    NextLawful(read, a, b);
    FrontItem(read, a, n, item);
    assert a + b != [];
    FrontItem(read, a + b, n, item);
    assert (a + b)[n..] == a[n..] + b;
    if item.Message? {
      ParsesOnIs(read, a, b);
    } else {
      var r := Take(read, a[n..]);
      ParsesOnIs(read, a[n..], b);
      ParsesOnIs(read, a, b);
      PrependParts([item], r);
      PrependTwice([item], r.items, Parse(read, r.rest + b));
    }
  }

  lemma PrependParts<M>(x: seq<Item<M>>, t: Trace<M>)
    ensures Prepend(x, t).items == x + t.items && Prepend(x, t).rest == t.rest && Prepend(x, t).failed == t.failed
  {
  }

  lemma ParsesOnIs<M(!new)>(read: seq<byte> -> Read<M>, a: seq<byte>, b: seq<byte>)
    requires Lawful(read)
    ensures var t := Take(read, a);
            ParsesOn(read, a, b)
            <==> (!t.failed ==> Parse(read, a + b) == Prepend(t.items, Parse(read, t.rest + b)))
  {
  }

  lemma PrependNothing<M>(t: Trace<M>)
    ensures Prepend([], t) == t
  {
  }

  lemma FrontItem<M(!new)>(read: seq<byte> -> Read<M>, b: seq<byte>, n: nat, item: Item<M>)
    requires Lawful(read) && b != [] && Next(read, b) == Complete(n, item)
    ensures n <= |b| && Parse(read, b) == Prepend([item], Parse(read, b[n..]))
    ensures Take(read, b) == if item.Message? then Trace([item], b[n..], false) else Prepend([item], Take(read, b[n..]))
  {
    NextLawful(read, b, []);
    hide Next, Lawful;
  }

  lemma PrependTwice<M>(x: seq<Item<M>>, y: seq<Item<M>>, t: Trace<M>)
    ensures Prepend(x, Prepend(y, t)) == Prepend(x + y, t)
  {
  }

  lemma CountPrepended<M>(item: Item<M>, items: seq<Item<M>>)
    ensures MessageCount([item] + items) == (if item.Message? then 1 else 0) + MessageCount(items)
  {
    assert ([item] + items)[1..] == items;
  }

  /**
   * The client lags but never loses: after successful calls, what was delivered, followed by the
   * reference parse of the cache, is the reference parse of everything received; and the state is
   * the one those deliveries lead to.
   */
  lemma {:induction false} NothingLost<S, M(!new)>(
      read: seq<byte> -> Read<M>, step: (S, Item<M>) -> Outcome<S>, c: Connection<S>, chunks: seq<seq<byte>>)
    requires Lawful(read)
    requires ClientFeedAll(read, step, c, chunks).error == Ok
    ensures var f := ClientFeedAll(read, step, c, chunks).connection;
            var delivered := Delivered(read, c.cache, chunks);
            Run(step, c.state, delivered) == Outcome(f.state, Ok)
            && Parse(read, c.cache + Concat(chunks)) == Prepend(delivered, Parse(read, f.cache))
    decreases |chunks|
  {
    hide Lawful, Take, Parse, Run;
    if chunks == [] {
      assert c.cache + [] == c.cache;
      RunNothing(step, c.state);
      var t := Parse(read, c.cache);
      assert Prepend([], t) == t;
    } else {
      var t := Take(read, c.cache + chunks[0]);
      var more := Concat(chunks[1..]);
      TakeAppend(read, c.cache + chunks[0], more);
      assert c.cache + chunks[0] + more == c.cache + Concat(chunks);
      var f := ClientFeed(read, step, c, chunks[0]).connection;
      NothingLost(read, step, f, chunks[1..]);
      RunConcat(step, c.state, t.items, Delivered(read, t.rest, chunks[1..]));
    }
  }

  lemma RunNothing<S, M>(step: (S, Item<M>) -> Outcome<S>, s: S)
    ensures Run(step, s, []) == Outcome(s, Ok)
  {
  }

  /** A call either takes all there is, or it stops at the first message. */
  lemma {:induction false} TakeCases<M(!new)>(read: seq<byte> -> Read<M>, b: seq<byte>)
    requires Lawful(read)
    ensures var t := Take(read, b);
            var whole := Parse(read, b);
            (t == whole && MessageCount(whole.items) == 0)
            || (!t.failed && MessageCount(whole.items) == 1 + MessageCount(Parse(read, t.rest).items)
                && whole == Prepend(t.items, Parse(read, t.rest)))
    decreases |b|
  {
    if b == [] {
      NoMessages<M>();
    } else {
      match Next(read, b)
      case Malformed => NoMessages<M>();
      case Incomplete => NoMessages<M>();
      case Complete(n, item) =>
        FrontItem(read, b, n, item);
        hide Next, Lawful, Take, Parse, MessageCount;
        var t, rest := Parse(read, b[n..]), Take(read, b[n..]);
        CountPrepended(item, t.items);
        if !item.Message? {
          TakeDecreases(read, b, n, item);
          TakeCases(read, b[n..]);
          PrependTwice([item], rest.items, Parse(read, rest.rest));
        }
    }
  }

  lemma TakeDecreases<M(!new)>(read: seq<byte> -> Read<M>, b: seq<byte>, n: nat, item: Item<M>)
    requires Lawful(read) && b != [] && Next(read, b) == Complete(n, item)
    ensures n <= |b| && |b[n..]| < |b|
  {
    NextLawful(read, b, []);
    hide Next, Lawful;
  }

  function Nothing(k: nat): seq<seq<byte>> { seq(k, _ => []) }

  /**
   * Calls without new octets drain the client: one call more than there are complete messages in
   * the cache brings it where one call of the server's loop would be.
   */
  lemma {:induction false} Drains<S, M(!new)>(
      read: seq<byte> -> Read<M>, step: (S, Item<M>) -> Outcome<S>, c: Connection<S>, k: nat)
    requires Lawful(read)
    requires k > MessageCount(Parse(read, c.cache).items)
    ensures var f := ClientFeedAll(read, step, c, Nothing(k));
            var whole := Feed(read, step, c, []);
            f.error == whole.error && f.connection.state == whole.connection.state
            && (f.error == Ok ==> f == whole)
    decreases k
  {
    hide Lawful, Take, Parse, Run, Untrimmed;
    var b := c.cache;
    assert b + [] == b && Nothing(k)[0] == [] && Nothing(k)[1..] == Nothing(k - 1);
    TakeCases(read, b);
    var t, whole := Take(read, b), Parse(read, b);
    var f := ClientFeed(read, step, c, []);
    if t == whole {
      assert f == Feed(read, step, c, []);
      if f.error == Ok {
        RestIsSettled(read, b);
        StaysDrained(read, step, f.connection, k - 1);
      }
    } else {
      var u := Parse(read, t.rest);
      RunConcat(step, c.state, t.items, u.items);
      if f.error == Ok {
        assert t.rest + [] == t.rest;
        Drains(read, step, f.connection, k - 1);
      }
    }
  }

  lemma {:induction false} StaysDrained<S, M(!new)>(
      read: seq<byte> -> Read<M>, step: (S, Item<M>) -> Outcome<S>, c: Connection<S>, k: nat)
    requires Lawful(read) && Settled(read, c.cache)
    ensures ClientFeedAll(read, step, c, Nothing(k)) == Fed(c, Ok)
  {
    if k > 0 {
      hide Lawful, Take, Parse, Run;
      assert c.cache + [] == c.cache && Nothing(k)[0] == [] && Nothing(k)[1..] == Nothing(k - 1);
      TakeCases(read, c.cache);
      RunNothing(step, c.state);
      NoMessages<M>();
      StaysDrained(read, step, c, k - 1);
    }
  }

  lemma NoMessages<M>()
    ensures MessageCount<M>([]) == 0
  {
  }

  // The call as the loop makes it

  ghost function TakeLoop<S, M(!new)>(read: seq<byte> -> Read<M>, step: (S, Item<M>) -> Outcome<S>,
                                      s: S, b: seq<byte>): Processed<S>
    requires Lawful(read)
    decreases |b|
  {
    if b == [] then Processed(s, [], Ok)
    else
      NextLawful(read, b, []);
      match Next(read, b)
      case Malformed => Processed(s, b, MsgParserFailed)
      case Incomplete => Processed(s, b, Ok)
      case Complete(n, item) =>
        var o := step(s, item);
        if o.error != Ok then Processed(o.state, b, o.error)
        else if item.Message? then Processed(o.state, b[n..], Ok)
        else TakeLoop(read, step, o.state, b[n..])
  }

  /** One turn of the loop. */
  lemma LoopFront<S, M(!new)>(read: seq<byte> -> Read<M>, step: (S, Item<M>) -> Outcome<S>, s: S, b: seq<byte>)
    requires Lawful(read)
    ensures b == [] ==> TakeLoop(read, step, s, b) == Processed(s, [], Ok)
    ensures b != [] && Next(read, b).Malformed? ==> TakeLoop(read, step, s, b) == Processed(s, b, MsgParserFailed)
    ensures b != [] && Next(read, b).Incomplete? ==> TakeLoop(read, step, s, b) == Processed(s, b, Ok)
    ensures b != [] && Next(read, b).Complete? ==>
              var r := Next(read, b);
              var o := step(s, r.value);
              0 < r.length <= |b|
              && TakeLoop(read, step, s, b)
                 == if o.error != Ok then Processed(o.state, b, o.error)
                    else if r.value.Message? then Processed(o.state, b[r.length..], Ok)
                    else TakeLoop(read, step, o.state, b[r.length..])
  {
    if b != [] { NextLawful(read, b, []); }
    hide Next, Lawful;
  }

  lemma {:induction false} TakeLoopIsRun<S, M(!new)>(
      read: seq<byte> -> Read<M>, step: (S, Item<M>) -> Outcome<S>, s: S, b: seq<byte>)
    requires Lawful(read)
    ensures var p := TakeLoop(read, step, s, b);
            var t := Take(read, b);
            var o := Run(step, s, t.items);
            p.state == o.state
            && p.error == (if o.error != Ok then o.error else if t.failed then MsgParserFailed else Ok)
            && (p.error == Ok ==> p.rest == t.rest)
    decreases |b|
  {
    if b != [] {
      NextLawful(read, b, []);
      match Next(read, b)
      case Malformed =>
      case Incomplete =>
      case Complete(n, item) =>
        var o := step(s, item);
        if item.Message? {
          RunNothing(step, o.state);
        } else {
          var t := Take(read, b[n..]);
          assert ([item] + t.items)[1..] == t.items;
          if o.error == Ok {
            hide Next, Lawful;
            TakeLoopIsRun(read, step, o.state, b[n..]);
          }
        }
    }
  }

  lemma ClientFeedIsLoop<S, M(!new)>(read: seq<byte> -> Read<M>, step: (S, Item<M>) -> Outcome<S>,
                                     c: Connection<S>, data: seq<byte>)
    requires Lawful(read)
    ensures var p := TakeLoop(read, step, c.state, c.cache + data);
            ClientFeed(read, step, c, data)
            == Fed(Connection(p.state, if p.error != Ok then Untrimmed(c.cache, data) else p.rest), p.error)
  {
    hide Lawful, Take, Run, TakeLoop;
    TakeLoopIsRun(read, step, c.state, c.cache + data);
  }
}
