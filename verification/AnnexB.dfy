/** Splitting an H.264 byte stream at its start codes. */
module AnnexB {
  import opened Bytes
  import opened Options

  /** A three or four octet start code at `i`, among the positions the scan visits: four octets follow. */
  predicate ScannedCode(b: seq<byte>, i: nat) {
    i + 4 < |b| && b[i] == 0 && b[i + 1] == 0 && (b[i + 2] == 1 || (b[i + 2] == 0 && b[i + 3] == 1))
  }

  /** The first scanned start code at or after `start`. */
  function NextCode(b: seq<byte>, start: nat): (r: Option<nat>)
    ensures r.Some? ==> start <= r.value && ScannedCode(b, r.value)
                        && forall i :: start <= i < r.value ==> !ScannedCode(b, i)
    ensures r.None? ==> forall i :: start <= i ==> !ScannedCode(b, i)
    decreases |b| - start
  {
    if start + 4 >= |b| then None
    else if ScannedCode(b, start) then Some(start)
    else NextCode(b, start + 1)
  }

  /** The scan as a loop; `None` stands for a null result. */
  method FindStartCode(b: seq<byte>, start: nat) returns (r: Option<nat>)
    ensures r == NextCode(b, start)
  {
    var p := start;
    while p < |b| - 4
      invariant start <= p && NextCode(b, start) == NextCode(b, p)
    {
      if b[p] == 0 && b[p + 1] == 0 {
        if b[p + 2] == 1 {
          return Some(p);
        } else if b[p + 2] == 0 && b[p + 3] == 1 {
          return Some(p);
        }
      }
      p := p + 1;
    }
    return None;
  }

  /** Where the frames found from `offset` on begin. */
  function Cuts(b: seq<byte>, offset: nat): (cuts: seq<nat>)
    ensures forall c :: c in cuts ==> offset <= c < |b|
    decreases |b| - offset
  {
    match NextCode(b, offset)
    case None => []
    case Some(s) => [s] + Cuts(b, s + 3)
  }

  predicate Spaced(cuts: seq<nat>) {
    forall i :: 0 <= i < |cuts| - 1 ==> cuts[i] + 3 <= cuts[i + 1]
  }

  function FramesAt(b: seq<byte>, cuts: seq<nat>): (frames: seq<seq<byte>>)
    requires forall i :: 0 <= i < |cuts| ==> cuts[i] <= |b|
    requires Spaced(cuts)
  {
    assert forall i :: 0 < i < |cuts| - 1 ==> cuts[1..][i - 1] + 3 <= cuts[1..][i];
    if cuts == [] then []
    else if |cuts| == 1 then [b[cuts[0]..]]
    else [b[cuts[0]..cuts[1]]] + FramesAt(b, cuts[1..])
  }

  function Concat(frames: seq<seq<byte>>): seq<byte> {
    if frames == [] then [] else frames[0] + Concat(frames[1..])
  }

  predicate StartsWithCode(f: seq<byte>) {
    |f| >= 3 && f[0] == 0 && f[1] == 0 && (f[2] == 1 || (|f| >= 4 && f[2] == 0 && f[3] == 1))
  }

  /** The scan sees the three and the four octet code, wherever more than four octets are left. */
  lemma ScannedExactly(b: seq<byte>, i: nat)
    ensures ScannedCode(b, i) <==> i + 4 < |b| && (b[i..i + 3] == [0, 0, 1] || b[i..i + 4] == [0, 0, 0, 1])
  {
    if i + 4 < |b| {
      assert b[i..i + 3] == [b[i], b[i + 1], b[i + 2]];
      assert b[i..i + 4] == [b[i], b[i + 1], b[i + 2], b[i + 3]];
    }
  }

  /**
   * A greedy cutting of the stream: every cut is a scanned start code, none is scanned
   * between the third octet of a frame and the next cut, and none before the first.
   */
  ghost predicate Greedy(b: seq<byte>, from: nat, cuts: seq<nat>)
    decreases |cuts|
  {
    if cuts == [] then forall i :: from <= i ==> !ScannedCode(b, i)
    else from <= cuts[0] && ScannedCode(b, cuts[0])
         && (forall i :: from <= i < cuts[0] ==> !ScannedCode(b, i))
         && Greedy(b, cuts[0] + 3, cuts[1..])
  }

  lemma {:induction false} CutsAreGreedy(b: seq<byte>, offset: nat)
    ensures Greedy(b, offset, Cuts(b, offset))
    decreases |b| - offset
  {
    match NextCode(b, offset)
    case None =>
    case Some(s) =>
      CutsAreGreedy(b, s + 3);
      assert Cuts(b, offset)[1..] == Cuts(b, s + 3);
  }

  lemma {:induction false} GreedyIsUnique(b: seq<byte>, offset: nat, cuts: seq<nat>)
    requires Greedy(b, offset, cuts)
    ensures cuts == Cuts(b, offset)
    decreases |cuts|
  {
    match NextCode(b, offset)
    case None =>
    case Some(s) =>
      assert cuts != [] && cuts[0] == s;
      GreedyIsUnique(b, s + 3, cuts[1..]);
  }

  lemma {:induction false} CutsIncrease(b: seq<byte>, offset: nat)
    ensures Spaced(Cuts(b, offset))
    decreases |b| - offset
  {
    match NextCode(b, offset)
    case None =>
    case Some(s) =>
      CutsIncrease(b, s + 3);
      var cuts, rest := Cuts(b, offset), Cuts(b, s + 3);
      forall i | 0 <= i < |cuts| - 1
        ensures cuts[i] + 3 <= cuts[i + 1]
      {
        assert cuts[i + 1] == rest[i] && rest[i] in rest;
        if i > 0 { assert cuts[i] == rest[i - 1] && rest[i - 1] + 3 <= rest[i - 1 + 1]; }
      }
  }

  function Frames(b: seq<byte>, offset: nat): seq<seq<byte>> {
    CutsIncrease(b, offset);
    var cuts := Cuts(b, offset);
    assert forall i :: 0 <= i < |cuts| ==> cuts[i] in cuts;
    FramesAt(b, cuts)
  }

  /** The frames are the buffer from its first scanned start code to its end, cut greedily. */
  lemma {:induction false} FramesPartition(b: seq<byte>, offset: nat)
    ensures NextCode(b, offset).None? ==> Frames(b, offset) == []
    ensures NextCode(b, offset).Some? ==> Concat(Frames(b, offset)) == b[NextCode(b, offset).value..]
    ensures forall f :: f in Frames(b, offset) ==> StartsWithCode(f)
    ensures Greedy(b, offset, Cuts(b, offset))
    decreases |b| - offset
  {
    CutsAreGreedy(b, offset);
    match NextCode(b, offset)
    case None =>
    case Some(s) =>
      OneFrame(b, offset, s);
      var frames, rest := Frames(b, offset), Frames(b, s + 3);
      FramesPartition(b, s + 3);
      assert frames[1..] == rest;
      match NextCode(b, s + 3) {
        case None =>
          assert Concat(frames) == frames[0] + [];
        case Some(t) =>
          assert b[s..t] + b[t..] == b[s..];
      }
  }

  lemma OneFrame(b: seq<byte>, offset: nat, s: nat)
    requires NextCode(b, offset) == Some(s)
    ensures Frames(b, offset)
            == [match NextCode(b, s + 3) case None => b[s..] case Some(t) => b[s..t]] + Frames(b, s + 3)
    ensures match NextCode(b, s + 3)
            case None => StartsWithCode(b[s..])
            case Some(t) => s + 3 <= t && StartsWithCode(b[s..t])
  {
    var cuts := Cuts(b, offset);
    CutsIncrease(b, offset);
    assert cuts[1..] == Cuts(b, s + 3);
    if NextCode(b, s + 3).Some? {
      var t := NextCode(b, s + 3).value;
      assert cuts[1] == t;
      // a four octet code cannot be cut: its last octet is not zero
      assert t == s + 3 ==> b[s + 2] == 1;
    }
  }

  class MediaSource {
    const buf: seq<byte>
    var offset: nat

    constructor (contents: seq<byte>)
      ensures buf == contents && offset == 0
    {
      buf, offset := contents, 0;
    }

    /** The next frame, or `None` at the end of the buffer and when no start code is left. */
    method GetNextFrame() returns (frame: Option<seq<byte>>)
      requires offset <= |buf|
      modifies this
      ensures offset <= |buf|
      ensures frame.None? <==> Frames(buf, old(offset)) == []
      ensures frame.None? ==> offset == old(offset)
      ensures frame.Some? ==> Frames(buf, old(offset)) == [frame.value] + Frames(buf, offset)
                              && old(offset) < offset
    {
      if offset == |buf| {
        return None;
      }
      var start := FindStartCode(buf, offset);
      if start.Some? {
        OneFrame(buf, offset, start.value);
        var next := FindStartCode(buf, start.value + 3);
        if next.Some? {
          frame := Some(buf[start.value..next.value]);
          SameFrames(buf, start.value + 3, next.value);
          offset := next.value;
        } else {
          frame := Some(buf[start.value..]);
          offset := |buf|;
        }
      } else {
        frame := None;
      }
    }

    /** The play loop: frames until there is none. */
    method AllFrames() returns (frames: seq<seq<byte>>)
      requires offset <= |buf|
      modifies this
      ensures frames == Frames(buf, old(offset))
      ensures Frames(buf, offset) == []
    {
      hide Frames;
      frames := [];
      var frame := GetNextFrame();
      while frame.Some?
        invariant offset <= |buf|
        invariant Frames(buf, old(offset))
                  == frames + (match frame case None => [] case Some(f) => [f] + Frames(buf, offset))
        invariant frame.None? ==> Frames(buf, offset) == []
        decreases frame.Some?, |buf| - offset
      {
        OneMoreFrame(frames, frame.value, Frames(buf, offset));
        frames := frames + [frame.value];
        frame := GetNextFrame();
      }
    }
  }

  lemma OneMoreFrame(frames: seq<seq<byte>>, f: seq<byte>, rest: seq<seq<byte>>)
    ensures frames + ([f] + rest) == frames + [f] + rest
  {
  }

  lemma {:induction false} SameNext(b: seq<byte>, from: nat, t: nat)
    requires NextCode(b, from) == Some(t)
    ensures NextCode(b, t) == Some(t)
  {
  }

  lemma SameFrames(b: seq<byte>, from: nat, t: nat)
    requires NextCode(b, from) == Some(t)
    ensures Frames(b, from) == Frames(b, t)
  {
    SameNext(b, from, t);
    assert Cuts(b, from) == Cuts(b, t);
  }
}
