/** What any Transport header is read as: in each field the last parameter that speaks of it wins. */
module TransportReading {
  import opened Options
  import opened Text
  import opened Decimal
  import opened Transport

  /** What the last piece that says something says. */
  function Last<R>(pieces: seq<string>, says: string -> Option<R>, otherwise: R): R
    decreases |pieces|
  {
    if pieces == [] then otherwise else Last(pieces[1..], says, Or(says(pieces[0]), otherwise))
  }

  function Or<R>(said: Option<R>, otherwise: R): R {
    match said
    case None => otherwise
    case Some(r) => r
  }

  /** The last piece that says something is the one no later piece follows. */
  lemma {:induction false} LastIs<R>(pieces: seq<string>, says: string -> Option<R>, otherwise: R)
    ensures forall k :: 0 <= k < |pieces| && says(pieces[k]).Some?
                        && (forall j :: k < j < |pieces| ==> says(pieces[j]).None?) ==>
                          Last(pieces, says, otherwise) == says(pieces[k]).value
    ensures (forall k :: 0 <= k < |pieces| ==> says(pieces[k]).None?) ==> Last(pieces, says, otherwise) == otherwise
    decreases |pieces|
  {
    if pieces != [] {
      var rest := pieces[1..];
      LastIs(rest, says, Or(says(pieces[0]), otherwise));
      forall k | 0 <= k < |pieces| && says(pieces[k]).Some?
                 && forall j :: k < j < |pieces| ==> says(pieces[j]).None?
        ensures Last(pieces, says, otherwise) == says(pieces[k]).value
      {
        forall j | 0 <= j < |rest| && j >= k
          ensures says(rest[j]).None?
        {
          assert rest[j] == pieces[j + 1];
        }
        if k > 0 { assert rest[k - 1] == pieces[k]; }
      }
      if forall k :: 0 <= k < |pieces| ==> says(pieces[k]).None? {
        assert forall j :: 0 <= j < |rest| ==> rest[j] == pieces[j + 1];
      }
    }
  }

  // What one parameter says of each field

  /** Any profile that is not RTP over TCP is UDP, the plain one too. */
  function SaysProto(p: string): Option<LowerTransport> {
    if !StartsWith(p, "RTP/AVP") then None else if p == "RTP/AVP/TCP" then Some(TCP) else Some(UDP)
  }

  function SaysCast(p: string): Option<CastType> {
    if StartsWith(p, "multicast") then Some(MULTICAST)
    else if StartsWith(p, "unicast") then Some(UNICAST) else None
  }

  /** Only a mode in quotes is understood. */
  function SaysMode(p: string): Option<Mode> {
    if StartsWith(Word(p, "mode=\""), "PLAY") then Some(PLAY)
    else if StartsWith(Word(p, "mode=\""), "RECORD") then Some(RECORD) else None
  }

  function NumberAfter(p: string, name: string): Option<int> {
    if !StartsWith(p, name) then None
    else match Scan(p[|name|..])
         case None => None
         case Some((n, _)) => Some(n)
  }

  /** The number behind a dash behind the first one. */
  function SecondAfter(p: string, name: string): Option<int> {
    if !StartsWith(p, name) then None
    else match Scan(p[|name|..])
         case None => None
         case Some((_, rest)) => NumberAfter(rest, "-")
  }

  function SaysTtl(p: string): Option<int> { NumberAfter(p, "ttl=") }
  function SaysPort(p: string): Option<int> { NumberAfter(p, "port=") }
  function SaysClientPort(p: string): Option<int> { NumberAfter(p, "client_port=") }
  function SaysClientPort2(p: string): Option<int> { SecondAfter(p, "client_port=") }
  function SaysServerPort(p: string): Option<int> { NumberAfter(p, "server_port=") }
  function SaysServerPort2(p: string): Option<int> { SecondAfter(p, "server_port=") }
  function SaysInterleaved(p: string): Option<int> { NumberAfter(p, "interleaved=") }
  function SaysInterleaved2(p: string): Option<int> { SecondAfter(p, "interleaved=") }

  /** A name without `=` and a word empties the field. */
  function SaysSsrc(p: string): Option<string> {
    if StartsWith(p, "ssrc") then Some(Word(p, "ssrc=")) else None
  }

  function SaysDestination(p: string): Option<string> {
    if StartsWith(p, "destination") then Some(Word(p, "destination=")) else None
  }

  // What `%s` takes: the octets up to a NUL or a white space, after white space
  predicate Ends(c: char) { c as int in {0, 9, 10, 11, 12, 13, 32} }

  lemma {:induction false} WordTaken(word: string, rest: string)
    requires (forall i :: 0 <= i < |word| ==> !Ends(word[i])) && (rest == "" || Ends(rest[0]))
    ensures NonBlanks(word + rest) == word
  {
    if word == "" {
      assert word + rest == rest;
    } else {
      assert (word + rest)[1..] == word[1..] + rest;
      WordTaken(word[1..], rest);
    }
  }

  /** The word behind a prefix, whatever its characters and whatever follows it. */
  lemma WordIs(prefix: string, blanks: string, word: string, rest: string)
    requires AllSpace(blanks) && (word == "" ==> rest == "" || !IsSpace(rest[0]))
    requires (forall i :: 0 <= i < |word| ==> !Ends(word[i])) && (rest == "" || Ends(rest[0]))
    ensures Word(prefix + (blanks + (word + rest)), prefix) == word
  {
    Prefixed(prefix, blanks + (word + rest));
    WordTaken(word, rest);
    SpaceSkipped(blanks, word + rest);
    hide NonBlanks, SkipSpace;
  }

  // One parameter

  lemma NoWord(p: string, prefix: string)
    requires !StartsWith(p, prefix)
    ensures Word(p, prefix) == ""
  {
  }

  lemma NothingStarts(prefix: string)
    requires prefix != ""
    ensures !StartsWith("", prefix)
  {
  }

  /** The whole names begin with the short ones the parser looks for first. */
  lemma ShortNames(p: string)
    ensures StartsWith(p, "ttl=") ==> StartsWith(p, "ttl")
    ensures StartsWith(p, "port=") ==> StartsWith(p, "port")
    ensures StartsWith(p, "mode=\"") ==> StartsWith(p, "mode")
    ensures StartsWith(p, "client_port=") ==> StartsWith(p, "client_port")
    ensures StartsWith(p, "server_port=") ==> StartsWith(p, "server_port")
    ensures StartsWith(p, "interleaved=") ==> StartsWith(p, "interleaved")
  {
    hide StartsWith;
    Shorter(p, "ttl", "ttl=");
    Shorter(p, "port", "port=");
    Shorter(p, "mode", "mode=\"");
    Shorter(p, "client_port", "client_port=");
    Shorter(p, "server_port", "server_port=");
    Shorter(p, "interleaved", "interleaved=");
  }

  function NameOf(p: string): string {
    if StartsWith(p, "RTP/AVP") then "RTP/AVP"
    else if StartsWith(p, "multicast") then "multicast"
    else if StartsWith(p, "unicast") then "unicast"
    else if StartsWith(p, "ttl") then "ttl"
    else if StartsWith(p, "mode") then "mode"
    else if StartsWith(p, "client_port") then "client_port"
    else if StartsWith(p, "server_port") then "server_port"
    else if StartsWith(p, "interleaved") then "interleaved"
    else if StartsWith(p, "ssrc") then "ssrc"
    else if StartsWith(p, "destination") then "destination"
    else if StartsWith(p, "port") then "port"
    else ""
  }

  /** A parameter has one name at most. */
  lemma OneName(p: string)
    ensures StartsWith(p, "RTP/AVP") <==> NameOf(p) == "RTP/AVP"
    ensures StartsWith(p, "multicast") <==> NameOf(p) == "multicast"
    ensures StartsWith(p, "unicast") <==> NameOf(p) == "unicast"
    ensures StartsWith(p, "ttl") <==> NameOf(p) == "ttl"
    ensures StartsWith(p, "mode") <==> NameOf(p) == "mode"
    ensures StartsWith(p, "client_port") <==> NameOf(p) == "client_port"
    ensures StartsWith(p, "server_port") <==> NameOf(p) == "server_port"
    ensures StartsWith(p, "interleaved") <==> NameOf(p) == "interleaved"
    ensures StartsWith(p, "ssrc") <==> NameOf(p) == "ssrc"
    ensures StartsWith(p, "destination") <==> NameOf(p) == "destination"
    ensures StartsWith(p, "port") <==> NameOf(p) == "port"
  {
    hide StartsWith;
    if NameOf(p) != "" { OtherNames(p, NameOf(p)); }
  }

  lemma KindsApplied(t: TransportV1, p: string)
    ensures var r := Apply(t, p);
            r.Some? ==> r.value.proto == Or(SaysProto(p), t.proto) && r.value.cast == Or(SaysCast(p), t.cast)
                        && r.value.mode == Or(SaysMode(p), t.mode)
  {
    hide StartsWith, ScanNumber, ScanPair, NameOf, Word;
    OneName(p);
    ShortNames(p);
    NothingStarts("PLAY");
    NothingStarts("RECORD");
    if !StartsWith(p, "mode=\"") { NoWord(p, "mode=\""); }
  }

  lemma WordsApplied(t: TransportV1, p: string)
    ensures var r := Apply(t, p);
            r.Some? ==> r.value.ssrc == Or(SaysSsrc(p), t.ssrc)
                        && r.value.destination == Or(SaysDestination(p), t.destination)
  {
    hide StartsWith, ScanNumber, ScanPair, NameOf, Word;
    OneName(p);
  }

  lemma NumberScans(p: string, name: string, n: int)
    ensures var r := ScanNumber(p, name, n);
            r.Some? ==> r.value == Or(NumberAfter(p, name), n)
  {
    hide Scan, StartsWith, IsInt;
  }

  lemma PairScans(p: string, name: string, q: (int, int))
    ensures var r := ScanPair(p, name, q);
            r.Some? ==> r.value == (Or(NumberAfter(p, name), q.0), Or(SecondAfter(p, name), q.1))
  {
    hide Scan, IsInt;
  }

  lemma NumbersApplied(t: TransportV1, p: string)
    ensures var r := Apply(t, p);
            r.Some? ==> r.value.ttl == Or(SaysTtl(p), t.ttl) && r.value.port == Or(SaysPort(p), t.port)
  {
    hide StartsWith, ScanNumber, ScanPair, NameOf, Word, Scan;
    OneName(p);
    ShortNames(p);
    NumberScans(p, "ttl=", t.ttl);
    NumberScans(p, "port=", t.port);
  }

  lemma PairsApplied(t: TransportV1, p: string)
    ensures var r := Apply(t, p);
            r.Some? ==>
              r.value.clientPort == (Or(SaysClientPort(p), t.clientPort.0), Or(SaysClientPort2(p), t.clientPort.1))
              && r.value.serverPort == (Or(SaysServerPort(p), t.serverPort.0), Or(SaysServerPort2(p), t.serverPort.1))
              && r.value.interleaved
                 == (Or(SaysInterleaved(p), t.interleaved.0), Or(SaysInterleaved2(p), t.interleaved.1))
  {
    hide StartsWith, ScanNumber, ScanPair, NameOf, Word, Scan;
    OneName(p);
    ShortNames(p);
    PairScans(p, "client_port=", t.clientPort);
    PairScans(p, "server_port=", t.serverPort);
    PairScans(p, "interleaved=", t.interleaved);
  }

  // All of them

  /** The transport whose every field is what the last piece that speaks of it says. */
  function AsSaid(t: TransportV1, pieces: seq<string>): TransportV1 {
    TransportV1(
      Last(pieces, SaysProto, t.proto), Last(pieces, SaysCast, t.cast), Last(pieces, SaysMode, t.mode),
      (Last(pieces, SaysInterleaved, t.interleaved.0), Last(pieces, SaysInterleaved2, t.interleaved.1)),
      (Last(pieces, SaysClientPort, t.clientPort.0), Last(pieces, SaysClientPort2, t.clientPort.1)),
      (Last(pieces, SaysServerPort, t.serverPort.0), Last(pieces, SaysServerPort2, t.serverPort.1)),
      Last(pieces, SaysDestination, t.destination), Last(pieces, SaysTtl, t.ttl), Last(pieces, SaysPort, t.port),
      Last(pieces, SaysSsrc, t.ssrc))
  }

  lemma {:induction false} AppliedAsSaid(t: TransportV1, pieces: seq<string>)
    ensures var r := ApplyAll(t, pieces);
            r.Some? ==> r.value == AsSaid(t, pieces)
    decreases |pieces|
  {
    if pieces != [] && Apply(t, pieces[0]).Some? {
      var p := pieces[0];
      KindsApplied(t, p);
      WordsApplied(t, p);
      NumbersApplied(t, p);
      PairsApplied(t, p);
      hide Apply, Or, SaysProto, SaysCast, SaysMode, SaysInterleaved, SaysInterleaved2, SaysClientPort,
        SaysClientPort2, SaysServerPort, SaysServerPort2, SaysDestination, SaysTtl, SaysPort, SaysSsrc;
      AppliedAsSaid(Apply(t, p).value, pieces[1..]);
    }
  }

  /**
   * Every header that is read, whoever wrote it: each field is what the last parameter that speaks of it
   * says, and is unset without one; the three enumerations are then what the memory held.
   */
  lemma ReadAsSaid(text: string, u: Uninitialised)
    ensures var r := Decode(text, u);
            r.Some? ==>
              r.value == AsSaid(TransportV1(u.proto, u.cast, u.mode, (-1, -1), (-1, -1), (-1, -1), "", -1, -1, ""),
                                Split(text, ';'))
  {
    AppliedAsSaid(Fresh(u), Split(text, ';'));
    hide Split, AsSaid, ApplyAll;
  }

  /** The transport protocol, spelled out: TCP exactly when the last profile is RTP over TCP. */
  lemma ProtoExactly(text: string, u: Uninitialised, k: nat)
    requires Decode(text, u).Some? && k < |Split(text, ';')| && StartsWith(Split(text, ';')[k], "RTP/AVP")
    requires forall j :: k < j < |Split(text, ';')| ==> !StartsWith(Split(text, ';')[j], "RTP/AVP")
    ensures Decode(text, u).value.proto == if Split(text, ';')[k] == "RTP/AVP/TCP" then TCP else UDP
  {
    ReadAsSaid(text, u);
    hide Split, Decode, StartsWith, Last;
    LastIs(Split(text, ';'), SaysProto, u.proto);
  }
}
