/** The Transport header (section 12.39 of RFC 2326): printer, parser, and what survives both. */
module Transport {
  import opened Options
  import opened Text
  import opened Decimal

  datatype LowerTransport = TCP | UDP
  datatype CastType = UNICAST | MULTICAST
  datatype Mode = PLAY | RECORD

  datatype TransportV1 = TransportV1(
    proto: LowerTransport, cast: CastType, mode: Mode,
    interleaved: (int, int), clientPort: (int, int), serverPort: (int, int),
    destination: string, ttl: int, port: int, ssrc: string)

  // The three enumerations have no initial value in the C++ structure
  datatype Uninitialised = Uninitialised(proto: LowerTransport, cast: CastType, mode: Mode)

  function Fresh(u: Uninitialised): TransportV1 {
    TransportV1(u.proto, u.cast, u.mode, (-1, -1), (-1, -1), (-1, -1), "", -1, -1, "")
  }

  /*
   * sscanf, with `None` where it has no defined result: a number an `int` cannot hold, or a word
   * that does not fit its buffer with the closing zero.
   */

  // "<prefix>%d" into n
  function ScanNumber(param: string, prefix: string, n: int): Option<int> {
    if !StartsWith(param, prefix) then Some(n)
    else match Scan(param[|prefix|..])
         case None => Some(n)
         case Some((v, _)) => if IsInt(v) then Some(v) else None
  }

  // "<prefix>%d-%d" into p.0 and p.1
  function ScanPair(param: string, prefix: string, p: (int, int)): Option<(int, int)> {
    if !StartsWith(param, prefix) then Some(p)
    else match Scan(param[|prefix|..])
         case None => Some(p)
         case Some((v, rest)) =>
           if !IsInt(v) then None
           else if rest == "" || rest[0] != '-' then Some((v, p.1))
           else match Scan(rest[1..])
                case None => Some((v, p.1))
                case Some((w, _)) => if IsInt(w) then Some((v, w)) else None
  }

  // `%s` ends at a blank, and `c_str` at a NUL
  predicate EndsWord(c: char) { c == '\0' || IsSpace(c) }

  function NonBlanks(s: string): string {
    if s == "" || EndsWord(s[0]) then "" else [s[0]] + NonBlanks(s[1..])
  }

  /** The text `%s` reads behind the prefix. */
  function Word(param: string, prefix: string): string {
    if StartsWith(param, prefix) then NonBlanks(SkipSpace(param[|prefix|..])) else ""
  }

  // "<prefix>%s" into a zeroed buffer of `capacity` octets
  function ScanWord(param: string, prefix: string, capacity: nat): Option<string> {
    var word := Word(param, prefix);
    if |word| < capacity then Some(word) else None
  }

  const MODE_CAPACITY: nat := 16
  const SSRC_CAPACITY: nat := 32
  const ADDRESS_CAPACITY: nat := 64

  function Apply(t: TransportV1, param: string): Option<TransportV1> {
    if StartsWith(param, "RTP/AVP") then Some(t.(proto := if param == "RTP/AVP/TCP" then TCP else UDP))
    else if StartsWith(param, "multicast") then Some(t.(cast := MULTICAST))
    else if StartsWith(param, "unicast") then Some(t.(cast := UNICAST))
    else if StartsWith(param, "ttl") then
      var n := ScanNumber(param, "ttl=", t.ttl);
      if n.None? then None else Some(t.(ttl := n.value))
    else if StartsWith(param, "mode") then
      var word := ScanWord(param, "mode=\"", MODE_CAPACITY);
      if word.None? then None
      else if StartsWith(word.value, "PLAY") then Some(t.(mode := PLAY))
      else if StartsWith(word.value, "RECORD") then Some(t.(mode := RECORD))
      else Some(t)
    else if StartsWith(param, "client_port") then
      var p := ScanPair(param, "client_port=", t.clientPort);
      if p.None? then None else Some(t.(clientPort := p.value))
    else if StartsWith(param, "server_port") then
      var p := ScanPair(param, "server_port=", t.serverPort);
      if p.None? then None else Some(t.(serverPort := p.value))
    else if StartsWith(param, "interleaved") then
      var p := ScanPair(param, "interleaved=", t.interleaved);
      if p.None? then None else Some(t.(interleaved := p.value))
    else if StartsWith(param, "ssrc") then
      var word := ScanWord(param, "ssrc=", SSRC_CAPACITY);
      if word.None? then None else Some(t.(ssrc := word.value))
    else if StartsWith(param, "destination") then
      var word := ScanWord(param, "destination=", ADDRESS_CAPACITY);
      if word.None? then None else Some(t.(destination := word.value))
    else if StartsWith(param, "port") then
      var n := ScanNumber(param, "port=", t.port);
      if n.None? then None else Some(t.(port := n.value))
    else Some(t)
  }

  function ApplyAll(t: TransportV1, params: seq<string>): Option<TransportV1>
    decreases |params|
  {
    if params == [] then Some(t)
    else
      var o := Apply(t, params[0]);
      if o.None? then None else ApplyAll(o.value, params[1..])
  }

  function Decode(text: string, u: Uninitialised): Option<TransportV1> {
    ApplyAll(Fresh(u), Split(text, ';'))
  }

  method DecodeTransportV1(text: string, u: Uninitialised) returns (r: Option<TransportV1>)
    ensures r == Decode(text, u)
  {
    var trans := Fresh(u);
    var params := SplitString(text, ';');
    assert params[0..] == params;
    for i := 0 to |params|
      invariant ApplyAll(trans, params[i..]) == Decode(text, u)
    {
      hide Apply;
      assert params[i..][1..] == params[i + 1..];
      var applied := Apply(trans, params[i]);
      if applied.None? {
        return None;
      }
      trans := applied.value;
    }
    return Some(trans);
  }

  // The printers

  function PairText(p: (int, int)): string { ToDecimal(p.0) + "-" + ToDecimal(p.1) }

  function Field(param: string): string { ";" + param }

  function TcpText(t: TransportV1): string { Field("interleaved=" + PairText(t.interleaved)) }

  function UdpText(t: TransportV1): string {
    (if t.clientPort.0 > 0 then Field("client_port=" + PairText(t.clientPort)) else "")
    + (if t.serverPort.0 > 0 then Field("server_port=" + PairText(t.serverPort)) else "")
  }

  // No `=` after `destination`
  function MulticastText(t: TransportV1): string {
    (if t.ttl > 0 then Field("ttl=" + ToDecimal(t.ttl)) else "")
    + (if t.port > 0 then Field("port=" + ToDecimal(t.port)) else "")
    + (if t.destination != "" then Field("destination" + t.destination) else "")
  }

  function ProtoText(t: TransportV1): string {
    if t.proto == TCP then "RTP/AVP" + "/TCP" + TcpText(t) else "RTP/AVP" + "/UDP" + UdpText(t)
  }

  function CastText(t: TransportV1): string {
    if t.cast == MULTICAST then Field("multicast") + MulticastText(t) else Field("unicast")
  }

  function ToString(t: TransportV1): string {
    ProtoText(t)
    + CastText(t)
    + Field(if t.mode == RECORD then "mode=\"RECORD\"" else "mode=\"PLAY\"")
    + (if t.ssrc != "" then Field("ssrc=" + t.ssrc) else "")
  }

  /** What is left of a transport after printing and parsing. */
  function Surviving(t: TransportV1): TransportV1 {
    var tcp := t.proto == TCP;
    var multicast := t.cast == MULTICAST;
    t.(interleaved := if tcp then t.interleaved else (-1, -1),
       clientPort := if !tcp && t.clientPort.0 > 0 then t.clientPort else (-1, -1),
       serverPort := if !tcp && t.serverPort.0 > 0 then t.serverPort else (-1, -1),
       ttl := if multicast && t.ttl > 0 then t.ttl else -1,
       port := if multicast && t.port > 0 then t.port else -1,
       destination := if multicast then DestinationRead(t.destination) else "")
  }

  /** Without `=` in the printed text, a destination is read only from behind an `=` of its own. */
  function DestinationRead(d: string): string {
    if d != "" && d[0] == '=' then NonBlanks(SkipSpace(d[1..])) else ""
  }

  predicate PairFits(p: (int, int)) { IsInt(p.0) && IsInt(p.1) }

  /** What is printed of the transport fits what the parser reads it into. */
  predicate Fits(t: TransportV1) { ProtoFits(t) && CastFits(t) && |t.ssrc| < 32 }

  predicate ProtoFits(t: TransportV1) {
    if t.proto == TCP then PairFits(t.interleaved)
    else (t.clientPort.0 > 0 ==> PairFits(t.clientPort)) && (t.serverPort.0 > 0 ==> PairFits(t.serverPort))
  }

  predicate CastFits(t: TransportV1) {
    t.cast == MULTICAST ==>
      (t.ttl > 0 ==> IsInt(t.ttl)) && (t.port > 0 ==> IsInt(t.port))
      && |DestinationRead(t.destination)| < 64
  }

  predicate CleanWord(s: string) {
    forall i :: 0 <= i < |s| ==> s[i] != ';' && !EndsWord(s[i])
  }

  // The parameters the printer writes, in order

  function Optional(present: bool, param: string): seq<string> { if present then [param] else [] }

  function Joined(params: seq<string>): string {
    if params == [] then "" else Field(params[0]) + Joined(params[1..])
  }

  lemma {:induction false} JoinedConcat(a: seq<string>, b: seq<string>)
    ensures Joined(a + b) == Joined(a) + Joined(b)
  {
    if a == [] {
      assert a + b == b;
    } else {
      JoinedConcat(a[1..], b);
      assert (a + b)[1..] == a[1..] + b;
    }
  }

  lemma JoinedOne(param: string)
    ensures Joined([param]) == Field(param)
  {
  }

  lemma JoinedOptional(present: bool, param: string)
    ensures Joined(Optional(present, param)) == if present then Field(param) else ""
  {
    JoinedOne(param);
  }

  predicate Piece(s: string) { s != "" && ';' !in s }

  lemma {:induction false} SplitJoined(first: string, params: seq<string>)
    requires Piece(first) && forall p :: p in params ==> Piece(p)
    ensures Split(first + Joined(params), ';') == [first] + params
    decreases |params|
  {
    hide Split;
    if params == [] {
      assert first + Joined(params) == first;
      SplitLast(first, ';');
    } else {
      var rest := params[0] + Joined(params[1..]);
      assert first + Joined(params) == first + [';'] + rest;
      hide Joined;
      SplitPiece(first, ';', rest);
      SplitJoined(params[0], params[1..]);
    }
  }

  function FirstParam(t: TransportV1): string { if t.proto == TCP then "RTP/AVP/TCP" else "RTP/AVP/UDP" }

  function ProtoParams(t: TransportV1): seq<string> {
    if t.proto == TCP then ["interleaved=" + PairText(t.interleaved)]
    else Optional(t.clientPort.0 > 0, "client_port=" + PairText(t.clientPort))
         + Optional(t.serverPort.0 > 0, "server_port=" + PairText(t.serverPort))
  }

  function CastParams(t: TransportV1): seq<string> {
    if t.cast == MULTICAST then
      ["multicast"] + Optional(t.ttl > 0, "ttl=" + ToDecimal(t.ttl))
      + Optional(t.port > 0, "port=" + ToDecimal(t.port))
      + Optional(t.destination != "", "destination" + t.destination)
    else ["unicast"]
  }

  function ModeParam(t: TransportV1): string {
    if t.mode == RECORD then "mode=\"RECORD\"" else "mode=\"PLAY\""
  }

  function SsrcParams(t: TransportV1): seq<string> { Optional(t.ssrc != "", "ssrc=" + t.ssrc) }

  function Params(t: TransportV1): seq<string> {
    ProtoParams(t) + CastParams(t) + [ModeParam(t)] + SsrcParams(t)
  }

  lemma ProtoJoined(t: TransportV1)
    ensures FirstParam(t) + Joined(ProtoParams(t)) == ProtoText(t)
  {
    var i := "interleaved=" + PairText(t.interleaved);
    var c, s := "client_port=" + PairText(t.clientPort), "server_port=" + PairText(t.serverPort);
    JoinedOne(i);
    JoinedOptional(t.clientPort.0 > 0, c);
    JoinedOptional(t.serverPort.0 > 0, s);
    JoinedConcat(Optional(t.clientPort.0 > 0, c), Optional(t.serverPort.0 > 0, s));
    assert "RTP/AVP" + "/TCP" == "RTP/AVP/TCP" && "RTP/AVP" + "/UDP" == "RTP/AVP/UDP";
    hide PairText, Joined, Optional, Field;
  }

  lemma CastJoined(t: TransportV1)
    ensures Joined(CastParams(t)) == CastText(t)
  {
    var ttl, port, destination := "ttl=" + ToDecimal(t.ttl), "port=" + ToDecimal(t.port), "destination" + t.destination;
    var a, b, c := Optional(t.ttl > 0, ttl), Optional(t.port > 0, port), Optional(t.destination != "", destination);
    JoinedOne("multicast");
    JoinedOne("unicast");
    JoinedOptional(t.ttl > 0, ttl);
    JoinedOptional(t.port > 0, port);
    JoinedOptional(t.destination != "", destination);
    JoinedConcat(["multicast"], a);
    JoinedConcat(["multicast"] + a, b);
    JoinedConcat(["multicast"] + a + b, c);
    hide Joined, Optional, ToDecimal, Field;
    Associative(Field("multicast"), Joined(a), Joined(b), Joined(c));
  }

  lemma Associative(a: string, b: string, c: string, d: string)
    ensures a + b + c + d == a + (b + c + d)
  {
  }

  lemma PrintedIsJoined(t: TransportV1)
    ensures ToString(t) == FirstParam(t) + Joined(Params(t))
  {
    var a, b, c, d := ProtoParams(t), CastParams(t), [ModeParam(t)], SsrcParams(t);
    ProtoJoined(t);
    CastJoined(t);
    JoinedOne(ModeParam(t));
    JoinedOptional(t.ssrc != "", "ssrc=" + t.ssrc);
    JoinedConcat(a, b);
    JoinedConcat(a + b, c);
    JoinedConcat(a + b + c, d);
    hide Joined, ProtoParams, CastParams, ProtoText, CastText, FirstParam, Optional, Field;
    assert ToString(t)
      == ProtoText(t) + CastText(t) + Field(ModeParam(t)) + (if t.ssrc != "" then Field("ssrc=" + t.ssrc) else "");
    hide ToString, ModeParam;
    var first := FirstParam(t);
    Associative(first, Joined(a), Joined(b), Joined(c) + Joined(d));
    assert Joined(Params(t)) == Joined(a) + Joined(b) + Joined(c) + Joined(d);
    assert first + (Joined(a) + Joined(b) + Joined(c) + Joined(d))
           == (first + Joined(a)) + Joined(b) + Joined(c) + Joined(d);
  }

  lemma Printable(name: string, value: string)
    requires name != "" && ';' !in name && ';' !in value
    ensures Piece(name + value)
  {
  }

  lemma PairIsPrintable(p: (int, int))
    ensures ';' !in PairText(p)
  {
  }

  ghost predicate AllPieces(params: seq<string>) {
    forall p :: p in params ==> Piece(p)
  }

  lemma ProtoPieces(t: TransportV1)
    ensures AllPieces(ProtoParams(t))
  {
    hide PairText, ToDecimal;
    PairIsPrintable(t.interleaved);
    PairIsPrintable(t.clientPort);
    PairIsPrintable(t.serverPort);
    Printable("interleaved=", PairText(t.interleaved));
    Printable("client_port=", PairText(t.clientPort));
    Printable("server_port=", PairText(t.serverPort));
    hide Piece;
  }

  lemma CastPieces(t: TransportV1)
    requires ';' !in t.destination
    ensures AllPieces(CastParams(t))
  {
    hide ToDecimal;
    Printable("ttl=", ToDecimal(t.ttl));
    Printable("port=", ToDecimal(t.port));
    Printable("destination", t.destination);
    assert Piece("multicast") && Piece("unicast");
    hide Piece;
  }

  lemma ParamsArePieces(t: TransportV1)
    requires ';' !in t.ssrc && ';' !in t.destination
    ensures Piece(FirstParam(t)) && AllPieces(Params(t))
  {
    hide ProtoParams, CastParams;
    Printable("ssrc=", t.ssrc);
    assert Piece(ModeParam(t)) && Piece(FirstParam(t));
    hide Piece, ModeParam, FirstParam;
    ProtoPieces(t);
    CastPieces(t);
    assert AllPieces(SsrcParams(t));
    hide SsrcParams;
  }

  // What one printed parameter does to the structure

  lemma Prefixed(prefix: string, rest: string)
    ensures StartsWith(prefix + rest, prefix) && (prefix + rest)[|prefix|..] == rest
  {
  }

  lemma FirstDiffers(s: string)
    requires s != ""
    ensures forall p: string {:trigger StartsWith(s, p)} :: p != "" && p[0] != s[0] ==> !StartsWith(s, p)
  {
  }

  lemma SecondDiffers(s: string)
    requires |s| > 1
    ensures forall p: string {:trigger StartsWith(s, p)} :: |p| > 1 && p[1] != s[1] ==> !StartsWith(s, p)
  {
  }

  lemma PairScanned(prefix: string, p: (int, int), q: (int, int))
    ensures ScanPair(prefix + PairText(p), prefix, q) == if PairFits(p) then Some(p) else None
  {
    hide ToDecimal, Scan, IsInt;
    var second := "-" + ToDecimal(p.1);
    Prefixed(prefix, PairText(p));
    assert PairText(p) == ToDecimal(p.0) + second;
    ScanPrinted(p.0, second);
    ScanPrinted(p.1, "");
    assert second[1..] == ToDecimal(p.1) + "";
  }

  lemma NumberScanned(prefix: string, n: int, m: int)
    ensures ScanNumber(prefix + ToDecimal(n), prefix, m) == if IsInt(n) then Some(n) else None
  {
    hide ToDecimal, Scan, IsInt;
    Prefixed(prefix, ToDecimal(n));
    ScanPrinted(n, "");
    assert ToDecimal(n) + "" == ToDecimal(n);
  }

  lemma {:induction false} WordKept(s: string)
    requires CleanWord(s)
    ensures NonBlanks(SkipSpace(s)) == s
  {
    if s != "" {
      assert SkipSpace(s) == s;
      WordKept(s[1..]);
      if s[1..] != "" { assert SkipSpace(s[1..]) == s[1..]; }
    }
  }

  lemma ApplyInterleaved(t: TransportV1, p: (int, int))
    ensures Apply(t, "interleaved=" + PairText(p)) == if PairFits(p) then Some(t.(interleaved := p)) else None
  {
    hide PairText, PairFits, ScanPair, ScanNumber, ScanWord;
    PairScanned("interleaved=", p, t.interleaved);
    FirstDiffers("interleaved=" + PairText(p));
  }

  lemma ApplyClientPort(t: TransportV1, p: (int, int))
    ensures Apply(t, "client_port=" + PairText(p)) == if PairFits(p) then Some(t.(clientPort := p)) else None
  {
    hide PairText, PairFits, ScanPair, ScanNumber, ScanWord;
    PairScanned("client_port=", p, t.clientPort);
    FirstDiffers("client_port=" + PairText(p));
  }

  lemma ApplyServerPort(t: TransportV1, p: (int, int))
    ensures Apply(t, "server_port=" + PairText(p)) == if PairFits(p) then Some(t.(serverPort := p)) else None
  {
    hide PairText, PairFits, ScanPair, ScanNumber, ScanWord;
    PairScanned("server_port=", p, t.serverPort);
    FirstDiffers("server_port=" + PairText(p));
  }

  lemma ApplyTtl(t: TransportV1, n: int)
    ensures Apply(t, "ttl=" + ToDecimal(n)) == if IsInt(n) then Some(t.(ttl := n)) else None
  {
    hide ToDecimal, IsInt, ScanPair, ScanNumber, ScanWord;
    NumberScanned("ttl=", n, t.ttl);
    FirstDiffers("ttl=" + ToDecimal(n));
  }

  lemma ApplyPort(t: TransportV1, n: int)
    ensures Apply(t, "port=" + ToDecimal(n)) == if IsInt(n) then Some(t.(port := n)) else None
  {
    hide ToDecimal, IsInt, ScanPair, ScanNumber, ScanWord;
    NumberScanned("port=", n, t.port);
    FirstDiffers("port=" + ToDecimal(n));
  }

  lemma DestinationWord(d: string)
    ensures Word("destination" + d, "destination=") == DestinationRead(d)
  {
    hide NonBlanks, SkipSpace;
    var param := "destination" + d;
    if d != "" && d[0] == '=' {
      assert param[..12] == "destination=" && param[12..] == d[1..];
    } else if d != "" {
      assert param[11] != '=';
    }
  }

  /** Of a printed destination only a word behind an `=` of its own is read, up to the first blank. */
  lemma ApplyDestination(t: TransportV1, d: string)
    ensures Apply(t, "destination" + d)
            == if |DestinationRead(d)| < 64 then Some(t.(destination := DestinationRead(d))) else None
  {
    hide ScanPair, ScanNumber, Word, DestinationRead;
    DestinationWord(d);
    FirstDiffers("destination" + d);
  }

  lemma ApplySsrc(t: TransportV1, ssrc: string)
    requires CleanWord(ssrc)
    ensures Apply(t, "ssrc=" + ssrc) == if |ssrc| < 32 then Some(t.(ssrc := ssrc)) else None
  {
    hide ScanPair, ScanNumber, NonBlanks, SkipSpace;
    WordKept(ssrc);
    Prefixed("ssrc=", ssrc);
    FirstDiffers("ssrc=" + ssrc);
    SecondDiffers("ssrc=" + ssrc);
  }

  lemma ApplyModeWord(t: TransportV1, word: string)
    requires CleanWord(word) && |word| < 16
    ensures Apply(t, "mode=\"" + word)
            == Some(t.(mode := if StartsWith(word, "PLAY") then PLAY
                               else if StartsWith(word, "RECORD") then RECORD else t.mode))
  {
    hide ScanPair, ScanNumber, NonBlanks, SkipSpace;
    WordKept(word);
    Prefixed("mode=\"", word);
    FirstDiffers("mode=\"" + word);
    SecondDiffers("mode=\"" + word);
  }

  lemma ApplyMode(t: TransportV1, m: Mode)
    ensures Apply(t, if m == RECORD then "mode=\"RECORD\"" else "mode=\"PLAY\"") == Some(t.(mode := m))
  {
    hide Apply, NonBlanks, SkipSpace;
    var word := if m == RECORD then "RECORD\"" else "PLAY\"";
    assert CleanWord(word) && word[0] == if m == RECORD then 'R' else 'P';
    FirstDiffers(word);
    assert "mode=\"RECORD\"" == "mode=\"" + "RECORD\"" && "mode=\"PLAY\"" == "mode=\"" + "PLAY\"";
    ApplyModeWord(t, word);
  }

  lemma ApplyCast(t: TransportV1)
    ensures Apply(t, "multicast") == Some(t.(cast := MULTICAST)) && Apply(t, "unicast") == Some(t.(cast := UNICAST))
  {
    FirstDiffers("multicast");
    FirstDiffers("unicast");
  }

  lemma ApplyProto(t: TransportV1)
    ensures Apply(t, "RTP/AVP/TCP") == Some(t.(proto := TCP)) && Apply(t, "RTP/AVP/UDP") == Some(t.(proto := UDP))
  {
  }

  function After(o: Option<TransportV1>, params: seq<string>): Option<TransportV1> {
    if o.None? then None else ApplyAll(o.value, params)
  }

  lemma {:induction false} ApplyAllConcat(t: TransportV1, a: seq<string>, b: seq<string>)
    ensures ApplyAll(t, a + b) == After(ApplyAll(t, a), b)
    decreases |a|
  {
    hide Apply;
    if a == [] {
      assert a + b == b;
    } else {
      assert (a + b)[1..] == a[1..] + b;
      if Apply(t, a[0]).Some? {
        ApplyAllConcat(Apply(t, a[0]).value, a[1..], b);
      }
    }
  }

  lemma ApplyOptional(t: TransportV1, present: bool, param: string)
    ensures ApplyAll(t, Optional(present, param)) == if present then Apply(t, param) else Some(t)
  {
    hide Apply;
    if present { ApplyOne(t, param); }
  }

  lemma ApplyOne(t: TransportV1, param: string)
    ensures ApplyAll(t, [param]) == Apply(t, param)
  {
    hide Apply;
    assert [param][1..] == [];
  }

  lemma ApplyProtoParams(s: TransportV1, t: TransportV1)
    ensures ApplyAll(s, ProtoParams(t))
            == if !ProtoFits(t) then None
               else if t.proto == TCP then Some(s.(interleaved := t.interleaved))
               else Some(s.(clientPort := if t.clientPort.0 > 0 then t.clientPort else s.clientPort,
                            serverPort := if t.serverPort.0 > 0 then t.serverPort else s.serverPort))
  {
    hide Apply, Optional, ApplyAll, PairText, PairFits;
    if t.proto == TCP {
      ApplyOne(s, "interleaved=" + PairText(t.interleaved));
      ApplyInterleaved(s, t.interleaved);
    } else {
      var client, server := t.clientPort.0 > 0, t.serverPort.0 > 0;
      var c, p := "client_port=" + PairText(t.clientPort), "server_port=" + PairText(t.serverPort);
      var s1 := if client then s.(clientPort := t.clientPort) else s;
      ApplyAllConcat(s, Optional(client, c), Optional(server, p));
      ApplyOptional(s, client, c);
      ApplyClientPort(s, t.clientPort);
      ApplyOptional(s1, server, p);
      ApplyServerPort(s1, t.serverPort);
    }
  }

  lemma ApplyCastParams(s: TransportV1, t: TransportV1)
    ensures ApplyAll(s, CastParams(t))
            == if !CastFits(t) then None
               else if t.cast == UNICAST then Some(s.(cast := UNICAST))
               else Some(s.(cast := MULTICAST,
                            ttl := if t.ttl > 0 then t.ttl else s.ttl,
                            port := if t.port > 0 then t.port else s.port,
                            destination := if t.destination != "" then DestinationRead(t.destination)
                                           else s.destination))
  {
    hide Apply, Optional, ApplyAll, ToDecimal, IsInt;
    ApplyCast(s);
    if t.cast == UNICAST {
      ApplyOne(s, "unicast");
    } else {
      var ttl, port := "ttl=" + ToDecimal(t.ttl), "port=" + ToDecimal(t.port);
      var destination := "destination" + t.destination;
      var a, b, c := Optional(t.ttl > 0, ttl), Optional(t.port > 0, port), Optional(t.destination != "", destination);
      var s1 := s.(cast := MULTICAST);
      var s2 := if t.ttl > 0 then s1.(ttl := t.ttl) else s1;
      var s3 := if t.port > 0 then s2.(port := t.port) else s2;
      ApplyOne(s, "multicast");
      ApplyAllConcat(s, ["multicast"], a);
      ApplyAllConcat(s, ["multicast"] + a, b);
      ApplyAllConcat(s, ["multicast"] + a + b, c);
      ApplyOptional(s1, t.ttl > 0, ttl);
      ApplyTtl(s1, t.ttl);
      ApplyOptional(s2, t.port > 0, port);
      ApplyPort(s2, t.port);
      ApplyOptional(s3, t.destination != "", destination);
      ApplyDestination(s3, t.destination);
    }
  }

  /** What printing and parsing leave of a transport, whatever the enumerations held before, if anything. */
  lemma DecodePrinted(t: TransportV1, u: Uninitialised)
    requires CleanWord(t.ssrc) && ';' !in t.destination
    ensures Decode(ToString(t), u) == if Fits(t) then Some(Surviving(t)) else None
  {
    hide Apply, Split, ToString, Joined, ProtoParams, CastParams, DestinationRead, ApplyAll, Optional, Piece, ProtoFits,
      CastFits;
    PrintedIsJoined(t);
    ParamsArePieces(t);
    SplitJoined(FirstParam(t), Params(t));
    var s0 := Fresh(u);
    var a, b, c, d := ProtoParams(t), CastParams(t), [ModeParam(t)], SsrcParams(t);
    ApplyAllConcat(s0, [FirstParam(t)], Params(t));
    ApplyOne(s0, FirstParam(t));
    ApplyProto(s0);
    var s1 := s0.(proto := t.proto);
    ApplyAllConcat(s1, a + b + c, d);
    ApplyAllConcat(s1, a + b, c);
    ApplyAllConcat(s1, a, b);
    ApplyProtoParams(s1, t);
    if ProtoFits(t) {
      var s2 := ApplyAll(s1, a).value;
      ApplyCastParams(s2, t);
      if CastFits(t) {
        var s3 := ApplyAll(s2, b).value;
        ApplyOne(s3, ModeParam(t));
        ApplyMode(s3, t.mode);
        var s4 := s3.(mode := t.mode);
        ApplyOptional(s4, t.ssrc != "", "ssrc=" + t.ssrc);
        ApplySsrc(s4, t.ssrc);
        NoDestination();
      }
    }
  }

  lemma NoDestination()
    ensures DestinationRead("") == ""
  {
  }

  predicate PortOrUnset(p: (int, int)) { p.0 > 0 || p == (-1, -1) }

  /** The transports a header can carry unchanged. */
  predicate Canonical(t: TransportV1) {
    CleanWord(t.ssrc) && |t.ssrc| < 32 && t.destination == ""
    && (if t.proto == TCP then PairFits(t.interleaved) && t.clientPort == t.serverPort == (-1, -1)
        else t.interleaved == (-1, -1) && PortOrUnset(t.clientPort) && PortOrUnset(t.serverPort)
             && PairFits(t.clientPort) && PairFits(t.serverPort))
    && if t.cast == MULTICAST then
         (t.ttl > 0 || t.ttl == -1) && (t.port > 0 || t.port == -1) && IsInt(t.ttl) && IsInt(t.port)
       else t.ttl == -1 && t.port == -1
  }

  lemma DestinationShrinks(d: string)
    requires d != ""
    ensures DestinationRead(d) != d
  {
    WordNotLonger(d[1..]);
  }

  lemma {:induction false} WordNotLonger(s: string)
    ensures |NonBlanks(s)| <= |s| && |SkipSpace(s)| <= |s| && |NonBlanks(SkipSpace(s))| <= |s|
  {
    if s != "" {
      WordNotLonger(s[1..]);
    }
  }

  lemma CanonicalSurvives(t: TransportV1)
    ensures Canonical(t) <==> CleanWord(t.ssrc) && Fits(t) && t == Surviving(t)
  {
    hide CleanWord, DestinationRead;
    NoDestination();
    if t.destination != "" {
      DestinationShrinks(t.destination);
    }
  }

  lemma {:induction false} ScannedWordClean(s: string)
    requires ';' !in s
    ensures CleanWord(NonBlanks(s)) && ';' !in SkipSpace(s)
    ensures CleanWord(NonBlanks(SkipSpace(s)))
  {
    if s != "" {
      assert ';' !in s[1..];
      ScannedWordClean(s[1..]);
    }
  }

  lemma {:induction false} AppliedIsClean(t: TransportV1, params: seq<string>)
    requires CleanWord(t.ssrc) && CleanWord(t.destination)
    requires forall p :: p in params ==> ';' !in p
    ensures var r := ApplyAll(t, params);
            r.Some? ==> CleanWord(r.value.ssrc) && CleanWord(r.value.destination)
    decreases |params|
  {
    if params != [] && Apply(t, params[0]).Some? {
      var param := params[0];
      var r := Apply(t, param).value;
      assert CleanWord(r.ssrc) && CleanWord(r.destination) by {
        WordClean(param, "ssrc=");
        WordClean(param, "destination=");
        hide Word, ScanPair, ScanNumber, StartsWith, CleanWord;
      }
      hide Apply, CleanWord;
      AppliedIsClean(r, params[1..]);
    }
  }

  lemma WordClean(param: string, prefix: string)
    requires ';' !in param
    ensures CleanWord(Word(param, prefix))
  {
    if StartsWith(param, prefix) {
      assert ';' !in param[|prefix|..];
      ScannedWordClean(param[|prefix|..]);
    }
  }

  /** A transport survives printing and parsing exactly when it is canonical. */
  lemma RoundTripExactly(t: TransportV1, u: Uninitialised)
    ensures Decode(ToString(t), u) == Some(t) <==> Canonical(t)
  {
    CanonicalSurvives(t);
    PiecesHaveNoSeparator(ToString(t), ';');
    assert CleanWord("");
    AppliedIsClean(Fresh(u), Split(ToString(t), ';'));
    hide Apply, ApplyAll, Split, ToString, Surviving, Canonical, Fits;
    if CleanWord(t.ssrc) && CleanWord(t.destination) {
      DecodePrinted(t, u);
    }
    CanonicalIsClean(t);
  }

  lemma CanonicalIsClean(t: TransportV1)
    ensures Canonical(t) ==> CleanWord(t.ssrc) && CleanWord(t.destination)
  {
  }

  // Which headers the parser cannot read

  predicate LongWord(param: string, prefix: string, capacity: nat) { |Word(param, prefix)| >= capacity }

  predicate BigNumber(param: string, prefix: string) {
    StartsWith(param, prefix) && var n := Scan(param[|prefix|..]); n.Some? && !IsInt(n.value.0)
  }

  predicate BigPair(param: string, prefix: string) {
    StartsWith(param, prefix)
    && var n := Scan(param[|prefix|..]);
       n.Some?
       && (!IsInt(n.value.0)
           || var rest := n.value.1;
              rest != "" && rest[0] == '-' && var m := Scan(rest[1..]); m.Some? && !IsInt(m.value.0))
  }

  /** A parameter whose word or number does not fit, whatever stands around it. */
  predicate Overruns(param: string) {
    LongWord(param, "mode=\"", 16) || LongWord(param, "ssrc=", 32)
    || LongWord(param, "destination=", 64) || BigNumber(param, "ttl=") || BigNumber(param, "port=")
    || BigPair(param, "client_port=") || BigPair(param, "server_port=") || BigPair(param, "interleaved=")
  }

  lemma Shorter(param: string, name: string, prefix: string)
    requires name <= prefix
    ensures StartsWith(param, prefix) ==> StartsWith(param, name)
  {
    if StartsWith(param, prefix) {
      assert param[..|name|] == param[..|prefix|][..|name|] == name;
    }
  }

  /** No two names begin alike, so a parameter with one name has none of the others. */
  lemma OtherNames(param: string, name: string)
    requires StartsWith(param, name) && |name| > 1
    ensures forall other: string {:trigger StartsWith(param, other)} ::
              |other| > 1 && (other[0] != name[0] || other[1] != name[1]) ==> !StartsWith(param, other)
  {
    assert param[..|name|][0] == param[0] && param[..|name|][1] == param[1];
    FirstDiffers(param);
    SecondDiffers(param);
  }

  lemma NumberOverruns(t: TransportV1, param: string)
    requires StartsWith(param, "ttl") || StartsWith(param, "port")
    ensures Apply(t, param).None? <==> BigNumber(param, "ttl=") || BigNumber(param, "port=")
  {
    hide StartsWith, Scan, IsInt, ScanPair, ScanWord;
    OtherNames(param, if StartsWith(param, "ttl") then "ttl" else "port");
  }

  lemma WordOverruns(t: TransportV1, param: string)
    requires StartsWith(param, "mode") || StartsWith(param, "ssrc") || StartsWith(param, "destination")
    ensures Apply(t, param).None?
            <==> LongWord(param, "mode=\"", 16) || LongWord(param, "ssrc=", 32)
                 || LongWord(param, "destination=", 64)
  {
    hide StartsWith, ScanPair, ScanNumber, NonBlanks, SkipSpace;
    OtherNames(param, if StartsWith(param, "mode") then "mode" else if StartsWith(param, "ssrc") then "ssrc"
                      else "destination");
  }

  lemma PairOverruns(t: TransportV1, param: string)
    requires StartsWith(param, "client_port") || StartsWith(param, "server_port") || StartsWith(param, "interleaved")
    ensures Apply(t, param).None?
            <==> BigPair(param, "client_port=") || BigPair(param, "server_port=") || BigPair(param, "interleaved=")
  {
    hide StartsWith, Scan, IsInt, ScanNumber, ScanWord;
    OtherNames(param, if StartsWith(param, "client_port") then "client_port"
                      else if StartsWith(param, "server_port") then "server_port" else "interleaved");
  }

  lemma ApplyOverruns(t: TransportV1, param: string)
    ensures Apply(t, param).None? <==> Overruns(param)
  {
    hide StartsWith, Scan, NonBlanks, SkipSpace, IsInt;
    Shorter(param, "mode", "mode=\"");
    Shorter(param, "ssrc", "ssrc=");
    Shorter(param, "destination", "destination=");
    Shorter(param, "ttl", "ttl=");
    Shorter(param, "port", "port=");
    Shorter(param, "client_port", "client_port=");
    Shorter(param, "server_port", "server_port=");
    Shorter(param, "interleaved", "interleaved=");
    if StartsWith(param, "ttl") || StartsWith(param, "port") {
      OtherNames(param, if StartsWith(param, "ttl") then "ttl" else "port");
      NumberOverruns(t, param);
    } else if StartsWith(param, "mode") || StartsWith(param, "ssrc") || StartsWith(param, "destination") {
      OtherNames(param, if StartsWith(param, "mode") then "mode" else if StartsWith(param, "ssrc") then "ssrc"
                        else "destination");
      WordOverruns(t, param);
    } else if StartsWith(param, "client_port") || StartsWith(param, "server_port") || StartsWith(param, "interleaved") {
      PairOverruns(t, param);
    }
  }

  /** The parser has no defined result exactly when one of the parameters overruns. */
  lemma {:induction false} ApplyAllOverruns(t: TransportV1, params: seq<string>)
    ensures ApplyAll(t, params).None? <==> exists p :: p in params && Overruns(p)
    decreases |params|
  {
    if params != [] {
      ApplyOverruns(t, params[0]);
      hide Apply, Overruns;
      if Apply(t, params[0]).Some? {
        ApplyAllOverruns(Apply(t, params[0]).value, params[1..]);
      }
    }
  }

  lemma DecodeOverrunsExactly(text: string, u: Uninitialised)
    ensures Decode(text, u).None? <==> exists p :: p in Split(text, ';') && Overruns(p)
  {
    ApplyAllOverruns(Fresh(u), Split(text, ';'));
  }

  /** A header the parser can read: no parameter of it overruns. */
  predicate Legible(text: string) { forall p :: p in Split(text, ';') ==> !Overruns(p) }

  lemma LegibleIsRead(text: string, u: Uninitialised)
    ensures Legible(text) <==> Decode(text, u).Some?
  {
    DecodeOverrunsExactly(text, u);
    hide Decode, Overruns, Split;
  }

  // What has been read can be sent on

  /** Every number and word is within what the parser can hold. */
  predicate Bounded(t: TransportV1) {
    PairFits(t.interleaved) && PairFits(t.clientPort) && PairFits(t.serverPort) && IsInt(t.ttl) && IsInt(t.port)
    && |t.ssrc| < 32 && |t.destination| < 64
  }

  lemma NumberBounded(param: string, prefix: string, n: int)
    requires IsInt(n)
    ensures var r := ScanNumber(param, prefix, n);
            r.Some? ==> IsInt(r.value)
  {
    hide IsInt, Scan, StartsWith;
  }

  lemma PairBounded(param: string, prefix: string, p: (int, int))
    requires PairFits(p)
    ensures var r := ScanPair(param, prefix, p);
            r.Some? ==> PairFits(r.value)
  {
    hide IsInt, Scan, StartsWith;
  }

  lemma ApplyBounded(t: TransportV1, param: string)
    requires Bounded(t)
    ensures var r := Apply(t, param);
            r.Some? ==> Bounded(r.value)
  {
    hide IsInt, PairFits, ScanPair, ScanNumber, StartsWith, Word;
    NumberBounded(param, "ttl=", t.ttl);
    NumberBounded(param, "port=", t.port);
    PairBounded(param, "client_port=", t.clientPort);
    PairBounded(param, "server_port=", t.serverPort);
    PairBounded(param, "interleaved=", t.interleaved);
  }

  lemma {:induction false} ApplyAllBounded(t: TransportV1, params: seq<string>)
    requires Bounded(t)
    ensures var r := ApplyAll(t, params);
            r.Some? ==> Bounded(r.value)
    decreases |params|
  {
    hide Apply, Bounded;
    if params != [] {
      ApplyBounded(t, params[0]);
      if Apply(t, params[0]).Some? {
        ApplyAllBounded(Apply(t, params[0]).value, params[1..]);
      }
    }
  }

  lemma BoundedFits(t: TransportV1)
    requires Bounded(t)
    ensures Fits(t)
  {
    hide IsInt;
    if t.destination != "" {
      WordNotLonger(t.destination[1..]);
    }
  }

  /** A transport that was read can be printed and read again: its header is legible. */
  lemma DecodedIsLegible(text: string, u: Uninitialised)
    ensures var t := Decode(text, u);
            t.Some? ==> Legible(ToString(t.value)) && Decode(ToString(t.value), u) == Some(Surviving(t.value))
  {
    var params := Split(text, ';');
    PiecesHaveNoSeparator(text, ';');
    assert CleanWord("") && Bounded(Fresh(u));
    AppliedIsClean(Fresh(u), params);
    ApplyAllBounded(Fresh(u), params);
    if Decode(text, u).Some? {
      var t := Decode(text, u).value;
      BoundedFits(t);
      CleanHasNoSeparator(t.destination);
      hide Decode, Split, ToString, Surviving, Bounded, Fits, CleanWord, Legible;
      DecodePrinted(t, u);
      LegibleIsRead(ToString(t), u);
    }
  }

  lemma CleanHasNoSeparator(s: string)
    requires CleanWord(s)
    ensures ';' !in s
  {
  }
}
