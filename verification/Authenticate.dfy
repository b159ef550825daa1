/** Basic and Digest credentials (RFC 2617 style): printers, parser, verification. */
module Authentication {
  import opened Text
  import opened Messages
  import Base64
  import DigestSpec
  import Md5
  import Md5Spec

  datatype Authenticate = Authenticate(
    scheme: string, username: string, password: string, realm: string, nonce: string,
    opaqueText: string, uri: string, verb: Method, response: string)

  const BLANK := Authenticate("", "", "", "", "", "", "", Unnamed(""), "")

  const BASIC := "Basic"
  const DIGEST := "Digest"

  function Unquoted(value: string): string {
    if |value| >= 2 then value[1..|value| - 1] else value
  }

  function SetField(a: Authenticate, key: string, value: string): Authenticate {
    if key == "realm" then a.(realm := value)
    else if key == "nonce" then a.(nonce := value)
    else if key == "opaque" then a.(opaqueText := value)
    else if key == "username" then a.(username := value)
    else if key == "uri" then a.(uri := value)
    else if key == "response" then a.(response := value)
    else a
  }

  function ApplyField(a: Authenticate, piece: string): Authenticate {
    var (key, quoted) := InTwo(Trim(piece), '=');
    SetField(a, key, Unquoted(quoted))
  }

  function ApplyFields(a: Authenticate, pieces: seq<string>): Authenticate
    decreases |pieces|
  {
    if pieces == [] then a else ApplyFields(ApplyField(a, pieces[0]), pieces[1..])
  }

  // `thrown`: `substr(7)` past the end of a text that is neither Basic nor long enough
  datatype Parsed = Parsed(auth: Authenticate, thrown: bool)

  function Parser(a: Authenticate, text: string): Parsed {
    var tmp := Trim(text);
    if StartsWith(tmp, BASIC) then Parsed(a.(scheme := BASIC, response := Trim(tmp[5..])), false)
    else if |tmp| < 7 then Parsed(a.(scheme := DIGEST), true)
    else Parsed(ApplyFields(a.(scheme := DIGEST), Split(tmp[7..], ',')), false)
  }

  method RunParser(a: Authenticate, text: string) returns (p: Parsed)
    ensures p == Parser(a, text)
  {
    var tmp := TrimSpace(text);
    if StartsWith(tmp, BASIC) {
      var r := TrimSpace(tmp[5..]);
      return Parsed(a.(scheme := BASIC, response := r), false);
    }
    var auth := a.(scheme := DIGEST);
    if |tmp| < 7 {
      return Parsed(auth, true);
    }
    var pieces := SplitString(tmp[7..], ',');
    assert pieces[0..] == pieces;
    for i := 0 to |pieces|
      invariant ApplyFields(auth, pieces[i..]) == ApplyFields(a.(scheme := DIGEST), pieces)
    {
      assert pieces[i..][1..] == pieces[i + 1..];
      auth := ApplyField(auth, pieces[i]);
    }
    return Parsed(auth, false);
  }

  function Quoted(key: string, value: string): string { key + "=" + ("\"" + value + "\"") }

  /** The challenge text. */
  function GenAuthInfo(a: Authenticate): string {
    var realm := a.scheme + " " + Quoted("realm", a.realm);
    if a.scheme == BASIC then realm
    else realm + "," + Quoted("nonce", a.nonce)
         + if a.opaqueText != "" then "," + Quoted("opaque", a.opaqueText) else ""
  }

  /** What Basic credentials encode. */
  function UserAndPassword(a: Authenticate): string { a.username + ":" + a.password }

  function BasicText(a: Authenticate): string { Base64.Encode(Octets(UserAndPassword(a))) }

  // md5(md5(username:realm:password):nonce:md5(method:uri))
  function MakeResponse(a: Authenticate): string {
    var a1 := Md5.DigestOf(Octets(a.username + ":" + a.realm + ":" + a.password));
    var a2 := Md5.DigestOf(Octets(MethodName(a.verb) + ":" + a.uri));
    Md5.DigestOf(Octets(a1 + ":" + a.nonce + ":" + a2))
  }

  function DigestFields(a: Authenticate): string {
    Quoted("username", a.username) + "," + (" " + Quoted("nonce", a.nonce)) + "," + (" " + Quoted("uri", a.uri))
    + "," + (" " + Quoted("response", MakeResponse(a)))
    + if a.opaqueText != "" then "," + (" " + Quoted("opaque", a.opaqueText)) else ""
  }

  function Credentials(a: Authenticate): string {
    a.scheme + " " + if a.scheme == BASIC then BasicText(a) else DigestFields(a)
  }

  /** The response is that of section 3.2.2 of RFC 2617 over the hash the code computes. */
  lemma ResponseIsRequestDigest(a: Authenticate)
    ensures MakeResponse(a)
            == DigestSpec.RequestDigest(Md5.DigestOf, a.username, a.realm, a.password, a.nonce, MethodName(a.verb),
                                        a.uri)
  {
    hide Md5.DigestOf, Octets;
    var a1 := Md5.DigestOf(Octets(a.username + ":" + a.realm + ":" + a.password));
    var a2 := Md5.DigestOf(Octets(MethodName(a.verb) + ":" + a.uri));
    assert a1 + ":" + a.nonce + ":" + a2 == a1 + ":" + (a.nonce + ":" + a2);
  }

  /** The digest with one MD5 object, reset between uses. */
  method RunMakeResponse(a: Authenticate) returns (r: string)
    requires |a.username| + |a.realm| + |a.password| + |MethodName(a.verb)| + |a.uri| + |a.nonce| < 0x1000_0000
    ensures r == MakeResponse(a)
    ensures r == DigestSpec.RequestDigest(Md5.DigestOf, a.username, a.realm, a.password, a.nonce, MethodName(a.verb),
                                          a.uri)
  {
    ResponseIsRequestDigest(a);
    var md5 := new Md5.MD5();
    var a1 := DigestWith(md5, a.username + ":" + a.realm + ":" + a.password);
    md5.Reset();
    var a2 := DigestWith(md5, MethodName(a.verb) + ":" + a.uri);
    md5.Reset();
    r := DigestWith(md5, a1 + ":" + a.nonce + ":" + a2);
  }

  method DigestWith(md5: Md5.MD5, text: string) returns (r: string)
    requires md5.Valid() && md5.Counts() && md5.Fed() == [] && |text| < 0x2000_0000
    modifies md5
    ensures r == Md5.DigestOf(Octets(text))
  {
    hide Md5Spec.CompressAll, Md5Spec.DigestText, Md5Spec.Digest, Md5.Extended, Md5.TopOctetAgrees, Octets,
      Md5.MD5.Valid;
    md5.Sum(Octets(text));
    assert md5.Fed() == Octets(text);
    r := md5.Final();
  }

  // Whether the request may pass; the method and uri of the server's parameters are overwritten
  datatype Verdict = Verdict(passed: bool, param: Authenticate, thrown: bool)

  function Verify(p: Authenticate, req: Request): Verdict {
    if Authorization !in req.headers then Verdict(false, p, false)
    else
      var parsed := Parser(BLANK, req.headers[Authorization]);
      var auth := parsed.auth;
      if parsed.thrown then Verdict(false, p, true)
      else if p.scheme != auth.scheme then Verdict(false, p, false)
      else if p.scheme == BASIC then Verdict(BasicText(p) == auth.response, p, false)
      else
        var q := p.(verb := req.verb, uri := auth.uri);
        Verdict(auth.nonce == q.nonce && auth.response == MakeResponse(q), q, false)
  }

  // Reading one printed field

  predicate FieldName(key: string) {
    key != "" && '=' !in key && !IsSpace(key[0]) && !IsSpace(key[|key| - 1])
  }

  lemma TrimTight(s: string)
    requires Tight(s)
    ensures Trim(s) == s && Trim(" " + s) == s
  {
    assert (" " + s)[1..] == s;
  }

  lemma FieldRead(key: string, value: string)
    requires FieldName(key)
    ensures InTwo(Trim(Quoted(key, value)), '=') == (key, "\"" + value + "\"")
    ensures InTwo(Trim(" " + Quoted(key, value)), '=') == (key, "\"" + value + "\"")
    ensures Unquoted("\"" + value + "\"") == value
  {
    TrimTight(Quoted(key, value));
    InTwoParts(key, '=', "\"" + value + "\"");
  }

  lemma FieldHasNoComma(key: string, value: string)
    requires ',' !in key && ',' !in value
    ensures ',' !in Quoted(key, value) && ',' !in " " + Quoted(key, value)
  {
  }

  lemma {:induction false} FieldsConcat(a: Authenticate, x: seq<string>, y: seq<string>)
    ensures ApplyFields(a, x + y) == ApplyFields(ApplyFields(a, x), y)
    decreases |x|
  {
    hide ApplyField;
    if x == [] {
      assert x + y == y;
    } else {
      FieldsConcat(ApplyField(a, x[0]), x[1..], y);
      assert (x + y)[1..] == x[1..] + y;
    }
  }

  lemma FieldApplied(a: Authenticate, key: string, value: string)
    requires FieldName(key)
    ensures ApplyField(a, Quoted(key, value)) == SetField(a, key, value)
    ensures ApplyField(a, " " + Quoted(key, value)) == SetField(a, key, value)
  {
    FieldRead(key, value);
    hide SetField, InTwo, Trim, Quoted, Unquoted;
  }

  lemma FieldNames()
    ensures FieldName("realm") && FieldName("nonce") && FieldName("opaque")
    ensures FieldName("uri") && FieldName("response") && FieldName("username")
    ensures ',' !in "realm" && ',' !in "nonce" && ',' !in "opaque" && ',' !in "uri" && ',' !in "response"
  {
  }

  lemma OnePiece(key: string, value: string)
    requires ',' !in key && ',' !in value
    ensures Split(Quoted(key, value), ',') == [Quoted(key, value)]
    ensures Split(" " + Quoted(key, value), ',') == [" " + Quoted(key, value)]
  {
    FieldHasNoComma(key, value);
    SplitLast(Quoted(key, value), ',');
    SplitLast(" " + Quoted(key, value), ',');
  }

  lemma OneField(a: Authenticate, piece: string)
    ensures ApplyFields(a, [piece]) == ApplyField(a, piece)
  {
    hide ApplyField;
  }

  /** One more field at the end of a field list. */
  lemma FieldAppended(a: Authenticate, fields: string, key: string, value: string)
    requires FieldName(key) && ',' !in key && ',' !in value
    ensures ApplyFields(a, Split(fields + "," + Quoted(key, value), ','))
            == SetField(ApplyFields(a, Split(fields, ',')), key, value)
    ensures ApplyFields(a, Split(fields + "," + (" " + Quoted(key, value)), ','))
            == SetField(ApplyFields(a, Split(fields, ',')), key, value)
  {
    var q := Quoted(key, value);
    var q' := " " + q;
    OnePiece(key, value);
    SplitConcat(fields, ',', q);
    SplitConcat(fields, ',', q');
    FieldsConcat(a, Split(fields, ','), [q]);
    FieldsConcat(a, Split(fields, ','), [q']);
    var b := ApplyFields(a, Split(fields, ','));
    OneField(b, q);
    OneField(b, q');
    FieldApplied(b, key, value);
    hide Split, ApplyFields, ApplyField, SetField, Quoted;
  }

  lemma SchemeDropped(fields: string)
    requires fields != "" && !IsSpace(fields[|fields| - 1])
    ensures var text := "Digest" + " " + fields;
            Trim(text) == text && !StartsWith(text, BASIC) && |text| >= 7 && text[7..] == fields
  {
    var text := "Digest" + " " + fields;
    assert text[0] == 'D' && text[..5][0] == 'D';
  }

  lemma QuotedEnds(head: string, key: string, value: string)
    ensures var s := head + Quoted(key, value);
            s != "" && s[|s| - 1] == '"'
  {
  }

  predicate CommaFree(a: Authenticate) {
    ',' !in a.nonce && ',' !in a.uri && ',' !in a.opaqueText
  }

  lemma {:induction false} ResponseHasNoComma(a: Authenticate)
    ensures ',' !in MakeResponse(a)
  {
    var r := MakeResponse(a);
    assert Md5.IsHex(r);
  }

  lemma UsernameApplied(a: Authenticate, username: string)
    ensures ',' !in username ==>
              ApplyFields(a, Split(Quoted("username", username), ',')) == a.(username := username)
  {
    if ',' !in username {
      FieldNames();
      OnePiece("username", username);
      OneField(a, Quoted("username", username));
      FieldApplied(a, "username", username);
      hide Split, ApplyFields, ApplyField, Quoted;
    }
  }

  lemma DigestFieldsApplied(a: Authenticate, c: Authenticate)
    requires CommaFree(c)
    ensures var b := ApplyFields(a, Split(DigestFields(c), ','));
            b.scheme == a.scheme && b.nonce == c.nonce && b.uri == c.uri && b.response == MakeResponse(c)
            && (',' !in c.username ==> b.username == c.username)
            && (c.opaqueText != "" ==> b.opaqueText == c.opaqueText)
  {
    var response := MakeResponse(c);
    var f1 := Quoted("username", c.username);
    var f2 := f1 + "," + (" " + Quoted("nonce", c.nonce));
    var f3 := f2 + "," + (" " + Quoted("uri", c.uri));
    var f4 := f3 + "," + (" " + Quoted("response", response));
    FieldNames();
    ResponseHasNoComma(c);
    SchemeKept(a, Split(DigestFields(c), ','));
    UsernameApplied(a, c.username);
    hide MakeResponse, Split, ApplyFields, Quoted, FieldName;
    FieldAppended(a, f1, "nonce", c.nonce);
    FieldAppended(a, f2, "uri", c.uri);
    FieldAppended(a, f3, "response", response);
    if c.opaqueText != "" {
      FieldAppended(a, f4, "opaque", c.opaqueText);
      assert DigestFields(c) == f4 + "," + (" " + Quoted("opaque", c.opaqueText));
    } else {
      assert DigestFields(c) == f4;
    }
  }

  lemma {:induction false} SchemeKept(a: Authenticate, pieces: seq<string>)
    ensures ApplyFields(a, pieces).scheme == a.scheme
    decreases |pieces|
  {
    hide InTwo, Trim;
    if pieces != [] { SchemeKept(ApplyField(a, pieces[0]), pieces[1..]); }
  }

  lemma DigestFieldsEnd(c: Authenticate)
    ensures var f := DigestFields(c);
            f != "" && f[|f| - 1] == '"'
  {
    hide MakeResponse, Quoted;
    var f2 := Quoted("username", c.username) + "," + (" " + Quoted("nonce", c.nonce));
    var f3 := f2 + "," + (" " + Quoted("uri", c.uri));
    var f4 := f3 + "," + (" " + Quoted("response", MakeResponse(c)));
    if c.opaqueText == "" {
      QuotedEnds(f3 + "," + " ", "response", MakeResponse(c));
      assert DigestFields(c) == f3 + "," + " " + Quoted("response", MakeResponse(c));
    } else {
      QuotedEnds(f4 + "," + " ", "opaque", c.opaqueText);
      assert DigestFields(c) == f4 + "," + " " + Quoted("opaque", c.opaqueText);
    }
  }

  /**
   * What the server reads in a Digest credential: whatever the username holds, the later fields win, and
   * without a comma it is read too.
   */
  lemma DigestParsed(c: Authenticate)
    requires c.scheme == DIGEST && CommaFree(c)
    ensures var p := Parser(BLANK, Credentials(c));
            !p.thrown && p.auth.scheme == DIGEST
            && p.auth.nonce == c.nonce && p.auth.uri == c.uri && p.auth.response == MakeResponse(c)
            && (',' !in c.username ==> p.auth.username == c.username)
            && (c.opaqueText != "" ==> p.auth.opaqueText == c.opaqueText)
  {
    DigestFieldsApplied(BLANK.(scheme := DIGEST), c);
    DigestFieldsEnd(c);
    SchemeDropped(DigestFields(c));
    hide Split, ApplyFields, Trim, StartsWith, DigestFields, MakeResponse;
  }

  // The last field of a name wins

  function KeyOf(piece: string): string { InTwo(Trim(piece), '=').0 }
  function ValueOf(piece: string): string { Unquoted(InTwo(Trim(piece), '=').1) }

  /** The value of the last field with that name, if there is one. */
  function LastField(pieces: seq<string>, key: string, otherwise: string): string
    decreases |pieces|
  {
    if pieces == [] then otherwise
    else LastField(pieces[1..], key, if KeyOf(pieces[0]) == key then ValueOf(pieces[0]) else otherwise)
  }

  function FieldOf(a: Authenticate, key: string): string {
    if key == "realm" then a.realm
    else if key == "nonce" then a.nonce
    else if key == "opaque" then a.opaqueText
    else if key == "username" then a.username
    else if key == "uri" then a.uri
    else a.response
  }

  predicate Known(key: string) { key in {"realm", "nonce", "opaque", "username", "uri", "response"} }

  lemma SetFieldOf(a: Authenticate, name: string, value: string, key: string)
    requires Known(key)
    ensures FieldOf(SetField(a, name, value), key) == if name == key then value else FieldOf(a, key)
  {
  }

  lemma {:induction false} AppliedLast(a: Authenticate, pieces: seq<string>, key: string)
    requires Known(key)
    ensures FieldOf(ApplyFields(a, pieces), key) == LastField(pieces, key, FieldOf(a, key))
    decreases |pieces|
  {
    if pieces != [] {
      SetFieldOf(a, KeyOf(pieces[0]), ValueOf(pieces[0]), key);
      hide FieldOf, SetField, InTwo, Trim, Unquoted;
      AppliedLast(ApplyField(a, pieces[0]), pieces[1..], key);
    }
  }

  lemma {:induction false} LastFieldConcat(x: seq<string>, y: seq<string>, key: string, otherwise: string)
    ensures LastField(x + y, key, otherwise) == LastField(y, key, LastField(x, key, otherwise))
    decreases |x|
  {
    hide KeyOf, ValueOf;
    if x == [] {
      assert x + y == y;
    } else {
      assert (x + y)[1..] == x[1..] + y;
      LastFieldConcat(x[1..], y, key, if KeyOf(x[0]) == key then ValueOf(x[0]) else otherwise);
    }
  }

  lemma ValueHasNoComma(piece: string)
    requires ',' !in piece
    ensures ',' !in ValueOf(piece)
  {
    TrimAddsNothing(piece, ',');
    InTwoAddsNothing(Trim(piece), '=', ',');
    hide Trim, InTwo;
  }

  /** A field read out of the pieces of a text has no comma. */
  lemma {:induction false} LastFieldHasNoComma(pieces: seq<string>, key: string, otherwise: string)
    requires forall p :: p in pieces ==> ',' !in p
    requires ',' !in otherwise || (pieces != [] && KeyOf(pieces[0]) == key)
    ensures ',' !in LastField(pieces, key, otherwise)
    decreases |pieces|
  {
    if pieces != [] {
      ValueHasNoComma(pieces[0]);
      hide KeyOf, ValueOf;
      LastFieldHasNoComma(pieces[1..], key, if KeyOf(pieces[0]) == key then ValueOf(pieces[0]) else otherwise);
    }
  }

  /** What a field holds after the printed opaque value, whose commas begin further fields, has been read. */
  function Later(lead: string, opaqueText: string, key: string, before: string): string {
    if opaqueText == "" then before else LastField(Split(lead + Quoted("opaque", opaqueText), ','), key, before)
  }

  lemma OpaqueRead(a: Authenticate, fields: string, lead: string, opaqueText: string, key: string)
    requires Known(key)
    ensures var text := fields + if opaqueText != "" then "," + (lead + Quoted("opaque", opaqueText)) else "";
            FieldOf(ApplyFields(a, Split(text, ',')), key)
            == Later(lead, opaqueText, key, FieldOf(ApplyFields(a, Split(fields, ',')), key))
  {
    hide FieldOf, ApplyFields, Split, Quoted, LastField;
    if opaqueText == "" {
      assert fields + "" == fields;
    } else {
      var last := lead + Quoted("opaque", opaqueText);
      assert fields + ("," + last) == fields + "," + last;
      SplitConcat(fields, ',', last);
      FieldsConcat(a, Split(fields, ','), Split(last, ','));
      AppliedLast(ApplyFields(a, Split(fields, ',')), Split(last, ','), key);
    }
  }

  /**
   * The server reads the nonce and the uri of a credential back exactly when neither holds a comma and
   * no field inside the opaque value replaces them.
   */
  lemma DigestReadExactly(c: Authenticate)
    requires c.scheme == DIGEST
    ensures var p := Parser(BLANK, Credentials(c));
            !p.thrown
            && (p.auth.nonce == c.nonce && p.auth.uri == c.uri
                <==> ',' !in c.nonce && ',' !in c.uri
                     && Later(" ", c.opaqueText, "nonce", c.nonce) == c.nonce
                     && Later(" ", c.opaqueText, "uri", c.uri) == c.uri)
  {
    hide Split, ApplyFields, Trim, StartsWith, DigestFields, MakeResponse, Later, LastField, Quoted, KeyOf;
    var a := BLANK.(scheme := DIGEST);
    var d := c.(opaqueText := "");
    var pieces := Split(DigestFields(c), ',');
    DigestFieldsEnd(c);
    SchemeDropped(DigestFields(c));
    PiecesHaveNoSeparator(DigestFields(c), ',');
    AppliedLast(a, pieces, "nonce");
    AppliedLast(a, pieces, "uri");
    LastFieldHasNoComma(pieces, "nonce", "");
    LastFieldHasNoComma(pieces, "uri", "");
    OpaqueLast(c);
    OpaqueRead(a, DigestFields(d), " ", c.opaqueText, "nonce");
    OpaqueRead(a, DigestFields(d), " ", c.opaqueText, "uri");
    if CommaFree(d) {
      DigestFieldsApplied(a, d);
    }
  }

  lemma OpaqueLast(c: Authenticate)
    ensures DigestFields(c)
            == DigestFields(c.(opaqueText := ""))
               + if c.opaqueText != "" then "," + (" " + Quoted("opaque", c.opaqueText)) else ""
  {
    hide Quoted, MakeResponse;
    SameResponse(c.(opaqueText := ""), c);
    var most := Quoted("username", c.username) + "," + (" " + Quoted("nonce", c.nonce)) + ","
                + (" " + Quoted("uri", c.uri)) + "," + (" " + Quoted("response", MakeResponse(c)));
    assert most + "" == most;
  }

  /** Client and server compute the same response: same secret, same challenge. */
  predicate Agree(client: Authenticate, server: Authenticate) {
    client.scheme == server.scheme
    && client.username == server.username && client.password == server.password
    && (server.scheme == BASIC
        || (server.scheme == DIGEST && client.realm == server.realm && client.nonce == server.nonce
            && ',' !in client.nonce && ',' !in client.opaqueText))
  }

  /** An agreeing client's request passes, and agreement survives the check. */
  lemma AgreementPasses(client: Authenticate, server: Authenticate, req: Request)
    requires Agree(client, server)
    requires client.verb == req.verb && ',' !in client.uri
    requires Authorization in req.headers && req.headers[Authorization] == Credentials(client)
    ensures var v := Verify(server, req);
            v.passed && !v.thrown && Agree(client, v.param)
            && v.param.(verb := server.verb, uri := server.uri) == server
  {
    if server.scheme == BASIC {
      BasicParsed(client);
      hide BasicText, Parser;
    } else {
      DigestParsed(client);
      SameResponse(client, server.(verb := req.verb, uri := client.uri));
      hide Credentials, Parser, MakeResponse;
    }
  }

  lemma SameResponse(c: Authenticate, s: Authenticate)
    requires c.username == s.username && c.realm == s.realm && c.password == s.password
    requires c.verb == s.verb && c.uri == s.uri && c.nonce == s.nonce
    ensures MakeResponse(c) == MakeResponse(s)
  {
  }

  lemma {:induction false} EncodedIsTight(t: string)
    requires Base64.Canonical(t)
    ensures t == "" || (!IsSpace(t[0]) && !IsSpace(t[|t| - 1]))
    decreases |t|
  {
    if |t| > 4 {
      EncodedIsTight(t[4..]);
    }
  }

  lemma BasicParsed(c: Authenticate)
    requires c.scheme == BASIC
    ensures Parser(BLANK, Credentials(c)) == Parsed(BLANK.(scheme := BASIC, response := BasicText(c)), false)
  {
    hide Trim, StartsWith, BasicText, Base64.Canonical;
    var e := BasicText(c);
    BasicTextTight(c);
    BasicScheme(e);
    assert Credentials(c) == "Basic" + " " + e;
  }

  lemma BasicTextTight(c: Authenticate)
    ensures var e := BasicText(c);
            e != "" && !IsSpace(e[0]) && !IsSpace(e[|e| - 1])
  {
    hide Base64.Canonical, Base64.Encode, Octets;
    Base64.EncodeIsCanonical(Octets(UserAndPassword(c)));
    EncodedIsTight(BasicText(c));
  }

  lemma BasicScheme(e: string)
    requires e != "" && !IsSpace(e[0]) && !IsSpace(e[|e| - 1])
    ensures var text := "Basic" + " " + e;
            Trim(text) == text && StartsWith(text, BASIC) && Trim(text[5..]) == e
  {
    var text := "Basic" + " " + e;
    TrimTight(text);
    TrimTight(e);
    assert text[..5] == "Basic" && text[5..] == " " + e;
  }

  /** Basic credentials decode to the user name, a colon and the password. */
  lemma BasicSays(a: Authenticate)
    requires a.scheme == BASIC
    ensures Credentials(a)[..6] == "Basic "
    ensures Base64.Decode(Credentials(a)[6..]) == Octets(a.username + ":" + a.password)
  {
    Base64.DecodeEncode(Octets(UserAndPassword(a)));
    hide Base64.Decode, Base64.Encode, Octets;
    assert Credentials(a)[6..] == BasicText(a);
  }

  /** The encoder is defined on the user's Basic credentials. */
  predicate Encodable(signedChar: bool, a: Authenticate) { Base64.Encodable(signedChar, Octets(UserAndPassword(a))) }

  /** Basic verification, where both sides can encode, accepts exactly the same user name and password text. */
  lemma BasicExactly(signedChar: bool, client: Authenticate, server: Authenticate, req: Request)
    requires Encodable(signedChar, client) && Encodable(signedChar, server)
    requires client.scheme == BASIC && server.scheme == BASIC
    requires Authorization in req.headers && req.headers[Authorization] == Credentials(client)
    requires IsByteString(UserAndPassword(client)) && IsByteString(UserAndPassword(server))
    ensures !Verify(server, req).thrown
    ensures Verify(server, req).passed <==> UserAndPassword(client) == UserAndPassword(server)
  {
    BasicParsed(client);
    var c, s := UserAndPassword(client), UserAndPassword(server);
    if BasicText(client) == BasicText(server) {
      Base64.EncodeInjective(Octets(c), Octets(s));
      OctetsInjective(c, s);
    }
    hide Parser, Credentials;
  }

  /** Answering the server's own challenge brings the client to agreement. */
  lemma ChallengeBringsAgreement(client: Authenticate, server: Authenticate)
    requires server.scheme == BASIC || server.scheme == DIGEST
    requires client.username == server.username && client.password == server.password
    requires ',' !in server.realm && ',' !in server.nonce && ',' !in server.opaqueText && ',' !in client.opaqueText
    ensures var p := Parser(client, GenAuthInfo(server));
            !p.thrown && Agree(p.auth, server)
            && p.auth.uri == client.uri && p.auth.verb == client.verb
  {
    if server.scheme == BASIC {
      BasicChallenge(client, server);
    } else {
      var a := client.(scheme := DIGEST);
      ChallengeApplied(a, server);
      ChallengeEnd(server);
      SchemeDropped(ChallengeFields(server));
      hide Split, ApplyFields, Trim, StartsWith, GenAuthInfo, ChallengeFields;
      ChallengeText(server);
    }
  }

  lemma BasicChallenge(client: Authenticate, server: Authenticate)
    requires server.scheme == BASIC
    ensures var p := Parser(client, GenAuthInfo(server));
            !p.thrown && p.auth == client.(scheme := BASIC, response := p.auth.response)
  {
    var text := "Basic" + " " + Quoted("realm", server.realm);
    QuotedEnds("Basic" + " ", "realm", server.realm);
    TrimTight(text);
    assert text[..5] == "Basic";
  }

  // The challenge without its scheme
  function ChallengeFields(a: Authenticate): string {
    Quoted("realm", a.realm) + "," + Quoted("nonce", a.nonce)
    + if a.opaqueText != "" then "," + Quoted("opaque", a.opaqueText) else ""
  }

  lemma ChallengeApplied(a: Authenticate, server: Authenticate)
    requires ',' !in server.realm && ',' !in server.nonce && ',' !in server.opaqueText
    ensures ApplyFields(a, Split(ChallengeFields(server), ','))
            == a.(realm := server.realm, nonce := server.nonce,
                  opaqueText := if server.opaqueText != "" then server.opaqueText else a.opaqueText)
  {
    FieldNames();
    hide Split, ApplyFields, Quoted, FieldName, ApplyField;
    var f1 := Quoted("realm", server.realm);
    var f2 := f1 + "," + Quoted("nonce", server.nonce);
    OnePiece("realm", server.realm);
    OneField(a, f1);
    FieldApplied(a, "realm", server.realm);
    FieldAppended(a, f1, "nonce", server.nonce);
    if server.opaqueText != "" {
      FieldAppended(a, f2, "opaque", server.opaqueText);
      assert ChallengeFields(server) == f2 + "," + Quoted("opaque", server.opaqueText);
    } else {
      assert ChallengeFields(server) == f2;
    }
  }

  /** Trimming takes nothing off before a character that is no blank. */
  lemma {:induction false} TrimKeepsHead(s: string, m: nat) returns (n: nat)
    requires m < |s| && !IsSpace(s[0]) && !IsSpace(s[m])
    ensures m < n <= |s| && Trim(s) == s[..n]
    decreases |s|
  {
    if IsSpace(s[|s| - 1]) {
      var front := s[..|s| - 1];
      n := TrimKeepsHead(front, m);
      assert front[..n] == s[..n];
    } else {
      n := |s|;
      assert s[..n] == s;
    }
  }

  lemma FirstPiece(s: string, n: nat)
    requires 0 < n <= |s| && ',' !in s[..n]
    ensures var pieces := Split(s, ',');
            pieces != [] && n <= |pieces[0]| <= |s| && pieces[0] == s[..|pieces[0]|]
  {
    var k := IndexOf(s, ',');
    forall i | 0 <= i < n
      ensures s[i] != ','
    {
      assert s[i] == s[..n][i];
    }
    hide IndexOf;
  }

  lemma KeyRead(piece: string, key: string)
    requires FieldName(key) && |piece| >= |key| + 2 && piece[..|key| + 2] == key + "=\""
    ensures KeyOf(piece) == key
  {
    var m := |key| + 1;
    var head := piece[..m + 1];
    assert piece[0] == head[0] && piece[m] == head[m];
    var n := TrimKeepsHead(piece, m);
    hide Trim, InTwo;
    var value := piece[m..n];
    assert piece[..n] == key + "=" + value by {
      assert piece[..m] == head[..m] == key + "=";
      assert piece[..n] == piece[..m] + value;
    }
    InTwoParts(key, '=', value);
  }

  /** The first piece of a printed field has its name, whatever its value. */
  lemma FirstPieceNamed(key: string, value: string)
    requires FieldName(key) && ',' !in key
    ensures var pieces := Split(Quoted(key, value), ',');
            pieces != [] && KeyOf(pieces[0]) == key
  {
    hide Split, KeyOf, FieldName;
    var s := Quoted(key, value);
    assert s == key + "=\"" + (value + "\"");
    assert s[..|key| + 2] == key + "=\"";
    FirstPiece(s, |key| + 2);
    var piece := Split(s, ',')[0];
    assert piece[..|key| + 2] == s[..|key| + 2];
    assert key != "" by { NameNotEmpty(key); }
    KeyRead(piece, key);
  }

  lemma NameNotEmpty(key: string)
    requires FieldName(key)
    ensures key != ""
  {
  }

  /** A field that is printed is read without a comma, whatever stands before and after it. */
  lemma PrintedReadClean(a: Authenticate, front: seq<string>, key: string, value: string, back: seq<string>)
    requires Known(key) && FieldName(key) && ',' !in key
    requires var pieces := front + Split(Quoted(key, value), ',') + back;
             forall p :: p in pieces ==> ',' !in p
    ensures ',' !in FieldOf(ApplyFields(a, front + Split(Quoted(key, value), ',') + back), key)
  {
    hide FieldOf, ApplyFields, Split, Quoted, LastField, KeyOf, FieldName;
    var own := Split(Quoted(key, value), ',');
    FirstPieceNamed(key, value);
    AppliedLast(a, front + own + back, key);
    assert front + own + back == front + (own + back);
    LastFieldConcat(front, own + back, key, FieldOf(a, key));
    LastFieldHasNoComma(own + back, key, LastField(front, key, FieldOf(a, key)));
  }

  lemma ChallengePieces(server: Authenticate)
    ensures Split(ChallengeFields(server), ',')
            == Split(Quoted("realm", server.realm), ',') + Split(Quoted("nonce", server.nonce), ',')
               + if server.opaqueText != "" then Split(Quoted("opaque", server.opaqueText), ',') else []
  {
    hide Split, Quoted;
    var realm, nonce, opaqueField := Quoted("realm", server.realm), Quoted("nonce", server.nonce),
                                     Quoted("opaque", server.opaqueText);
    SplitConcat(realm, ',', nonce);
    if server.opaqueText != "" {
      SplitConcat(realm + "," + nonce, ',', opaqueField);
      assert ChallengeFields(server) == realm + "," + nonce + "," + opaqueField;
    } else {
      assert ChallengeFields(server) == realm + "," + nonce;
    }
  }

  /** Whatever the challenge holds, the realm, nonce and opaque value read have no comma. */
  lemma ChallengeReadsClean(a: Authenticate, server: Authenticate)
    ensures var b := ApplyFields(a, Split(ChallengeFields(server), ','));
            ',' !in b.realm && ',' !in b.nonce && (server.opaqueText != "" ==> ',' !in b.opaqueText)
  {
    FieldNames();
    hide FieldName, ApplyFields, Split, Quoted, ChallengeFields;
    var realm, nonce := Split(Quoted("realm", server.realm), ','), Split(Quoted("nonce", server.nonce), ',');
    var last := if server.opaqueText != "" then Split(Quoted("opaque", server.opaqueText), ',') else [];
    ChallengePieces(server);
    PiecesHaveNoSeparator(ChallengeFields(server), ',');
    assert [] + realm + (nonce + last) == realm + nonce + last;
    PrintedReadClean(a, [], "realm", server.realm, nonce + last);
    PrintedReadClean(a, realm, "nonce", server.nonce, last);
    if server.opaqueText != "" {
      assert realm + nonce + last + [] == realm + nonce + last;
      PrintedReadClean(a, realm + nonce, "opaque", server.opaqueText, []);
    }
  }

  /** A challenge whose realm and nonce have no comma, as it is read: only fields inside the opaque value interfere. */
  lemma CleanChallengeRead(a: Authenticate, server: Authenticate)
    requires ',' !in server.realm && ',' !in server.nonce
    ensures var b := ApplyFields(a, Split(ChallengeFields(server), ','));
            b.realm == Later("", server.opaqueText, "realm", server.realm)
            && b.nonce == Later("", server.opaqueText, "nonce", server.nonce)
            && b.username == Later("", server.opaqueText, "username", a.username)
            && (server.opaqueText == "" ==> b.opaqueText == a.opaqueText)
  {
    hide ApplyFields, Split, Quoted, Later, ChallengeFields;
    var fields := Quoted("realm", server.realm) + "," + Quoted("nonce", server.nonce);
    ChallengeApplied(a, server.(opaqueText := ""));
    ChallengeJoined(server);
    OpaqueRead(a, fields, "", server.opaqueText, "realm");
    OpaqueRead(a, fields, "", server.opaqueText, "nonce");
    OpaqueRead(a, fields, "", server.opaqueText, "username");
    if server.opaqueText == "" { assert server.(opaqueText := "") == server; }
  }

  lemma ChallengeJoined(server: Authenticate)
    ensures var fields := Quoted("realm", server.realm) + "," + Quoted("nonce", server.nonce);
            ChallengeFields(server.(opaqueText := "")) == fields
            && ChallengeFields(server)
               == fields + if server.opaqueText != "" then "," + ("" + Quoted("opaque", server.opaqueText)) else ""
  {
    hide Quoted;
    assert "" + Quoted("opaque", server.opaqueText) == Quoted("opaque", server.opaqueText);
    var fields := Quoted("realm", server.realm) + "," + Quoted("nonce", server.nonce);
    assert fields + "" == fields;
  }

  lemma {:induction false} PasswordAndVerbKept(a: Authenticate, pieces: seq<string>)
    ensures var b := ApplyFields(a, pieces);
            b.password == a.password && b.verb == a.verb && b.scheme == a.scheme
    decreases |pieces|
  {
    hide InTwo, Trim;
    if pieces != [] { PasswordAndVerbKept(ApplyField(a, pieces[0]), pieces[1..]); }
  }

  /**
   * Which challenges bring agreement: the user is the same, and for Digest neither realm nor nonce has a
   * comma, no field inside the opaque value replaces them or the user name, and no opaque value with a
   * comma is left over from before.
   */
  predicate Meets(client: Authenticate, server: Authenticate) {
    client.password == server.password
    && if server.scheme == BASIC then client.username == server.username
       else
         ',' !in server.realm && ',' !in server.nonce && (server.opaqueText == "" ==> ',' !in client.opaqueText)
         && Later("", server.opaqueText, "realm", server.realm) == server.realm
         && Later("", server.opaqueText, "nonce", server.nonce) == server.nonce
         && Later("", server.opaqueText, "username", client.username) == server.username
  }

  lemma ChallengeAgreesExactly(client: Authenticate, server: Authenticate)
    requires server.scheme == BASIC || server.scheme == DIGEST
    ensures var p := Parser(client, GenAuthInfo(server));
            !p.thrown && p.auth.verb == client.verb && (Agree(p.auth, server) <==> Meets(client, server))
  {
    hide Split, ApplyFields, Trim, StartsWith, GenAuthInfo, ChallengeFields, Later;
    if server.scheme == BASIC {
      BasicChallenge(client, server);
    } else {
      var a := client.(scheme := DIGEST);
      ChallengeText(server);
      ChallengeEnd(server);
      SchemeDropped(ChallengeFields(server));
      PasswordAndVerbKept(a, Split(ChallengeFields(server), ','));
      ChallengeReadsClean(a, server);
      if ',' !in server.realm && ',' !in server.nonce {
        CleanChallengeRead(a, server);
      }
    }
  }

  lemma ChallengeText(server: Authenticate)
    requires server.scheme == DIGEST
    ensures GenAuthInfo(server) == "Digest" + " " + ChallengeFields(server)
  {
    hide Quoted;
    var rest := if server.opaqueText != "" then "," + Quoted("opaque", server.opaqueText) else "";
    Regrouped("Digest" + " ", Quoted("realm", server.realm), ",", Quoted("nonce", server.nonce), rest);
  }

  lemma Regrouped(a: string, b: string, c: string, d: string, e: string)
    ensures a + b + c + d + e == a + (b + c + d + e)
  {
  }

  lemma ChallengeEnd(server: Authenticate)
    ensures var f := ChallengeFields(server);
            f != "" && f[|f| - 1] == '"'
  {
    hide Quoted;
    var f1 := Quoted("realm", server.realm);
    var f2 := f1 + "," + Quoted("nonce", server.nonce);
    QuotedEnds(f1 + ",", "nonce", server.nonce);
    if server.opaqueText == "" {
      assert ChallengeFields(server) == f2;
    } else {
      QuotedEnds(f2 + ",", "opaque", server.opaqueText);
      assert ChallengeFields(server) == f2 + "," + Quoted("opaque", server.opaqueText);
    }
  }
}
