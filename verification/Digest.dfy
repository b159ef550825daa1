/** What a Digest response stands for: RFC 2617, and to what it binds whoever made it. */
module Digest {
  import opened Bytes
  import opened Text
  import opened Messages
  import opened Authentication
  import R = DigestSpec
  import Md5
  import Md5Spec

  /** A message the code pads as RFC 1321 does is hashed as RFC 1321 does. */
  lemma HashedAsSpecified(data: seq<byte>)
    requires |data| % 64 != 56 && Md5.TopOctetAgrees(|data|)
    ensures Md5.DigestOf(data) == R.Md5Hash(data)
  {
    hide Md5Spec.CompressAll, Md5Spec.DigestText, Md5.Appended, Md5Spec.Tail, Md5.TopOctetAgrees;
    Md5.PaddingAgreesExactly(|data|);
  }

  // The lengths of the three texts that are hashed
  function Lengths(a: Authenticate): seq<nat> {
    [|a.username| + 1 + |a.realm| + 1 + |a.password|, |MethodName(a.verb)| + 1 + |a.uri|, 66 + |a.nonce|]
  }

  predicate WellPadded(n: nat) { n % 64 != 56 && Md5.TopOctetAgrees(n) }

  /** With MD5 as RFC 1321 has it, unless one of the texts has one of the lengths the code pads otherwise. */
  lemma ResponseIsStandard(a: Authenticate)
    requires forall n :: n in Lengths(a) ==> WellPadded(n)
    ensures MakeResponse(a)
            == R.RequestDigest(R.Md5Hash, a.username, a.realm, a.password, a.nonce, MethodName(a.verb), a.uri)
  {
    hide Md5.DigestOf, R.Md5Hash, Octets, Md5.TopOctetAgrees;
    var one := R.A1(a.username, a.realm, a.password);
    var two := R.A2(MethodName(a.verb), a.uri);
    var lengths := Lengths(a);
    assert lengths[0] in lengths && lengths[1] in lengths && lengths[2] in lengths;
    HashedAsSpecified(Octets(one));
    HashedAsSpecified(Octets(two));
    var h1, h2 := Md5.DigestOf(Octets(one)), Md5.DigestOf(Octets(two));
    HashedAsSpecified(Octets(h1 + ":" + (a.nonce + ":" + h2)));
    ResponseIsRequestDigest(a);
  }

  // Binding

  /** Two messages on which the hash does not tell the difference. */
  predicate Collide(x: seq<byte>, y: seq<byte>) { x != y && Md5.DigestOf(x) == Md5.DigestOf(y) }

  lemma Separated(a: string, b: string, x: string, y: string)
    requires ':' !in a && ':' !in x && a + ":" + b == x + ":" + y
    ensures a == x && b == y
  {
    var s, t := a + ":" + b, x + ":" + y;
    assert s[..|a|] == a && t[..|x|] == x;
    IndexOfIs(s, ':', |a|);
    IndexOfIs(t, ':', |x|);
    assert s[|a| + 1..] == b && t[|x| + 1..] == y;
  }

  predicate SameSecret(a: Authenticate, b: Authenticate) {
    a.username == b.username && a.realm == b.realm && a.password == b.password
  }

  predicate SameRequest(a: Authenticate, b: Authenticate) {
    MethodName(a.verb) == MethodName(b.verb) && a.uri == b.uri
  }

  /** The separators keep the texts apart, and every character is an octet. */
  predicate Separable(a: Authenticate) {
    ':' !in a.username && ':' !in a.realm && ':' !in MethodName(a.verb)
    && IsByteString(a.username) && IsByteString(a.realm) && IsByteString(a.password) && IsByteString(a.nonce)
    && IsByteString(MethodName(a.verb)) && IsByteString(a.uri)
  }

  lemma HexIsByteString(h: string)
    requires Md5.IsHex(h)
    ensures IsByteString(h)
  {
  }

  lemma SecretsApart(a: Authenticate, b: Authenticate)
    requires Separable(a) && Separable(b)
    requires Octets(R.A1(a.username, a.realm, a.password)) == Octets(R.A1(b.username, b.realm, b.password))
    ensures SameSecret(a, b)
  {
    OctetsInjective(R.A1(a.username, a.realm, a.password), R.A1(b.username, b.realm, b.password));
    hide Octets;
    assert R.A1(a.username, a.realm, a.password) == a.username + ":" + (a.realm + ":" + a.password);
    assert R.A1(b.username, b.realm, b.password) == b.username + ":" + (b.realm + ":" + b.password);
    Separated(a.username, a.realm + ":" + a.password, b.username, b.realm + ":" + b.password);
    Separated(a.realm, a.password, b.realm, b.password);
  }

  lemma RequestsApart(a: Authenticate, b: Authenticate)
    requires Separable(a) && Separable(b)
    requires Octets(R.A2(MethodName(a.verb), a.uri)) == Octets(R.A2(MethodName(b.verb), b.uri))
    ensures SameRequest(a, b)
  {
    OctetsInjective(R.A2(MethodName(a.verb), a.uri), R.A2(MethodName(b.verb), b.uri));
    hide Octets;
    Separated(MethodName(a.verb), a.uri, MethodName(b.verb), b.uri);
  }

  lemma HashesApart(h1: string, nonce: string, h2: string, g1: string, other: string, g2: string)
    requires |h1| == |g1| == 32 && |h2| == |g2| == 32
    requires h1 + ":" + (nonce + ":" + h2) == g1 + ":" + (other + ":" + g2)
    ensures h1 == g1 && nonce == other && h2 == g2
  {
    var s, t := h1 + ":" + (nonce + ":" + h2), g1 + ":" + (other + ":" + g2);
    assert s[..32] == h1 && t[..32] == g1;
    assert s[|s| - 32..] == h2 && t[|t| - 32..] == g2;
    assert s[33..|s| - 33] == nonce && t[33..|t| - 33] == other;
  }

  /**
   * Equal responses come from the same secret, nonce, method and URI, or two messages are at hand that
   * the hash confuses.
   */
  lemma EqualResponses(a: Authenticate, b: Authenticate) returns (x: seq<byte>, y: seq<byte>)
    requires Separable(a) && Separable(b) && MakeResponse(a) == MakeResponse(b)
    ensures Collide(x, y) || (SameSecret(a, b) && a.nonce == b.nonce && SameRequest(a, b))
  {
    ResponseIsRequestDigest(a);
    ResponseIsRequestDigest(b);
    hide Md5.DigestOf, Octets, MakeResponse, MethodName;
    var a1, b1 := R.A1(a.username, a.realm, a.password), R.A1(b.username, b.realm, b.password);
    var a2, b2 := R.A2(MethodName(a.verb), a.uri), R.A2(MethodName(b.verb), b.uri);
    var h1, h2 := Md5.DigestOf(Octets(a1)), Md5.DigestOf(Octets(a2));
    var g1, g2 := Md5.DigestOf(Octets(b1)), Md5.DigestOf(Octets(b2));
    var s, t := h1 + ":" + (a.nonce + ":" + h2), g1 + ":" + (b.nonce + ":" + g2);
    x, y := Octets(s), Octets(t);
    if x == y {
      HexIsByteString(h1);
      HexIsByteString(h2);
      HexIsByteString(g1);
      HexIsByteString(g2);
      OctetsInjective(s, t);
      HashesApart(h1, a.nonce, h2, g1, b.nonce, g2);
      x, y := Octets(a1), Octets(b1);
      if x == y {
        SecretsApart(a, b);
        x, y := Octets(a2), Octets(b2);
        if x == y {
          RequestsApart(a, b);
        }
      }
    }
  }

  /**
   * What the server concludes from Digest credentials it accepts: whoever printed them knew its user
   * name, realm, password and nonce and signed its method, or has found two messages the hash confuses.
   */
  lemma AcceptedBinds(p: Authenticate, c: Authenticate, req: Request) returns (x: seq<byte>, y: seq<byte>)
    requires p.scheme == DIGEST && c.scheme == DIGEST && CommaFree(c)
    requires Authorization in req.headers && req.headers[Authorization] == Credentials(c)
    requires Separable(c) && Separable(p.(verb := req.verb, uri := c.uri))
    requires Verify(p, req).passed
    ensures c.nonce == p.nonce
    ensures Collide(x, y) || (SameSecret(c, p) && MethodName(c.verb) == MethodName(req.verb))
  {
    DigestParsed(c);
    hide Parser, Credentials, MakeResponse, Collide, MethodName;
    x, y := EqualResponses(c, p.(verb := req.verb, uri := c.uri));
  }

  /** Exactly which Digest credentials pass: those with the server's nonce and the response it computes itself. */
  lemma AcceptedExactly(p: Authenticate, c: Authenticate, req: Request)
    requires p.scheme == DIGEST && c.scheme == DIGEST && CommaFree(c)
    requires Authorization in req.headers && req.headers[Authorization] == Credentials(c)
    ensures Verify(p, req).passed
            <==> c.nonce == p.nonce
                 && R.RequestDigest(Md5.DigestOf, c.username, c.realm, c.password, c.nonce, MethodName(c.verb),
                                       c.uri)
                    == R.RequestDigest(Md5.DigestOf, p.username, p.realm, p.password, p.nonce, MethodName(req.verb),
                                          c.uri)
  {
    DigestParsed(c);
    ResponseIsRequestDigest(c);
    ResponseIsRequestDigest(p.(verb := req.verb, uri := c.uri));
    hide Parser, Credentials, MakeResponse, Md5.DigestOf, MethodName;
  }

  /** The URI that is signed is the one the credentials name; the URL of the request itself is not looked at. */
  lemma UrlNotChecked(p: Authenticate, req: Request, url: string)
    ensures Verify(p, req.(url := url)) == Verify(p, req)
  {
    hide Parser, MakeResponse, BasicText;
  }
}
