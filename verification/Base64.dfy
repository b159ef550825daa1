/** The base 64 encoder and decoder (section 4 of RFC 4648). */
module Base64 {
  import opened Bytes
  import opened Options

  // The table of section 4 of RFC 4648, as ranges
  function IndexChar(i: nat): char
    requires i < 64
  {
    if i < 26 then 'A' + i as char
    else if i < 52 then 'a' + (i - 26) as char
    else if i < 62 then '0' + (i - 52) as char
    else if i == 62 then '+'
    else '/'
  }

  // Table 1 of RFC 4648, sixteen at a time
  function AlphabetRow(row: nat): (r: string)
    requires row < 4
    ensures |r| == 16
  {
    if row == 0 then "ABCDEFGHIJKLMNOP"
    else if row == 1 then "QRSTUVWXYZabcdef"
    else if row == 2 then "ghijklmnopqrstuv"
    else "wxyz0123456789+/"
  }

  lemma AlphabetAgrees(i: nat)
    requires i < 64
    ensures IndexChar(i) == AlphabetRow(i / 16)[i % 16]
  {
    var q := i % 16;
    match q
    case 0 => case 1 => case 2 => case 3 => case 4 => case 5 => case 6 => case 7 =>
    case 8 => case 9 => case 10 => case 11 => case 12 => case 13 => case 14 => case _ =>
  }

  /** The value of a character of the alphabet; 64 for any other. */
  function CharIndex(c: char): (i: nat)
    ensures i <= 64
    ensures i < 64 ==> IndexChar(i) == c
  {
    if 'A' <= c <= 'Z' then c as int - 'A' as int
    else if 'a' <= c <= 'z' then c as int - 'a' as int + 26
    else if '0' <= c <= '9' then c as int - '0' as int + 52
    else if c == '+' then 62
    else if c == '/' then 63
    else 64
  }

  lemma IndexOfChar(i: nat)
    requires i < 64
    ensures CharIndex(IndexChar(i)) == i
    ensures IndexChar(i) != '='
  {
  }

  // Section 4 of RFC 4648: a 24-bit group as four 6-bit numbers, the most significant first
  function Sextet(n: nat, k: nat): (s: nat)
    requires k < 4
    ensures s < 64
  {
    if k == 0 then n / 64 / 64 / 64 % 64 else if k == 1 then n / 64 / 64 % 64
    else if k == 2 then n / 64 % 64 else n % 64
  }

  function Group(n: nat): string {
    [IndexChar(Sextet(n, 0)), IndexChar(Sextet(n, 1)), IndexChar(Sextet(n, 2)), IndexChar(Sextet(n, 3))]
  }

  /** The encoding as section 4 of RFC 4648 defines it: zero bits on the right, `=` for missing octets. */
  function Encode(s: seq<byte>): (t: string)
    ensures |t| == (|s| + 2) / 3 * 4
  {
    hide Group;
    if |s| == 0 then ""
    else if |s| == 1 then Group(s[0] as int * 0x1_0000)[..2] + "=="
    else if |s| == 2 then Group(s[0] as int * 0x1_0000 + s[1] as int * 0x100)[..3] + "="
    else Group(s[0] as int * 0x1_0000 + s[1] as int * 0x100 + s[2]) + Encode(s[3..])
  }

  // The four table indices, as the code forms them with shifts and masks
  function First(a: byte): nat { a / 4 }
  function Second(a: byte, b: byte): nat { BitOr(a % 4 * 16, b / 16) }
  function Third(b: byte, c: byte): nat { BitOr(b % 16 * 4, c / 64) }
  function Fourth(c: byte): (i: nat)
    ensures i < 64
  {
    c % 64
  }

  lemma GroupIndices(a: byte, b: byte, c: byte)
    ensures var n := a as int * 0x1_0000 + b as int * 0x100 + c;
            First(a) == Sextet(n, 0) && Second(a, b) == Sextet(n, 1)
            && Third(b, c) == Sextet(n, 2) && Fourth(c) == Sextet(n, 3)
  {
    var n := a as int * 0x1_0000 + b as int * 0x100 + c;
    var p, x, y, z := a / 4, a % 4 * 16 + b / 16, b % 16 * 4 + c / 64, c % 64;
    Pieces(a, b, c);
    Digits(p, x, y, z);
    hide Sextet, BitOr;
    FourBits(a % 4, b / 16);
    TwoBits(b % 16, c / 64);
  }

  lemma FourBits(high: nat, low: nat)
    requires low < 16
    ensures BitOr(high * 16, low) == high * 16 + low
  {
    assert Pow2(4) == 16;
    BitOrDisjoint(high, low, 4);
  }

  lemma TwoBits(high: nat, low: nat)
    requires low < 4
    ensures BitOr(high * 4, low) == high * 4 + low
  {
    assert Pow2(2) == 4;
    BitOrDisjoint(high, low, 2);
  }

  lemma Pieces(a: byte, b: byte, c: byte)
    ensures var p, x, y, z := a / 4, a % 4 * 16 + b / 16, b % 16 * 4 + c / 64, c % 64;
            p < 64 && x < 64 && y < 64 && z < 64
            && a as int * 0x1_0000 + b as int * 0x100 + c == ((p * 64 + x) * 64 + y) * 64 + z
  {
    assert a == a / 4 * 4 + a % 4;
    assert b == b / 16 * 16 + b % 16;
    assert c == c / 64 * 64 + c % 64;
  }

  lemma Digits(p: nat, x: nat, y: nat, z: nat)
    requires p < 64 && x < 64 && y < 64 && z < 64
    ensures var n := ((p * 64 + x) * 64 + y) * 64 + z;
            Sextet(n, 0) == p && Sextet(n, 1) == x && Sextet(n, 2) == y && Sextet(n, 3) == z
  {
    var n := ((p * 64 + x) * 64 + y) * 64 + z;
    assert n / 64 == (p * 64 + x) * 64 + y;
    assert n / 64 / 64 == p * 64 + x;
    assert n / 64 / 64 / 64 == p;
  }

  lemma LastIndices(a: byte, b: byte)
    ensures Second(a, 0) % 16 == 0 && Third(b, 0) % 4 == 0
  {
    BitOrZero(a % 4 * 16);
    BitOrZero(b % 16 * 4);
    hide BitOr;
    Quotient(a % 4, 16, 0);
    Quotient(b % 16, 4, 0);
  }

  /** The three octets from `k` on, as a group. */
  function GroupAt(s: seq<byte>, k: nat): string
    requires k + 3 <= |s|
  {
    Group(s[k] as int * 0x1_0000 + s[k + 1] as int * 0x100 + s[k + 2])
  }

  lemma EncodeFront(s: seq<byte>)
    requires |s| >= 3
    ensures Encode(s) == GroupAt(s, 0) + Encode(s[3..])
  {
    hide Group;
    assert |s| != 0 && |s| != 1 && |s| != 2;
    assert GroupAt(s, 0) == Group(s[0] as int * 0x1_0000 + s[1] as int * 0x100 + s[2]);
  }

  lemma {:induction false} EncodeGroups(s: seq<byte>, i: nat)
    requires 3 * i + 3 <= |s|
    ensures Encode(s[..3 * i + 3]) == Encode(s[..3 * i]) + GroupAt(s, 3 * i)
    decreases i
  {
    EncodeEmpty(s);
    hide Encode, Group;
    EncodeFront(s[..3 * i + 3]);
    if i == 0 {
      assert s[..3][3..] == s[..0];
    } else {
      var r := s[3..];
      EncodeGroups(r, i - 1);
      EncodeFront(s[..3 * i]);
      assert s[..3 * i + 3][3..] == r[..3 * (i - 1) + 3];
      assert s[..3 * i][3..] == r[..3 * (i - 1)];
      assert GroupAt(r, 3 * (i - 1)) == GroupAt(s, 3 * i);
    }
  }

  lemma {:induction false} EncodeSplit(s: seq<byte>, i: nat)
    requires 3 * i <= |s|
    ensures Encode(s) == Encode(s[..3 * i]) + Encode(s[3 * i..])
    decreases i
  {
    EncodeEmpty(s);
    hide Encode, Group, GroupAt;
    if i == 0 {
      assert s[0..] == s;
    } else {
      var r := s[3..];
      EncodeSplit(r, i - 1);
      EncodeFront(s);
      EncodeFront(s[..3 * i]);
      assert s[..3 * i][3..] == r[..3 * (i - 1)];
      assert s[3 * i..] == r[3 * (i - 1)..];
      SameGroup(s, i);
    }
  }

  lemma SameGroup(s: seq<byte>, i: nat)
    requires 3 <= 3 * i <= |s|
    ensures GroupAt(s[..3 * i], 0) == GroupAt(s, 0)
  {
    hide Group;
  }

  method Put(out: array<char>, loc: nat, text: string) returns (next: nat)
    requires loc + |text| <= out.Length
    modifies out
    ensures next == loc + |text|
    ensures out[..next] == old(out[..loc]) + text
  {
    forall k | 0 <= k < |text| {
      out[loc + k] := text[k];
    }
    next := loc + |text|;
    assert out[..loc] == old(out[..loc]);
  }

  method Pad(out: array<char>, loc: nat, pending: nat) returns (next: nat)
    requires pending <= 2 && loc + pending <= out.Length
    modifies out
    ensures next == loc + pending
    ensures out[..next] == old(out[..loc]) + "=="[..pending]
  {
    next := loc;
    for i := 0 to pending
      invariant next == loc + i
      invariant out[..next] == old(out[..loc]) + "=="[..i]
    {
      next := Put(out, next, "=");
    }
  }

  /** The last one or two octets and their padding. */
  method PutTail(out: array<char>, loc: nat, tail: seq<byte>, pending: nat) returns (next: nat)
    requires |tail| < 3 && pending == (if |tail| == 0 then 0 else 3 - |tail|)
    requires loc + |Encode(tail)| <= out.Length
    modifies out
    ensures next == loc + |Encode(tail)|
    ensures out[..next] == old(out[..loc]) + Encode(tail)
  {
    hide Encode, Group, IndexChar, First, Second, Third, Fourth, Sextet;
    next := loc;
    if pending == 1 {
      LastTwoOctets(tail[0], tail[1]);
      assert tail == [tail[0], tail[1]];
      var v1, v2, v3 := IndexChar(First(tail[0])), IndexChar(Second(tail[0], tail[1])), IndexChar(Third(tail[1], 0));
      next := Put(out, next, [v1, v2, v3]);
    } else if pending == 2 {
      LastOctet(tail[0]);
      assert tail == [tail[0]];
      var v1, v2 := IndexChar(First(tail[0])), IndexChar(Second(tail[0], 0));
      next := Put(out, next, [v1, v2]);
    } else {
      EncodeEmpty(tail);
      assert tail == tail[..0];
    }
    next := Pad(out, next, pending);
  }

  /** An octet that the C++ `char`, where it is signed, holds as a negative number. */
  predicate Negative(signedChar: bool, octet: byte) { signedChar && octet >= 0x80 }

  /** Strings the encoder can encode: shifted to the right, a negative octet is no index into the table. */
  predicate Encodable(signedChar: bool, plain: seq<byte>) {
    forall i :: 0 <= i < |plain| ==> !Negative(signedChar, plain[i])
  }

  /** The encoding, or `None` where the code indexes outside its table. */
  method Base64Encode(signedChar: bool, plain: seq<byte>) returns (text: Option<string>)
    ensures text == if Encodable(signedChar, plain) then Some(Encode(plain)) else None
  {
    hide Encode, Group, IndexChar, First, Second, Third, Fourth, Sextet, Negative;
    var length := |plain|;
    assert length == 3 * (length / 3) + length % 3;
    var pending := if length % 3 != 0 then 3 - length % 3 else 0;
    var total := length / 3 * 4 + if pending > 0 then 4 else 0;
    var out := new char[total];
    var loc, j := 0, 0;
    EncodeEmpty(plain);
    for i := 0 to length / 3
      invariant j == 3 * i && loc == 4 * i
      invariant out[..loc] == Encode(plain[..3 * i])
      invariant forall k :: 0 <= k < j ==> !Negative(signedChar, plain[k])
    {
      if Negative(signedChar, plain[j]) || Negative(signedChar, plain[j + 1]) || Negative(signedChar, plain[j + 2]) {
        return None;
      }
      EncodeGroups(plain, i);
      NextGroup(plain[j], plain[j + 1], plain[j + 2]);
      var v1, v2 := IndexChar(First(plain[j])), IndexChar(Second(plain[j], plain[j + 1]));
      var v3, v4 := IndexChar(Third(plain[j + 1], plain[j + 2])), IndexChar(Fourth(plain[j + 2]));
      loc := Put(out, loc, [v1, v2, v3, v4]);
      j := j + 3;
    }
    EncodeSplit(plain, length / 3);
    assert length == j + if pending == 0 then 0 else 3 - pending;
    if pending == 1 && (Negative(signedChar, plain[length - 2]) || Negative(signedChar, plain[length - 1])) {
      return None;
    }
    if pending == 2 && Negative(signedChar, plain[length - 1]) {
      return None;
    }
    assert Encodable(signedChar, plain);
    loc := PutTail(out, loc, plain[j..], pending);
    assert out[..] == out[..loc];
    text := Some(out[..]);
  }

  lemma NextGroup(a: byte, b: byte, c: byte)
    ensures First(a) < 64 && Second(a, b) < 64 && Third(b, c) < 64
    ensures Group(a as int * 0x1_0000 + b as int * 0x100 + c)
            == [IndexChar(First(a)), IndexChar(Second(a, b)), IndexChar(Third(b, c)), IndexChar(Fourth(c))]
  {
    GroupIndices(a, b, c);
    hide IndexChar, First, Second, Third, Fourth, Sextet, BitOr;
  }

  lemma EncodeEmpty(s: seq<byte>)
    ensures Encode(s[..0]) == []
  {
  }

  lemma LastOctet(a: byte)
    ensures First(a) < 64 && Second(a, 0) < 64
    ensures Encode([a]) == [IndexChar(First(a)), IndexChar(Second(a, 0)), '=', '=']
  {
    hide Group, IndexChar, First, Second, Third, Fourth, Sextet, BitOr;
    NextGroup(a, 0, 0);
  }

  lemma LastTwoOctets(a: byte, b: byte)
    ensures First(a) < 64 && Second(a, b) < 64 && Third(b, 0) < 64
    ensures Encode([a, b])
            == [IndexChar(First(a)), IndexChar(Second(a, b)), IndexChar(Third(b, 0)), '=']
  {
    hide Group, IndexChar, First, Second, Third, Fourth, Sextet, BitOr;
    NextGroup(a, b, 0);
  }

  // The three octets, as the decoder forms them from character values
  function Octet1(i1: nat, i2: nat): byte { BitOr(i1 * 4, i2 / 16) % 256 }
  function Octet2(i2: nat, i3: nat): byte { BitOr(i2 * 16, i3 / 4) % 256 }
  function Octet3(i3: nat, i4: nat): byte { BitOr(i3 * 64, i4) % 256 }

  function Zeros(n: nat): (z: seq<byte>)
    ensures |z| == n
  {
    seq(n, _ => 0)
  }

  /**
   * What the decoder returns. Its buffer is sized from the length of the text, so a group that
   * ends it early leaves the octets of the groups after it at zero.
   */
  function Decode(t: string): (s: seq<byte>) {
    if |t| < 4 then []
    else
      var i1, i2, i3, i4 := CharIndex(t[0]), CharIndex(t[1]), CharIndex(t[2]), CharIndex(t[3]);
      var unused := Zeros(3 * (|t| / 4 - 1));
      if i3 == 64 then [Octet1(i1, i2)] + unused
      else if i4 == 64 then [Octet1(i1, i2), Octet2(i2, i3)] + unused
      else [Octet1(i1, i2), Octet2(i2, i3), Octet3(i3, i4)] + Decode(t[4..])
  }

  method Base64Decode(text: string) returns (plain: seq<byte>)
    ensures plain == Decode(text)
  {
    hide *;
    var length := |text|;
    var groups := length / 4;
    plain := Zeros(groups * 3);
    var i, j, loc := 0, 0, 0;
    ghost var done: seq<byte> := [];
    assert text[0..] == text && plain == done + plain;
    while i < groups
      invariant i <= groups && j == 4 * i && loc == 3 * i == |done|
      invariant plain == done + Zeros(3 * (groups - i))
      invariant done + Decode(text[j..]) == Decode(text)
    {
      var i1, i2, i3, i4 := CharIndex(text[j]), CharIndex(text[j + 1]), CharIndex(text[j + 2]), CharIndex(text[j + 3]);
      OneTurn(text, j, groups - i, done);
      plain := plain[loc := Octet1(i1, i2)];
      if i3 == 64 {
        plain := plain[..|plain| - 2];
        return;
      }
      plain := plain[loc + 1 := Octet2(i2, i3)];
      if i4 == 64 {
        plain := plain[..|plain| - 1];
        return;
      }
      plain := plain[loc + 2 := Octet3(i3, i4)];
      done := done + [Octet1(i1, i2), Octet2(i2, i3), Octet3(i3, i4)];
      i, j, loc := i + 1, j + 4, loc + 3;
    }
    DecodeShortText(text[j..]);
    assert plain == done == done + [];
  }

  /** The buffer after each store of one turn, with `n` groups of it still at zero. */
  lemma OctetsStored(done: seq<byte>, n: nat, a: byte, b: byte, c: byte, rest: seq<byte>)
    requires n > 0
    ensures var p1 := (done + Zeros(3 * n))[|done| := a];
            var p2 := p1[|done| + 1 := b];
            var p3 := p2[|done| + 2 := c];
            p1[..|p1| - 2] == done + ([a] + Zeros(3 * (n - 1)))
            && p2[..|p2| - 1] == done + ([a, b] + Zeros(3 * (n - 1)))
            && p3 == done + [a, b, c] + Zeros(3 * (n - 1))
    ensures done + ([a, b, c] + rest) == done + [a, b, c] + rest
  {
  }

  /** What one turn stores at the front of the `n` groups still at zero, and what is left to decode. */
  lemma OneTurn(text: string, j: nat, n: nat, done: seq<byte>)
    requires j + 4 * n <= |text| < j + 4 * n + 4 && n > 0
    requires done + Decode(text[j..]) == Decode(text)
    ensures var i1, i2, i3, i4 :=
              CharIndex(text[j]), CharIndex(text[j + 1]), CharIndex(text[j + 2]), CharIndex(text[j + 3]);
            var p1 := (done + Zeros(3 * n))[|done| := Octet1(i1, i2)];
            var p2 := p1[|done| + 1 := Octet2(i2, i3)];
            var p3 := p2[|done| + 2 := Octet3(i3, i4)];
            if i3 == 64 then p1[..|p1| - 2] == Decode(text)
            else if i4 == 64 then p2[..|p2| - 1] == Decode(text)
            else
              var more := done + [Octet1(i1, i2), Octet2(i2, i3), Octet3(i3, i4)];
              p3 == more + Zeros(3 * (n - 1)) && more + Decode(text[j + 4..]) == Decode(text)
  {
    hide *;
    var i1, i2, i3, i4 := CharIndex(text[j]), CharIndex(text[j + 1]), CharIndex(text[j + 2]), CharIndex(text[j + 3]);
    DecodeGroup(text, j, n);
    OctetsStored(done, n, Octet1(i1, i2), Octet2(i2, i3), Octet3(i3, i4), Decode(text[j + 4..]));
  }

  lemma DecodeShortText(t: string)
    requires |t| < 4
    ensures Decode(t) == []
  {
  }

  /** One turn of the decoder on the group at `j`, with `groups` groups left. */
  lemma DecodeGroup(text: string, j: nat, groups: nat)
    requires j + 4 * groups <= |text| < j + 4 * groups + 4 && groups > 0
    ensures j + 4 <= |text|
    ensures var i1, i2 := CharIndex(text[j]), CharIndex(text[j + 1]);
            var i3, i4 := CharIndex(text[j + 2]), CharIndex(text[j + 3]);
            Decode(text[j..])
            == if i3 == 64 then [Octet1(i1, i2)] + Zeros(3 * (groups - 1))
               else if i4 == 64 then [Octet1(i1, i2), Octet2(i2, i3)] + Zeros(3 * (groups - 1))
               else [Octet1(i1, i2), Octet2(i2, i3), Octet3(i3, i4)] + Decode(text[j + 4..])
  {
    hide CharIndex, Octet1, Octet2, Octet3;
    assert text[j..][4..] == text[j + 4..];
  }

  /** The octets come back from the four indices of their group. */
  lemma GroupRestored(a: byte, b: byte, c: byte)
    ensures Octet1(First(a), Second(a, b)) == a
    ensures Octet2(Second(a, b), Third(b, c)) == b
    ensures Octet3(Third(b, c), Fourth(c)) == c
  {
    FourBits(a % 4, b / 16);
    TwoBits(b % 16, c / 64);
    ValidOctets(First(a), Second(a, b), Third(b, c), Fourth(c));
    hide BitOr;
  }

  lemma ValidOctets(p: nat, x: nat, y: nat, z: nat)
    requires p < 64 && x < 64 && y < 64 && z < 64
    ensures Octet1(p, x) == p * 4 + x / 16
    ensures Octet2(x, y) == x % 16 * 16 + y / 4
    ensures Octet3(y, z) == y % 4 * 64 + z
  {
    hide Octet1, Octet2, Octet3, BitOr;
    ValidOctet1(p, x);
    ValidOctet2(x, y);
    ValidOctet3(y, z);
  }

  lemma ValidOctet1(p: nat, x: nat)
    requires p < 64 && x < 64
    ensures Octet1(p, x) == p * 4 + x / 16
  {
    hide BitOr;
    TwoBits(p, x / 16);
    Quotient(0, 256, p * 4 + x / 16);
  }

  lemma ValidOctet2(x: nat, y: nat)
    requires x < 64 && y < 64
    ensures Octet2(x, y) == x % 16 * 16 + y / 4
  {
    hide BitOr;
    FourBits(x, y / 4);
    Quotient(x / 16, 256, x % 16 * 16 + y / 4);
  }

  lemma ValidOctet3(y: nat, z: nat)
    requires y < 64 && z < 64
    ensures Octet3(y, z) == y % 4 * 64 + z
  {
    hide BitOr;
    SixBits(y, z);
    Quotient(y / 4, 256, y % 4 * 64 + z);
  }

  lemma SixBits(high: nat, low: nat)
    requires low < 64
    ensures BitOr(high * 64, low) == high * 64 + low
  {
    assert Pow2(6) == 64;
    BitOrDisjoint(high, low, 6);
  }

  lemma Quotient(q: nat, m: nat, r: nat)
    requires r < m && m in {4, 16, 64, 256}
    ensures (q * m + r) / m == q && (q * m + r) % m == r
  {
  }

  /** The indices come back from the octets of their group. */
  lemma IndicesRestored(p: nat, x: nat, y: nat, z: nat)
    requires p < 64 && x < 64 && y < 64 && z < 64
    ensures First(Octet1(p, x)) == p && Second(Octet1(p, x), Octet2(x, y)) == x
    ensures Third(Octet2(x, y), Octet3(y, z)) == y && Fourth(Octet3(y, z)) == z
  {
    OctetParts(p, x, y, z);
    FourBits(x / 16, x % 16);
    TwoBits(y / 4, y % 4);
    hide BitOr, Octet1, Octet2, Octet3;
  }

  lemma OctetParts(p: nat, x: nat, y: nat, z: nat)
    requires p < 64 && x < 64 && y < 64 && z < 64
    ensures Octet1(p, x) / 4 == p && Octet1(p, x) % 4 == x / 16
    ensures Octet2(x, y) / 16 == x % 16 && Octet2(x, y) % 16 == y / 4
    ensures Octet3(y, z) / 64 == y % 4 && Octet3(y, z) % 64 == z
  {
    ValidOctets(p, x, y, z);
    Quotient(p, 4, x / 16);
    Quotient(x % 16, 16, y / 4);
    Quotient(y % 4, 64, z);
    hide Octet1, Octet2, Octet3;
  }

  /** Decoding undoes encoding, for all octets. */
  lemma {:induction false} DecodeEncode(s: seq<byte>)
    ensures Decode(Encode(s)) == s
  {
    hide CharIndex, IndexChar, Octet1, Octet2, Octet3, First, Second, Third, Fourth;
    var t := Encode(s);
    if |s| == 0 {
    } else if |s| == 1 {
      LastOctet(s[0]);
      assert s == [s[0]];
      DecodeOne(s[0], t);
    } else if |s| == 2 {
      LastTwoOctets(s[0], s[1]);
      assert s == [s[0], s[1]];
      DecodeTwo(s[0], s[1], t);
    } else {
      NextGroup(s[0], s[1], s[2]);
      GroupRestored(s[0], s[1], s[2]);
      IndexOfChar(First(s[0]));
      IndexOfChar(Second(s[0], s[1]));
      IndexOfChar(Third(s[1], s[2]));
      IndexOfChar(Fourth(s[2]));
      DecodeEncode(s[3..]);
      hide Encode;
      assert t[4..] == Encode(s[3..]);
    }
  }

  lemma DecodeOne(a: byte, t: string)
    requires First(a) < 64 && Second(a, 0) < 64
    requires t == [IndexChar(First(a)), IndexChar(Second(a, 0)), '=', '=']
    ensures Decode(t) == [a]
  {
    GroupRestored(a, 0, 0);
    IndexOfChar(First(a));
    IndexOfChar(Second(a, 0));
    assert CharIndex('=') == 64;
    hide CharIndex, IndexChar, Octet1, Octet2, Octet3, First, Second, Third, Fourth;
  }

  lemma DecodeTwo(a: byte, b: byte, t: string)
    requires First(a) < 64 && Second(a, b) < 64 && Third(b, 0) < 64
    requires t == [IndexChar(First(a)), IndexChar(Second(a, b)), IndexChar(Third(b, 0)), '=']
    ensures Decode(t) == [a, b]
  {
    GroupRestored(a, b, 0);
    IndexOfChar(First(a));
    IndexOfChar(Second(a, b));
    IndexOfChar(Third(b, 0));
    assert CharIndex('=') == 64;
    hide CharIndex, IndexChar, Octet1, Octet2, Octet3, First, Second, Third, Fourth;
  }

  /** Distinct octet strings have distinct encodings. */
  lemma EncodeInjective(s: seq<byte>, s': seq<byte>)
    requires Encode(s) == Encode(s')
    ensures s == s'
  {
    DecodeEncode(s);
    DecodeEncode(s');
  }

  /** A text the encoder can produce: whole groups, `=` only at the end, no stray bits before it. */
  predicate Canonical(t: string) {
    if |t| < 4 then t == ""
    else
      var i1, i2, i3, i4 := CharIndex(t[0]), CharIndex(t[1]), CharIndex(t[2]), CharIndex(t[3]);
      i1 < 64 && i2 < 64
      && if t[2] == '=' then |t| == 4 && t[3] == '=' && i2 % 16 == 0
         else if t[3] == '=' then |t| == 4 && i3 < 64 && i3 % 4 == 0
         else i3 < 64 && i4 < 64 && Canonical(t[4..])
  }

  lemma {:induction false} EncodeIsCanonical(s: seq<byte>)
    ensures Canonical(Encode(s))
  {
    if |s| == 0 {
    } else if |s| == 1 {
      OneIsCanonical(s[0]);
      assert s == [s[0]];
    } else if |s| == 2 {
      TwoIsCanonical(s[0], s[1]);
      assert s == [s[0], s[1]];
    } else {
      var n := s[0] as int * 0x1_0000 + s[1] as int * 0x100 + s[2];
      assert Encode(s) == Group(n) + Encode(s[3..]) by { hide Group; }
      EncodeIsCanonical(s[3..]);
      GroupChars(n);
      hide Encode, Canonical, Group, CharIndex;
      GroupIsCanonical(Group(n), Encode(s[3..]));
    }
  }

  lemma GroupChars(n: nat)
    ensures |Group(n)| == 4
    ensures forall i :: 0 <= i < 4 ==> CharIndex(Group(n)[i]) < 64 && Group(n)[i] != '='
  {
    IndexOfChar(Sextet(n, 0));
    IndexOfChar(Sextet(n, 1));
    IndexOfChar(Sextet(n, 2));
    IndexOfChar(Sextet(n, 3));
    hide IndexChar, CharIndex, Sextet;
  }

  lemma GroupIsCanonical(head: string, rest: string)
    requires |head| == 4 && Canonical(rest)
    requires forall i :: 0 <= i < 4 ==> CharIndex(head[i]) < 64 && head[i] != '='
    ensures Canonical(head + rest)
  {
    assert (head + rest)[4..] == rest;
  }

  lemma OneIsCanonical(a: byte)
    ensures Canonical(Encode([a]))
  {
    LastOctet(a);
    LastIndices(a, 0);
    IndexOfChar(First(a));
    IndexOfChar(Second(a, 0));
    hide CharIndex, IndexChar, Encode, First, Second;
  }

  lemma TwoIsCanonical(a: byte, b: byte)
    ensures Canonical(Encode([a, b]))
  {
    LastTwoOctets(a, b);
    LastIndices(a, b);
    IndexOfChar(First(a));
    IndexOfChar(Second(a, b));
    IndexOfChar(Third(b, 0));
    hide CharIndex, IndexChar, Encode, First, Second, Third;
  }

  lemma {:induction false} EncodeDecode(t: string)
    requires Canonical(t)
    ensures Encode(Decode(t)) == t
    decreases |t|
  {
    hide CharIndex, IndexChar, First, Second, Third, Fourth, Octet1, Octet2, Octet3;
    if |t| >= 4 {
      var i1, i2, i3, i4 := CharIndex(t[0]), CharIndex(t[1]), CharIndex(t[2]), CharIndex(t[3]);
      PadIndex();
      if t[2] == '=' {
        IndicesRestored(i1, i2, 0, 0);
        NoStrayBits(i1, i2, 0);
        LastOctet(Octet1(i1, i2));
        assert t == [t[0], t[1], '=', '='];
        assert Decode(t) == [Octet1(i1, i2)];
      } else if t[3] == '=' {
        IndicesRestored(i1, i2, i3, 0);
        NoStrayBits(i1, i2, i3);
        LastTwoOctets(Octet1(i1, i2), Octet2(i2, i3));
        assert t == [t[0], t[1], t[2], '='];
        assert Decode(t) == [Octet1(i1, i2), Octet2(i2, i3)];
      } else {
        IndicesRestored(i1, i2, i3, i4);
        NextGroup(Octet1(i1, i2), Octet2(i2, i3), Octet3(i3, i4));
        EncodeDecode(t[4..]);
        assert Decode(t)[3..] == Decode(t[4..]);
        assert t == [t[0], t[1], t[2], t[3]] + t[4..];
      }
    }
  }

  lemma PadIndex()
    ensures CharIndex('=') == 64
  {
  }

  lemma NoStrayBits(i1: nat, i2: nat, i3: nat)
    requires i1 < 64 && i2 < 64 && i3 < 64
    ensures i2 % 16 == 0 ==> Octet2(i2, 0) == 0
    ensures i3 % 4 == 0 ==> Octet3(i3, 0) == 0
  {
    ValidOctets(i1, i2, i3, 0);
    ValidOctets(i1, i2, 0, 0);
    hide Octet1, Octet2, Octet3;
  }

  /** Encoding undoes decoding exactly on the texts the encoder produces. */
  lemma EncodeDecodeExactly(t: string)
    ensures Encode(Decode(t)) == t <==> Canonical(t)
  {
    if Canonical(t) {
      EncodeDecode(t);
    }
    EncodeIsCanonical(Decode(t));
  }

  // Texts the encoder does not produce

  /** Whole groups, each with a third and a fourth character of the alphabet. */
  predicate Full(t: string) {
    t == "" || (|t| >= 4 && CharIndex(t[2]) < 64 && CharIndex(t[3]) < 64 && Full(t[4..]))
  }

  /** Decoding ends at the first group that is not full; what the buffer holds for later groups stays zero. */
  lemma {:induction false} DecodeStops(head: string, group: string, tail: string)
    requires Full(head) && |group| == 4 && (CharIndex(group[2]) == 64 || CharIndex(group[3]) == 64)
    ensures Decode(head + group + tail) == Decode(head) + Decode(group) + Zeros(3 * (|tail| / 4))
    ensures |Decode(group)| == if CharIndex(group[2]) == 64 then 1 else 2
  {
    hide CharIndex, Octet1, Octet2, Octet3;
    var t := head + group + tail;
    if head == "" {
      assert t == group + tail && |t| / 4 - 1 == |tail| / 4;
      assert t[0] == group[0] && t[1] == group[1] && t[2] == group[2] && t[3] == group[3];
    } else {
      assert t[4..] == head[4..] + group + tail;
      DecodeStops(head[4..], group, tail);
    }
  }
}
