/** The streaming MD5 object, proved against RFC 1321. */
module Md5 {
  import opened Bytes
  import opened Spec = Md5Spec

  // The sixty-four rotation amounts, as the code tabulates them
  function S(i: nat): nat
    requires i < 64
  {
    var row: seq<nat> :=
      if i < 16 then [7, 12, 17, 22, 7, 12, 17, 22, 7, 12, 17, 22, 7, 12, 17, 22]
      else if i < 32 then [5, 9, 14, 20, 5, 9, 14, 20, 5, 9, 14, 20, 5, 9, 14, 20]
      else if i < 48 then [4, 11, 16, 23, 4, 11, 16, 23, 4, 11, 16, 23, 4, 11, 16, 23]
      else [6, 10, 15, 21, 6, 10, 15, 21, 6, 10, 15, 21, 6, 10, 15, 21];
    row[i % 16]
  }

  lemma FourPeriodic(a: nat, b: nat, c: nat, d: nat, q: nat)
    requires q < 16
    ensures [a, b, c, d, a, b, c, d, a, b, c, d, a, b, c, d][q] == [a, b, c, d][q % 4]
  {
    match q
    case 0 => case 1 => case 2 => case 3 => case 4 => case 5 => case 6 => case 7 =>
    case 8 => case 9 => case 10 => case 11 => case 12 => case 13 => case 14 => case _ =>
  }

  lemma ShiftsAgree(i: nat)
    requires i < 64
    ensures S(i) == Shift(i)
  {
    assert i % 16 % 4 == i % 4;
    FourPeriodic(7, 12, 17, 22, i % 16);
    FourPeriodic(5, 9, 14, 20, i % 16);
    FourPeriodic(4, 11, 16, 23, i % 16);
    FourPeriodic(6, 10, 15, 21, i % 16);
  }

  lemma WordRowsAgree(q: nat)
    requires q < 16
    ensures WordRow(0)[q] == q && WordRow(1)[q] == (5 * q + 1) % 16
    ensures WordRow(2)[q] == (3 * q + 5) % 16 && WordRow(3)[q] == 7 * q % 16
  {
    match q
    case 0 => case 1 => case 2 => case 3 => case 4 => case 5 => case 6 => case 7 =>
    case 8 => case 9 => case 10 => case 11 => case 12 => case 13 => case 14 => case _ =>
  }

  /** The word index computed by the loop is the one section 3.4 of RFC 1321 tabulates. */
  lemma WordsAgree(i: nat)
    requires i < 64
    ensures Word(i) == WordIndex(i)
  {
    hide WordRow;
    WordRowsAgree(i % 16);
    Residues(i);
  }

  lemma Residues(i: nat)
    ensures (5 * i + 1) % 16 == (5 * (i % 16) + 1) % 16
    ensures (3 * i + 5) % 16 == (3 * (i % 16) + 5) % 16
    ensures 7 * i % 16 == 7 * (i % 16) % 16
  {
    var r, q := i / 16, i % 16;
    SixteenDropped(5 * r, 5 * q + 1);
    SixteenDropped(3 * r, 3 * q + 5);
    SixteenDropped(7 * r, 7 * q);
  }

  lemma SixteenDropped(k: nat, m: nat)
    ensures (16 * k + m) % 16 == m % 16
  {
  }

  lemma OneMoreOperation(i: nat, r: Registers, x: seq<bv32>)
    requires i < 64 && |x| == 16
    ensures var o := Operands(i, Operations(i, r, x));
            Operands(i + 1, Operations(i + 1, r, x))
            == Registers(o.d, Operation(i, o.a, o.b, o.c, o.d, x), o.b, o.c)
  {
    hide Operation, Operands, Write;
    var o := Operands(i, Operations(i, r, x));
    RotationStep(i, Operations(i, r, x), Operation(i, o.a, o.b, o.c, o.d, x));
  }

  lemma FirstAndLast(r: Registers, block: seq<byte>)
    requires |block| == 64
    ensures var x := BlockWords(block);
            var s := Operands(64, Operations(64, r, x));
            Operands(0, Operations(0, r, x)) == r
            && Compress(r, block) == Registers(Add(r.a, s.a), Add(r.b, s.b), Add(r.c, s.c), Add(r.d, s.d))
  {
    hide InPlace, Add;
  }

  // The sum as the loop writes it
  function Total(f: bv32, a: bv32, k: bv32, m: bv32): bv32 { f + a + k + m }

  lemma SumsAgree(f: bv32, a: bv32, k: bv32, m: bv32)
    ensures Total(f, a, k, m) == Sum4(a, f, m, k)
  {
  }

  /** Rotating four names around the value just computed is writing the registers in turn. */
  lemma RotationStep<W>(i: nat, r: Four<W>, value: W)
    ensures var o := Operands(i, r);
            Operands(i + 1, Write(i, r, value)) == Registers(o.d, value, o.b, o.c)
  {
    assert (i + 1) % 4 == if i % 4 == 3 then 0 else i % 4 + 1;
  }

  // The selection function and the word index, as the loop computes them
  function Selected(i: nat, b: bv32, c: bv32, d: bv32): bv32 {
    if i < 16 then (b & c) | (!b & d) else if i < 32 then (d & b) | (!d & c)
    else if i < 48 then b ^ c ^ d else c ^ (b | !d)
  }

  function WordIndex(i: nat): nat {
    if i < 16 then i else if i < 32 then (5 * i + 1) % 16 else if i < 48 then (3 * i + 5) % 16 else 7 * i % 16
  }

  lemma SelectionsAgree(i: nat, b: bv32, c: bv32, d: bv32)
    ensures Selected(i, b, c, d) == Auxiliary(i, b, c, d)
  {
    hide F, G, H, I;
    FirstRoundAgrees(b, c, d);
    SecondRoundAgrees(b, c, d);
    LastRoundsAgree(b, c, d);
  }

  lemma FirstRoundAgrees(b: bv32, c: bv32, d: bv32)
    ensures (b & c) | (!b & d) == F(b, c, d)
  {
  }

  lemma SecondRoundAgrees(b: bv32, c: bv32, d: bv32)
    ensures (d & b) | (!d & c) == G(b, c, d)
  {
  }

  lemma LastRoundsAgree(b: bv32, c: bv32, d: bv32)
    ensures b ^ c ^ d == H(b, c, d) && c ^ (b | !d) == I(b, c, d)
  {
  }

  /** What the loop body computes is the operation of section 3.4 of RFC 1321. */
  lemma BodyComputesOperation(i: nat, r: Registers, x: seq<bv32>)
    requires i < 64 && |x| == 16
    ensures S(i) <= 32 && WordIndex(i) < 16
    ensures Add(r.b, RotateLeft(Total(Selected(i, r.b, r.c, r.d), r.a, T(i), x[WordIndex(i)]), S(i)))
            == Operation(i, r.a, r.b, r.c, r.d, x)
  {
    hide Add, Sum4, Total, T, S, Shift, Word, RotateLeft, Selected, Auxiliary, WordIndex;
    WordsAgree(i);
    ShiftsAgree(i);
    SelectionsAgree(i, r.b, r.c, r.d);
    SumsAgree(Selected(i, r.b, r.c, r.d), r.a, T(i), x[WordIndex(i)]);
  }

  lemma {:induction false} CompressSnoc(r: Registers, m: seq<byte>, block: seq<byte>)
    requires |m| % 64 == 0 && |block| == 64
    ensures CompressAll(r, m + block) == Compress(CompressAll(r, m), block)
  {
    var all := m + block;
    assert all[..|all| - 64] == m && all[|all| - 64..] == block;
  }

  // What `Final` appends: nothing but the length when the length is 56 modulo 64,
  // and a top length octet taken from bit 52 on.
  function AppendedLength(n: nat): nat {
    var least := n % 64;
    if least < 56 then 56 - least else if least > 56 then 120 - least else 0
  }

  function TotalOctets(bits: nat): (s: seq<byte>)
    ensures |s| == 8
  {
    LengthOctets(bits)[..7] + [bits / 0x10_0000_0000_0000 % 256]
  }

  function Appended(n: nat): (t: seq<byte>)
    ensures |t| == AppendedLength(n) + 8
  {
    var k := AppendedLength(n);
    (if k > 0 then [0x80] + Zeros(k - 1) else []) + TotalOctets(Uint64(8 * n))
  }

  lemma AppendedAligned(n: nat)
    ensures (n + AppendedLength(n) + 8) % 64 == 0
  {
  }

  function Extended(message: seq<byte>): (p: seq<byte>)
    ensures |p| % 64 == 0
  {
    hide Appended, AppendedLength;
    AppendedAligned(|message|);
    message + Appended(|message|)
  }

  /** The twelve highest bits of the bit length are three equal hexadecimal digits. */
  predicate TopOctetAgrees(n: nat) { Uint64(8 * n) / 0x10_0000_0000_0000 % 0x111 == 0 }

  lemma DigitsAreUnique(a: nat, b: nat, c: nat, k: nat)
    requires a < 16 && b < 16 && c < 16 && 256 * a + 16 * b + c == 0x111 * k
    ensures a == b == c
  {
    if a > k {
      assert false;
    } else if a < k {
      assert false;
    } else if b > k {
      assert false;
    } else if b < k {
      assert false;
    }
  }

  lemma DigitsOf(x: nat) returns (a: nat, b: nat, c: nat)
    requires x < 0x1000
    ensures a < 16 && b < 16 && c < 16 && x == 256 * a + 16 * b + c
    ensures x % 256 == 16 * b + c && x / 16 == 16 * a + b
  {
    a, b, c := x / 256, x / 16 % 16, x % 16;
  }

  lemma EqualDigits(x: nat)
    requires x < 0x1000
    ensures x % 256 == x / 16 <==> x % 0x111 == 0
  {
    var a, b, c := DigitsOf(x);
    if x % 0x111 == 0 {
      DigitsAreUnique(a, b, c, x / 0x111);
    }
    if x % 256 == x / 16 {
      assert a == b == c;
      assert x == 0x111 * a;
    }
  }

  /** What the code writes in the top octet is right if and only if those digits are equal. */
  lemma TopOctetExactly(n: nat)
    ensures TopOctetAgrees(n) <==> TotalOctets(Uint64(8 * n))[7] == LengthOctets(Uint64(8 * n))[7]
  {
    hide Uint64, LengthOctets, TotalOctets;
    var bits := Uint64(8 * n);
    var high := bits / 0x10_0000_0000_0000;
    TopOctets(bits);
    Sixteenth(bits);
    EqualDigits(high);
  }

  lemma TopOctets(bits: nat)
    ensures TotalOctets(bits)[7] == bits / 0x10_0000_0000_0000 % 256
    ensures LengthOctets(bits)[7] == bits / 0x100_0000_0000_0000 % 256
  {
  }

  lemma Sixteenth(bits: nat)
    requires bits < TWO64
    ensures bits / 0x10_0000_0000_0000 < 0x1000
    ensures bits / 0x100_0000_0000_0000 % 256 == bits / 0x10_0000_0000_0000 / 16
  {
    var high := bits / 0x10_0000_0000_0000;
    assert bits == high * 0x10_0000_0000_0000 + bits % 0x10_0000_0000_0000;
    assert bits / 0x100_0000_0000_0000 == high / 16;
  }

  /** Exactly which message lengths are padded as section 3 of RFC 1321 asks. */
  lemma PaddingAgreesExactly(n: nat)
    ensures Appended(n) == Tail(n) <==> n % 64 != 56 && TopOctetAgrees(n)
  {
    hide LengthOctets, TotalOctets, TopOctetAgrees, Uint64;
    var bits := Uint64(8 * n);
    var code, rfc := Appended(n), Tail(n);
    TopOctetExactly(n);
    if n % 64 == 56 {
      assert |code| == 8 && |rfc| > 8;
    } else {
      assert AppendedLength(n) - 1 == ZeroCount(n);
      var head := [0x80] + Zeros(ZeroCount(n));
      assert code == head + TotalOctets(bits);
      assert rfc == head + LengthOctets(bits);
      assert code[|head| + 7] == TotalOctets(bits)[7];
      assert rfc[|head| + 7] == LengthOctets(bits)[7];
      LowOctetsAgree(bits);
    }
  }

  lemma LowOctetsAgree(bits: nat)
    requires bits < TWO64
    ensures TotalOctets(bits) == LengthOctets(bits)[..7] + [TotalOctets(bits)[7]]
    ensures LengthOctets(bits) == LengthOctets(bits)[..7] + [LengthOctets(bits)[7]]
  {
  }

  /** Below 2^49 octets (a bit length below 2^52) only the residue 56 is padded otherwise. */
  lemma PaddingOfShortMessages(n: nat)
    requires n < 0x2_0000_0000_0000
    ensures Appended(n) == Tail(n) <==> n % 64 != 56
  {
    assert 8 * n < 0x10_0000_0000_0000;
    PaddingAgreesExactly(n);
  }

  lemma TopOctetDiffers()
    ensures Appended(0x2_0000_0000_0000) != Tail(0x2_0000_0000_0000)
  {
    PaddingAgreesExactly(0x2_0000_0000_0000);
  }

  function EncodeHex(n: bv32): (h: string)
    ensures h == Hex(WordOctets(n))
  {
    var o := WordOctets(n);
    HexConcat([o[0]], [o[1]]);
    HexConcat([o[0]] + [o[1]], [o[2]]);
    HexConcat([o[0]] + [o[1]] + [o[2]], [o[3]]);
    assert [o[0]] + [o[1]] + [o[2]] + [o[3]] == o;
    Hex([o[0]]) + Hex([o[1]]) + Hex([o[2]]) + Hex([o[3]])
  }

  lemma {:induction false} HexConcat(s: seq<byte>, t: seq<byte>)
    ensures Hex(s + t) == Hex(s) + Hex(t)
  {
    if s == [] {
      assert s + t == t;
    } else {
      HexConcat(s[1..], t);
      assert (s + t)[1..] == s[1..] + t;
    }
  }

  lemma BlockAppended(m: seq<byte>, block: seq<byte>)
    requires |m| % 64 == 0 && |block| == 64
    ensures |m + block| % 64 == 0
  {
  }

  lemma NextBlock(done: seq<byte>, message: seq<byte>, i: nat)
    requires i + 64 <= |message|
    ensures done + message[..i] + message[i..i + 64] == done + message[..i + 64]
  {
    assert message[..i] + message[i..i + 64] == message[..i + 64];
  }

  lemma Regrouped(done: seq<byte>, kept: seq<byte>, data: seq<byte>, i: nat)
    requires i <= |kept + data|
    ensures var all := kept + data;
            done + all[..i] + all[i..] == done + kept + data
  {
    var all := kept + data;
    assert all == all[..i] + all[i..];
  }

  class MD5 {
    var a: bv32
    var b: bv32
    var c: bv32
    var d: bv32
    var cache: seq<byte>
    var total: nat
    ghost var compressed: seq<byte>  // the octets already folded into the registers

    ghost function State(): Registers
      reads this
    {
      Registers(a, b, c, d)
    }

    /** Everything passed to `Sum` since the last `Reset`. */
    ghost function Fed(): seq<byte>
      reads this
    {
      compressed + cache
    }

    ghost predicate Valid()
      reads this
    {
      |compressed| % 64 == 0 && State() == CompressAll(INITIAL, compressed) && total < TWO64
    }

    ghost predicate Counts()
      reads this
    {
      total == |Fed()| % TWO64
    }

    constructor ()
      ensures Valid() && Counts() && Fed() == []
    {
      a, b, c, d := INITIAL.a, INITIAL.b, INITIAL.c, INITIAL.d;
      cache, total, compressed := [], 0, [];
    }

    method Reset()
      modifies this
      ensures Valid() && Counts() && Fed() == []
    {
      a, b, c, d := INITIAL.a, INITIAL.b, INITIAL.c, INITIAL.d;
      cache, total, compressed := [], 0, [];
    }

    /** The sixteen words of a block, low-order octet first. */
    method LoadWords(chunk: seq<byte>) returns (M: array<bv32>)
      requires |chunk| == 64
      ensures fresh(M) && M[..] == BlockWords(chunk)
    {
      M := new bv32[16];
      for j := 0 to 16
        invariant forall q :: 0 <= q < j ==> M[q] == WordAt(chunk, q)
      {
        M[j] := WordAt(chunk, j);
      }
    }

    /** One block: the register-rotating loop computes the four in-place rounds. */
    method ProcessChunk(chunk: seq<byte>)
      requires |chunk| == 64
      modifies `a, `b, `c, `d
      ensures State() == Compress(old(State()), chunk)
    {
      var A, B, C, D := a, b, c, d;
      hide *;
      var M := LoadWords(chunk);
      ghost var x := BlockWords(chunk);
      FirstAndLast(old(State()), chunk);
      assert State() == old(State()) == Registers(A, B, C, D) by { StateIs(); }
      for i := 0 to 64
        invariant State() == old(State()) && M[..] == x
        invariant Registers(A, B, C, D) == Operands(i, Operations(i, old(State()), x))
      {
        BodyComputesOperation(i, Registers(A, B, C, D), x);
        OneMoreOperation(i, old(State()), x);
        var f := Selected(i, B, C, D);
        var g := WordIndex(i);
        f := Total(f, A, T(i), M[g]);
        A, D, C, B := D, C, B, Add(B, RotateLeft(f, S(i)));
      }
      StateIs();
      a, b, c, d := Add(a, A), Add(b, B), Add(c, C), Add(d, D);
      StateIs();
    }

    lemma StateIs()
      ensures State() == Registers(a, b, c, d)
    {
    }

    /** The block loop of `Sum`: folds the whole blocks among the first `length` octets. */
    method Consume(message: seq<byte>, length: nat) returns (i: nat)
      requires Valid()
      requires length <= |message| && length < TWO32 - 64
      modifies `a, `b, `c, `d, `compressed
      ensures Valid()
      ensures i <= length < i + 64
      ensures compressed == old(compressed) + message[..i]
      ensures total == old(total) && cache == old(cache)
    {
      hide Compress;
      i := 0;
      while i + 64 <= length
        invariant i <= length
        invariant Valid()
        invariant compressed == old(compressed) + message[..i]
      {
        ghost var chunk := message[i..i + 64];
        ProcessChunk(message[i..i + 64]);
        CompressSnoc(INITIAL, compressed, chunk);
        BlockAppended(compressed, chunk);
        NextBlock(old(compressed), message, i);
        compressed := compressed + chunk;
        i := i + 64;
      }
    }

    /** Below the limit the 32-bit loop counter `i + 64` cannot wrap. */
    method Sum(data: seq<byte>)
      requires Valid()
      requires |data| < TWO32 - 64
      modifies this
      ensures Valid()
      ensures Fed() == old(Fed()) + data
      ensures old(|compressed|) <= |compressed| <= old(|compressed|) + |data| < |compressed| + 64
      ensures total == Add64(old(total), |data|)
      ensures old(Counts()) ==> Counts()
    {
      hide CompressAll;
      var message := data;
      var length := Uint32(|data|);
      if cache != [] {
        cache := cache + data;
        message := cache;
        length := Uint32(|data|);
      }
      total := Add64(total, |data|);
      assert message == old(cache) + data;
      var i := Consume(message, length);
      Regrouped(old(compressed), old(cache), data, i);
      if cache == [] {
        if i < length {
          cache := cache + message[i..length];
        }
        assert cache == message[i..length] == message[i..];
      } else {
        cache := cache[i..];
      }
    }

    /**
     * The digest of everything fed. The buffer is extended with the tail and then fed to itself,
     * so it doubles before the blocks are taken from its front.
     */
    method Final() returns (digest: string)
      requires Valid() && Counts()
      requires |cache| + 72 < TWO32 - 64
      modifies this
      ensures State() == CompressAll(INITIAL, Extended(old(Fed())))
      ensures digest == DigestText(State())
      ensures cache == old(cache) + Appended(old(|Fed()|))
      ensures old(|Fed()|) % 64 != 56 && TopOctetAgrees(old(|Fed()|)) ==>
                digest == DigestText(Digest(old(Fed())))
    {
      hide Appended, Tail, TotalOctets, CompressAll, DigestText, EncodeHex, WordOctets, Hex, TopOctetAgrees;
      ghost var n, before := |Fed()|, compressed;
      Extend();
      ghost var whole := cache;
      ExtendedParts(before, old(cache));
      Sum(cache);
      AllConsumed(before, whole, compressed, cache);
      digest := "";
      digest := digest + EncodeHex(a);
      digest := digest + EncodeHex(b);
      digest := digest + EncodeHex(c);
      digest := digest + EncodeHex(d);
      HexOfFour(State());
      PaddingAgreesExactly(n);
    }

    /** The first half of `Final`: the padding and the length octets. */
    method Extend()
      requires Counts()
      modifies `cache, `total
      ensures cache == old(cache) + Appended(old(|Fed()|))
      ensures total < TWO64
    {
      ghost var n := |Fed()|;
      LeastOctets(n);
      var least := total % 64;
      var appendLen := 0;
      if least < 56 {
        appendLen := 56 - least;
      } else if least > 56 {
        appendLen := 120 - least;
      }
      if appendLen > 0 {
        cache := cache + [0x80];
        cache := cache + Zeros(appendLen - 1);
      }
      ScaledModulus(n);
      total := total * 8 % TWO64;
      OneByOne(cache, total);
      hide TotalOctets, ZeroCount;
      cache := cache + [total % 256] + [total / 0x100 % 256] + [total / 0x1_0000 % 256]
               + [total / 0x100_0000 % 256] + [total / 0x1_0000_0000 % 256]
               + [total / 0x100_0000_0000 % 256] + [total / 0x1_0000_0000_0000 % 256]
               + [total / 0x10_0000_0000_0000 % 256];
    }
  }

  lemma OneByOne(s: seq<byte>, n: nat)
    ensures s + [n % 256] + [n / 0x100 % 256] + [n / 0x1_0000 % 256]
            + [n / 0x100_0000 % 256] + [n / 0x1_0000_0000 % 256]
            + [n / 0x100_0000_0000 % 256] + [n / 0x1_0000_0000_0000 % 256]
            + [n / 0x10_0000_0000_0000 % 256]
            == s + TotalOctets(n)
  {
  }

  lemma LeastOctets(n: nat)
    ensures n % TWO64 % 64 == n % 64
  {
    var k := 0x400_0000_0000_0000;
    assert n == 64 * (k * (n / TWO64)) + n % TWO64;
  }

  lemma ExtendedParts(before: seq<byte>, cache: seq<byte>)
    requires |before| % 64 == 0
    ensures |cache + Appended(|before + cache|)| % 64 == 0
    ensures before + (cache + Appended(|before + cache|)) == Extended(before + cache)
  {
    hide Appended;
  }

  /** Whole blocks go in; what is left of the doubled buffer is one copy of them. */
  lemma AllConsumed(before: seq<byte>, whole: seq<byte>, compressed: seq<byte>, cache: seq<byte>)
    requires |before| % 64 == 0 && |whole| % 64 == 0 && |compressed| % 64 == 0
    requires compressed + cache == before + whole + whole
    requires |before| <= |compressed| <= |before| + |whole| < |compressed| + 64
    ensures compressed == before + whole && cache == whole
  {
    assert |compressed| == |before| + |whole|;
    assert compressed == (compressed + cache)[..|compressed|];
    assert cache == (compressed + cache)[|compressed|..];
  }

  lemma HexOfFour(r: Registers)
    ensures Hex(WordOctets(r.a)) + Hex(WordOctets(r.b)) + Hex(WordOctets(r.c)) + Hex(WordOctets(r.d))
            == DigestText(r)
  {
    HexConcat(WordOctets(r.a), WordOctets(r.b));
    HexConcat(WordOctets(r.a) + WordOctets(r.b), WordOctets(r.c));
    HexConcat(WordOctets(r.a) + WordOctets(r.b) + WordOctets(r.c), WordOctets(r.d));
  }

  lemma ScaledModulus(n: nat)
    ensures (n % TWO64) * 8 % TWO64 == Uint64(8 * n)
  {
    assert n == n / TWO64 * TWO64 + n % TWO64;
    assert 8 * n == 8 * (n / TWO64) * TWO64 + 8 * (n % TWO64);
  }

  /** The digest the code computes for one message. */
  function DigestOf(message: seq<byte>): (h: string)
    ensures IsHex(h) && |h| == 32
  {
    var r := CompressAll(INITIAL, Extended(message));
    HexIsHex(WordOctets(r.a) + WordOctets(r.b) + WordOctets(r.c) + WordOctets(r.d));
    DigestText(r)
  }

  predicate IsHex(h: string) {
    forall i :: 0 <= i < |h| ==> '0' <= h[i] <= '9' || 'a' <= h[i] <= 'f'
  }

  lemma {:induction false} HexIsHex(s: seq<byte>)
    ensures IsHex(Hex(s))
  {
    if s != [] { HexIsHex(s[1..]); }
  }
}
