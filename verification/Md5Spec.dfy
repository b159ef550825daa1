/** The message digest of RFC 1321, written section by section. */
module Md5Spec {
  import opened Bytes

  // The four words A, B, C, D; the word type is a parameter because their order matters and not their bits
  datatype Four<W> = Registers(a: W, b: W, c: W, d: W)
  type Registers = Four<bv32>

  // Section 3.3
  const INITIAL: Registers := Registers(0x67452301, 0xefcdab89, 0x98badcfe, 0x10325476)

  // Section 2: "X + Y" is addition modulo 2^32
  function Add(x: bv32, y: bv32): bv32 { x + y }
  function Sum4(a: bv32, f: bv32, x: bv32, t: bv32): bv32 { a + f + x + t }

  // Section 3.4: the auxiliary functions
  function F(x: bv32, y: bv32, z: bv32): bv32 { (x & y) | (!x & z) }
  function G(x: bv32, y: bv32, z: bv32): bv32 { (x & z) | (y & !z) }
  function H(x: bv32, y: bv32, z: bv32): bv32 { x ^ y ^ z }
  function I(x: bv32, y: bv32, z: bv32): bv32 { y ^ (x | !z) }

  function Auxiliary(i: nat, x: bv32, y: bv32, z: bv32): bv32 {
    if i < 16 then F(x, y, z) else if i < 32 then G(x, y, z) else if i < 48 then H(x, y, z) else I(x, y, z)
  }

  function RotateLeft(x: bv32, n: nat): bv32
    requires n <= 32
  {
    (x << n) | (x >> (32 - n))
  }

  // Section 3.4: the words the sixteen operations of round `r` read
  function WordRow(r: nat): (row: seq<nat>)
    ensures |row| == 16 && forall q :: 0 <= q < 16 ==> row[q] < 16
  {
    if r == 0 then [0, 1, 2, 3, 4, 5, 6, 7, 8, 9, 10, 11, 12, 13, 14, 15]
    else if r == 1 then [1, 6, 11, 0, 5, 10, 15, 4, 9, 14, 3, 8, 13, 2, 7, 12]
    else if r == 2 then [5, 8, 11, 14, 1, 4, 7, 10, 13, 0, 3, 6, 9, 12, 15, 2]
    else [0, 7, 14, 5, 12, 3, 10, 1, 8, 15, 6, 13, 4, 11, 2, 9]
  }

  function Word(i: nat): nat
    requires i < 64
    ensures Word(i) < 16
  {
    WordRow(i / 16)[i % 16]
  }

  // Section 3.4: the rotation amounts of a round
  function Shift(i: nat): (s: nat)
    requires i < 64
    ensures s <= 32
  {
    var row := if i < 16 then [7, 12, 17, 22] else if i < 32 then [5, 9, 14, 20]
               else if i < 48 then [4, 11, 16, 23] else [6, 10, 15, 21];
    row[i % 4]
  }

  // Section 3.4: T[i + 1], the integer part of 4294967296 times abs(sin(i + 1))
  function T(i: nat): bv32
    requires i < 64
  {
    var row: seq<bv32> :=
      if i < 16 then [
        0xd76aa478, 0xe8c7b756, 0x242070db, 0xc1bdceee, 0xf57c0faf, 0x4787c62a, 0xa8304613, 0xfd469501,
        0x698098d8, 0x8b44f7af, 0xffff5bb1, 0x895cd7be, 0x6b901122, 0xfd987193, 0xa679438e, 0x49b40821]
      else if i < 32 then [
        0xf61e2562, 0xc040b340, 0x265e5a51, 0xe9b6c7aa, 0xd62f105d, 0x02441453, 0xd8a1e681, 0xe7d3fbc8,
        0x21e1cde6, 0xc33707d6, 0xf4d50d87, 0x455a14ed, 0xa9e3e905, 0xfcefa3f8, 0x676f02d9, 0x8d2a4c8a]
      else if i < 48 then [
        0xfffa3942, 0x8771f681, 0x6d9d6122, 0xfde5380c, 0xa4beea44, 0x4bdecfa9, 0xf6bb4b60, 0xbebfbc70,
        0x289b7ec6, 0xeaa127fa, 0xd4ef3085, 0x04881d05, 0xd9d4d039, 0xe6db99e5, 0x1fa27cf8, 0xc4ac5665]
      else [
        0xf4292244, 0x432aff97, 0xab9423a7, 0xfc93a039, 0x655b59c3, 0x8f0ccc92, 0xffeff47d, 0x85845dd1,
        0x6fa87e4f, 0xfe2ce6e0, 0xa3014314, 0x4e0811a1, 0xf7537e82, 0xbd3af235, 0x2ad7d2bb, 0xeb86d391];
    row[i % 16]
  }

  /** `[abcd k s i]`: the new value of register `a`. */
  function Operation(i: nat, a: bv32, b: bv32, c: bv32, d: bv32, x: seq<bv32>): bv32
    requires i < 64 && |x| == 16
  {
    Add(b, RotateLeft(Sum4(a, Auxiliary(i, b, c, d), x[Word(i)], T(i)), Shift(i)))
  }

  /** The bracketed operands of the i-th operation: ABCD, DABC, CDAB, BCDA, and again. */
  function Operands<W>(i: nat, r: Four<W>): Four<W> {
    if i % 4 == 0 then r
    else if i % 4 == 1 then Registers(r.d, r.a, r.b, r.c)
    else if i % 4 == 2 then Registers(r.c, r.d, r.a, r.b)
    else Registers(r.b, r.c, r.d, r.a)
  }

  /** Writes the first bracketed operand in place. */
  function Write<W>(i: nat, r: Four<W>, value: W): Four<W> {
    if i % 4 == 0 then r.(a := value)
    else if i % 4 == 1 then r.(d := value)
    else if i % 4 == 2 then r.(c := value)
    else r.(b := value)
  }

  function InPlace(i: nat, r: Registers, x: seq<bv32>): Registers
    requires i < 64 && |x| == 16
  {
    var o := Operands(i, r);
    Write(i, r, Operation(i, o.a, o.b, o.c, o.d, x))
  }

  /** The first `n` of the sixty-four operations of the four rounds. */
  function Operations(n: nat, r: Registers, x: seq<bv32>): Registers
    requires n <= 64 && |x| == 16
  {
    if n == 0 then r else InPlace(n - 1, Operations(n - 1, r, x), x)
  }

  // Section 2: a word is four octets, low-order octet first
  function WordAt(block: seq<byte>, j: nat): bv32
    requires 4 * j + 4 <= |block|
  {
    (block[4 * j] as bv32) | ((block[4 * j + 1] as bv32) << 8)
    | ((block[4 * j + 2] as bv32) << 16) | ((block[4 * j + 3] as bv32) << 24)
  }

  function BlockWords(block: seq<byte>): (x: seq<bv32>)
    requires |block| == 64
    ensures |x| == 16
  {
    seq(16, j requires 0 <= j < 16 => WordAt(block, j))
  }

  function Compress(r: Registers, block: seq<byte>): Registers
    requires |block| == 64
  {
    var x := BlockWords(block);
    var s := Operations(4 * |x|, r, x);
    Registers(Add(r.a, s.a), Add(r.b, s.b), Add(r.c, s.c), Add(r.d, s.d))
  }

  /** All 64-octet blocks of `m`, in order. */
  function CompressAll(r: Registers, m: seq<byte>): Registers
    requires |m| % 64 == 0
  {
    if m == [] then r
    else Compress(CompressAll(r, m[..|m| - 64]), m[|m| - 64..])
  }

  // Section 3.1: one 0x80 octet, then the least number of zero octets that leaves 56 modulo 64
  function ZeroCount(n: nat): (z: nat)
    ensures (n + 1 + z) % 64 == 56 && z < 64
  {
    (119 - n % 64) % 64
  }

  function Zeros(n: nat): seq<byte> { seq(n, _ => 0) }

  // Section 3.2: the low-order 64 bits of the bit length, low-order octet first
  function LengthOctets(bits: nat): (s: seq<byte>)
    ensures |s| == 8
  {
    [bits % 256, bits / 0x100 % 256, bits / 0x1_0000 % 256, bits / 0x100_0000 % 256,
     bits / 0x1_0000_0000 % 256, bits / 0x100_0000_0000 % 256, bits / 0x1_0000_0000_0000 % 256,
     bits / 0x100_0000_0000_0000 % 256]
  }

  function Tail(n: nat): (t: seq<byte>)
    ensures |t| == 9 + ZeroCount(n)
  {
    [0x80] + Zeros(ZeroCount(n)) + LengthOctets(Uint64(8 * n))
  }

  lemma TailAligned(n: nat)
    ensures (n + (9 + ZeroCount(n))) % 64 == 0
  {
    var k := n + 1 + ZeroCount(n);
    hide ZeroCount;
    assert k % 64 == 56;
  }

  function Padded(message: seq<byte>): (p: seq<byte>)
    ensures |p| % 64 == 0
  {
    hide Tail, LengthOctets, ZeroCount;
    TailAligned(|message|);
    message + Tail(|message|)
  }

  function Digest(message: seq<byte>): Registers {
    CompressAll(INITIAL, Padded(message))
  }

  // Section 3.5: low-order octet of A first, high-order octet of D last, here in hexadecimal
  function HexDigit(n: nat): char
    requires n < 16
  {
    if n < 10 then '0' + n as char else 'a' + (n - 10) as char
  }

  function WordOctets(w: bv32): seq<byte> {
    [(w & 0xff) as int, ((w >> 8) & 0xff) as int, ((w >> 16) & 0xff) as int, ((w >> 24) & 0xff) as int]
  }

  function Hex(s: seq<byte>): (h: string)
    ensures |h| == 2 * |s|
  {
    if s == [] then "" else [HexDigit(s[0] / 16), HexDigit(s[0] % 16)] + Hex(s[1..])
  }

  function DigestText(r: Registers): string {
    Hex(WordOctets(r.a) + WordOctets(r.b) + WordOctets(r.c) + WordOctets(r.d))
  }
}
