/** Decimal numbers as `<<` writes them and as `%d` and `stoi` read them. */
module Decimal {
  import opened Options
  import opened Text

  predicate IsDigit(c: char) { '0' <= c <= '9' }

  lemma DigitsAre(c: char)
    ensures IsDigit(c) <==> c in "0123456789"
  {
    if IsDigit(c) {
      var k := c as int - 48;
      assert "0123456789"[k] == c;
    }
  }

  function Digit(n: nat): char
    requires n < 10
  {
    '0' + n as char
  }

  function Digits(n: nat): (s: string)
    ensures s != "" && forall i :: 0 <= i < |s| ==> IsDigit(s[i])
  {
    if n < 10 then [Digit(n)] else Digits(n / 10) + [Digit(n % 10)]
  }

  function ToDecimal(n: int): (s: string)
    ensures s != "" && (IsDigit(s[0]) || s[0] == '-')
    ensures forall i :: 0 < i < |s| ==> IsDigit(s[i])
  {
    if n < 0 then "-" + Digits(-n) else Digits(n)
  }

  function DigitPrefix(s: string): (k: nat)
    ensures k <= |s|
    ensures forall i :: 0 <= i < k ==> IsDigit(s[i])
    ensures k < |s| ==> !IsDigit(s[k])
  {
    if s == "" || !IsDigit(s[0]) then 0 else 1 + DigitPrefix(s[1..])
  }

  function DigitValue(c: char): nat
    requires IsDigit(c)
  {
    c as int - '0' as int
  }

  function Value(s: string): nat
    requires forall i :: 0 <= i < |s| ==> IsDigit(s[i])
  {
    if s == "" then 0 else 10 * Value(s[..|s| - 1]) + DigitValue(s[|s| - 1])
  }

  function SkipSpace(s: string): string {
    if s != "" && IsSpace(s[0]) then SkipSpace(s[1..]) else s
  }

  /** `%d`: blanks, an optional sign, at least one digit; the number and what follows it. */
  function Scan(s: string): Option<(int, string)> {
    var t := SkipSpace(s);
    var signed := t != "" && (t[0] == '-' || t[0] == '+');
    var d := if signed then t[1..] else t;
    var k := DigitPrefix(d);
    if k == 0 then None
    else
      var v: int := Value(d[..k]);
      Some((if signed && t[0] == '-' then -v else v, d[k..]))
  }

  /** Whether a C++ `int` of 32 bits holds the number. */
  predicate IsInt(n: int) { -0x8000_0000 <= n < 0x8000_0000 }

  /** `std::stoi`; `None` stands for its exceptions. */
  function Stoi(s: string): Option<int> {
    match Scan(s)
    case None => None
    case Some((n, _)) => if IsInt(n) then Some(n) else None
  }

  lemma {:induction false} ValueOfDigits(n: nat)
    ensures Value(Digits(n)) == n
  {
    if n >= 10 {
      ValueOfDigits(n / 10);
      var s := Digits(n);
      assert s[..|s| - 1] == Digits(n / 10);
    } else {
      var s := Digits(n);
      assert s[..|s| - 1] == "";
    }
  }

  lemma {:induction false} DigitPrefixIs(s: string, k: nat)
    requires k <= |s| && (forall i :: 0 <= i < k ==> IsDigit(s[i])) && (k < |s| ==> !IsDigit(s[k]))
    ensures DigitPrefix(s) == k
  {
    if s != "" && k > 0 {
      DigitPrefixIs(s[1..], k - 1);
    }
  }

  /** Scanning what was printed gives the number and the text after it. */
  lemma ScanPrinted(n: int, rest: string)
    requires rest == "" || !IsDigit(rest[0])
    ensures Scan(ToDecimal(n) + rest) == Some((n, rest))
  {
    var digits := Digits(if n < 0 then -n else n);
    var s := ToDecimal(n) + rest;
    assert SkipSpace(s) == s;
    var d := if n < 0 then s[1..] else s;
    assert d == digits + rest;
    DigitPrefixIs(d, |digits|);
    assert d[..|digits|] == digits && d[|digits|..] == rest;
    ValueOfDigits(if n < 0 then -n else n);
  }

  lemma StoiPrinted(n: int)
    requires IsInt(n)
    ensures Stoi(ToDecimal(n)) == Some(n)
  {
    ScanPrinted(n, "");
    assert ToDecimal(n) + "" == ToDecimal(n);
  }

  lemma ToDecimalInjective(m: int, n: int)
    requires ToDecimal(m) == ToDecimal(n)
    ensures m == n
  {
    ScanPrinted(m, "");
    ScanPrinted(n, "");
  }

  /** In base ten, the most significant digit first. */
  lemma Notation()
    ensures ToDecimal(-907) == "-907" && Stoi("4588") == Some(4588)
  {
    assert Digits(9) == "9" && Digits(90) == "90" && Digits(907) == "907";
    var s := "4588";
    assert SkipSpace(s) == s;
    DigitPrefixIs(s, 4);
    assert s[..4] == s;
    assert s[..3][..2] == "45" && s[..3] == "458" && s[..2] == "45" && s[..1] == "4" && s[..2][..1] == "4";
    assert Value("4") == 4 by { assert "4"[..0] == ""; }
    assert Value("45") == 45 by { assert "45"[..1] == "4"; }
    assert Value("458") == 458 by { assert "458"[..2] == "45"; }
    assert Value("4588") == 4588 by { assert "4588"[..3] == "458"; }
  }

  predicate AllSpace(s: string) { forall i :: 0 <= i < |s| ==> IsSpace(s[i]) }
  predicate AllDigits(s: string) { forall i :: 0 <= i < |s| ==> IsDigit(s[i]) }

  lemma {:induction false} SpaceSkipped(blanks: string, rest: string)
    requires AllSpace(blanks) && (rest == "" || !IsSpace(rest[0]))
    ensures SkipSpace(blanks + rest) == rest
  {
    if blanks == "" {
      assert blanks + rest == rest;
    } else {
      assert (blanks + rest)[1..] == blanks[1..] + rest;
      SpaceSkipped(blanks[1..], rest);
    }
  }

  lemma DigitsScanned(digits: string, rest: string)
    requires AllDigits(digits) && (rest == "" || !IsDigit(rest[0]))
    ensures var d := digits + rest;
            var k := DigitPrefix(d);
            k == |digits| && d[..k] == digits && d[k..] == rest
  {
    DigitPrefixIs(digits + rest, |digits|);
  }

  /** `%d` reads blanks, a sign if there is one, and all the digits there are; without a digit it reads nothing. */
  lemma ScanReads(blanks: string, sign: string, digits: string, rest: string)
    requires AllSpace(blanks) && sign in {"", "+", "-"} && AllDigits(digits)
    requires rest == "" || (!IsDigit(rest[0]) && (digits == "" && sign == "" ==> rest[0] !in {'+', '-'}))
    requires digits == "" && sign == "" ==> rest == "" || !IsSpace(rest[0])
    ensures var n: int := Value(digits);
            Scan(blanks + (sign + (digits + rest)))
            == if digits == "" then None else Some((if sign == "-" then -n else n, rest))
  {
    hide Value, DigitPrefix, SkipSpace;
    var t := sign + (digits + rest);
    SpaceSkipped(blanks, t);
    DigitsScanned(digits, rest);
    if sign == "" {
      assert t == digits + rest;
    } else {
      assert t[0] == sign[0] && t[1..] == digits + rest;
    }
  }
}
