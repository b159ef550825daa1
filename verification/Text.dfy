/** The string utilities: trimming, splitting, and strings as octets. */
module Text {
  import opened Bytes

  // isspace of the C locale
  predicate IsSpace(c: char) {
    c == ' ' || '\t' <= c <= '\r'
  }

  /** Space, tabulators, line and page ends: octets 32 and 9 to 13. */
  lemma SpacesAre(c: char)
    ensures IsSpace(c) <==> c as int in {9, 10, 11, 12, 13, 32}
  {
  }

  function Trim(s: string): string {
    if s == "" then ""
    else if IsSpace(s[0]) then Trim(s[1..])
    else if IsSpace(s[|s| - 1]) then Trim(s[..|s| - 1])
    else s
  }

  lemma Shortened(s: string, beg: nat, end: nat)
    requires beg <= end < |s|
    ensures s[beg..end + 1][..|s[beg..end + 1]| - 1] == s[beg..end] && s[beg..end + 1][0] == s[beg]
            && s[beg..end + 1][end - beg] == s[end]
  {
  }

  method TrimSpace(s: string) returns (r: string)
    ensures r == Trim(s)
  {
    var beg, len := 0, |s|;
    assert s[0..] == s;
    while beg < len
      invariant beg <= len && Trim(s[beg..]) == Trim(s)
    {
      if !IsSpace(s[beg]) {
        break;
      }
      assert s[beg..][1..] == s[beg + 1..];
      beg := beg + 1;
    }
    var end := len - 1;
    assert s[beg..end + 1] == s[beg..];
    if beg == len {
      assert s[beg..] == "";
      return "";
    }
    while end >= 0
      invariant beg <= end < len && Trim(s[beg..end + 1]) == Trim(s)
      invariant !IsSpace(s[beg])
      decreases end
    {
      if !IsSpace(s[end]) {
        break;
      }
      Shortened(s, beg, end);
      end := end - 1;
    }
    return s[beg..end + 1];
  }

  /** Whether trimming leaves `s` alone. */
  predicate Tight(s: string) {
    s == "" || (!IsSpace(s[0]) && !IsSpace(s[|s| - 1]))
  }

  lemma {:induction false} TrimIsTight(s: string)
    ensures Tight(Trim(s))
    decreases |s|
  {
    if s != "" {
      if IsSpace(s[0]) {
        TrimIsTight(s[1..]);
      } else if IsSpace(s[|s| - 1]) {
        TrimIsTight(s[..|s| - 1]);
      }
    }
  }

  lemma TrimCases(s: string)
    requires s != ""
    ensures Trim(s) == if IsSpace(s[0]) then Trim(s[1..])
                       else if IsSpace(s[|s| - 1]) then Trim(s[..|s| - 1]) else s
  {
    hide IsSpace;
  }

  /** Trimming takes off white space and nothing else. */
  lemma {:induction false} TrimTakesSpace(s: string) returns (left: string, right: string)
    ensures s == left + Trim(s) + right
    ensures (forall c :: c in left ==> IsSpace(c)) && forall c :: c in right ==> IsSpace(c)
    decreases |s|
  {
    hide IsSpace, Trim;
    left, right := "", "";
    if s == "" {
      assert Trim("") == "" by { TrimNothing(); }
    } else {
      TrimCases(s);
      if IsSpace(s[0]) {
        var l, r := TrimTakesSpace(s[1..]);
        left, right := [s[0]] + l, r + "";
        Rejoined([s[0]], l, Trim(s[1..]), r, "");
        assert s == [s[0]] + s[1..] + "";
      } else if IsSpace(s[|s| - 1]) {
        var l, r := TrimTakesSpace(s[..|s| - 1]);
        left, right := "" + l, r + [s[|s| - 1]];
        Rejoined("", l, Trim(s[..|s| - 1]), r, [s[|s| - 1]]);
        assert s == "" + s[..|s| - 1] + [s[|s| - 1]];
      } else {
        assert s == "" + s + "";
      }
    }
  }

  lemma TrimNothing()
    ensures Trim("") == ""
  {
  }

  lemma Rejoined(a: string, l: string, t: string, r: string, b: string)
    ensures a + (l + t + r) + b == (a + l) + t + (r + b)
  {
  }

  predicate StartsWith(s: string, prefix: string) {
    |prefix| <= |s| && s[..|prefix|] == prefix
  }

  /** Where `c` first occurs, or the length. */
  function IndexOf(s: string, c: char): (k: nat)
    ensures k <= |s|
    ensures forall i :: 0 <= i < k ==> s[i] != c
    ensures k < |s| ==> s[k] == c
  {
    if s == "" || s[0] == c then 0 else 1 + IndexOf(s[1..], c)
  }

  lemma {:induction false} IndexOfIs(s: string, c: char, k: nat)
    requires k <= |s| && c !in s[..k] && (k == |s| || s[k] == c)
    ensures IndexOf(s, c) == k
  {
    if k > 0 {
      assert s[..k][0] == s[0] && s[..k][1..] == s[1..][..k - 1];
      IndexOfIs(s[1..], c, k - 1);
    }
  }

  /** The nonempty pieces between separators. */
  function Split(s: string, c: char): seq<string>
    decreases |s|
  {
    var k := IndexOf(s, c);
    (if k > 0 then [s[..k]] else []) + (if k < |s| then Split(s[k + 1..], c) else [])
  }

  method SplitString(s: string, c: char) returns (pieces: seq<string>)
    ensures pieces == Split(s, c)
  {
    hide Split, IndexOf;
    pieces := [];
    var pre, it := 0, 0;
    assert s[0..] == s;
    while it < |s|
      invariant pre <= it <= |s|
      invariant c !in s[pre..it]
      invariant pieces + Split(s[pre..], c) == Split(s, c)
    {
      if s[it] == c {
        SplitAt(s, c, pre, it);
        if it - pre > 0 {
          pieces := pieces + [s[pre..it]];
        }
        pre := it + 1;
      }
      it := it + 1;
    }
    SplitAt(s, c, pre, it);
    assert s[pre..it] == s[pre..];
    if pre != |s| {
      pieces := pieces + [s[pre..]];
    }
  }

  lemma SplitFirst(s: string, c: char, k: nat)
    requires k <= |s| && c !in s[..k] && (k < |s| ==> s[k] == c)
    ensures Split(s, c) == (if k > 0 then [s[..k]] else []) + if k < |s| then Split(s[k + 1..], c) else []
  {
    IndexOfIs(s, c, k);
  }

  lemma SplitAt(s: string, c: char, pre: nat, it: nat)
    requires pre <= it <= |s| && c !in s[pre..it] && (it < |s| ==> s[it] == c)
    ensures Split(s[pre..], c)
            == (if pre < it then [s[pre..it]] else []) + if it < |s| then Split(s[it + 1..], c) else []
  {
    hide Split;
    assert s[pre..][..it - pre] == s[pre..it];
    assert it < |s| ==> s[pre..][it - pre + 1..] == s[it + 1..];
    SplitFirst(s[pre..], c, it - pre);
  }

  lemma SplitPiece(piece: string, c: char, rest: string)
    requires c !in piece && piece != ""
    ensures Split(piece + [c] + rest, c) == [piece] + Split(rest, c)
  {
    var s := piece + [c] + rest;
    assert s[..|piece|] == piece && s[|piece| + 1..] == rest;
    IndexOfIs(s, c, |piece|);
  }

  lemma SplitLast(piece: string, c: char)
    requires c !in piece && piece != ""
    ensures Split(piece, c) == [piece]
  {
    assert piece[..|piece|] == piece;
    IndexOfIs(piece, c, |piece|);
  }

  lemma SlicesOfJoin(left: string, c: char, right: string, k: nat)
    requires k <= |left|
    ensures var s := left + [c] + right;
            s[..k] == left[..k] && (k < |left| ==> s[k] == left[k])
            && s[k + 1..] == if k < |left| then left[k + 1..] + [c] + right else right
  {
  }

  lemma Associates<E>(a: seq<E>, b: seq<E>, c: seq<E>)
    ensures a + (b + c) == a + b + c
    ensures a + [] == a
  {
  }

  /** A separator cuts the text: the pieces of both sides, in order. */
  lemma {:induction false} SplitConcat(left: string, c: char, right: string)
    ensures Split(left + [c] + right, c) == Split(left, c) + Split(right, c)
    decreases |left|
  {
    hide Split;
    var k := IndexOf(left, c);
    SplitConcatAt(left, c, right, k);
    if k < |left| {
      SplitConcat(left[k + 1..], c, right);
      var first := if k > 0 then [left[..k]] else [];
      Associates(first, Split(left[k + 1..], c), Split(right, c));
    }
  }

  lemma SplitConcatAt(left: string, c: char, right: string, k: nat)
    requires k <= |left| && c !in left[..k] && (k < |left| ==> left[k] == c)
    ensures var first := if k > 0 then [left[..k]] else [];
            Split(left, c) == first + (if k < |left| then Split(left[k + 1..], c) else [])
               && Split(left + [c] + right, c)
               == first + Split(if k < |left| then left[k + 1..] + [c] + right else right, c)
  {
    hide Split;
    SlicesOfJoin(left, c, right, k);
    SplitFirst(left, c, k);
    SplitFirst(left + [c] + right, c, k);
  }

  // find_last_not_of(' ') and find_first_not_of(' '); an all-blank part is left alone
  function DropTrailing(s: string): string {
    if s == "" then "" else if s[|s| - 1] == ' ' then DropTrailing(s[..|s| - 1]) else s
  }

  function DropLeading(s: string): string {
    if s == "" then "" else if s[0] == ' ' then DropLeading(s[1..]) else s
  }

  function OrSame(s: string, t: string): string { if t == "" then s else t }

  /** The text before and after the first `c`, without the blanks around it. */
  function InTwo(s: string, c: char): (string, string) {
    var k := IndexOf(s, c);
    if k == |s| then (s, "")
    else (OrSame(s[..k], DropTrailing(s[..k])), OrSame(s[k + 1..], DropLeading(s[k + 1..])))
  }

  lemma InTwoParts(key: string, c: char, value: string)
    requires c !in key && key != "" && key[|key| - 1] != ' ' && value != "" && value[0] != ' '
    ensures InTwo(key + [c] + value, c) == (key, value)
  {
    var s := key + [c] + value;
    assert s[..|key|] == key && s[|key| + 1..] == value;
    IndexOfIs(s, c, |key|);
  }

  predicate Blank(s: string) { forall i :: 0 <= i < |s| ==> s[i] == ' ' }

  lemma {:induction false} TrailingDropped(s: string, blanks: string)
    requires Blank(blanks) && (s == "" || s[|s| - 1] != ' ')
    ensures DropTrailing(s + blanks) == s
    decreases |blanks|
  {
    if blanks == "" {
      assert s + blanks == s;
    } else {
      var n := |blanks| - 1;
      assert (s + blanks)[..|s| + n] == s + blanks[..n];
      TrailingDropped(s, blanks[..n]);
    }
  }

  lemma {:induction false} LeadingDropped(s: string, blanks: string)
    requires Blank(blanks) && (s == "" || s[0] != ' ')
    ensures DropLeading(blanks + s) == s
    decreases |blanks|
  {
    if blanks == "" {
      assert blanks + s == s;
    } else {
      assert (blanks + s)[1..] == blanks[1..] + s;
      LeadingDropped(s, blanks[1..]);
    }
  }

  /** Blanks on either side of the separator are dropped; without a separator all is the first part. */
  lemma InTwoSpaced(key: string, before: string, c: char, after: string, value: string)
    requires c !in key && c != ' ' && Blank(before) && Blank(after)
    requires key != "" && key[|key| - 1] != ' ' && value != "" && value[0] != ' '
    ensures InTwo(key + before + [c] + (after + value), c) == (key, value)
    ensures InTwo(key, c) == (key, "")
  {
    var s := key + before + [c] + (after + value);
    var k := |key| + |before|;
    assert s[..k] == key + before && s[k + 1..] == after + value;
    assert c !in s[..k];
    IndexOfIs(s, c, k);
    TrailingDropped(key, before);
    LeadingDropped(value, after);
    assert key[..|key|] == key;
    IndexOfIs(key, c, |key|);
    hide DropTrailing, DropLeading, IndexOf;
  }

  /** A string of the C++ program as the octets it holds. */
  function Octets(s: string): (o: seq<byte>)
    ensures |o| == |s|
  {
    seq(|s|, i requires 0 <= i < |s| => s[i] as int % 256)
  }

  predicate IsByteString(s: string) {
    forall i :: 0 <= i < |s| ==> s[i] as int < 256
  }

  /** A byte string's octets are its character codes. */
  lemma OctetsAreCodes(s: string)
    requires IsByteString(s)
    ensures forall i :: 0 <= i < |s| ==> Octets(s)[i] == s[i] as int
  {
  }

  lemma OctetsInjective(s: string, t: string)
    requires IsByteString(s) && IsByteString(t) && Octets(s) == Octets(t)
    ensures s == t
  {
    forall i | 0 <= i < |s|
      ensures s[i] == t[i]
    {
      assert Octets(s)[i] == Octets(t)[i];
    }
  }

  lemma {:induction false} PiecesHaveNoSeparator(s: string, c: char)
    ensures forall p :: p in Split(s, c) ==> c !in p
    decreases |s|
  {
    var k := IndexOf(s, c);
    SplitAt(s, c, 0, k);
    assert s[0..] == s && c !in s[0..k];
    hide Split, IndexOf;
    if k < |s| {
      PiecesHaveNoSeparator(s[k + 1..], c);
    }
  }

  lemma {:induction false} TrimAddsNothing(s: string, c: char)
    requires c !in s
    ensures c !in Trim(s)
    decreases |s|
  {
    if s != "" {
      if IsSpace(s[0]) {
        TrimAddsNothing(s[1..], c);
      } else if IsSpace(s[|s| - 1]) {
        TrimAddsNothing(s[..|s| - 1], c);
      }
    }
  }

  lemma {:induction false} DropsAddNothing(s: string, c: char)
    requires c !in s
    ensures c !in DropTrailing(s) && c !in DropLeading(s)
    decreases |s|
  {
    if s != "" {
      DropsAddNothing(s[1..], c);
      DropsAddNothing(s[..|s| - 1], c);
    }
  }

  lemma InTwoAddsNothing(s: string, separator: char, c: char)
    requires c !in s
    ensures c !in InTwo(s, separator).0 && c !in InTwo(s, separator).1
  {
    var k := IndexOf(s, separator);
    assert c !in s[..k];
    DropsAddNothing(s[..k], c);
    if k < |s| {
      assert c !in s[k + 1..];
      DropsAddNothing(s[k + 1..], c);
    }
    hide DropTrailing, DropLeading, IndexOf;
  }
}
