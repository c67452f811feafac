/**
 * Text helpers with the meaning of the Rust standard library calls the SDK
 * makes: decimal `Display` of integers, `{:02}` padding, `join`, `contains`,
 * `starts_with`/`ends_with` and `split` on a string pattern.
 */
module Strings {
  import opened Wrappers

  predicate IsDigit(c: char) {
    '0' <= c <= '9'
  }

  predicate AllDigits(s: string) {
    forall i :: 0 <= i < |s| ==> IsDigit(s[i])
  }

  /** A decimal numeral as Rust's `Display` writes it: digits, no leading zero. */
  predicate Canonical(s: string) {
    && |s| >= 1
    && AllDigits(s)
    && (s[0] == '0' ==> |s| == 1)
  }

  function DigitChar(d: nat): (c: char)
    requires d < 10
    ensures IsDigit(c)
  {
    ('0' as int + d) as char
  }

  function DigitValue(c: char): (d: nat)
    requires IsDigit(c)
    ensures d < 10
  {
    c as int - '0' as int
  }

  /** Decimal rendering of a non-negative integer (`format!("{}", n)`). */
  function NatToString(n: nat): (s: string)
    ensures Canonical(s)
    decreases n
  {
    if n < 10 then [DigitChar(n)]
    else NatToString(n / 10) + [DigitChar(n % 10)]
  }

  /** Decimal rendering of a signed integer (`format!("{}", i)` and `{:?}`). */
  function IntToString(i: int): (s: string)
    ensures |s| >= 1
    ensures i < 0 <==> s[0] == '-'
  {
    if i < 0 then "-" + NatToString(-i) else NatToString(i)
  }

  /** Value of a string of decimal digits. */
  function ParseNat(s: string): nat
    requires AllDigits(s)
    decreases |s|
  {
    if |s| == 0 then 0
    else ParseNat(s[..|s| - 1]) * 10 + DigitValue(s[|s| - 1])
  }

  lemma {:induction false} ParseNatToString(n: nat)
    ensures ParseNat(NatToString(n)) == n
    decreases n
  {
    if n >= 10 {
      var s := NatToString(n);
      assert s[..|s| - 1] == NatToString(n / 10);
      ParseNatToString(n / 10);
    }
  }

  lemma {:induction false} NatToStringParse(s: string)
    requires Canonical(s)
    ensures NatToString(ParseNat(s)) == s
    decreases |s|
  {
    if |s| > 1 {
      var init := s[..|s| - 1];
      assert Canonical(init);
      NatToStringParse(init);
      assert ParseNat(init) >= 1 by {
        LeadingDigitPositive(init);
      }
      var n := ParseNat(s);
      assert n / 10 == ParseNat(init);
      assert n % 10 == DigitValue(s[|s| - 1]);
      assert s == init + [s[|s| - 1]];
    } else {
      assert ParseNat(s) == DigitValue(s[0]);
      assert s == [DigitChar(ParseNat(s))];
    }
  }

  lemma {:induction false} LeadingDigitPositive(s: string)
    requires AllDigits(s) && |s| >= 1 && s[0] != '0'
    ensures ParseNat(s) >= 1
    decreases |s|
  {
    if |s| > 1 {
      LeadingDigitPositive(s[..|s| - 1]);
    }
  }

  /** Distinct numbers render differently: decimal rendering loses nothing. */
  lemma NatToStringInjective(m: nat, n: nat)
    requires NatToString(m) == NatToString(n)
    ensures m == n
  {
    ParseNatToString(m);
    ParseNatToString(n);
  }

  /** Rust's `format!("{:02}", n)`: at least two digits, zero padded. */
  function Pad2(n: nat): (s: string)
    ensures |s| >= 2
    ensures AllDigits(s)
  {
    if n < 10 then "0" + NatToString(n) else NatToString(n)
  }

  /** `items.join(sep)`. */
  function Join(items: seq<string>, sep: string): string
    decreases |items|
  {
    if |items| == 0 then ""
    else if |items| == 1 then items[0]
    else items[0] + sep + Join(items[1..], sep)
  }

  predicate StartsWith(s: string, prefix: string) {
    |prefix| <= |s| && s[..|prefix|] == prefix
  }

  predicate EndsWith(s: string, suffix: string) {
    |suffix| <= |s| && s[|s| - |suffix|..] == suffix
  }

  /** The pattern `p` occurs in `s` at position `i`. */
  predicate MatchesAt(s: string, p: string, i: int) {
    0 <= i && i + |p| <= |s| && s[i..i + |p|] == p
  }

  /** `s.find(p)`: the first position where `p` occurs. */
  function IndexOf(s: string, p: string): (r: Option<nat>)
    requires |p| > 0
    ensures r.Some? ==> MatchesAt(s, p, r.value)
    ensures r.Some? ==> forall j :: 0 <= j < r.value ==> !MatchesAt(s, p, j)
    ensures r.None? ==> forall j :: !MatchesAt(s, p, j)
    decreases |s|
  {
    if |s| < |p| then None
    else if s[..|p|] == p then Some(0)
    else
      var rest := IndexOf(s[1..], p);
      ShiftMatches(s, p);
      match rest
      case None => None
      case Some(k) => Some(k + 1)
  }

  lemma ShiftMatches(s: string, p: string)
    requires |s| >= 1
    ensures forall j :: 1 <= j ==> (MatchesAt(s, p, j) <==> MatchesAt(s[1..], p, j - 1))
  {
    forall j | 1 <= j
      ensures MatchesAt(s, p, j) <==> MatchesAt(s[1..], p, j - 1)
    {
      if j + |p| <= |s| {
        assert s[1..][j - 1..j - 1 + |p|] == s[j..j + |p|];
      }
    }
  }

  /** `s.contains(p)`. */
  predicate Contains(s: string, p: string)
    requires |p| > 0
  {
    IndexOf(s, p).Some?
  }

  /** `s.split(p)`: the pieces between non-overlapping occurrences, left to right. */
  function Split(s: string, p: string): (pieces: seq<string>)
    requires |p| > 0
    ensures |pieces| >= 1
    decreases |s|
  {
    match IndexOf(s, p)
    case None => [s]
    case Some(i) => [s[..i]] + Split(s[i + |p|..], p)
  }

  /** Splitting and joining with the same pattern gives the original text back. */
  lemma {:induction false} JoinSplit(s: string, p: string)
    requires |p| > 0
    ensures Join(Split(s, p), p) == s
    decreases |s|
  {
    var r := IndexOf(s, p);
    if r.Some? {
      var i := r.value;
      var head, rest := s[..i], s[i + |p|..];
      SplitStep(s, p);
      JoinSplit(rest, p);
      JoinCons(head, Split(rest, p), p);
      MatchSplice(s, p, i);
    }
  }

  lemma SplitStep(s: string, p: string)
    requires |p| > 0 && IndexOf(s, p).Some?
    ensures Split(s, p) == [s[..IndexOf(s, p).value]] + Split(s[IndexOf(s, p).value + |p|..], p)
  {
  }

  lemma MatchSplice(s: string, p: string, i: nat)
    requires MatchesAt(s, p, i)
    ensures s == s[..i] + p + s[i + |p|..]
  {
  }

  lemma JoinCons(head: string, tail: seq<string>, sep: string)
    requires |tail| >= 1
    ensures Join([head] + tail, sep) == head + sep + Join(tail, sep)
  {
    assert ([head] + tail)[1..] == tail;
  }

  /** No piece produced by `split` contains the pattern. */
  lemma {:induction false} SplitPiecesFree(s: string, p: string)
    requires |p| > 0
    ensures forall k :: 0 <= k < |Split(s, p)| ==> !Contains(Split(s, p)[k], p)
    decreases |s|
  {
    match IndexOf(s, p)
    case None =>
    case Some(i) =>
      var rest := s[i + |p|..];
      SplitPiecesFree(rest, p);
      PrefixBeforeMatchFree(s, p, i);
  }

  lemma PrefixBeforeMatchFree(s: string, p: string, i: nat)
    requires |p| > 0 && i <= |s|
    requires forall j :: 0 <= j < i ==> !MatchesAt(s, p, j)
    ensures !Contains(s[..i], p)
  {
    if Contains(s[..i], p) {
      var j := IndexOf(s[..i], p).value;
      assert s[..i][j..j + |p|] == s[j..j + |p|];
      assert MatchesAt(s, p, j);
      assert false;
    }
  }

  /** Text free of the pattern is a single piece. */
  lemma SplitFree(s: string, p: string)
    requires |p| > 0 && !Contains(s, p)
    ensures Split(s, p) == [s]
  {
  }

  /** When `x` and the start of `p` hold no `p`, the first `p` in `x + p + y` is the one after `x`. */
  lemma FirstMatchAfter(x: string, p: string, y: string)
    requires |p| > 0
    requires !Contains(x + p[..|p| - 1], p)
    ensures IndexOf(x + p + y, p) == Some(|x|)
  {
    var s := x + p + y;
    assert MatchesAt(s, p, |x|) by {
      assert s[|x|..|x| + |p|] == p;
    }
    var t := x + p[..|p| - 1];
    assert s[..|t|] == t;
    forall j | 0 <= j < |x|
      ensures !MatchesAt(s, p, j)
    {
      assert IndexOf(t, p).None?;
      assert !MatchesAt(t, p, j);
      assert j + |p| <= |t|;
      assert t[j..j + |p|] == s[..|t|][j..j + |p|];
    }
  }

  /** A text whose first occurrence of `p` follows `x` splits there. */
  lemma SplitAtFirst(x: string, p: string, y: string)
    requires |p| > 0
    requires !Contains(x + p[..|p| - 1], p)
    ensures Split(x + p + y, p) == [x] + Split(y, p)
  {
    var s := x + p + y;
    FirstMatchAfter(x, p, y);
    var i := IndexOf(s, p).value;
    assert s[..i] == x;
    assert s[i + |p|..] == y;
  }

  /** A piece that cannot run into a following single-character separator. */
  predicate FreeOf(items: seq<string>, p: string)
    requires |p| > 0
  {
    forall k :: 0 <= k < |items| ==> !Contains(items[k], p)
  }

  /**
   * Joining pieces that are free of a one-character separator and splitting
   * again gives the pieces back.
   */
  lemma {:induction false} SplitJoin(items: seq<string>, p: string)
    requires |p| == 1 && |items| >= 1
    requires FreeOf(items, p)
    ensures Split(Join(items, p), p) == items
    decreases |items|
  {
    if |items| == 1 {
      SplitFree(items[0], p);
    } else {
      var rest := items[1..];
      assert FreeOf(rest, p) by {
        forall k | 0 <= k < |rest| ensures !Contains(rest[k], p) {
          assert rest[k] == items[k + 1];
        }
      }
      SplitJoin(rest, p);
      assert items[0] + p[..|p| - 1] == items[0];
      SplitAtFirst(items[0], p, Join(rest, p));
      assert items == [items[0]] + rest;
    }
  }

  /** A decimal numeral contains no character other than digits. */
  lemma DigitsFree(s: string, p: string)
    requires AllDigits(s) && |p| == 1 && !IsDigit(p[0])
    ensures !Contains(s, p)
  {
    forall j ensures !MatchesAt(s, p, j) {
      if 0 <= j && j + 1 <= |s| {
        assert s[j..j + 1] == [s[j]];
      }
    }
  }

  /** Two texts free of a one-character pattern are free of it together. */
  lemma ConcatFree(a: string, b: string, p: string)
    requires |p| == 1 && !Contains(a, p) && !Contains(b, p)
    ensures !Contains(a + b, p)
  {
    var s := a + b;
    forall j ensures !MatchesAt(s, p, j) {
      if 0 <= j && j + 1 <= |s| {
        if j < |a| {
          assert s[j..j + 1] == a[j..j + 1];
          assert !MatchesAt(a, p, j);
        } else {
          assert s[j..j + 1] == b[j - |a|..j - |a| + 1];
          assert !MatchesAt(b, p, j - |a|);
        }
      }
    }
  }

  /** A one-character text holds a one-character pattern only when they are equal. */
  lemma CharFree(c: char, p: string)
    requires |p| == 1 && c != p[0]
    ensures !Contains([c], p)
  {
    assert !MatchesAt([c], p, 0);
  }

  /** Pieces and a separator free of a one-character pattern join into text free of it. */
  lemma {:induction false} JoinFree(items: seq<string>, sep: string, p: string)
    requires |p| == 1 && FreeOf(items, p) && !Contains(sep, p)
    ensures !Contains(Join(items, sep), p)
    decreases |items|
  {
    if |items| == 0 {
      assert !MatchesAt("", p, 0);
    } else if |items| > 1 {
      var rest := items[1..];
      assert FreeOf(rest, p) by {
        forall k | 0 <= k < |rest| ensures !Contains(rest[k], p) {
          assert rest[k] == items[k + 1];
        }
      }
      JoinFree(rest, sep, p);
      assert !Contains(items[0], p);
      ConcatFree(items[0], sep, p);
      ConcatFree(items[0] + sep, Join(rest, sep), p);
    }
  }

  /** The first occurrence of a one-character pattern after text free of it cuts the text there. */
  lemma CutAtFirst(x: string, p: string, y: string)
    requires |p| == 1 && !Contains(x, p)
    ensures IndexOf(x + p + y, p) == Some(|x|)
    ensures (x + p + y)[..|x|] == x && (x + p + y)[|x| + 1..] == y
  {
    assert x + p[..|p| - 1] == x;
    FirstMatchAfter(x, p, y);
  }

  /** Text none of whose characters is the one character of the pattern is free of it. */
  lemma CharsFree(s: string, p: string)
    requires |p| == 1 && forall k :: 0 <= k < |s| ==> s[k] != p[0]
    ensures !Contains(s, p)
  {
    forall j ensures !MatchesAt(s, p, j) {
      if 0 <= j && j + 1 <= |s| {
        assert s[j..j + 1] == [s[j]];
      }
    }
  }

  predicate IsHexDigit(c: char) {
    IsDigit(c) || 'a' <= c <= 'f'
  }

  predicate AllHex(s: string) {
    forall i :: 0 <= i < |s| ==> IsHexDigit(s[i])
  }

  function HexDigitChar(d: nat): (c: char)
    requires d < 16
    ensures IsHexDigit(c)
  {
    if d < 10 then DigitChar(d) else ('a' as int + (d - 10)) as char
  }

  function HexDigitValue(c: char): (d: nat)
    requires IsHexDigit(c)
    ensures d < 16
  {
    if IsDigit(c) then DigitValue(c) else c as int - 'a' as int + 10
  }

  /** Lower-case hexadecimal rendering, no leading zero (`format!("{:x}", n)`). */
  function NatToHex(n: nat): (s: string)
    ensures |s| >= 1 && AllHex(s)
    decreases n
  {
    if n < 16 then [HexDigitChar(n)]
    else NatToHex(n / 16) + [HexDigitChar(n % 16)]
  }

  /** Value of a string of hexadecimal digits. */
  function ParseHex(s: string): nat
    requires AllHex(s)
    decreases |s|
  {
    if |s| == 0 then 0
    else ParseHex(s[..|s| - 1]) * 16 + HexDigitValue(s[|s| - 1])
  }

  lemma {:induction false} ParseHexToHex(n: nat)
    ensures ParseHex(NatToHex(n)) == n
    decreases n
  {
    if n >= 16 {
      var s := NatToHex(n);
      assert s[..|s| - 1] == NatToHex(n / 16);
      ParseHexToHex(n / 16);
    }
  }
}
