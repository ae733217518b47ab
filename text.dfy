/** The optional value used wherever the source has `undefined` or `null`. */
module Wrappers {
  datatype Option<+T> = None | Some(value: T)
}

/**
 * The few JavaScript string and array operations the core relies on:
 * `Array.prototype.join`, `Array.prototype.filter(x => x !== v)`, the
 * decimal rendering of an integer inside a template literal, and ASCII
 * `toLowerCase`.
 */
module Text {

  // ---------------------------------------------------------------------
  // filter(x => x !== v)
  // ---------------------------------------------------------------------

  /** `r` is obtained from `s` by deleting some elements, keeping the order. */
  ghost predicate IsSubsequence<T>(r: seq<T>, s: seq<T>)
    decreases |s|
  {
    |r| <= |s| &&
    (r == [] ||
     (r[0] == s[0] && IsSubsequence(r[1..], s[1..])) ||
     IsSubsequence(r, s[1..]))
  }

  /**
   * `s.filter(y => y !== x)`: every occurrence of `x` is gone, every other
   * element keeps its multiplicity, and the survivors keep their order.
   */
  function Without<T(==)>(s: seq<T>, x: T): (r: seq<T>)
    ensures x !in r
    ensures multiset(r) == multiset(s)[x := 0]
    ensures IsSubsequence(r, s)
  {
    if s == [] then []
    else
      assert s == [s[0]] + s[1..];
      var rest := Without(s[1..], x);
      if s[0] == x then rest else [s[0]] + rest
  }

  /** Filtering a list that does not contain `x` gives the list back. */
  lemma {:induction false} WithoutAbsent<T>(s: seq<T>, x: T)
    requires x !in s
    ensures Without(s, x) == s
  {
    if s != [] {
      WithoutAbsent(s[1..], x);
    }
  }

  /** Filtering distributes over concatenation. */
  lemma {:induction false} WithoutAppend<T>(s: seq<T>, t: seq<T>, x: T)
    ensures Without(s + t, x) == Without(s, x) + Without(t, x)
  {
    if s == [] {
      assert s + t == t;
    } else {
      assert (s + t)[1..] == s[1..] + t;
      WithoutAppend(s[1..], t, x);
    }
  }

  // ---------------------------------------------------------------------
  // Array.prototype.join
  // ---------------------------------------------------------------------

  /** `items.join(sep)`. */
  function Join(items: seq<string>, sep: string): (r: string)
    ensures items == [] ==> r == ""
    ensures |items| == 1 ==> r == items[0]
  {
    if |items| == 0 then ""
    else if |items| == 1 then items[0]
    else items[0] + sep + Join(items[1..], sep)
  }

  /** Appending one item to a non-empty list appends `sep` and the item to the joined text. */
  lemma {:induction false} JoinSnoc(items: seq<string>, item: string, sep: string)
    requires items != []
    ensures Join(items + [item], sep) == Join(items, sep) + sep + item
  {
    if |items| == 1 {
      assert (items + [item])[1..] == [item];
    } else {
      assert (items + [item])[1..] == items[1..] + [item];
      JoinSnoc(items[1..], item, sep);
    }
  }

  // ---------------------------------------------------------------------
  // Decimal rendering of integers, as `${n}` does for safe integers
  // ---------------------------------------------------------------------

  predicate IsDigit(c: char) {
    '0' <= c <= '9'
  }

  predicate AllDigits(s: string) {
    forall i :: 0 <= i < |s| ==> IsDigit(s[i])
  }

  function DigitChar(d: nat): (c: char)
    requires d < 10
    ensures IsDigit(c)
  {
    "0123456789"[d]
  }

  function DigitValue(c: char): (d: nat)
    requires IsDigit(c)
    ensures d < 10
  {
    (c as int - '0' as int) as nat
  }

  /** Decimal digits of `n`, most significant first, without leading zeros. */
  function NatText(n: nat): (r: string)
    ensures |r| >= 1 && AllDigits(r)
    ensures r[0] == '0' ==> n == 0
  {
    if n < 10 then [DigitChar(n)] else NatText(n / 10) + [DigitChar(n % 10)]
  }

  /** The text of an integer in a template literal: a minus sign for negatives, then the digits. */
  function IntText(n: int): (r: string)
    ensures |r| >= 1
    ensures (r[0] == '-') <==> n < 0
  {
    if n < 0 then "-" + NatText(-n) else NatText(n)
  }

  /** Reads decimal digits back into a number. */
  function ParseNat(s: string): nat
    requires AllDigits(s)
  {
    if s == [] then 0 else 10 * ParseNat(s[..|s| - 1]) + DigitValue(s[|s| - 1])
  }

  /** Reads an optional minus sign and decimal digits back into an integer. */
  function ParseInt(s: string): int
    requires IsIntText(s)
  {
    if s[0] == '-' then 0 - ParseNat(s[1..]) else ParseNat(s)
  }

  lemma {:induction false} ParseNatText(n: nat)
    ensures ParseNat(NatText(n)) == n
  {
    if n >= 10 {
      var r := NatText(n);
      assert r[..|r| - 1] == NatText(n / 10);
      ParseNatText(n / 10);
    }
  }

  /** An optional minus sign followed by decimal digits. */
  predicate IsIntText(s: string) {
    s != [] && (if s[0] == '-' then AllDigits(s[1..]) else AllDigits(s))
  }

  /** Rendering an integer and reading it back gives the integer: the text determines the number. */
  lemma IntTextRoundTrip(n: int)
    ensures IsIntText(IntText(n)) && ParseInt(IntText(n)) == n
  {
    if n < 0 {
      var digits := NatText(-n);
      assert IntText(n) == "-" + digits;
      assert IntText(n)[1..] == digits;
      ParseNatText(-n);
    } else {
      ParseNatText(n);
    }
  }

  /** Distinct integers render as distinct texts. */
  lemma IntTextInjective(m: int, n: int)
    requires IntText(m) == IntText(n)
    ensures m == n
  {
    IntTextRoundTrip(m);
    IntTextRoundTrip(n);
  }

  /** `10` to the power `n`. */
  function Pow10(n: nat): (p: nat)
    ensures p >= 1
  {
    if n == 0 then 1 else 10 * Pow10(n - 1)
  }

  /** The position of the first `a` or `b` in `s`, or `|s|` when there is none. */
  function FirstOf(s: string, a: char, b: char): (i: nat)
    ensures i <= |s|
    ensures forall j :: 0 <= j < i ==> s[j] != a && s[j] != b
    ensures i < |s| ==> s[i] == a || s[i] == b
  {
    if s == [] || s[0] == a || s[0] == b then 0 else 1 + FirstOf(s[1..], a, b)
  }

  // ---------------------------------------------------------------------
  // String.prototype.toLowerCase on ASCII text
  // ---------------------------------------------------------------------

  function LowerChar(c: char): (d: char)
    ensures 'A' <= c <= 'Z' ==> 'a' <= d <= 'z'
    ensures !('A' <= c <= 'Z') ==> d == c
  {
    if 'A' <= c <= 'Z' then (c as int + 32) as char else c
  }

  /** `s.toLowerCase()`, for the ASCII letters the source's region names use. */
  function LowerAscii(s: string): (r: string)
    ensures |r| == |s|
    ensures forall i :: 0 <= i < |s| ==> r[i] == LowerChar(s[i])
  {
    if s == [] then [] else [LowerChar(s[0])] + LowerAscii(s[1..])
  }
}
