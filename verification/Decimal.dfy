/** Market ids as decimal text: the resolution contract prints them, the market contract parses them. */
module Decimal {
  import opened Base

  const MAX_DIGITS: nat := 10

  predicate IsDigit(c: char) {
    '0' <= c <= '9'
  }

  function DigitOf(c: char): (d: nat)
    requires IsDigit(c)
    ensures d < 10
  {
    c as int - '0' as int
  }

  function CharOf(d: nat): (c: char)
    requires d < 10
    ensures IsDigit(c) && DigitOf(c) == d
  {
    (d + '0' as int) as char
  }

  predicate AllDigits(s: string) {
    forall i :: 0 <= i < |s| ==> IsDigit(s[i])
  }

  /** The number a digit string denotes, most significant digit first; the empty string denotes 0. */
  function ValueOf(s: string): nat
    requires AllDigits(s)
  {
    if s == "" then 0 else 10 * ValueOf(s[..|s| - 1]) + DigitOf(s[|s| - 1])
  }

  /** The canonical decimal text of `n`: no leading zero, except for zero itself. */
  function Digits(n: nat): (s: string)
    ensures |s| >= 1 && AllDigits(s)
    ensures ValueOf(s) == n
    ensures s[0] == '0' <==> n == 0
  {
    if n < 10 then [CharOf(n)]
    else
      var s := Digits(n / 10) + [CharOf(n % 10)];
      assert s[..|s| - 1] == Digits(n / 10);
      s
  }

  /** What parsing accepts, declared: 1 to 10 digits whose value fits a `u32`. */
  function Parse(text: string): Option<u32> {
    if 1 <= |text| <= MAX_DIGITS && AllDigits(text) && ValueOf(text) <= U32_MAX
    then Some(ValueOf(text)) else None
  }

  function Pow10(k: nat): (p: nat)
    ensures p >= 1
  {
    if k == 0 then 1 else 10 * Pow10(k - 1)
  }

  lemma {:induction false} DigitsLength(n: nat, k: nat)
    requires k >= 1 && n < Pow10(k)
    ensures |Digits(n)| <= k
  {
    if n >= 10 {
      DigitsLength(n / 10, k - 1);
    }
  }

  lemma Pow10Of10()
    ensures U32_MAX < Pow10(MAX_DIGITS)
  {
    assert Pow10(5) == 100_000;
    assert Pow10(MAX_DIGITS) == 100_000 * Pow10(5);
  }

  /** A digit string denotes a number below 10 to its length, and at least 10 to one less unless it starts with 0. */
  lemma {:induction false} ValueBounds(s: string)
    requires |s| >= 1 && AllDigits(s)
    ensures ValueOf(s) < Pow10(|s|)
    ensures s[0] != '0' ==> ValueOf(s) >= Pow10(|s| - 1)
  {
    if |s| == 1 {
      assert ValueOf(s[..0]) == 0;
      assert Pow10(1) == 10 * Pow10(0);
    } else {
      ValueBounds(s[..|s| - 1]);
    }
  }

  lemma {:induction false} ValueOfPrefix(s: string, k: nat)
    requires k <= |s| && AllDigits(s)
    ensures ValueOf(s[..k]) <= ValueOf(s)
  {
    if k < |s| {
      ValueOfPrefix(s[..|s| - 1], k);
      assert s[..|s| - 1][..k] == s[..k];
    } else {
      assert s[..k] == s;
    }
  }

  lemma SameLastDigit(s: string, t: string)
    requires |s| >= 1 && |t| >= 1 && AllDigits(s) && AllDigits(t) && ValueOf(s) == ValueOf(t)
    ensures s[|s| - 1] == t[|t| - 1] && ValueOf(s[..|s| - 1]) == ValueOf(t[..|t| - 1])
  {
    SameQuotient(ValueOf(s[..|s| - 1]), DigitOf(s[|s| - 1]), ValueOf(t[..|t| - 1]), DigitOf(t[|t| - 1]));
  }

  lemma SameQuotient(x: nat, d: nat, y: nat, e: nat)
    requires d < 10 && e < 10 && 10 * x + d == 10 * y + e
    ensures x == y && d == e
  {
  }

  /** Two digit strings without a leading zero that denote the same number are the same string. */
  lemma {:induction false} CanonicalUnique(s: string, t: string)
    requires |s| >= 1 && |t| >= 1 && AllDigits(s) && AllDigits(t)
    requires |s| == 1 || s[0] != '0'
    requires |t| == 1 || t[0] != '0'
    requires ValueOf(s) == ValueOf(t)
    ensures s == t
  {
    SameLastDigit(s, t);
    var s', t' := s[..|s| - 1], t[..|t| - 1];
    if |s| > 1 && |t| > 1 {
      CanonicalUnique(s', t');
    } else if |s| > 1 {
      ValueBounds(s');
    } else if |t| > 1 {
      ValueBounds(t');
    }
  }

  /** Every id the resolution contract prints is read back unchanged by the market contract. */
  lemma PrintThenParse(n: u32)
    ensures Parse(Digits(n)) == Some(n)
  {
    Pow10Of10();
    DigitsLength(n, MAX_DIGITS);
  }

  /** Printing a parsed text gives the text back exactly when it has no leading zero. */
  lemma ParseThenPrint(text: string)
    requires Parse(text).Some?
    ensures Digits(Parse(text).value) == text <==> (|text| == 1 || text[0] != '0')
  {
    var n := Parse(text).value;
    if |text| == 1 || text[0] != '0' {
      CanonicalUnique(Digits(n), text);
    }
  }

  lemma PrintInjective(m: u32, n: u32)
    requires Digits(m) == Digits(n)
    ensures m == n
  {
    PrintThenParse(m);
    PrintThenParse(n);
  }

  /** The digits still to be written; nothing for 0. */
  function Remaining(n: nat): string {
    if n == 0 then "" else Digits(n)
  }

  /** `n` is left to write in front of `tail`, with `room` free places, to make up the text of `whole`. */
  ghost predicate Filling(whole: nat, n: nat, room: nat, tail: string) {
    n < Pow10(room) && Remaining(n) + tail == Digits(whole)
  }

  lemma RemainingLast(n: nat)
    requires n > 0
    ensures Remaining(n) == Remaining(n / 10) + [CharOf(n % 10)]
  {
  }

  lemma DigitFits(n: nat, room: nat)
    requires 0 < n < Pow10(room)
    ensures room > 0 && n / 10 < Pow10(room - 1)
  {
  }

  lemma Regroup(s: string, c: char, t: string)
    ensures s + ([c] + t) == s + [c] + t
  {
  }

  lemma FillingStep(whole: nat, n: nat, room: nat, tail: string)
    requires n > 0 && Filling(whole, n, room, tail)
    ensures room > 0 && Filling(whole, n / 10, room - 1, [CharOf(n % 10)] + tail)
  {
    DigitFits(n, room);
    RemainingLast(n);
    Regroup(Remaining(n / 10), CharOf(n % 10), tail);
  }

  lemma FillingStart(n: u32)
    requires n > 0
    ensures Filling(n, n, MAX_DIGITS, "")
  {
    Pow10Of10();
    assert Remaining(n) + "" == Digits(n);
  }

  lemma FillingDone(whole: nat, room: nat, tail: string)
    requires Filling(whole, 0, room, tail)
    ensures tail == Digits(whole)
  {
    assert "" + tail == tail;
  }

  lemma ZeroDigits()
    ensures ['0'] + "" == Digits(0)
  {
    assert CharOf(0) == '0';
  }

  /** Writes one character in front of what the buffer already holds. */
  method Prepend(buf: array<char>, i: nat, c: char) returns (j: nat)
    requires 0 < i <= buf.Length
    modifies buf
    ensures j == i - 1 && buf[j..] == [c] + old(buf[i..])
  {
    j := i - 1;
    buf[j] := c;
    assert buf[j + 1..] == old(buf[i..]);
  }

  /** Fills a ten-character buffer from the back; the index never passes its front. */
  method MarketIdToString(marketId: u32) returns (text: string)
    ensures text == Digits(marketId)
  {
    var buf := new char[MAX_DIGITS];
    var n: nat := marketId;
    var i := buf.Length;
    assert buf[i..] == "";
    if n == 0 {
      i := Prepend(buf, i, '0');
      ZeroDigits();
    } else {
      FillingStart(marketId);
      while n > 0
        invariant 0 <= i <= buf.Length
        invariant Filling(marketId, n, i, buf[i..])
      {
        FillingStep(marketId, n, i, buf[i..]);
        i := Prepend(buf, i, CharOf(n % 10));
        n := n / 10;
      }
      FillingDone(marketId, i, buf[i..]);
    }
    text := buf[i..];
  }

  /** Folds the digits into an accumulator with checked arithmetic. */
  method ParseMarketId(text: string) returns (r: Option<u32>)
    ensures r == Parse(text)
  {
    if |text| == 0 || |text| > MAX_DIGITS {
      return None;
    }
    var n: u32 := 0;
    var i := 0;
    while i < |text|
      invariant 0 <= i <= |text|
      invariant AllDigits(text[..i]) && ValueOf(text[..i]) == n
    {
      if !IsDigit(text[i]) {
        return None;
      }
      assert text[..i + 1][..i] == text[..i];
      if n * 10 + DigitOf(text[i]) > U32_MAX {
        if AllDigits(text) {
          ValueOfPrefix(text, i + 1);
        }
        return None;
      }
      n := n * 10 + DigitOf(text[i]);
      i := i + 1;
    }
    assert text[..i] == text;
    return Some(n);
  }
}
