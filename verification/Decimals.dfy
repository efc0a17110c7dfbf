/**
  Decimal digit strings of any length, compared and counted as text.

  Both the updater's version comparison and the purchase order numbering avoid machine
  integers: they strip leading zeros and compare first by length, then as text. The lemmas
  here show that this is the order of the numbers written down.
*/
module Decimals {
  predicate IsDigit(c: char) {
    '0' <= c <= '9'
  }

  /** Every character is a digit; true of the empty string. */
  predicate Digits(s: string) {
    forall i :: 0 <= i < |s| ==> IsDigit(s[i])
  }

  function DigitOf(c: char): (d: nat)
    requires IsDigit(c)
    ensures d <= 9
  {
    c as int - '0' as int
  }

  /** There are ten digits, and each stands for its place among them. */
  lemma TheTenDigits(c: char, d: nat)
    ensures IsDigit(c) && DigitOf(c) == d <==> d < 10 && c == "0123456789"[d]
  {
  }

  function Pow10(n: nat): (p: nat)
    ensures p > 0
  {
    if n == 0 then 1 else 10 * Pow10(n - 1)
  }

  /** The number a digit string stands for. */
  function Value(s: string): (v: nat)
    requires Digits(s)
  {
    if s == [] then 0 else DigitOf(s[0]) * Pow10(|s| - 1) + Value(s[1..])
  }

  function Sign(n: int): (r: int)
    ensures -1 <= r <= 1 && (r < 0 <==> n < 0) && (r > 0 <==> n > 0)
  {
    if n < 0 then -1 else if n > 0 then 1 else 0
  }

  /** Text order by character code, as strings.Compare and Python's `<` see it. */
  function CompareText(a: string, b: string): (r: int)
  {
    if a == [] then (if b == [] then 0 else -1)
    else if b == [] then 1
    else if a[0] != b[0] then (if a[0] < b[0] then -1 else 1)
    else CompareText(a[1..], b[1..])
  }

  /** `a` ends where `b` goes on, or has the smaller character at the first difference. */
  predicate Precedes(a: string, b: string) {
    a < b || exists k :: 0 <= k < |a| && k < |b| && a[..k] == b[..k] && a[k] < b[k]
  }

  /** The text order is the lexicographic one: a proper prefix comes first, otherwise the first difference decides. */
  lemma {:induction false} TextOrderIsLexicographic(a: string, b: string)
    ensures CompareText(a, b) == if a == b then 0 else if Precedes(a, b) then -1 else 1
    ensures a != b ==> Precedes(a, b) || Precedes(b, a)
    ensures !(Precedes(a, b) && Precedes(b, a)) && !Precedes(a, a)
  {
    if a != [] && b != [] {
      assert a == [a[0]] + a[1..] && b == [b[0]] + b[1..];
      TextOrderIsLexicographic(a[1..], b[1..]);
      PrecedesByHead(a, b);
      PrecedesByHead(b, a);
      PrecedesByHead(a, a);
    }
  }

  lemma PrecedesByHead(a: string, b: string)
    requires a != [] && b != []
    ensures Precedes(a, b) <==> a[0] < b[0] || (a[0] == b[0] && Precedes(a[1..], b[1..]))
  {
    assert a == [a[0]] + a[1..] && b == [b[0]] + b[1..];
    if a[0] < b[0] {
      assert a[..0] == b[..0];
    }
    if a[0] == b[0] {
      forall k | 0 <= k < |a| - 1 && k < |b| - 1 && a[1..][..k] == b[1..][..k] && a[1..][k] < b[1..][k] ensures Precedes(a, b) {
        assert a[..k + 1] == [a[0]] + a[1..][..k] && b[..k + 1] == [b[0]] + b[1..][..k];
        assert a[k + 1] < b[k + 1];
      }
    }
    forall k | 0 < k < |a| && k < |b| && a[..k] == b[..k] && a[k] < b[k] ensures a[0] == b[0] && Precedes(a[1..], b[1..]) {
      assert a[0] == a[..k][0] && b[0] == b[..k][0];
      assert a[1..][..k - 1] == a[..k][1..] && b[1..][..k - 1] == b[..k][1..];
      assert a[1..][k - 1] < b[1..][k - 1];
    }
  }

  function TrimZeros(s: string): (r: string)
  {
    if s != [] && s[0] == '0' then TrimZeros(s[1..]) else s
  }

  /** No superfluous zero in front; zero itself is the empty string. */
  predicate Trimmed(s: string) {
    Digits(s) && (s != [] ==> s[0] != '0')
  }

  lemma MulMono(a: nat, b: nat, p: nat)
    requires a < b
    ensures a * p + p <= b * p
  {
    assert b * p == a * p + p + (b - a - 1) * p;
  }

  lemma {:induction false} ValueBound(s: string)
    requires Digits(s)
    ensures Value(s) < Pow10(|s|)
  {
    if s != [] {
      ValueBound(s[1..]);
      MulMono(DigitOf(s[0]), 10, Pow10(|s| - 1));
    }
  }

  lemma {:induction false} PowMono(m: nat, n: nat)
    requires m <= n
    ensures Pow10(m) <= Pow10(n)
  {
    if m < n {
      PowMono(m, n - 1);
    }
  }

  lemma {:induction false} TrimKeepsValue(s: string)
    requires Digits(s)
    ensures Trimmed(TrimZeros(s)) && Value(TrimZeros(s)) == Value(s) && |TrimZeros(s)| <= |s|
  {
    if s != [] && s[0] == '0' {
      TrimKeepsValue(s[1..]);
    }
  }

  lemma TrimmedIsLarge(s: string)
    requires Trimmed(s) && s != []
    ensures Value(s) >= Pow10(|s| - 1)
  {
    MulMono(0, DigitOf(s[0]), Pow10(|s| - 1));
  }

  lemma ShorterIsSmaller(a: string, b: string)
    requires Digits(a) && Trimmed(b) && |a| < |b|
    ensures Value(a) < Value(b)
  {
    ValueBound(a);
    PowMono(|a|, |b| - 1);
    TrimmedIsLarge(b);
  }

  lemma {:induction false} SameLengthTextOrder(a: string, b: string)
    requires Digits(a) && Digits(b) && |a| == |b|
    ensures CompareText(a, b) == Sign(Value(a) - Value(b))
    ensures Value(a) == Value(b) ==> a == b
  {
    if a != [] {
      var p := Pow10(|a| - 1);
      ValueBound(a[1..]);
      ValueBound(b[1..]);
      if a[0] == b[0] {
        SameLengthTextOrder(a[1..], b[1..]);
        assert a == [a[0]] + a[1..] && b == [b[0]] + b[1..];
      } else if a[0] < b[0] {
        MulMono(DigitOf(a[0]), DigitOf(b[0]), p);
      } else {
        MulMono(DigitOf(b[0]), DigitOf(a[0]), p);
      }
    }
  }

  /** Length first, then text: the order of the numbers, whatever their size. */
  function CompareTrimmed(a: string, b: string): (r: int)
  {
    if |a| < |b| then -1 else if |a| > |b| then 1 else CompareText(a, b)
  }

  lemma TrimmedOrderIsNumeric(a: string, b: string)
    requires Trimmed(a) && Trimmed(b)
    ensures CompareTrimmed(a, b) == Sign(Value(a) - Value(b))
    ensures Value(a) == Value(b) ==> a == b
  {
    if |a| < |b| {
      ShorterIsSmaller(a, b);
    } else if |b| < |a| {
      ShorterIsSmaller(b, a);
    } else {
      SameLengthTextOrder(a, b);
    }
  }

  lemma {:induction false} ValueSnoc(s: string, c: char)
    requires Digits(s) && IsDigit(c)
    ensures Digits(s + [c]) && Value(s + [c]) == 10 * Value(s) + DigitOf(c)
  {
    if s == [] {
      assert s + [c] == [c];
      assert Value([c]) == DigitOf(c) * Pow10(0) + Value([]);
    } else {
      ValueSnoc(s[1..], c);
      assert (s + [c])[1..] == s[1..] + [c];
      assert Pow10(|s|) == 10 * Pow10(|s| - 1);
      assert DigitOf(s[0]) * (10 * Pow10(|s| - 1)) == 10 * (DigitOf(s[0]) * Pow10(|s| - 1));
    }
  }

  lemma {:induction false} LeadingZeros(n: nat, s: string)
    requires Digits(s)
    ensures Digits(Zeros(n) + s) && Value(Zeros(n) + s) == Value(s)
  {
    if n == 0 {
      assert Zeros(0) + s == s;
    } else {
      LeadingZeros(n - 1, s);
      assert (Zeros(n) + s)[1..] == Zeros(n - 1) + s;
    }
  }

  function Zeros(n: nat): (r: string)
    ensures |r| == n && forall i :: 0 <= i < n ==> r[i] == '0'
  {
    if n == 0 then [] else ['0'] + Zeros(n - 1)
  }
}
