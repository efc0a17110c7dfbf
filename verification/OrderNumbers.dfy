/**
  Purchase order numbering, backend/app/features/purchase_order_numbers.py.

  Numbers are text. The running maximum and the increment work on digit strings of any
  length, because hand-written numbers were never limited.
*/
module OrderNumbers {
  import opened Decimals

  /** SQLite's NOCASE folds the 26 ASCII letters and nothing else. */
  function Fold(c: char): (r: char)
  {
    if 'A' <= c <= 'Z' then (c as int - 'A' as int + 'a' as int) as char else c
  }

  const UPPER := "ABCDEFGHIJKLMNOPQRSTUVWXYZ"
  const LOWER := "abcdefghijklmnopqrstuvwxyz"

  /** Each capital folds to its small letter, and every other character to itself. */
  lemma FoldsTheAlphabet(c: char, k: nat)
    requires k < 26
    ensures Fold(UPPER[k]) == LOWER[k]
    ensures c !in UPPER ==> Fold(c) == c
  {
    assert 'A' <= c <= 'Z' ==> UPPER[c as int - 'A' as int] == c;
  }

  predicate SameNoCase(a: string, b: string) {
    |a| == |b| && forall i :: 0 <= i < |a| ==> Fold(a[i]) == Fold(b[i])
  }

  predicate Matches(orderNo: string, prefix: string) {
    |orderNo| >= |prefix| && SameNoCase(orderNo[..|prefix|], prefix)
  }

  /** The order carries this prefix and a decimal sequence behind it. */
  predicate Numbered(orderNo: string, prefix: string) {
    Matches(orderNo, prefix) && |orderNo| > |prefix| && Digits(orderNo[|prefix|..])
  }

  function SequenceOf(orderNo: string, prefix: string): (n: nat)
    requires Numbered(orderNo, prefix)
  {
    Value(orderNo[|prefix|..])
  }

  /** `suffix.lstrip("0") or "0"`. */
  function Canonical(suffix: string): (r: string)
  {
    var stripped := TrimZeros(suffix);
    if stripped == [] then "0" else stripped
  }

  /** `(len(candidate), candidate) > (len(sequence), sequence)`. */
  predicate Greater(candidate: string, sequence: string) {
    CompareTrimmed(candidate, sequence) > 0
  }

  function RStripNines(s: string): (r: string)
    ensures |r| <= |s| && r == s[..|r|]
  {
    if s != [] && s[|s| - 1] == '9' then RStripNines(s[..|s| - 1]) else s
  }

  function IncrementDecimal(value: string): (r: string)
    requires Digits(value)
  {
    var remaining := RStripNines(value);
    var carriedZeros := Zeros(|value| - |remaining|);
    if remaining == [] then "1" + carriedZeros
    else
      var last := remaining[|remaining| - 1];
      remaining[..|remaining| - 1] + [(last as int + 1) as char] + carriedZeros
  }

  function ZFill(s: string, width: nat): (r: string)
  {
    if |s| < width then Zeros(width - |s|) + s else s
  }

  lemma {:induction false} NinesRollOver(s: string)
    requires Digits(s) && s != [] && s[|s| - 1] == '9'
    ensures IncrementDecimal(s) == IncrementDecimal(s[..|s| - 1]) + "0"
  {
    var remaining := RStripNines(s);
    var zeros, fewer := Zeros(|s| - |remaining|), Zeros(|s| - 1 - |remaining|);
    assert zeros == fewer + "0";
    assert RStripNines(s[..|s| - 1]) == remaining;
  }

  /** Stripping nines, bumping one digit and appending zeros adds exactly one. */
  lemma {:induction false} IncrementAddsOne(s: string)
    requires Digits(s)
    ensures Digits(IncrementDecimal(s)) && Value(IncrementDecimal(s)) == Value(s) + 1
  {
    if s == [] {
      assert IncrementDecimal(s) == "1";
      ValueSnoc("", '1');
      assert "" + ['1'] == "1";
    } else {
      var front, last := s[..|s| - 1], s[|s| - 1];
      assert s == front + [last];
      ValueSnoc(front, last);
      if last == '9' {
        NinesRollOver(s);
        IncrementAddsOne(front);
        ValueSnoc(IncrementDecimal(front), '0');
      } else {
        var bumped := (last as int + 1) as char;
        assert IncrementDecimal(s) == front + [bumped];
        ValueSnoc(front, bumped);
      }
    }
  }

  lemma ZFillKeepsValue(s: string, width: nat)
    requires Digits(s)
    ensures Digits(ZFill(s, width)) && Value(ZFill(s, width)) == Value(s) && |ZFill(s, width)| >= width
  {
    if |s| < width {
      LeadingZeros(width - |s|, s);
    }
  }

  lemma CanonicalKeepsValue(s: string)
    requires Digits(s)
    ensures Digits(Canonical(s)) && Value(Canonical(s)) == Value(s) && Canonical(s) == Canonical(Canonical(s))
  {
    TrimKeepsValue(s);
    if TrimZeros(s) == [] {
      LeadingZeros(1, "");
      assert Zeros(1) + "" == "0";
      assert TrimZeros("0") == TrimZeros("0"[1..]) == [];
    }
  }

  lemma IncrementHasNoZeroInFront(s: string)
    requires Digits(s) && s != [] && s == Canonical(s)
    ensures IncrementDecimal(s) != [] && IncrementDecimal(s)[0] != '0'
  {
    TrimKeepsValue(s);
    assert s[0] != '0' || s == "0";
  }

  /** The digits of the next number behind its prefix. */
  lemma NextDigits(sequence: string) returns (digits: string)
    requires Digits(sequence) && sequence != [] && sequence == Canonical(sequence)
    ensures digits == ZFill(IncrementDecimal(sequence), 3) && Digits(digits) && Value(digits) == Value(sequence) + 1
    ensures |digits| >= 3 && (|digits| > 3 ==> digits[0] != '0')
  {
    IncrementAddsOne(sequence);
    IncrementHasNoZeroInFront(sequence);
    digits := ZFill(IncrementDecimal(sequence), 3);
    ZFillKeepsValue(IncrementDecimal(sequence), 3);
  }

  lemma CanonicalOrderIsNumeric(a: string, b: string)
    requires Digits(a) && Digits(b) && a == Canonical(a) && b == Canonical(b)
    ensures Greater(a, b) <==> Value(a) > Value(b)
  {
    TrimKeepsValue(a);
    TrimKeepsValue(b);
    if |a| == |b| {
      SameLengthTextOrder(a, b);
    } else if |a| < |b| {
      assert |b| > 1 && TrimZeros(b) == b;
      ShorterIsSmaller(a, b);
    } else {
      assert |a| > 1 && TrimZeros(a) == a;
      ShorterIsSmaller(b, a);
    }
  }

  /**
    `number` carries `prefix` and one more than the largest sequence used with it, written with
    three digits, or with as many as it needs.
  */
  ghost predicate IsNext(orders: seq<string>, prefix: string, number: string) {
    && |number| >= |prefix| + 3 && number[..|prefix|] == prefix && Digits(number[|prefix|..])
    && (|number| > |prefix| + 3 ==> number[|prefix|] != '0')
    && (forall i :: 0 <= i < |orders| && Numbered(orders[i], prefix) ==>
          SequenceOf(orders[i], prefix) < Value(number[|prefix|..]))
    && (Value(number[|prefix|..]) == 1
        || exists i :: 0 <= i < |orders| && Numbered(orders[i], prefix)
                       && SequenceOf(orders[i], prefix) + 1 == Value(number[|prefix|..]))
  }

  /** No order already carries the next number, not even in other letter case. */
  lemma NextIsUnused(orders: seq<string>, prefix: string, number: string, i: nat)
    requires IsNext(orders, prefix, number) && i < |orders|
    ensures !SameNoCase(orders[i], number)
  {
    if SameNoCase(orders[i], number) {
      var order := orders[i];
      var suffix, digits := order[|prefix|..], number[|prefix|..];
      assert SameNoCase(order[..|prefix|], number[..|prefix|]);
      forall k | 0 <= k < |suffix| ensures suffix[k] == digits[k] {
        assert Fold(order[|prefix| + k]) == Fold(number[|prefix| + k]);
      }
      assert suffix == digits;
      assert Numbered(order, prefix);
    }
  }

  method NextPurchaseOrderNumber(orders: seq<string>, prefix: string) returns (number: string)
    ensures IsNext(orders, prefix, number)
    ensures forall i :: 0 <= i < |orders| ==> !SameNoCase(orders[i], number)
  {
    hide IncrementDecimal, ZFill;
    var sequence := "0";
    LeadingZeros(1, "");
    assert Zeros(1) + "" == "0" && TrimZeros("0"[1..]) == [];
    for n := 0 to |orders|
      invariant Digits(sequence) && sequence != [] && sequence == Canonical(sequence)
      invariant forall i :: 0 <= i < n && Numbered(orders[i], prefix) ==>
                  SequenceOf(orders[i], prefix) <= Value(sequence)
      invariant Value(sequence) == 0
        || (exists i :: 0 <= i < n && Numbered(orders[i], prefix) && SequenceOf(orders[i], prefix) == Value(sequence))
    {
      if Matches(orders[n], prefix) {
        var suffix := orders[n][|prefix|..];
        if suffix != [] && Digits(suffix) {
          var candidate := Canonical(suffix);
          CanonicalKeepsValue(suffix);
          CanonicalOrderIsNumeric(candidate, sequence);
          if Greater(candidate, sequence) {
            sequence := candidate;
          }
        }
      }
    }
    var digits := ZFill(IncrementDecimal(sequence), 3);
    ghost var same := NextDigits(sequence);
    number := prefix + digits;
    assert number[..|prefix|] == prefix && number[|prefix|..] == digits;
    forall i | 0 <= i < |orders| ensures !SameNoCase(orders[i], number) {
      NextIsUnused(orders, prefix, number, i);
    }
  }
}
