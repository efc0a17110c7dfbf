/**
  Version precedence in updater/version.go.

  The program compares versions as text. `Precedence` is the order that section 11 of
  Semantic Versioning 2.0.0 defines on parsed versions; the lemmas show that the text
  comparison is that order on every valid version, and that it is a total preorder whose
  ties differ in build metadata only.
*/
module Versions {
  import opened Decimals

  // Splitting text.

  /** `strings.SplitN(s, c, 2)[0]`. */
  function Before(s: string, c: char): (r: string)
  {
    if s == [] || s[0] == c then [] else [s[0]] + Before(s[1..], c)
  }

  /** `strings.SplitN(s, c, 2)[1]` when `c` occurs in `s`. */
  function Behind(s: string, c: char): (r: string)
  {
    if s == [] then [] else if s[0] == c then s[1..] else Behind(s[1..], c)
  }

  /** `strings.Split(s, c)`. */
  function Split(s: string, c: char): (r: seq<string>)
    ensures |r| >= 1
  {
    if s == [] then [[]]
    else
      var rest := Split(s[1..], c);
      if s[0] == c then [[]] + rest else [[s[0]] + rest[0]] + rest[1..]
  }

  function Join(parts: seq<string>, c: char): (r: string)
    requires |parts| >= 1
  {
    if |parts| == 1 then parts[0] else parts[0] + [c] + Join(parts[1..], c)
  }

  lemma {:induction false} JoinUndoesSplit(s: string, c: char)
    ensures Join(Split(s, c), c) == s
  {
    if s != [] {
      JoinUndoesSplit(s[1..], c);
      var rest := Split(s[1..], c);
      if s[0] == c {
        assert ([[]] + rest)[1..] == rest;
      } else if |rest| > 1 {
        assert ([[s[0]] + rest[0]] + rest[1..])[1..] == rest[1..];
      }
    }
  }

  lemma {:induction false} BeforeAndBehind(s: string, c: char)
    ensures c !in Before(s, c)
    ensures s == if c in s then Before(s, c) + [c] + Behind(s, c) else Before(s, c)
  {
    if s != [] && s[0] == c {
      assert s == [] + [c] + s[1..];
    } else if s != [] {
      BeforeAndBehind(s[1..], c);
      assert s == [s[0]] + s[1..];
      assert c in s <==> c in s[1..];
      if c in s {
        assert s == [s[0]] + (Before(s[1..], c) + [c] + Behind(s[1..], c));
        assert s == ([s[0]] + Before(s[1..], c)) + [c] + Behind(s[1..], c);
      }
    }
  }

  // What a valid version is.

  predicate IsIdentifierChar(c: char) {
    IsDigit(c) || 'A' <= c <= 'Z' || 'a' <= c <= 'z' || c == '-'
  }

  predicate IdentifierText(s: string) {
    s != [] && forall i :: 0 <= i < |s| ==> IsIdentifierChar(s[i])
  }

  predicate Numeric(s: string) {
    s != [] && Digits(s)
  }

  /** `0` or a digit string without a zero in front. */
  predicate CanonicalNumber(s: string) {
    Numeric(s) && (|s| > 1 ==> s[0] != '0')
  }

  predicate ValidVersion(s: string) {
    var base := Before(s, '+');
    var core := Split(Before(base, '-'), '.');
    && |s| <= 100
    && |core| == 3
    && (forall i :: 0 <= i < 3 ==> CanonicalNumber(core[i]))
    && ('-' in base ==>
          var pre := Split(Behind(base, '-'), '.');
          forall i :: 0 <= i < |pre| ==> IdentifierText(pre[i]) && (Numeric(pre[i]) ==> CanonicalNumber(pre[i])))
    && ('+' in s ==>
          var build := Split(Behind(s, '+'), '.');
          forall i :: 0 <= i < |build| ==> IdentifierText(build[i]))
  }

  // The comparison as the program makes it.

  function CompareNatural(a: string, b: string): (r: int)
  {
    CompareTrimmed(TrimZeros(a), TrimZeros(b))
  }

  function Padded(nums: seq<string>): (r: seq<string>)
    ensures |r| >= 3 && nums <= r && (|nums| >= 3 ==> r == nums)
    ensures forall k :: |nums| <= k < |r| ==> k < 3 && r[k] == "0"
  {
    nums + seq(if |nums| < 3 then 3 - |nums| else 0, _ => "0")
  }

  function CoreOf(s: string): (r: seq<string>)
    ensures |r| >= 3
  {
    Padded(Split(Before(Before(s, '+'), '-'), '.'))
  }

  function PreOf(s: string): (r: seq<string>)
  {
    var base := Before(s, '+');
    if '-' in base then Split(Behind(base, '-'), '.') else []
  }

  function CompareIdentifier(a: string, b: string): (r: int)
  {
    if Numeric(a) && Numeric(b) then CompareNatural(a, b)
    else if Numeric(a) then -1
    else if Numeric(b) then 1
    else CompareText(a, b)
  }

  function ComparePre(a: seq<string>, b: seq<string>): (r: int)
  {
    if a == [] then (if b == [] then 0 else -1)
    else if b == [] then 1
    else
      var c := CompareIdentifier(a[0], b[0]);
      if c != 0 then c else ComparePre(a[1..], b[1..])
  }

  function CompareText3(a: seq<string>, b: seq<string>): (r: int)
    requires |a| >= 3 && |b| >= 3
  {
    var c0, c1 := CompareNatural(a[0], b[0]), CompareNatural(a[1], b[1]);
    if c0 != 0 then c0 else if c1 != 0 then c1 else CompareNatural(a[2], b[2])
  }

  /** A missing pre-release part ranks above any pre-release. */
  function CompareSpec(a: string, b: string): (r: int)
  {
    var c := CompareText3(CoreOf(a), CoreOf(b));
    if c != 0 then c
    else if PreOf(a) == [] && PreOf(b) != [] then 1
    else if PreOf(b) == [] && PreOf(a) != [] then -1
    else ComparePre(PreOf(a), PreOf(b))
  }

  /** The loops of compareVersion, with their early returns. */
  method CompareVersion(a: string, b: string) returns (c: int)
    ensures c == CompareSpec(a, b)
  {
    var an, ap := CoreOf(a), PreOf(a);
    var bn, bp := CoreOf(b), PreOf(b);
    var i := 0;
    while i < 3
      invariant 0 <= i <= 3
      invariant forall k :: 0 <= k < i ==> CompareNatural(an[k], bn[k]) == 0
    {
      c := CompareNatural(an[i], bn[i]);
      if c != 0 {
        return;
      }
      i := i + 1;
    }
    if |ap| == 0 && |bp| > 0 {
      return 1;
    }
    if |bp| == 0 && |ap| > 0 {
      return -1;
    }
    i := 0;
    while i < |ap| && i < |bp|
      invariant 0 <= i <= |ap| && i <= |bp|
      invariant ComparePre(ap, bp) == ComparePre(ap[i..], bp[i..])
    {
      var aNum := IsNumeric(ap[i]);
      var bNum := IsNumeric(bp[i]);
      if aNum && bNum {
        c := CompareNatural(ap[i], bp[i]);
        if c != 0 {
          return;
        }
      } else if aNum != bNum {
        return if aNum then -1 else 1;
      } else {
        c := CompareText(ap[i], bp[i]);
        if c != 0 {
          return;
        }
      }
      assert ap[i..][1..] == ap[i + 1..] && bp[i..][1..] == bp[i + 1..];
      i := i + 1;
    }
    c := if |ap| < |bp| then -1 else if |ap| > |bp| then 1 else 0;
  }

  method IsNumeric(s: string) returns (r: bool)
    ensures r <==> Numeric(s)
  {
    if s == "" {
      return false;
    }
    for i := 0 to |s|
      invariant forall k :: 0 <= k < i ==> IsDigit(s[k])
    {
      if s[i] < '0' || s[i] > '9' {
        return false;
      }
    }
    return true;
  }

  // Precedence as Semantic Versioning defines it.

  datatype Identifier = Number(n: nat) | Word(text: string)

  datatype Version = Version(major: nat, minor: nat, patch: nat, pre: seq<Identifier>)

  function IdentifierOf(s: string): (r: Identifier)
  {
    if Numeric(s) then Number(Value(s)) else Word(s)
  }

  function IdentifiersOf(parts: seq<string>): (r: seq<Identifier>)
    ensures |r| == |parts|
  {
    if parts == [] then [] else [IdentifierOf(parts[0])] + IdentifiersOf(parts[1..])
  }

  function Parse(s: string): (r: Version)
    requires ValidVersion(s)
  {
    var core := CoreOf(s);
    Version(Value(core[0]), Value(core[1]), Value(core[2]), IdentifiersOf(PreOf(s)))
  }

  /** Numbers before words, numbers by size, words by text. */
  function IdentifierOrder(a: Identifier, b: Identifier): (r: int)
  {
    match (a, b)
    case (Number(m), Number(n)) => Sign(m - n)
    case (Number(_), Word(_)) => -1
    case (Word(_), Number(_)) => 1
    case (Word(s), Word(t)) => CompareText(s, t)
  }

  /** The first differing identifier decides; otherwise the longer list ranks higher. */
  function ListOrder(a: seq<Identifier>, b: seq<Identifier>): (r: int)
  {
    if a == [] then (if b == [] then 0 else -1)
    else if b == [] then 1
    else
      var c := IdentifierOrder(a[0], b[0]);
      if c != 0 then c else ListOrder(a[1..], b[1..])
  }

  function Precedence(a: Version, b: Version): (r: int)
  {
    if a.major != b.major then Sign(a.major - b.major)
    else if a.minor != b.minor then Sign(a.minor - b.minor)
    else if a.patch != b.patch then Sign(a.patch - b.patch)
    else if a.pre == [] && b.pre != [] then 1
    else if b.pre == [] && a.pre != [] then -1
    else ListOrder(a.pre, b.pre)
  }

  // Agreement.

  /** compareNatural is the order of the numbers, for digit strings of any length. */
  lemma NaturalOrderIsNumeric(a: string, b: string)
    requires Digits(a) && Digits(b)
    ensures CompareNatural(a, b) == Sign(Value(a) - Value(b))
  {
    TrimKeepsValue(a);
    TrimKeepsValue(b);
    TrimmedOrderIsNumeric(TrimZeros(a), TrimZeros(b));
  }

  lemma {:induction false} PreOrderAgrees(a: seq<string>, b: seq<string>)
    ensures ComparePre(a, b) == ListOrder(IdentifiersOf(a), IdentifiersOf(b))
  {
    if a != [] && b != [] {
      if Numeric(a[0]) && Numeric(b[0]) {
        NaturalOrderIsNumeric(a[0], b[0]);
      }
      PreOrderAgrees(a[1..], b[1..]);
    }
  }

  /** On valid versions the text comparison is SemVer precedence. */
  lemma ComparesBySemVer(a: string, b: string)
    requires ValidVersion(a) && ValidVersion(b)
    ensures CompareSpec(a, b) == Precedence(Parse(a), Parse(b))
  {
    var an, bn := CoreOf(a), CoreOf(b);
    NaturalOrderIsNumeric(an[0], bn[0]);
    NaturalOrderIsNumeric(an[1], bn[1]);
    NaturalOrderIsNumeric(an[2], bn[2]);
    PreOrderAgrees(PreOf(a), PreOf(b));
  }

  // Order laws.

  lemma {:induction false} TextOrderLaws(a: string, b: string, c: string)
    ensures CompareText(a, b) == -CompareText(b, a) && -1 <= CompareText(a, b) <= 1
    ensures CompareText(a, b) == 0 <==> a == b
    ensures CompareText(a, b) <= 0 && CompareText(b, c) <= 0 ==> CompareText(a, c) <= 0
  {
    if a != [] && b != [] {
      TextOrderLaws(a[1..], b[1..], if c == [] then [] else c[1..]);
      assert a == [a[0]] + a[1..] && b == [b[0]] + b[1..];
    }
  }

  lemma IdentifierOrderLaws(a: Identifier, b: Identifier, c: Identifier)
    ensures IdentifierOrder(a, b) == -IdentifierOrder(b, a)
    ensures IdentifierOrder(a, b) == 0 <==> a == b
    ensures IdentifierOrder(a, b) <= 0 && IdentifierOrder(b, c) <= 0 ==> IdentifierOrder(a, c) <= 0
  {
    if a.Word? && b.Word? {
      TextOrderLaws(a.text, b.text, if c.Word? then c.text else "");
    }
  }

  lemma {:induction false} ListOrderLaws(a: seq<Identifier>, b: seq<Identifier>, c: seq<Identifier>)
    ensures ListOrder(a, b) == -ListOrder(b, a)
    ensures ListOrder(a, b) == 0 <==> a == b
    ensures ListOrder(a, b) <= 0 && ListOrder(b, c) <= 0 ==> ListOrder(a, c) <= 0
  {
    if a != [] && b != [] {
      assert a == [a[0]] + a[1..] && b == [b[0]] + b[1..];
      ListOrderLaws(a[1..], b[1..], if c == [] then [] else c[1..]);
      IdentifierOrderLaws(a[0], b[0], if c == [] then a[0] else c[0]);
      if c != [] {
        IdentifierOrderLaws(b[0], c[0], a[0]);
        IdentifierOrderLaws(a[0], c[0], b[0]);
      }
    }
  }

  lemma PrecedenceIsATotalOrder(a: Version, b: Version, c: Version)
    ensures Precedence(a, b) == -Precedence(b, a)
    ensures Precedence(a, b) == 0 <==> a == b
    ensures Precedence(a, b) <= 0 && Precedence(b, c) <= 0 ==> Precedence(a, c) <= 0
  {
    ListOrderLaws(a.pre, b.pre, c.pre);
  }

  /** The comparison of valid versions is a total preorder. */
  lemma ComparisonIsATotalPreorder(a: string, b: string, c: string)
    requires ValidVersion(a) && ValidVersion(b) && ValidVersion(c)
    ensures CompareSpec(a, a) == 0
    ensures CompareSpec(a, b) == -CompareSpec(b, a)
    ensures CompareSpec(a, b) <= 0 && CompareSpec(b, c) <= 0 ==> CompareSpec(a, c) <= 0
  {
    ComparesBySemVer(a, a);
    ComparesBySemVer(a, b);
    ComparesBySemVer(b, a);
    ComparesBySemVer(b, c);
    ComparesBySemVer(a, c);
    PrecedenceIsATotalOrder(Parse(a), Parse(b), Parse(c));
    PrecedenceIsATotalOrder(Parse(a), Parse(a), Parse(a));
  }

  // Ties.

  lemma CanonicalNumberIsUnique(a: string, b: string)
    requires CanonicalNumber(a) && CanonicalNumber(b) && Value(a) == Value(b)
    ensures a == b
  {
    if |a| == |b| {
      SameLengthTextOrder(a, b);
    } else if |a| < |b| {
      ShorterIsSmaller(a, b);
    } else {
      ShorterIsSmaller(b, a);
    }
  }

  lemma {:induction false} SameIdentifiersSameText(a: seq<string>, b: seq<string>)
    requires IdentifiersOf(a) == IdentifiersOf(b)
    requires forall i :: 0 <= i < |a| ==> Numeric(a[i]) ==> CanonicalNumber(a[i])
    requires forall i :: 0 <= i < |b| ==> Numeric(b[i]) ==> CanonicalNumber(b[i])
    ensures a == b
  {
    assert |a| == |b|;
    if a != [] {
      assert IdentifierOf(a[0]) == IdentifiersOf(a)[0] == IdentifiersOf(b)[0] == IdentifierOf(b[0]);
      assert IdentifiersOf(a[1..]) == IdentifiersOf(a)[1..] == IdentifiersOf(b)[1..] == IdentifiersOf(b[1..]);
      if Numeric(a[0]) {
        CanonicalNumberIsUnique(a[0], b[0]);
      }
      SameIdentifiersSameText(a[1..], b[1..]);
      assert a == [a[0]] + a[1..] && b == [b[0]] + b[1..];
    }
  }

  lemma BaseText(base: string)
    ensures base == Join(Split(Before(base, '-'), '.'), '.')
                    + (if '-' in base then "-" + Join(Split(Behind(base, '-'), '.'), '.') else "")
  {
    BeforeAndBehind(base, '-');
    JoinUndoesSplit(Before(base, '-'), '.');
    JoinUndoesSplit(Behind(base, '-'), '.');
    hide Before, Behind, Split, Join;
    assert '-' in base ==> base == Before(base, '-') + ("-" + Behind(base, '-'));
  }

  lemma BaseFromParts(s: string)
    requires ValidVersion(s)
    ensures Before(s, '+') == Join(CoreOf(s), '.') + (if PreOf(s) == [] then "" else "-" + Join(PreOf(s), '.'))
  {
    var base := Before(s, '+');
    BaseText(base);
    assert CoreOf(s) == Split(Before(base, '-'), '.');
    hide Before, Behind, Split, Join, ValidVersion;
  }

  /** Two valid versions compare equal exactly when they agree up to build metadata. */
  lemma TiesDifferInBuildOnly(a: string, b: string)
    requires ValidVersion(a) && ValidVersion(b)
    ensures CompareSpec(a, b) == 0 <==> Before(a, '+') == Before(b, '+')
  {
    ComparesBySemVer(a, b);
    PrecedenceIsATotalOrder(Parse(a), Parse(b), Parse(b));
    if CompareSpec(a, b) == 0 {
      var an, bn := CoreOf(a), CoreOf(b);
      CanonicalNumberIsUnique(an[0], bn[0]);
      CanonicalNumberIsUnique(an[1], bn[1]);
      CanonicalNumberIsUnique(an[2], bn[2]);
      assert an == bn;
      SameIdentifiersSameText(PreOf(a), PreOf(b));
      BaseFromParts(a);
      BaseFromParts(b);
    }
  }
}
