/**
 * String helpers shared by the registry and the table models: decimal
 * formatting (QString::number), integer parsing (QString::toInt), the
 * `id_N` suffix form, last-index search, ASCII lower-casing and a
 * lexicographic order on characters standing in for QString's `<`.
 */
module Text {

  import opened Options

  // ---------------------------------------------------------------------------
  // Decimal formatting

  predicate IsDigit(c: char) { '0' <= c <= '9' }

  function DigitChar(d: nat): (c: char)
    requires d < 10
    ensures IsDigit(c) && c as int - '0' as int == d
  {
    ('0' as int + d) as char
  }

  /** Decimal text of a natural number, without leading zeros. */
  function NatToString(n: nat): (s: string)
    ensures |s| >= 1
    ensures forall i :: 0 <= i < |s| ==> IsDigit(s[i])
    ensures |s| == 1 <==> n < 10
    decreases n
  {
    if n < 10 then [DigitChar(n)] else NatToString(n / 10) + [DigitChar(n % 10)]
  }

  /** Decimal text of an integer, with a leading '-' when negative. */
  function IntToString(i: int): (s: string)
    ensures |s| >= 1
    ensures i >= 0 ==> s == NatToString(i)
  {
    if i < 0 then "-" + NatToString(-i) else NatToString(i)
  }

  /** Two numbers have the same decimal text only when they are equal. */
  lemma {:induction false} NatToStringInjective(a: nat, b: nat)
    ensures NatToString(a) == NatToString(b) ==> a == b
    decreases a
  {
    var sa, sb := NatToString(a), NatToString(b);
    if sa == sb && a >= 10 && b >= 10 {
      assert sa[|sa| - 1] == sb[|sb| - 1];
      assert a % 10 == b % 10;
      assert sa[..|sa| - 1] == NatToString(a / 10);
      assert sb[..|sb| - 1] == NatToString(b / 10);
      NatToStringInjective(a / 10, b / 10);
    }
  }

  /** A decimal text never contains the suffix separator. */
  lemma NoSeparatorInNumber(n: nat)
    ensures '_' !in NatToString(n)
  {
  }

  // ---------------------------------------------------------------------------
  // Decimal parsing

  predicate AllDigits(s: string)
  {
    forall i :: 0 <= i < |s| ==> IsDigit(s[i])
  }

  /** The value of a string of decimal digits, most significant first. */
  function DigitsValue(s: string): nat
    requires AllDigits(s)
  {
    if s == [] then 0
    else DigitsValue(s[..|s| - 1]) * 10 + (s[|s| - 1] as int - '0' as int)
  }

  const IntMin: int := -0x8000_0000
  const IntMax: int := 0x7FFF_FFFF

  /**
   * QString::toInt with ok-flag: an optional sign and one or more decimal
   * digits whose value fits a 32-bit int; anything else fails.
   */
  function ParseInt(s: string): (r: Option<int>)
    ensures r.Some? ==> IntMin <= r.value <= IntMax
    ensures s == [] ==> r == None
    ensures r.Some? ==> AllDigits(s) || ((s[0] == '-' || s[0] == '+') && |s| > 1 && AllDigits(s[1..]))
    ensures s != [] && AllDigits(s) && DigitsValue(s) <= IntMax ==> r == Some(DigitsValue(s))
    ensures |s| > 1 && s[0] == '+' && AllDigits(s[1..]) && DigitsValue(s[1..]) <= IntMax ==> r == Some(DigitsValue(s[1..]))
    ensures |s| > 1 && s[0] == '-' && AllDigits(s[1..]) && DigitsValue(s[1..]) <= -IntMin ==> r.Some? && r.value + DigitsValue(s[1..]) == 0
  {
    var negative := |s| > 0 && s[0] == '-';
    var body := if |s| > 0 && (s[0] == '-' || s[0] == '+') then s[1..] else s;
    if body == [] || !AllDigits(body) then None
    else
      var magnitude: int := DigitsValue(body);
      var v := if negative then -magnitude else magnitude;
      if IntMin <= v <= IntMax then Some(v) else None
  }

  lemma {:induction false} DigitsValueOfNat(n: nat)
    ensures AllDigits(NatToString(n)) && DigitsValue(NatToString(n)) == n
    decreases n
  {
    var s := NatToString(n);
    if n >= 10 {
      assert s[..|s| - 1] == NatToString(n / 10);
      DigitsValueOfNat(n / 10);
    }
  }

  /** Parsing the decimal text of a number that fits an int gives the number back. */
  lemma ParseFormatRoundTrip(n: nat)
    requires n <= IntMax
    ensures ParseInt(NatToString(n)) == Some(n)
  {
    DigitsValueOfNat(n);
    assert IsDigit(NatToString(n)[0]);
  }

  // ---------------------------------------------------------------------------
  // The `id_N` collision suffix

  /** `id_N`, the name tried for the N-th collision of a requested id. */
  function Suffixed(id: string, n: nat): string
  {
    id + "_" + NatToString(n)
  }

  /** Different suffixes give different names. */
  lemma SuffixedInjective(id: string, a: nat, b: nat)
    ensures Suffixed(id, a) == Suffixed(id, b) <==> a == b
  {
    if Suffixed(id, a) == Suffixed(id, b) {
      assert NatToString(a) == Suffixed(id, a)[|id| + 1..];
      assert NatToString(b) == Suffixed(id, b)[|id| + 1..];
      NatToStringInjective(a, b);
    }
  }

  /** A suffixed name is never a bare decimal number. */
  lemma SuffixedIsNotNumber(id: string, n: nat, m: nat)
    ensures Suffixed(id, n) != NatToString(m)
  {
    var s := Suffixed(id, n);
    assert s[|id|] == '_';
    NoSeparatorInNumber(m);
  }

  /** The names id_1 .. id_k. */
  function SuffixesUpTo(id: string, k: nat): (r: set<string>)
    ensures forall n :: 1 <= n <= k ==> Suffixed(id, n) in r
  {
    if k == 0 then {} else SuffixesUpTo(id, k - 1) + {Suffixed(id, k)}
  }

  lemma {:induction false} SuffixesUpToSize(id: string, k: nat)
    ensures |SuffixesUpTo(id, k)| == k
  {
    if k > 0 {
      SuffixesUpToSize(id, k - 1);
      if Suffixed(id, k) in SuffixesUpTo(id, k - 1) {
        var m := SuffixMember(id, k - 1, Suffixed(id, k));
        SuffixedInjective(id, m, k);
      }
    }
  }

  lemma {:induction false} SuffixMember(id: string, k: nat, s: string) returns (m: nat)
    requires s in SuffixesUpTo(id, k)
    ensures 1 <= m <= k && s == Suffixed(id, m)
  {
    if s == Suffixed(id, k) {
      m := k;
    } else {
      m := SuffixMember(id, k - 1, s);
    }
  }

  lemma SubsetSize<T>(a: set<T>, b: set<T>)
    requires a <= b
    ensures |a| <= |b|
  {
    assert b == a + (b - a);
  }

  /**
   * Pigeonhole bound: when id_1 .. id_k are all taken, the set of taken
   * names has at least k elements. So the suffix search stops by |used| + 1.
   */
  lemma SuffixesTakenBound(used: set<string>, id: string, k: nat)
    requires forall n :: 1 <= n <= k ==> Suffixed(id, n) in used
    ensures k <= |used|
  {
    SuffixesUpToSize(id, k);
    forall s | s in SuffixesUpTo(id, k) ensures s in used {
      var m := SuffixMember(id, k, s);
    }
    SubsetSize(SuffixesUpTo(id, k), used);
  }

  // ---------------------------------------------------------------------------
  // Searching and comparing

  /** QString::lastIndexOf for one character: -1 when absent. */
  function LastIndexOf(s: string, c: char): (r: int)
    ensures -1 <= r < |s|
    ensures r >= 0 ==> s[r] == c
    ensures forall j :: r < j < |s| ==> s[j] != c
  {
    if s == [] then -1
    else if s[|s| - 1] == c then |s| - 1
    else LastIndexOf(s[..|s| - 1], c)
  }

  function LowerChar(c: char): char
  {
    if 'A' <= c <= 'Z' then (c as int - 'A' as int + 'a' as int) as char else c
  }

  /** Lower-casing, restricted to the ASCII letters. */
  function Lower(s: string): (r: string)
    ensures |r| == |s|
    ensures forall i :: 0 <= i < |s| ==> r[i] == LowerChar(s[i])
  {
    if s == [] then [] else [LowerChar(s[0])] + Lower(s[1..])
  }

  /**
   * Lexicographic `<` on characters (Unicode scalar values). QString's
   * operator< compares UTF-16 code units; the two orders agree on text
   * without characters above U+FFFF.
   */
  predicate LexLess(a: string, b: string)
  {
    if a == [] then b != []
    else if b == [] then false
    else if a[0] != b[0] then a[0] < b[0]
    else LexLess(a[1..], b[1..])
  }

  lemma {:induction false} LexLessIrreflexive(a: string)
    ensures !LexLess(a, a)
  {
    if a != [] {
      LexLessIrreflexive(a[1..]);
    }
  }

  lemma {:induction false} LexLessTransitive(a: string, b: string, c: string)
    requires LexLess(a, b) && LexLess(b, c)
    ensures LexLess(a, c)
  {
    if a != [] && b != [] && c != [] && a[0] == b[0] && b[0] == c[0] {
      LexLessTransitive(a[1..], b[1..], c[1..]);
    }
  }

  /** Any two different strings are ordered one way or the other. */
  lemma {:induction false} LexLessTotal(a: string, b: string)
    ensures a == b || LexLess(a, b) || LexLess(b, a)
  {
    if a != [] && b != [] && a[0] == b[0] {
      LexLessTotal(a[1..], b[1..]);
      if a[1..] == b[1..] {
        assert a == [a[0]] + a[1..] && b == [b[0]] + b[1..];
      }
    }
  }

  lemma {:induction false} LexLessAsymmetric(a: string, b: string)
    requires LexLess(a, b)
    ensures !LexLess(b, a)
  {
    if a != [] && b != [] && a[0] == b[0] {
      LexLessAsymmetric(a[1..], b[1..]);
    }
  }
}
