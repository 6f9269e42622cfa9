/** Array parts of key names: `#`, underscores, digits. */
module ArrayParts {
  import opened Wrappers

  predicate IsDigit(c: char) {
    '0' <= c <= '9'
  }

  predicate AllDigits(s: string) {
    forall i | 0 <= i < |s| :: IsDigit(s[i])
  }

  /** String order, character by character. */
  predicate StrLess(a: string, b: string) {
    b != [] && (a == [] || a[0] < b[0] || (a[0] == b[0] && StrLess(a[1..], b[1..])))
  }

  function Digit(d: nat): char
    requires d < 10
  {
    '0' + d as char
  }

  /** Python's str of a natural number. */
  function Decimal(n: nat): (s: string)
    ensures |s| > 0
  {
    if n < 10 then [Digit(n)] else Decimal(n / 10) + [Digit(n % 10)]
  }

  const MAX_INDEX: nat := 0x7FFF_FFFF_FFFF_FFFF

  function Underscores(n: nat): string {
    seq(n, _ => '_')
  }

  function LeadingUnderscores(s: string): (n: nat)
    ensures n <= |s|
  {
    if s != [] && s[0] == '_' then 1 + LeadingUnderscores(s[1..]) else 0
  }

  /** check_array_part: the digits of a valid array part. */
  function CheckArrayPart(part: string): Option<string>
    requires part != []
  {
    var underscores := LeadingUnderscores(part[1..]);
    var digits := part[underscores + 1..];
    if !AllDigits(digits) then None
    else if underscores > 0 && underscores != |digits| - 1 then None
    else if |digits| > 19 || (|digits| == 19 && StrLess(Decimal(MAX_INDEX), digits)) then None
    else if |digits| > 1 && digits[0] == '0' then None
    else Some(digits)
  }

  /** The canonical array part for some digits. */
  function ArrayPart(digits: string): string {
    "#" + Underscores(if digits == [] then 0 else |digits| - 1) + digits
  }

  lemma {:induction false} LeadingUnderscoresOf(n: nat, digits: string)
    requires AllDigits(digits)
    ensures LeadingUnderscores(Underscores(n) + digits) == n
  {
    var s := Underscores(n) + digits;
    if n == 0 {
      assert s == digits;
    } else {
      assert s[0] == '_' && s[1..] == Underscores(n - 1) + digits;
      LeadingUnderscoresOf(n - 1, digits);
    }
  }

  /** The digits that a check returns make a part that checks to the same digits. */
  lemma ArrayPartStable(part: string)
    requires part != [] && CheckArrayPart(part).Some?
    ensures CheckArrayPart(ArrayPart(CheckArrayPart(part).value)) == CheckArrayPart(part)
  {
    hide Decimal, StrLess;
    var digits := CheckArrayPart(part).value;
    var u := if digits == [] then 0 else |digits| - 1;
    ArrayPartShape(digits, u);
  }

  lemma ArrayPartShape(digits: string, u: nat)
    requires AllDigits(digits) && u == if digits == [] then 0 else |digits| - 1
    ensures var p := ArrayPart(digits);
            p[0] == '#' && LeadingUnderscores(p[1..]) == u && |p| > u && p[u + 1..] == digits
  {
    var p := ArrayPart(digits);
    assert p[1..] == Underscores(u) + digits;
    LeadingUnderscoresOf(u, digits);
  }

  // ----- decimal numbers

  function Value(digits: string): nat
    requires AllDigits(digits)
  {
    if digits == [] then 0 else 10 * Value(digits[..|digits| - 1]) + (digits[|digits| - 1] - '0') as nat
  }

  lemma {:induction false} DecimalDigits(n: nat)
    ensures AllDigits(Decimal(n)) && Value(Decimal(n)) == n
    ensures n > 0 ==> Decimal(n)[0] != '0'
  {
    var s := Decimal(n);
    if n >= 10 {
      DecimalDigits(n / 10);
      assert s[..|s| - 1] == Decimal(n / 10);
    } else {
      assert s[..0] == [];
    }
  }

  /** Numbers of equal length compare like their digit strings, and longer numbers are larger. */
  lemma {:induction false} DecimalOrder(m: nat, n: nat)
    requires m < n
    ensures |Decimal(m)| <= |Decimal(n)|
    ensures |Decimal(m)| == |Decimal(n)| ==> StrLess(Decimal(m), Decimal(n))
  {
    if n < 10 {
      assert Decimal(m) == [Digit(m)] && Decimal(n) == [Digit(n)];
    } else if m < 10 {
    } else if m / 10 < n / 10 {
      DecimalOrder(m / 10, n / 10);
      if |Decimal(m)| == |Decimal(n)| {
        StrLessExtends(Decimal(m / 10), Decimal(n / 10), [Digit(m % 10)], [Digit(n % 10)]);
      }
    } else {
      StrLessShift(Decimal(m / 10), [Digit(m % 10)], [Digit(n % 10)]);
    }
  }

  lemma {:induction false} StrLessShift(p: string, a: string, b: string)
    ensures StrLess(p + a, p + b) <==> StrLess(a, b)
  {
    if p == [] {
      assert p + a == a && p + b == b;
    } else {
      assert (p + a)[1..] == p[1..] + a && (p + b)[1..] == p[1..] + b;
      StrLessShift(p[1..], a, b);
    }
  }

  lemma {:induction false} StrLessExtends(a: string, b: string, x: string, y: string)
    requires |a| == |b| && StrLess(a, b)
    ensures StrLess(a + x, b + y)
  {
    assert (a + x)[0] == a[0] && (b + y)[0] == b[0];
    if a[0] == b[0] {
      assert (a + x)[1..] == a[1..] + x && (b + y)[1..] == b[1..] + y;
      StrLessExtends(a[1..], b[1..], x, y);
    }
  }

  lemma {:induction false} StrLessIrreflexive(a: string)
    ensures !StrLess(a, a)
  {
    if a != [] { StrLessIrreflexive(a[1..]); }
  }

  lemma {:induction false} StrLessAsymmetric(a: string, b: string)
    requires StrLess(a, b)
    ensures !StrLess(b, a)
  {
    if a != [] && a[0] == b[0] { StrLessAsymmetric(a[1..], b[1..]); }
  }

  function DigitCount(n: nat): nat {
    if n < 10 then 1 else 1 + DigitCount(n / 10)
  }

  lemma {:induction false} DecimalLength(n: nat)
    ensures |Decimal(n)| == DigitCount(n)
  {
    if n >= 10 { DecimalLength(n / 10); }
  }

  function Pow10(k: nat): nat {
    if k == 0 then 1 else 10 * Pow10(k - 1)
  }

  lemma {:induction false} CountOf(n: nat, k: nat)
    requires k > 0 && n < Pow10(k) && (k == 1 || Pow10(k - 1) <= n)
    ensures DigitCount(n) == k
  {
    if k > 1 { CountOf(n / 10, k - 1); }
  }

  lemma MaxLength()
    ensures |Decimal(MAX_INDEX)| == 19
  {
    hide Decimal;
    DecimalLength(MAX_INDEX);
    assert Pow10(3) == 1_000 && Pow10(6) == 1_000_000;
    assert Pow10(9) == 1_000_000_000;
    assert Pow10(12) == 1_000_000_000_000;
    assert Pow10(15) == 1_000_000_000_000_000;
    assert Pow10(18) == 1_000_000_000_000_000_000;
    CountOf(MAX_INDEX, 19);
  }

  /** Every index has a canonical part, and the check accepts it and returns its decimal digits. */
  lemma CanonicalIndexAccepted(n: nat)
    requires n <= MAX_INDEX
    ensures CheckArrayPart(ArrayPart(Decimal(n))) == Some(Decimal(n))
  {
    hide StrLess;
    var digits := Decimal(n);
    DecimalDigits(n);
    MaxLength();
    ArrayPartShape(digits, |digits| - 1);
    if n < MAX_INDEX {
      DecimalOrder(n, MAX_INDEX);
      if |digits| == 19 { StrLessAsymmetric(digits, Decimal(MAX_INDEX)); }
    } else {
      StrLessIrreflexive(digits);
    }
  }

  /** The underscores make the string order of canonical array parts the order of the indices. */
  lemma ArrayPartsSortLikeIndices(m: nat, n: nat)
    requires m < n <= MAX_INDEX
    ensures StrLess(ArrayPart(Decimal(m)), ArrayPart(Decimal(n)))
  {
    hide StrLess, Decimal;
    var a, b := Decimal(m), Decimal(n);
    DecimalOrder(m, n);
    DecimalDigits(m);
    DecimalDigits(n);
    if |a| == |b| {
      StrLessShift("#" + Underscores(|a| - 1), a, b);
    } else {
      var u := "#" + Underscores(|a| - 1);
      var y := Underscores(|b| - |a|) + b;
      assert ArrayPart(b) == u + y by { UnderscoresSplit(|a| - 1, |b| - |a|); }
      StrLessShift(u, a, y);
      DigitBeforeUnderscore(a, y);
    }
  }

  lemma UnderscoresSplit(a: nat, b: nat)
    ensures Underscores(a + b) == Underscores(a) + Underscores(b)
  {
  }

  lemma DigitBeforeUnderscore(a: string, y: string)
    requires a != [] && IsDigit(a[0]) && y != [] && y[0] == '_'
    ensures StrLess(a, y)
  {
  }

  // ----- which parts are accepted

  lemma {:induction false} LeadingAreUnderscores(s: string)
    ensures var n := LeadingUnderscores(s); s[..n] == Underscores(n)
  {
    if s != [] && s[0] == '_' {
      LeadingAreUnderscores(s[1..]);
      var n := LeadingUnderscores(s[1..]);
      assert s[..n + 1] == ['_'] + s[1..][..n];
      assert Underscores(n + 1) == ['_'] + Underscores(n);
    }
  }

  lemma {:induction false} DecimalOfValue(d: string)
    requires d != [] && AllDigits(d) && (|d| > 1 ==> d[0] != '0')
    ensures Decimal(Value(d)) == d && (d[0] != '0' ==> Value(d) > 0)
  {
    var last := |d| - 1;
    if last > 0 {
      var v, x := Value(d[..last]), (d[last] - '0') as nat;
      DecimalOfValue(d[..last]);
      DecimalStep(v, x);
      assert d == d[..last] + [d[last]] && Digit(x) == d[last];
    } else {
      assert d[..0] == [] && d == [d[0]];
    }
  }

  lemma DecimalStep(v: nat, x: nat)
    requires v > 0 && x < 10
    ensures Decimal(10 * v + x) == Decimal(v) + [Digit(x)]
  {
    assert (10 * v + x) / 10 == v && (10 * v + x) % 10 == x;
  }

  /** Digits that the check accepts are those of an index. */
  lemma IndexOfDigits(d: string) returns (n: nat)
    requires d != [] && AllDigits(d) && (|d| > 1 ==> d[0] != '0')
    requires |d| <= 19 && (|d| == 19 ==> !StrLess(Decimal(MAX_INDEX), d))
    ensures n <= MAX_INDEX && d == Decimal(n)
  {
    hide StrLess, Decimal;
    n := Value(d);
    DecimalOfValue(d);
    MaxLength();
    if n > MAX_INDEX { DecimalOrder(MAX_INDEX, n); }
  }

  lemma PlainIndexAccepted(n: nat)
    requires n <= MAX_INDEX
    ensures CheckArrayPart("#" + Decimal(n)) == Some(Decimal(n))
  {
    hide StrLess, Decimal;
    var d := Decimal(n);
    var p := "#" + d;
    CanonicalIndexAccepted(n);
    DecimalDigits(n);
    ArrayPartShape(d, |d| - 1);
    LeadingUnderscoresOf(0, d);
    assert Underscores(0) + d == d && p[1..] == d;
  }

  /** The valid array parts are `#` alone, and `#` with the decimal digits of a number below 2^63, with or without the
      underscores. */
  lemma AcceptedArrayParts(p: string)
    requires p != [] && p[0] == '#'
    ensures CheckArrayPart(p).Some? <==>
      p == "#" || exists n: nat | n <= 9_223_372_036_854_775_807 :: p == "#" + Decimal(n) || p == ArrayPart(Decimal(n))
  {
    hide StrLess, Decimal;
    if CheckArrayPart(p).Some? {
      var u := LeadingUnderscores(p[1..]);
      var d := p[u + 1..];
      LeadingAreUnderscores(p[1..]);
      assert p == "#" + p[1..][..u] + d;
      if d != [] {
        var n := IndexOfDigits(d);
        if u == 0 { assert p == "#" + Decimal(n); } else { assert p == ArrayPart(Decimal(n)); }
      }
    }
    forall n: nat | n <= MAX_INDEX ensures CheckArrayPart("#" + Decimal(n)).Some? && CheckArrayPart(ArrayPart(Decimal(n))).Some? {
      PlainIndexAccepted(n);
      CanonicalIndexAccepted(n);
    }
    if p == "#" { assert p[1..] == []; }
  }
}
