/** Which integer a number literal stands for, without floating point: digit by digit on the controller,
    by exact fractions on the other side. */
module JsonIntegers {
  import opened Records
  import opened JsonNumbers

  const MAX_SAFE := 9_007_199_254_740_991
  const MAX_SAFE_DIGITS: seq<nat> := [9, 0, 0, 7, 1, 9, 9, 2, 5, 4, 7, 4, 0, 9, 9, 1]
  const MIN_INT64 := -0x8000_0000_0000_0000
  const MAX_INT64 := 0x7fff_ffff_ffff_ffff

  // ----- what a literal means

  function Pow10(n: nat): (p: nat)
    ensures 1 <= p
  {
    if n == 0 then 1 else 10 * Pow10(n - 1)
  }

  predicate AreDigits(d: seq<nat>) { forall i :: 0 <= i < |d| ==> d[i] <= 9 }

  function Num(d: seq<nat>): nat {
    if d == [] then 0 else 10 * Num(d[..|d| - 1]) + d[|d| - 1]
  }

  function DigitsOf(s: seq<Byte>, i: nat, j: nat): (d: seq<nat>)
    requires i <= j <= |s| && AllDigits(s, i, j)
    ensures |d| == j - i && AreDigits(d)
  {
    seq(j - i, k requires 0 <= k < j - i => s[i + k] - ZERO)
  }

  /** A literal and where its parts are cut. */
  datatype Cut = Cut(s: seq<Byte>, a: nat, b: nat, c: nat)

  predicate IsCut(l: Cut) { NumberAt(l.s, 0, l.a, l.b, l.c, |l.s|) }

  function Mantissa(l: Cut): (d: seq<nat>)
    requires IsCut(l)
    ensures AreDigits(d) && 0 < |d| <= |l.s|
  {
    DigitsOf(l.s, l.a, l.b) + (if l.b == l.c then [] else DigitsOf(l.s, l.b + 1, l.c))
  }

  function Fraction(l: Cut): (f: nat)
    requires IsCut(l)
    ensures f < |l.s|
  {
    if l.b == l.c then 0 else l.c - l.b - 1
  }

  predicate NegativeExponent(l: Cut)
    requires IsCut(l)
  {
    l.c < |l.s| && l.s[l.c + 1] == MINUS
  }

  function Exponent(l: Cut): int
    requires IsCut(l)
  {
    if l.c == |l.s| then 0
    else
      var size: int := Value(l.s, ExponentDigits(l.s, l.c, |l.s|), |l.s|);
      if NegativeExponent(l) then -size else size
  }

  function Signed(l: Cut, n: int): int { if l.a == 1 then -n else n }

  /** The number with so many zeros after it. */
  function Scaled(n: int, k: int): int { n * Pow10(if k > 0 then k else 0) }

  /** The literal's value is the fraction Numerator / Denominator. */
  function Numerator(l: Cut): int
    requires IsCut(l)
  {
    Signed(l, Scaled(Num(Mantissa(l)), Exponent(l) - Fraction(l)))
  }

  function Denominator(l: Cut): (q: nat)
    requires IsCut(l)
    ensures 1 <= q
  {
    var down := Fraction(l) - Exponent(l);
    Pow10(if down > 0 then down else 0)
  }

  /** The literal's exact value is the integer n. */
  ghost predicate Denotes(l: Cut, n: int)
    requires IsCut(l)
  {
    n * Denominator(l) == Numerator(l)
  }

  /** Normalisation by exact fractions: an integer that fits in 64 bits, or the literal left alone. */
  function Normalized(l: Cut): Option<int>
    requires IsCut(l)
  {
    var p, q := Numerator(l), Denominator(l);
    if p % q == 0 && MIN_INT64 <= p / q <= MAX_INT64 then Some(p / q) else None
  }

  lemma NormalizedIsExact(l: Cut, n: int)
    requires IsCut(l)
    ensures Normalized(l) == Some(n) <==> Denotes(l, n) && MIN_INT64 <= n <= MAX_INT64
  {
    var p, q := Numerator(l), Denominator(l);
    hide Numerator, Denominator;
    DivisionIsExact(p, q, n);
  }

  lemma DivisionIsExact(p: int, q: int, n: int)
    requires 1 <= q
    ensures p % q == 0 && p / q == n <==> n * q == p
  {
    assert p == q * (p / q) + p % q;
    if n * q == p {
      ProductDivides(n, p / q, p % q, q);
    }
  }

  lemma ProductDivides(n: int, d: int, m: int, q: int)
    requires 1 <= q && 0 <= m < q && n * q == q * d + m
    ensures n == d && m == 0
  {
    assert (n - d) * q == m;
    if n - d >= 1 { Times(1, n - d, q); }
    if n - d <= -1 { Times(n - d, -1, q); }
  }

  lemma Times(x: int, y: int, q: nat)
    requires x <= y
    ensures x * q <= y * q
  {
  }

  // ----- digits and powers

  lemma {:induction false} NumBound(d: seq<nat>)
    requires AreDigits(d)
    ensures Num(d) < Pow10(|d|)
    decreases |d|
  {
    if d != [] { NumBound(d[..|d| - 1]); }
  }

  lemma ScaledBy(n: int, k: int)
    ensures k <= 0 ==> Scaled(n, k) == n
    ensures 0 <= k ==> Scaled(n, k + 1) == 10 * Scaled(n, k)
  {
    if 0 <= k { assert n * (10 * Pow10(k)) == 10 * (n * Pow10(k)); }
  }

  lemma {:induction false} NumConcat(x: seq<nat>, y: seq<nat>)
    ensures Num(x + y) == Scaled(Num(x), |y|) + Num(y)
    decreases |y|
  {
    hide Scaled, Pow10;
    ScaledBy(Num(x), |y| - 1);
    ScaledBy(Num(x), |y|);
    if y == [] {
      assert x + y == x;
    } else {
      var z := y[..|y| - 1];
      NumConcat(x, z);
      assert (x + y)[..|x + y| - 1] == x + z;
    }
  }

  function Zeros(k: nat): (z: seq<nat>)
    ensures |z| == k && forall i :: 0 <= i < k ==> z[i] == 0
  {
    seq(k, _ => 0)
  }

  lemma {:induction false} NumZeros(d: seq<nat>)
    ensures Num(d) == 0 <==> forall i :: 0 <= i < |d| ==> d[i] == 0
    decreases |d|
  {
    if d != [] {
      NumZeros(d[..|d| - 1]);
      assert forall i :: 0 <= i < |d| - 1 ==> d[i] == d[..|d| - 1][i];
    }
  }

  lemma {:induction false} PowGrows(m: nat, n: nat)
    requires m <= n
    ensures Pow10(m) <= Pow10(n)
    decreases n - m
  {
    if m < n { PowGrows(m, n - 1); }
  }

  lemma {:induction false} PowAdds(m: nat, n: nat)
    ensures Pow10(m + n) == Pow10(m) * Pow10(n)
    decreases m
  {
    if m > 0 {
      PowAdds(m - 1, n);
      assert 10 * (Pow10(m - 1) * Pow10(n)) == 10 * Pow10(m - 1) * Pow10(n);
    }
  }

  /** A number without a leading zero is as large as its length says. */
  lemma NumAtLeast(d: seq<nat>)
    requires 0 < |d| && d[0] != 0
    ensures Pow10(|d| - 1) <= Num(d)
  {
    NumConcat(d[..1], d[1..]);
    assert d[..1] + d[1..] == d;
    assert d[..1][..0] == [];
    assert Num(d[..1]) == d[0];
    Times(1, d[0], Pow10(|d| - 1));
  }

  lemma ScaledMultiple(n: int, x: int, y: int, k: nat)
    requires 0 <= y < Pow10(k)
    ensures Scaled(n, k) == Scaled(x, k) + y <==> y == 0 && n == x
  {
    hide Pow10;
    if Scaled(n, k) == Scaled(x, k) + y { ProductDivides(n, x, y, Pow10(k)); }
  }

  /** Dropping k last digits divides by 10^k exactly when they are all zeros. */
  lemma DropsExactly(d: seq<nat>, k: nat, n: int)
    requires AreDigits(d) && k <= |d|
    ensures Scaled(n, k) == Num(d) <==> Num(d[|d| - k..]) == 0 && n == Num(d[..|d| - k])
  {
    hide Num, Pow10, Scaled;
    var x, y := d[..|d| - k], d[|d| - k..];
    assert x + y == d;
    NumConcat(x, y);
    assert AreDigits(y);
    NumBound(y);
    ScaledMultiple(n, Num(x), Num(y), k);
  }

  /** A number with fewer digits than that is no multiple. */
  lemma TooShort(d: seq<nat>, k: nat, n: int)
    requires AreDigits(d) && |d| <= k && 0 < Num(d)
    ensures Scaled(n, k) != Num(d)
  {
    hide Num, Pow10;
    NumBound(d);
    PowGrows(|d|, k);
    if n <= 0 { Times(n, 0, Pow10(k)); } else { Times(1, n, Pow10(k)); }
  }

  /** With this many digits and zeros it is beyond the safe range. */
  lemma TooLarge(d: seq<nat>, k: nat)
    requires 0 < |d| && d[0] != 0 && |d| + k > 16
    ensures Scaled(Num(d), k) > MAX_SAFE
  {
    hide Num, Pow10;
    NumAtLeast(d);
    PowAdds(|d| - 1, k);
    PowGrows(16, |d| - 1 + k);
    SixteenZeros();
    Times(Pow10(|d| - 1), Num(d), Pow10(k));
  }

  lemma SixteenZeros()
    ensures Pow10(16) == 10_000_000_000_000_000
  {
    assert Pow10(4) == 10_000;
    PowAdds(4, 4);
    PowAdds(8, 8);
  }

  function Precedes(x: seq<nat>, y: seq<nat>): bool {
    if y == [] then false
    else if x == [] then true
    else if x[0] != y[0] then x[0] < y[0]
    else Precedes(x[1..], y[1..])
  }

  /** Between numbers of the same length the order of their digits is the order of their values. */
  lemma {:induction false} PrecedesIsLess(x: seq<nat>, y: seq<nat>)
    requires |x| == |y| && AreDigits(x) && AreDigits(y)
    ensures Precedes(x, y) <==> Num(x) < Num(y)
    decreases |x|
  {
    hide Num, Pow10, Scaled;
    if x == [] {
      assert Num(x) == Num(y);
    } else {
      NumFront(x);
      NumFront(y);
      NumBound(x[1..]);
      NumBound(y[1..]);
      PrecedesIsLess(x[1..], y[1..]);
      LeadingDecides(x[0], y[0], Num(x[1..]), Num(y[1..]), |x| - 1);
    }
  }

  lemma LeadingDecides(x: nat, y: nat, m: nat, n: nat, k: nat)
    requires m < Pow10(k) && n < Pow10(k)
    ensures Scaled(x, k) + m < Scaled(y, k) + n <==> x < y || (x == y && m < n)
  {
    hide Pow10;
    if x < y { Times(x + 1, y, Pow10(k)); }
    if y < x { Times(y + 1, x, Pow10(k)); }
  }

  lemma NumFront(d: seq<nat>)
    requires 0 < |d|
    ensures Num(d) == Scaled(d[0], |d| - 1) + Num(d[1..])
  {
    NumConcat(d[..1], d[1..]);
    assert d[..1] + d[1..] == d;
    assert d[..1][..0] == [];
  }

  lemma MaxSafeDigits()
    ensures Num(MAX_SAFE_DIGITS) == MAX_SAFE && AreDigits(MAX_SAFE_DIGITS)
  {
    var d := MAX_SAFE_DIGITS;
    assert d[..4] == [9, 0, 0, 7] && d[4..8] == [1, 9, 9, 2] && d[8..12] == [5, 4, 7, 4] && d[12..] == [0, 9, 9, 1];
    FourDigits(d[..4]); FourDigits(d[4..8]); FourDigits(d[8..12]); FourDigits(d[12..]);
    hide Num, Pow10, Scaled;
    TenThousandTimes(Num(d[..4]));
    TenThousandTimes(Num(d[..4] + d[4..8]));
    TenThousandTimes(Num(d[..4] + d[4..8] + d[8..12]));
    NumConcat(d[..4], d[4..8]);
    NumConcat(d[..4] + d[4..8], d[8..12]);
    NumConcat(d[..4] + d[4..8] + d[8..12], d[12..]);
    assert d[..4] + d[4..8] + d[8..12] + d[12..] == d;
  }

  lemma TenThousandTimes(n: int)
    ensures Scaled(n, 4) == 10_000 * n
  {
    assert Pow10(4) == 10_000;
  }

  lemma FourDigits(d: seq<nat>)
    requires |d| == 4
    ensures Num(d) == 1000 * d[0] + 100 * d[1] + 10 * d[2] + d[3]
  {
    assert d[..3][..2] == d[..2] && d[..2][..1] == d[..1] && d[..1][..0] == [];
    assert Num(d[..1]) == d[0];
    assert Num(d[..2]) == 10 * Num(d[..1]) + d[1];
    assert Num(d[..3]) == 10 * Num(d[..2]) + d[2];
  }

  // ----- the controller's arithmetic

  /** The limit at which the controller stops counting an exponent. */
  function Clamp(l: Cut): (limit: nat) { |l.s| + 32 }

  /** An exponent cut off at the limit is far enough out to decide the answer just the same. */
  predicate Clamped(exact: int, counted: int, limit: int) {
    if exact >= limit then counted == limit
    else if exact <= -limit then counted == -limit
    else counted == exact
  }

  /** The mantissa without its leading zeros, and the scale to apply to it. */
  ghost predicate Prepared(l: Cut, digits: seq<nat>, scale: int)
    requires IsCut(l)
  {
    && AreDigits(digits) && 0 < |digits| <= |l.s| && digits[0] != 0 && Num(digits) == Num(Mantissa(l))
    && Clamped(Exponent(l), Fraction(l) - scale, Clamp(l))
  }

  lemma NumPositive(digits: seq<nat>)
    requires 0 < |digits| && digits[0] != 0
    ensures 0 < Num(digits)
  {
    NumZeros(digits);
  }

  lemma DenominatorScales(l: Cut, n: int)
    requires IsCut(l)
    ensures n * Denominator(l) == Scaled(n, Fraction(l) - Exponent(l))
  {
    hide Pow10, Exponent, Fraction;
  }

  /** What the literal denotes, up to its sign. */
  lemma DenotesMagnitude(l: Cut, digits: seq<nat>, scale: int, n: int)
    requires IsCut(l) && Prepared(l, digits, scale)
    ensures var point := Fraction(l) - Exponent(l);
            Denotes(l, n) <==> Scaled(Signed(l, n), point) == Scaled(Num(digits), -point)
  {
    hide Num, Pow10, Scaled, Denominator, Exponent, Fraction, Mantissa, Clamped, AreDigits;
    DenominatorScales(l, n);
    DenominatorScales(l, -n);
    assert (-n) * Denominator(l) == -(n * Denominator(l));
  }

  /** A positive scale: the literal is an integer exactly when the digits after the point are zeros. */
  lemma ScaledDown(l: Cut, digits: seq<nat>, scale: int, n: int)
    requires IsCut(l) && Prepared(l, digits, scale) && scale > 0
    ensures Denotes(l, n) <==>
              && scale <= |digits| && Num(digits[|digits| - scale..]) == 0
                 && Signed(l, n) == Num(digits[..|digits| - scale])
  {
    hide Num, Pow10, Denotes, Exponent, Scaled;
    var point := Fraction(l) - Exponent(l);
    DenotesMagnitude(l, digits, scale, n);
    NumPositive(digits);
    ScaledBy(Num(digits), -point);
    assert scale <= point && (scale < point ==> |digits| < scale);
    if |digits| < point {
      TooShort(digits, point, Signed(l, n));
    } else {
      DropsExactly(digits, scale, Signed(l, n));
    }
  }

  /** A scale that is not positive: the literal is an integer, and beyond the safe range if it has too
      many digits. */
  lemma ScaledUp(l: Cut, digits: seq<nat>, scale: int, n: int)
    requires IsCut(l) && Prepared(l, digits, scale) && scale <= 0
    ensures |digits| - scale <= 16 ==> (Denotes(l, n) <==> Signed(l, n) == Scaled(Num(digits), -scale))
    ensures |digits| - scale > 16 && Denotes(l, n) ==> !(-MAX_SAFE <= n <= MAX_SAFE)
  {
    hide Num, Pow10, Denotes, Exponent, Scaled;
    var point := Fraction(l) - Exponent(l);
    DenotesMagnitude(l, digits, scale, n);
    ScaledBy(Signed(l, n), point);
    assert point <= scale && (point < scale ==> |digits| - scale > 16);
    if |digits| - scale > 16 { TooLarge(digits, -point); }
  }

  predicate AllZeros(d: seq<nat>) { forall i :: 0 <= i < |d| ==> d[i] == 0 }

  /** The digits write the magnitude of whatever integer the literal denotes. */
  ghost predicate IsMagnitude(l: Cut, digits: seq<nat>)
    requires IsCut(l)
  {
    && AreDigits(digits) && 0 < |digits| && digits[0] != 0
    && forall n :: Denotes(l, n) <==> Signed(l, n) == Num(digits)
  }

  lemma DownIsMagnitude(l: Cut, digits: seq<nat>, scale: int)
    requires IsCut(l) && Prepared(l, digits, scale) && scale > 0
    ensures if scale <= |digits| && AllZeros(digits[|digits| - scale..]) then IsMagnitude(l, digits[..|digits| - scale])
            else forall n :: !Denotes(l, n)
  {
    hide Denotes;
    forall n ensures Denotes(l, n) <==>
        scale <= |digits| && Num(digits[|digits| - scale..]) == 0 && Signed(l, n) == Num(digits[..|digits| - scale])
    {
      ScaledDown(l, digits, scale, n);
    }
    if scale <= |digits| { NumZeros(digits[|digits| - scale..]); }
    if scale == |digits| { assert digits[|digits| - scale..][0] != 0; }
  }

  lemma UpIsMagnitude(l: Cut, digits: seq<nat>, scale: int)
    requires IsCut(l) && Prepared(l, digits, scale) && scale <= 0
    ensures if |digits| - scale <= 16 then IsMagnitude(l, digits + Zeros(-scale))
            else forall n :: -MAX_SAFE <= n <= MAX_SAFE ==> !Denotes(l, n)
  {
    hide Denotes, Num, Scaled;
    NumConcat(digits, Zeros(-scale));
    NumZeros(Zeros(-scale));
    forall n
      ensures |digits| - scale <= 16 ==> (Denotes(l, n) <==> Signed(l, n) == Scaled(Num(digits), -scale))
      ensures |digits| - scale > 16 && Denotes(l, n) ==> !(-MAX_SAFE <= n <= MAX_SAFE)
    {
      ScaledUp(l, digits, scale, n);
    }
  }

  /** By length first and then digit by digit: within the safe range or not. */
  lemma SafeIsCompared(digits: seq<nat>)
    requires AreDigits(digits) && 0 < |digits| && digits[0] != 0
    ensures Num(digits) <= MAX_SAFE
            <==> |digits| < |MAX_SAFE_DIGITS| || (|digits| == |MAX_SAFE_DIGITS| && !Precedes(MAX_SAFE_DIGITS, digits))
  {
    MaxSafeDigits();
    if |digits| < 16 {
      NumBound(digits);
      NumFront(MAX_SAFE_DIGITS);
      PowGrows(|digits|, 15);
      assert Pow10(15) <= MAX_SAFE by { SixteenZeros(); assert Pow10(16) == 10 * Pow10(15); }
    } else if |digits| == 16 {
      PrecedesIsLess(MAX_SAFE_DIGITS, digits);
    } else {
      assert Pow10(0) == 1;
      TooLarge(digits, 0);
    }
  }

  lemma SignIsRead(l: Cut)
    requires IsCut(l)
    ensures 0 < |l.s| && (l.s[0] == MINUS <==> l.a == 1)
  {
  }

  lemma ZeroDenotes(l: Cut)
    requires IsCut(l) && Num(Mantissa(l)) == 0
    ensures Denotes(l, 0)
  {
  }

  /** Leading zeros count for nothing. */
  lemma LeadingZeros(digits: seq<nat>, k: nat)
    requires k <= |digits| && AllZeros(digits[..k])
    ensures Num(digits[k..]) == Num(digits)
  {
    hide Num, Pow10;
    assert digits[..k] + digits[k..] == digits;
    NumConcat(digits[..k], digits[k..]);
    NumZeros(digits[..k]);
  }

  lemma NumOneMore(digits: seq<nat>, i: nat)
    requires i < |digits|
    ensures Num(digits[..i + 1]) == 10 * Num(digits[..i]) + digits[i]
  {
    assert digits[..i + 1][..i] == digits[..i];
  }

  lemma DigitsOfMore(s: seq<Byte>, i: nat, j: nat)
    requires i <= j < |s| && AllDigits(s, i, j + 1)
    ensures DigitsOf(s, i, j + 1) == DigitsOf(s, i, j) + [s[j] - ZERO]
  {
  }

  /** The digits of the mantissa in one row, and how many of them follow the point. */
  method CollectDigits(l: Cut) returns (digits: seq<nat>, fractionalDigits: nat)
    requires IsCut(l)
    ensures digits == Mantissa(l) && fractionalDigits == Fraction(l)
  {
    hide DigitsOf, ExponentMark, AreDigits, ExpAt;
    MarkIsExponent(l.s, 0, l.a, l.b, l.c, |l.s|);
    var exponentIndex := ExponentMark(l.s, 0, |l.s|);
    digits, fractionalDigits := [], 0;
    var afterDecimal := false;
    for i := l.a to exponentIndex
      invariant afterDecimal <==> l.b < i
      invariant i <= l.b ==> AllDigits(l.s, l.a, i) && digits == DigitsOf(l.s, l.a, i) && fractionalDigits == 0
      invariant l.b < i ==> AllDigits(l.s, l.b + 1, i) && digits == DigitsOf(l.s, l.a, l.b) + DigitsOf(l.s, l.b + 1, i)
                            && fractionalDigits == i - l.b - 1
    {
      var byte := l.s[i];
      if byte == DOT {
        afterDecimal := true;
      } else {
        DigitsOfMore(l.s, if i < l.b then l.a else l.b + 1, i);
        digits := digits + [byte - ZERO];
        if afterDecimal { fractionalDigits := fractionalDigits + 1; }
      }
    }
  }

  /** The exponent, counted no further than the limit. */
  method CountExponent(l: Cut) returns (exponent: int)
    requires IsCut(l)
    ensures Clamped(Exponent(l), exponent, Clamp(l))
  {
    hide ExponentMark, IntAt, FracAt;
    MarkIsExponent(l.s, 0, l.a, l.b, l.c, |l.s|);
    var exponentIndex := ExponentMark(l.s, 0, |l.s|);
    exponent := 0;
    if exponentIndex < |l.s| {
      var index := exponentIndex + 1;
      var exponentNegative := index < |l.s| && l.s[index] == MINUS;
      if exponentNegative || (index < |l.s| && l.s[index] == PLUS) { index := index + 1; }
      var limit := |l.s| + 32;
      ghost var from := index;
      assert AllDigits(l.s, from, |l.s|);
      while index < |l.s|
        invariant from <= index <= |l.s| && from == ExponentDigits(l.s, l.c, |l.s|)
        invariant AllDigits(l.s, from, |l.s|)
        invariant exponent == var exact := Value(l.s, from, index); if exact < limit then exact else limit
      {
        if exponent < limit {
          exponent := exponent * 10 + (l.s[index] - ZERO);
          if exponent > limit { exponent := limit; }
        }
        index := index + 1;
      }
      if exponentNegative { exponent := -exponent; }
    }
  }

  /** The exact integer of a literal, if it is one in the safe range. */
  method ExactSafeInt64(l: Cut) returns (r: Option<int>)
    requires IsCut(l)
    ensures r.Some? ==> Denotes(l, r.value) && -MAX_SAFE <= r.value <= MAX_SAFE
    ensures r.None? ==> forall n :: -MAX_SAFE <= n <= MAX_SAFE ==> !Denotes(l, n)
  {
    hide Num, Pow10, Value, Mantissa, Denotes, Exponent, AreDigits;
    SignIsRead(l);
    var negative := l.s[0] == MINUS;
    var digits, fractionalDigits := CollectDigits(l);
    var firstNonzero := 0;
    while firstNonzero < |digits| && digits[firstNonzero] == 0
      invariant firstNonzero <= |digits| && AllZeros(digits[..firstNonzero])
    {
      firstNonzero := firstNonzero + 1;
    }
    LeadingZeros(digits, firstNonzero);
    if firstNonzero == |digits| {
      NumZeros(digits[firstNonzero..]);
      ZeroDenotes(l);
      return Some(0);
    }
    DigitsOfRest(digits, firstNonzero);
    digits := digits[firstNonzero..];
    var exponent := CountExponent(l);
    var scale := fractionalDigits - exponent;
    assert Prepared(l, digits, scale);
    hide Prepared, Clamped;
    if scale > 0 {
      DownIsMagnitude(l, digits, scale);
      if !(scale <= |digits| && AllZeros(digits[|digits| - scale..])) {
        return None;
      }
      digits := digits[..|digits| - scale];
    } else {
      UpIsMagnitude(l, digits, scale);
      if |digits| - scale > 16 {
        return None;
      }
      digits := digits + Zeros(-scale);
    }
    if |digits| == 0 {
      assert false;
    }
    var maximum := MAX_SAFE_DIGITS;
    SafeIsCompared(digits);
    if !(|digits| < |maximum| || (|digits| == |maximum| && !Precedes(maximum, digits))) {
      return None;
    }
    var result: int := 0;
    assert digits[..0] == [];
    NumZeros([]);
    for i := 0 to |digits|
      invariant result == Num(digits[..i])
    {
      NumOneMore(digits, i);
      result := result * 10 + digits[i];
    }
    assert digits[..|digits|] == digits;
    return Some(if negative then -result else result);
  }

  lemma DigitsOfRest(digits: seq<nat>, k: nat)
    requires AreDigits(digits) && k <= |digits|
    ensures AreDigits(digits[k..])
  {
  }

  /** Both sides read the same integer off every literal within the safe range. */
  method BothSidesAgree(l: Cut) returns (controller: Option<int>, companion: Option<int>)
    requires IsCut(l)
    ensures companion == Normalized(l)
    ensures forall n :: -MAX_SAFE <= n <= MAX_SAFE ==> (controller == Some(n) <==> companion == Some(n))
  {
    hide Denotes, Normalized;
    controller := ExactSafeInt64(l);
    companion := Normalized(l);
    forall n: int ensures Normalized(l) == Some(n) <==> Denotes(l, n) && MIN_INT64 <= n <= MAX_INT64 {
      NormalizedIsExact(l, n);
    }
    forall n: int, m: int | Denotes(l, n) && Denotes(l, m) ensures n == m { OneValue(l, n, m); }
  }

  lemma OneValue(l: Cut, n: int, m: int)
    requires IsCut(l) && Denotes(l, n) && Denotes(l, m)
    ensures n == m
  {
    DivisionIsExact(Numerator(l), Denominator(l), n);
    DivisionIsExact(Numerator(l), Denominator(l), m);
  }
}
