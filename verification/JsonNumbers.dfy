/** JSON number literals (section 6 of RFC 8259): where one ends, and how long and how large it may be. */
module JsonNumbers {
  import opened Records

  type Byte = b: nat | b < 256

  const QUOTE: Byte := 0x22
  const PLUS: Byte := 0x2b
  const MINUS: Byte := 0x2d
  const DOT: Byte := 0x2e
  const ZERO: Byte := 0x30
  const BACKSLASH: Byte := 0x5c

  predicate Digit(b: Byte) { 0x30 <= b <= 0x39 }

  predicate IsE(b: Byte) { b == 0x65 || b == 0x45 }

  predicate IsSign(b: Byte) { b == PLUS || b == MINUS }

  // ----- the grammar

  predicate AllDigits(s: seq<Byte>, i: nat, j: nat)
    requires j <= |s|
  {
    forall k :: i <= k < j ==> Digit(s[k])
  }

  /** int = zero / ( digit1-9 *DIGIT ) */
  predicate IntAt(s: seq<Byte>, i: nat, j: nat) {
    && i < j <= |s|
    && ((s[i] == ZERO && j == i + 1) || (0x31 <= s[i] <= 0x39 && AllDigits(s, i, j)))
  }

  /** frac = decimal-point 1*DIGIT */
  predicate FracAt(s: seq<Byte>, i: nat, j: nat) {
    i + 1 < j <= |s| && s[i] == DOT && AllDigits(s, i + 1, j)
  }

  /** exp = e [ minus / plus ] 1*DIGIT */
  predicate ExpAt(s: seq<Byte>, i: nat, j: nat) {
    && i + 1 < j <= |s| && IsE(s[i])
    && (AllDigits(s, i + 1, j) || (i + 2 < j && IsSign(s[i + 1]) && AllDigits(s, i + 2, j)))
  }

  /** number = [ minus ] int [ frac ] [ exp ], from `start` to `end`, cut at a, b and c. */
  predicate NumberAt(s: seq<Byte>, start: nat, a: nat, b: nat, c: nat, end: nat) {
    && start <= a <= b <= c <= end <= |s|
    && (a == start || (a == start + 1 && s[start] == MINUS))
    && IntAt(s, a, b)
    && (b == c || FracAt(s, b, c))
    && (c == end || ExpAt(s, c, end))
  }

  ghost predicate IsNumber(s: seq<Byte>) {
    exists a: nat, b: nat, c: nat :: NumberAt(s, 0, a, b, c, |s|)
  }

  lemma NumberInside(s: seq<Byte>, start: nat, a: nat, b: nat, c: nat, end: nat)
    requires NumberAt(s, start, a, b, c, end)
    ensures NumberAt(s[start..end], 0, a - start, b - start, c - start, end - start)
  {
  }

  lemma NumberOutside(s: seq<Byte>, start: nat, end: nat, a: nat, b: nat, c: nat)
    requires start <= end <= |s| && NumberAt(s[start..end], 0, a, b, c, end - start)
    ensures NumberAt(s, start, start + a, start + b, start + c, end)
  {
    var t := s[start..end];
    assert forall k :: 0 <= k < |t| ==> s[start + k] == t[k];
    forall k | start <= k < end ensures s[k] == t[k - start] {}
  }

  // ----- the scan, greedily

  function DigitsEnd(s: seq<Byte>, i: nat): (j: nat)
    requires i <= |s|
    ensures i <= j <= |s| && AllDigits(s, i, j) && (j < |s| ==> !Digit(s[j]))
    decreases |s| - i
  {
    if i < |s| && Digit(s[i]) then DigitsEnd(s, i + 1) else i
  }

  function IntEnd(s: seq<Byte>, i: nat): Option<nat> {
    if i < |s| && s[i] == ZERO then Some(i + 1)
    else if i < |s| && 0x31 <= s[i] <= 0x39 then Some(DigitsEnd(s, i))
    else None
  }

  function FracEnd(s: seq<Byte>, i: nat): (j: nat)
    requires i <= |s|
    ensures i <= j <= |s|
  {
    if i + 1 < |s| && s[i] == DOT && Digit(s[i + 1]) then DigitsEnd(s, i + 1) else i
  }

  function ExpEnd(s: seq<Byte>, i: nat): (j: nat)
    requires i <= |s|
    ensures i <= j <= |s|
  {
    if i < |s| && IsE(s[i]) then
      var k := if i + 1 < |s| && IsSign(s[i + 1]) then i + 2 else i + 1;
      if k < |s| && Digit(s[k]) then DigitsEnd(s, k) else i
    else i
  }

  function NumberEnd(s: seq<Byte>, start: nat): (r: Option<nat>)
    requires start < |s|
    ensures r.Some? ==> start < r.value <= |s|
  {
    var a := if s[start] == MINUS then start + 1 else start;
    match IntEnd(s, a)
    case None => None
    case Some(b) => Some(ExpEnd(s, FracEnd(s, b)))
  }

  /** What the scan finds is a number. */
  lemma ScanIsNumber(s: seq<Byte>, start: nat)
    requires start < |s| && NumberEnd(s, start).Some?
    ensures IsNumber(s[start..NumberEnd(s, start).value])
  {
    var a := if s[start] == MINUS then start + 1 else start;
    var b := IntEnd(s, a).value;
    var c := FracEnd(s, b);
    var end := ExpEnd(s, c);
    assert s[a] != ZERO ==> Digit(s[a]) && a < DigitsEnd(s, a);
    assert NumberAt(s, start, a, b, c, end);
    NumberInside(s, start, a, b, c, end);
  }

  /** No number that starts here goes further than the scan. */
  lemma ScanIsLongest(s: seq<Byte>, start: nat, a: nat, b: nat, c: nat, end: nat)
    requires start < |s| && NumberAt(s, start, a, b, c, end)
    ensures NumberEnd(s, start).Some? && end <= NumberEnd(s, start).value
  {
    assert Digit(s[a]);
    assert a == if s[start] == MINUS then start + 1 else start;
    var g1 := IntEnd(s, a).value;
    assert b <= g1 && (b < g1 ==> Digit(s[b]));
    if b == g1 {
      var g2 := FracEnd(s, g1);
      assert c <= g2 && (c < g2 ==> s[c] == DOT || Digit(s[c]));
      if c == g2 {
        assert c < end ==> IsE(s[c]);
      }
    }
  }

  lemma NumbersEndBefore(s: seq<Byte>, start: nat, end: nat)
    requires start < |s| && start <= end <= |s| && IsNumber(s[start..end])
    ensures NumberEnd(s, start).Some? && end <= NumberEnd(s, start).value
  {
    var a: nat, b: nat, c: nat :| NumberAt(s[start..end], 0, a, b, c, |s[start..end]|);
    hide NumberAt, NumberEnd;
    NumberOutside(s, start, end, a, b, c);
    ScanIsLongest(s, start, start + a, start + b, start + c, end);
  }

  /** The scan finds the longest prefix that the grammar accepts, or reports that there is none. */
  lemma NumberEndIsLongest(s: seq<Byte>, start: nat)
    requires start < |s|
    ensures NumberEnd(s, start).Some? ==>
              && IsNumber(s[start..NumberEnd(s, start).value])
              && forall end :: NumberEnd(s, start).value < end <= |s| ==> !IsNumber(s[start..end])
    ensures NumberEnd(s, start).None? ==> forall end :: start <= end <= |s| ==> !IsNumber(s[start..end])
  {
    hide NumberEnd, IsNumber;
    if NumberEnd(s, start).Some? { ScanIsNumber(s, start); }
    forall end | start <= end <= |s| && IsNumber(s[start..end])
      ensures NumberEnd(s, start).Some? && end <= NumberEnd(s, start).value
    {
      NumbersEndBefore(s, start, end);
    }
  }

  /** The scanner itself. */
  method ScanNumber(input: seq<Byte>, start: nat) returns (r: Option<nat>)
    requires start < |input|
    ensures r == NumberEnd(input, start)
  {
    hide AllDigits, DigitsEnd;
    var index := start;
    if input[index] == MINUS {
      index := index + 1;
      if index >= |input| { return None; }
    }
    if input[index] == ZERO {
      index := index + 1;
    } else {
      if !(0x31 <= input[index] <= 0x39) { return None; }
      index := SkipDigits(input, index);
    }
    if index < |input| && input[index] == DOT {
      var fractionStart := index + 1;
      if !(fractionStart < |input| && Digit(input[fractionStart])) {
        return Some(index);
      }
      index := SkipDigits(input, fractionStart);
    }
    if index < |input| && IsE(input[index]) {
      var exponentStart := index;
      index := index + 1;
      if index < |input| && IsSign(input[index]) { index := index + 1; }
      if !(index < |input| && Digit(input[index])) {
        return Some(exponentStart);
      }
      index := SkipDigits(input, index);
    }
    return Some(index);
  }

  method SkipDigits(input: seq<Byte>, start: nat) returns (index: nat)
    requires start < |input| && Digit(input[start])
    ensures index == DigitsEnd(input, start)
  {
    index := start + 1;
    while index < |input| && Digit(input[index])
      invariant start < index <= |input| && DigitsEnd(input, start) == DigitsEnd(input, index)
    {
      index := index + 1;
    }
  }

  // ----- limits

  const MAX_NUMBER_BYTES := 128
  const MAX_EXPONENT := 4_096

  /** The number that a run of digits writes, most significant first. */
  function Value(s: seq<Byte>, i: nat, j: nat): nat
    requires i <= j <= |s| && AllDigits(s, i, j)
    decreases j - i
  {
    if i == j then 0 else 10 * Value(s, i, j - 1) + (s[j - 1] - ZERO)
  }

  lemma {:induction false} ValueGrows(s: seq<Byte>, i: nat, j: nat, k: nat)
    requires i <= j <= k <= |s| && AllDigits(s, i, k)
    ensures Value(s, i, j) <= Value(s, i, k)
    decreases k - j
  {
    if j < k { ValueGrows(s, i, j, k - 1); }
  }

  /** The first exponent marker of a literal, or its end. */
  function ExponentMark(s: seq<Byte>, i: nat, end: nat): (m: nat)
    requires i <= end <= |s|
    ensures i <= m <= end && (m < end ==> IsE(s[m])) && forall k :: i <= k < m ==> !IsE(s[k])
    decreases end - i
  {
    if i == end || IsE(s[i]) then i else ExponentMark(s, i + 1, end)
  }

  /** In a number the exponent, if there is one, starts at the first marker. */
  lemma MarkIsExponent(s: seq<Byte>, start: nat, a: nat, b: nat, c: nat, end: nat)
    requires NumberAt(s, start, a, b, c, end)
    ensures ExponentMark(s, start, end) == c
  {
  }

  /** How far the exponent part of a literal moves its point: the sign's place and the digits' start. */
  function ExponentDigits(s: seq<Byte>, mark: nat, end: nat): (k: nat)
    requires mark < end <= |s|
    ensures mark < k <= end
  {
    if mark + 1 < end && IsSign(s[mark + 1]) then mark + 2 else mark + 1
  }

  /** Both sides refuse a literal of more than 128 bytes or with an exponent beyond 4096 either way. */
  ghost predicate WithinLimits(s: seq<Byte>, start: nat, c: nat, end: nat)
    requires start <= c <= end <= |s| && (c == end || ExpAt(s, c, end))
  {
    && end - start <= 128
    && (c < end ==> Value(s, ExponentDigits(s, c, end), end) <= 4_096)
  }

  method NumberWithinLimits(input: seq<Byte>, start: nat, end: nat, ghost a: nat, ghost b: nat, ghost c: nat)
      returns (ok: bool)
    requires NumberAt(input, start, a, b, c, end)
    ensures ok <==> WithinLimits(input, start, c, end)
  {
    if end - start > MAX_NUMBER_BYTES { return false; }
    MarkIsExponent(input, start, a, b, c, end);
    var marker := ExponentMark(input, start, end);
    if marker == end { return true; }
    var index := marker + 1;
    if index < end && IsSign(input[index]) { index := index + 1; }
    var exponent := 0;
    ghost var from := index;
    while index < end
      invariant from <= index <= end && from == ExponentDigits(input, c, end)
      invariant AllDigits(input, from, end) && exponent == Value(input, from, index) <= MAX_EXPONENT
    {
      exponent := exponent * 10 + (input[index] - ZERO);
      index := index + 1;
      if exponent > MAX_EXPONENT {
        ValueGrows(input, from, index, end);
        return false;
      }
    }
    return true;
  }
}
