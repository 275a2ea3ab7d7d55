/** Numbers are kept exact by turning each number literal into a marked string before decoding. */
module JsonMarking {
  import opened Records
  import opened JsonNumbers

  /** Where a scan stands: outside strings, inside one, or just after a backslash in one. */
  datatype Place = Outside | Inside | Escaped

  function After(place: Place, b: Byte): Place {
    match place
    case Outside => if b == QUOTE then Inside else Outside
    case Inside => if b == BACKSLASH then Escaped else if b == QUOTE then Outside else Inside
    case Escaped => Inside
  }

  /** A document as the scan cuts it up: bytes that are copied, and number literals outside strings. */
  datatype JsonToken = Copied(b: Byte) | Literal(bytes: seq<Byte>)

  predicate StartsNumber(input: seq<Byte>, i: nat)
    requires i < |input|
  {
    (input[i] == MINUS || Digit(input[i])) && NumberEnd(input, i).Some?
  }

  predicate LiteralWithinLimits(s: seq<Byte>) {
    && |s| <= 128
    && var mark := ExponentMark(s, 0, |s|);
    && (mark < |s| ==>
          var k := ExponentDigits(s, mark, |s|);
          AllDigits(s, k, |s|) && Value(s, k, |s|) <= 4_096)
  }

  function Tokens(input: seq<Byte>, i: nat, place: Place): Option<seq<JsonToken>>
    requires i <= |input|
    decreases |input| - i
  {
    if i == |input| then Some([])
    else if place.Outside? && StartsNumber(input, i) then
      var end := NumberEnd(input, i).value;
      if !LiteralWithinLimits(input[i..end]) then None
      else
        var rest := Tokens(input, end, Outside);
        if rest.None? then None else Some([Literal(input[i..end])] + rest.value)
    else
      var rest := Tokens(input, i + 1, After(place, input[i]));
      if rest.None? then None else Some([Copied(input[i])] + rest.value)
  }

  /** The document that the tokens came from. */
  function Plain(tokens: seq<JsonToken>): seq<Byte> {
    if tokens == [] then []
    else Bytes(tokens[0]) + Plain(tokens[1..])
  }

  function Bytes(token: JsonToken): seq<Byte> {
    match token case Copied(b) => [b] case Literal(s) => s
  }

  /** Each literal as a string that starts with the marker. */
  function Marked(tokens: seq<JsonToken>, marker: seq<Byte>): seq<Byte> {
    if tokens == [] then []
    else Shown(tokens[0], marker) + Marked(tokens[1..], marker)
  }

  function Shown(token: JsonToken, marker: seq<Byte>): seq<Byte> {
    match token case Copied(b) => [b] case Literal(s) => [QUOTE] + marker + s + [QUOTE]
  }

  /** The first token from here on, and where the scan goes on after it. */
  function FirstToken(input: seq<Byte>, i: nat, place: Place): (r: (JsonToken, nat, Place))
    requires i < |input|
    ensures i < r.1 <= |input| && Bytes(r.0) == input[i..r.1]
  {
    if place.Outside? && StartsNumber(input, i)
    then (Literal(input[i..NumberEnd(input, i).value]), NumberEnd(input, i).value, Outside)
    else (Copied(input[i]), i + 1, After(place, input[i]))
  }

  lemma TokensStep(input: seq<Byte>, i: nat, place: Place)
    requires i < |input| && Tokens(input, i, place).Some?
    ensures var (token, j, next) := FirstToken(input, i, place);
            Tokens(input, j, next).Some? && Tokens(input, i, place).value == [token] + Tokens(input, j, next).value
  {
  }

  lemma PlainStep(token: JsonToken, rest: seq<JsonToken>)
    ensures Plain([token] + rest) == Bytes(token) + Plain(rest)
  {
    assert ([token] + rest)[1..] == rest;
  }

  lemma {:induction false} TokensArePlain(input: seq<Byte>, i: nat, place: Place)
    requires i <= |input| && Tokens(input, i, place).Some?
    ensures Plain(Tokens(input, i, place).value) == input[i..]
    decreases |input| - i, 1
  {
    if i == |input| {
      assert Plain([]) == [];
    } else {
      TokensOnward(input, i, place);
    }
  }

  lemma {:induction false} TokensOnward(input: seq<Byte>, i: nat, place: Place)
    requires i < |input| && Tokens(input, i, place).Some?
    ensures Plain(Tokens(input, i, place).value) == input[i..]
    decreases |input| - i, 0
  {
    hide Tokens, Plain, FirstToken;
    var (token, j, next) := FirstToken(input, i, place);
    TokensStep(input, i, place);
    TokensArePlain(input, j, next);
    PlainStep(token, Tokens(input, j, next).value);
    assert input[i..] == input[i..j] + input[j..];
  }

  /** Every literal that is marked is a number of the grammar, within the limits. */
  lemma {:induction false} LiteralsAreNumbers(input: seq<Byte>, i: nat, place: Place)
    requires i <= |input| && Tokens(input, i, place).Some?
    ensures forall k :: 0 <= k < |Tokens(input, i, place).value| && Tokens(input, i, place).value[k].Literal? ==>
              IsNumber(Tokens(input, i, place).value[k].bytes)
                  && LiteralWithinLimits(Tokens(input, i, place).value[k].bytes)
    decreases |input| - i
  {
    if i < |input| {
      if place.Outside? && StartsNumber(input, i) {
        ScanIsNumber(input, i);
        LiteralsAreNumbers(input, NumberEnd(input, i).value, Outside);
      } else {
        LiteralsAreNumbers(input, i + 1, After(place, input[i]));
      }
    }
  }

  // ----- the marker can be told apart

  predicate StartsWith(s: seq<Byte>, prefix: seq<Byte>) {
    |prefix| <= |s| && s[..|prefix|] == prefix
  }

  /** The marker does not occur anywhere in the document. */
  ghost predicate FreshIn(marker: seq<Byte>, input: seq<Byte>) {
    && 0 < |marker| && (forall k :: 0 <= k < |marker| ==> marker[k] != QUOTE)
    && forall i :: 0 <= i <= |input| ==> !StartsWith(input[i..], marker)
  }

  function ToQuote(s: seq<Byte>): (n: nat)
    ensures n <= |s| && (n < |s| ==> s[n] == QUOTE) && forall k :: 0 <= k < n ==> s[k] != QUOTE
  {
    if s == [] || s[0] == QUOTE then 0 else ToQuote(s[1..]) + 1
  }

  /** What taking the marked strings back out leaves: every marked string gives way to what follows its
      marker, without the quotes, and everything else stays. */
  function Erased(output: seq<Byte>, marker: seq<Byte>, place: Place): seq<Byte>
    decreases |output|
  {
    if output == [] then []
    else if place.Outside? && output[0] == QUOTE && StartsWith(output[1..], marker) then
      var rest := output[1 + |marker|..];
      var n := ToQuote(rest);
      rest[..n] + (if n == |rest| then [] else Erased(rest[n + 1..], marker, Outside))
    else [output[0]] + Erased(output[1..], marker, After(place, output[0]))
  }

  lemma LiteralHasNoQuote(s: seq<Byte>)
    requires IsNumber(s)
    ensures forall k :: 0 <= k < |s| ==> s[k] != QUOTE
  {
  }

  lemma ToQuoteIs(s: seq<Byte>, rest: seq<Byte>)
    requires forall k :: 0 <= k < |s| ==> s[k] != QUOTE
    ensures ToQuote(s + [QUOTE] + rest) == |s|
  {
    var all := s + [QUOTE] + rest;
    var n := ToQuote(all);
    assert all[|s|] == QUOTE;
    assert forall k :: 0 <= k < |s| ==> all[k] == s[k];
  }

  /** After an opening quote the output does not go on with the marker unless the scan put it there: that
      stretch of the output is a stretch of the document, up to where the document ends. */
  lemma {:induction false} QuoteIsNotMark(input: seq<Byte>, i: nat, place: Place, marker: seq<Byte>, m: seq<Byte>)
    requires i <= |input| && Tokens(input, i, place).Some? && !place.Outside?
    requires StartsWith(Marked(Tokens(input, i, place).value, marker), m)
    requires forall k :: 0 <= k < |m| ==> m[k] != QUOTE
    ensures StartsWith(input[i..], m)
    decreases |input| - i
  {
    if i < |input| && m != [] {
      var tokens := Tokens(input, i, place).value;
      var next := After(place, input[i]);
      assert tokens[0] == Copied(input[i]) && tokens[1..] == Tokens(input, i + 1, next).value;
      var rest := Marked(tokens[1..], marker);
      assert Marked(tokens, marker) == [input[i]] + rest;
      hide Tokens, Marked;
      StartsAfter(input[i], rest, m);
      QuoteIsNotMark(input, i + 1, next, marker, m[1..]);
      assert input[i..] == [input[i]] + input[i + 1..];
      StartsBefore(input[i], input[i + 1..], m);
    }
  }

  lemma StartsAfter(b: Byte, rest: seq<Byte>, m: seq<Byte>)
    requires StartsWith([b] + rest, m) && m != []
    ensures m[0] == b && StartsWith(rest, m[1..])
  {
    assert m == ([b] + rest)[..|m|];
    assert m[1..] == rest[..|m| - 1];
  }

  lemma StartsBefore(b: Byte, rest: seq<Byte>, m: seq<Byte>)
    requires m != [] && m[0] == b && StartsWith(rest, m[1..])
    ensures StartsWith([b] + rest, m)
  {
    assert m == [b] + m[1..];
    assert ([b] + rest)[..|m|] == [b] + rest[..|m| - 1];
  }

  lemma {:induction false} ErasingUndoes(input: seq<Byte>, i: nat, place: Place, marker: seq<Byte>)
    requires i <= |input| && Tokens(input, i, place).Some? && FreshIn(marker, input)
    ensures Erased(Marked(Tokens(input, i, place).value, marker), marker, place) == input[i..]
    decreases |input| - i
  {
    hide Erased, Marked, FreshIn, Tokens, StartsNumber, NumberEnd, After;
    if i == |input| {
      ErasingNothing(input, place, marker);
    } else if place.Outside? && StartsNumber(input, i) {
      ErasingLiteral(input, i, marker);
      ErasingUndoes(input, NumberEnd(input, i).value, Outside, marker);
      SplitAt(input, i, NumberEnd(input, i).value);
    } else {
      ErasingCopied(input, i, place, marker);
      ErasingUndoes(input, i + 1, After(place, input[i]), marker);
      SplitAt(input, i, i + 1);
    }
  }

  lemma ErasingNothing(input: seq<Byte>, place: Place, marker: seq<Byte>)
    requires Tokens(input, |input|, place).Some?
    ensures Erased(Marked(Tokens(input, |input|, place).value, marker), marker, place) == input[|input|..]
  {
    assert Tokens(input, |input|, place).value == [];
  }

  lemma SplitAt(s: seq<Byte>, i: nat, j: nat)
    requires i <= j <= |s|
    ensures s[i..] == s[i..j] + s[j..] && (i + 1 == j ==> s[i..j] == [s[i]])
  {
  }

  /** A copied byte is never taken for the start of a marked string. */
  lemma ErasingCopied(input: seq<Byte>, i: nat, place: Place, marker: seq<Byte>)
    requires i < |input| && Tokens(input, i, place).Some? && FreshIn(marker, input)
    requires !(place.Outside? && StartsNumber(input, i))
    ensures var next := After(place, input[i]);
            && Tokens(input, i + 1, next).Some?
            && Erased(Marked(Tokens(input, i, place).value, marker), marker, place)
               == [input[i]] + Erased(Marked(Tokens(input, i + 1, next).value, marker), marker, next)
  {
    var next := After(place, input[i]);
    var tokens := Tokens(input, i, place).value;
    assert tokens[0] == Copied(input[i]) && tokens[1..] == Tokens(input, i + 1, next).value;
    var rest := Marked(tokens[1..], marker);
    assert Marked(tokens, marker) == [input[i]] + rest && Marked(tokens, marker)[1..] == rest;
    hide Tokens, Marked, StartsNumber, NumberEnd, FreshIn;
    if place.Outside? && input[i] == QUOTE && StartsWith(rest, marker) {
      OpeningIsNotMark(input, i, marker);
    }
  }

  lemma OpeningIsNotMark(input: seq<Byte>, i: nat, marker: seq<Byte>)
    requires i < |input| && FreshIn(marker, input) && Tokens(input, i + 1, Inside).Some?
    ensures !StartsWith(Marked(Tokens(input, i + 1, Inside).value, marker), marker)
  {
    if StartsWith(Marked(Tokens(input, i + 1, Inside).value, marker), marker) {
      QuoteIsNotMark(input, i + 1, Inside, marker, marker);
    }
  }

  lemma ErasingLiteral(input: seq<Byte>, i: nat, marker: seq<Byte>)
    requires i < |input| && StartsNumber(input, i) && Tokens(input, i, Outside).Some?
    ensures NumberEnd(input, i).Some? && i < NumberEnd(input, i).value <= |input|
    ensures var end := NumberEnd(input, i).value;
            && Tokens(input, end, Outside).Some?
            && Erased(Marked(Tokens(input, i, Outside).value, marker), marker, Outside)
               == input[i..end] + Erased(Marked(Tokens(input, end, Outside).value, marker), marker, Outside)
  {
    var end := NumberEnd(input, i).value;
    var literal := input[i..end];
    var tokens := Tokens(input, i, Outside).value;
    assert tokens[0] == Literal(literal) && tokens[1..] == Tokens(input, end, Outside).value;
    var after := Marked(tokens[1..], marker);
    assert Marked(tokens, marker) == [QUOTE] + marker + literal + [QUOTE] + after;
    ScanIsNumber(input, i);
    LiteralHasNoQuote(literal);
    hide Tokens, Marked, NumberEnd, StartsNumber, IsNumber;
    ErasingMarked(literal, after, marker);
  }

  /** A marked string gives way to its literal. */
  lemma ErasingMarked(literal: seq<Byte>, after: seq<Byte>, marker: seq<Byte>)
    requires forall k :: 0 <= k < |literal| ==> literal[k] != QUOTE
    ensures Erased([QUOTE] + marker + literal + [QUOTE] + after, marker, Outside)
            == literal + Erased(after, marker, Outside)
  {
    var output := [QUOTE] + marker + literal + [QUOTE] + after;
    assert output[1..][..|marker|] == marker;
    var rest := output[1 + |marker|..];
    assert rest == literal + [QUOTE] + after;
    ToQuoteIs(literal, after);
    assert rest[..|literal|] == literal && rest[|literal| + 1..] == after;
  }

  /** For every document accepted, taking the marked strings back out gives the document again. */
  lemma MarkingLosesNothing(input: seq<Byte>, marker: seq<Byte>)
    requires Tokens(input, 0, Outside).Some? && FreshIn(marker, input)
    ensures Erased(Marked(Tokens(input, 0, Outside).value, marker), marker, Outside) == input
    ensures Plain(Tokens(input, 0, Outside).value) == input
  {
    ErasingUndoes(input, 0, Outside, marker);
    TokensArePlain(input, 0, Outside);
    assert input[0..] == input;
  }

  // ----- the loop

  lemma {:induction false} MarkedConcat(x: seq<JsonToken>, y: seq<JsonToken>, marker: seq<Byte>)
    ensures Marked(x + y, marker) == Marked(x, marker) + Marked(y, marker)
    decreases |x|
  {
    hide Shown;
    if x == [] {
      assert x + y == y;
    } else {
      MarkedConcat(x[1..], y, marker);
      assert (x + y)[1..] == x[1..] + y && (x + y)[0] == x[0];
      assert Marked(x, marker) == Shown(x[0], marker) + Marked(x[1..], marker);
    }
  }

  lemma MarkedOne(t: JsonToken, marker: seq<Byte>)
    ensures Marked([t], marker) == Shown(t, marker)
  {
    assert [t][1..] == [];
  }

  /** What is left to scan decides the outcome, given what has been scanned. */
  ghost predicate Ahead(input: seq<Byte>, seen: seq<JsonToken>, i: nat, place: Place)
    requires i <= |input|
  {
    var all, rest := Tokens(input, 0, Outside), Tokens(input, i, place);
    if rest.None? then all.None? else all == Some(seen + rest.value)
  }

  lemma LimitsAgree(input: seq<Byte>, start: nat, a: nat, b: nat, c: nat, end: nat)
    requires NumberAt(input, start, a, b, c, end)
    ensures WithinLimits(input, start, c, end) <==> LiteralWithinLimits(input[start..end])
  {
    var s := input[start..end];
    NumberInside(input, start, a, b, c, end);
    MarkIsExponent(s, 0, a - start, b - start, c - start, end - start);
    if c < end {
      var k := ExponentDigits(input, c, end);
      assert forall m :: 0 <= m < |s| ==> s[m] == input[start + m];
      assert ExponentDigits(s, c - start, |s|) == k - start;
      assert AllDigits(input, k, end);
      ValueInside(input, start, end, k, end);
    }
  }

  lemma {:induction false} ValueInside(input: seq<Byte>, start: nat, end: nat, i: nat, j: nat)
    requires start <= i <= j <= end <= |input| && AllDigits(input, i, j)
    ensures AllDigits(input[start..end], i - start, j - start)
    ensures Value(input[start..end], i - start, j - start) == Value(input, i, j)
    decreases j - i
  {
    if i < j { ValueInside(input, start, end, i, j - 1); }
  }

  /** The output so far, and what is left to scan. */
  ghost predicate Scanned(input: seq<Byte>, marker: seq<Byte>, seen: seq<JsonToken>, i: nat, place: Place,
                          output: seq<Byte>)
    requires i <= |input|
  {
    output == Marked(seen, marker) && Ahead(input, seen, i, place)
  }

  lemma ScanStarts(input: seq<Byte>, marker: seq<Byte>)
    ensures Scanned(input, marker, [], 0, Outside, [])
  {
    var all := Tokens(input, 0, Outside);
    if all.Some? { assert [] + all.value == all.value; }
  }

  lemma ScanCopies(input: seq<Byte>, marker: seq<Byte>, seen: seq<JsonToken>, i: nat, place: Place, output: seq<Byte>)
    requires i < |input| && Scanned(input, marker, seen, i, place, output)
             && !(place.Outside? && StartsNumber(input, i))
    ensures Scanned(input, marker, seen + [Copied(input[i])], i + 1, After(place, input[i]), output + [input[i]])
  {
    AheadCopy(input, seen, i, place);
    MarkedConcat(seen, [Copied(input[i])], marker);
    MarkedOne(Copied(input[i]), marker);
  }

  lemma ScanMarks(input: seq<Byte>, marker: seq<Byte>, seen: seq<JsonToken>, i: nat, output: seq<Byte>)
    requires i < |input| && Scanned(input, marker, seen, i, Outside, output) && StartsNumber(input, i)
    ensures var end := NumberEnd(input, i).value;
            var literal := input[i..end];
            if LiteralWithinLimits(literal)
            then Scanned(input, marker, seen + [Literal(literal)], end, Outside,
                         output + ([QUOTE] + marker + literal + [QUOTE]))
            else Tokens(input, 0, Outside).None?
  {
    var literal := input[i..NumberEnd(input, i).value];
    AheadLiteral(input, seen, i);
    MarkedConcat(seen, [Literal(literal)], marker);
    MarkedOne(Literal(literal), marker);
  }

  lemma ScanEnds(input: seq<Byte>, marker: seq<Byte>, seen: seq<JsonToken>, place: Place, output: seq<Byte>)
    requires Scanned(input, marker, seen, |input|, place, output)
    ensures Tokens(input, 0, Outside).Some? && output == Marked(Tokens(input, 0, Outside).value, marker)
  {
    assert seen + [] == seen;
  }

  /** Where the parts of the number that starts here are cut. */
  lemma Cuts(input: seq<Byte>, i: nat) returns (a: nat, b: nat, c: nat)
    requires i < |input| && NumberEnd(input, i).Some?
    ensures var end := NumberEnd(input, i).value;
            NumberAt(input, i, a, b, c, end) && (WithinLimits(input, i, c, end) <==> LiteralWithinLimits(input[i..end]))
  {
    hide NumberEnd, NumberAt, WithinLimits, LiteralWithinLimits;
    var end := NumberEnd(input, i).value;
    ScanIsNumber(input, i);
    var x: nat, y: nat, z: nat :| NumberAt(input[i..end], 0, x, y, z, |input[i..end]|);
    a, b, c := i + x, i + y, i + z;
    NumberOutside(input, i, end, x, y, z);
    LimitsAgree(input, i, a, b, c, end);
  }

  method MarkingNumbers(input: seq<Byte>, marker: seq<Byte>) returns (r: Option<seq<Byte>>)
    ensures r.Some? <==> Tokens(input, 0, Outside).Some?
    ensures r.Some? ==> r.value == Marked(Tokens(input, 0, Outside).value, marker)
  {
    hide Scanned, Tokens, Marked, NumberEnd, LiteralWithinLimits, WithinLimits;
    var output: seq<Byte> := [];
    var index := 0;
    var inString, escaped := false, false;
    ghost var seen: seq<JsonToken> := [];
    ScanStarts(input, marker);
    while index < |input|
      invariant index <= |input| && (escaped ==> inString)
      invariant Scanned(input, marker, seen, index, PlaceOf(inString, escaped), output)
    {
      var byte := input[index];
      ghost var place := PlaceOf(inString, escaped);
      if inString {
        ScanCopies(input, marker, seen, index, place, output);
        seen := seen + [Copied(byte)];
        output := output + [byte];
        if escaped {
          escaped := false;
        } else if byte == BACKSLASH {
          escaped := true;
        } else if byte == QUOTE {
          inString := false;
        }
        index := index + 1;
        continue;
      }
      if byte == QUOTE {
        ScanCopies(input, marker, seen, index, place, output);
        seen := seen + [Copied(byte)];
        inString := true;
        output := output + [byte];
        index := index + 1;
        continue;
      }
      if byte == MINUS || Digit(byte) {
        var end := ScanNumber(input, index);
        if end.Some? {
          ghost var a, b, c := Cuts(input, index);
          var within := NumberWithinLimits(input, index, end.value, a, b, c);
          ScanMarks(input, marker, seen, index, output);
          if !within { return None; }
          seen := seen + [Literal(input[index..end.value])];
          output := output + ([QUOTE] + marker + input[index..end.value] + [QUOTE]);
          index := end.value;
          continue;
        }
      }
      ScanCopies(input, marker, seen, index, place, output);
      seen := seen + [Copied(byte)];
      output := output + [byte];
      index := index + 1;
    }
    ScanEnds(input, marker, seen, PlaceOf(inString, escaped), output);
    return Some(output);
  }

  function PlaceOf(inString: bool, escaped: bool): Place {
    if !inString then Outside else if escaped then Escaped else Inside
  }

  lemma AheadCopy(input: seq<Byte>, seen: seq<JsonToken>, i: nat, place: Place)
    requires i < |input| && Ahead(input, seen, i, place) && !(place.Outside? && StartsNumber(input, i))
    ensures Ahead(input, seen + [Copied(input[i])], i + 1, After(place, input[i]))
  {
    var rest := Tokens(input, i + 1, After(place, input[i]));
    if rest.Some? {
      assert seen + ([Copied(input[i])] + rest.value) == (seen + [Copied(input[i])]) + rest.value;
    }
  }

  lemma AheadLiteral(input: seq<Byte>, seen: seq<JsonToken>, i: nat)
    requires i < |input| && Ahead(input, seen, i, Outside) && StartsNumber(input, i)
    ensures var end := NumberEnd(input, i).value;
            if LiteralWithinLimits(input[i..end]) then Ahead(input, seen + [Literal(input[i..end])], end, Outside)
            else Tokens(input, 0, Outside).None?
  {
    var end := NumberEnd(input, i).value;
    var rest := Tokens(input, end, Outside);
    if rest.Some? {
      assert seen + ([Literal(input[i..end])] + rest.value) == (seen + [Literal(input[i..end])]) + rest.value;
    }
  }
}
