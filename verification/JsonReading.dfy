// What loads makes of a source, spelled out in code points: which characters may start a token,
// and how strings, numbers and keywords are read whoever wrote them.

module JsonReading {
  import opened JsonData
  import opened JsonGrammar
  import opened JsonParser
  import opened Sequences
  import opened Wrappers

  // ---------- the start of a source ----------

  lemma FirstLexeme(s: Text)
    requires s != [] && !IsBlank(s[0])
    ensures Loaded(s) == match Lex(s)
              case Fail(e) => Err(e)
              case Got(lexeme, rest) => Resume(Taken(lexeme, []), rest)
  {
    assert SkipBlanks(s) == s;
  }

  lemma FirstAtom(s: Text)
    requires s != [] && (s[0] in {0x22, 0x2D, 0x74, 0x66, 0x6E} || 0x30 <= s[0] <= 0x39)
    ensures Loaded(s) == match AtomScan(s)
              case Got(v, _) => Ok(v)
              case Fail(e) => Err(e)
  {
    FirstLexeme(s);
    assert Lex(s) == match AtomScan(s)
                     case Got(v, rest) => Got(Atom(v), rest)
                     case Fail(e) => Fail(e);
  }

  // Blanks, commas and colons before the first value are passed over, closing brackets have
  // nothing to close, and a character that starts no token is rejected.
  lemma SourceStart(c: nat, t: Text)
    ensures Loaded([]) == Err(UnexpectedEnd)
    ensures c in {0x20, 0x09, 0x0A, 0x0D, 0x2C, 0x3A} ==> Loaded([c] + t) == Loaded(t)
    ensures c in {0x5D, 0x7D} ==> Loaded([c] + t) == Err(PopFromEmpty)
    ensures !(0x30 <= c <= 0x39) ==>
            c !in {0x20, 0x09, 0x0A, 0x0D, 0x2C, 0x3A, 0x5D, 0x7D, 0x5B, 0x7B, 0x22, 0x2D, 0x74, 0x66, 0x6E} ==>
            Loaded([c] + t) == Err(BadStart)
  {
    var s := [c] + t;
    assert s[0] == c && s[1..] == t;
    if c in {0x20, 0x09, 0x0A, 0x0D} {
      assert SkipBlanks(s) == SkipBlanks(t);
    } else {
      FirstLexeme(s);
    }
  }

  // ---------- strings ----------

  predicate IsAnyHexDigit(c: nat) { 0x30 <= c <= 0x39 || 0x41 <= c <= 0x46 || 0x61 <= c <= 0x66 }

  function AnyHexWorth(c: nat): int
  {
    if c <= 0x39 then c - 0x30 else if c <= 0x46 then c - 0x41 + 10 else c - 0x61 + 10
  }

  // The ways to write character c inside a string literal.
  predicate ReadsAs(piece: Text, c: nat)
  {
    || (piece == [c] && c != 0x22 && c != 0x5C)
    || (|piece| == 2 && piece[0] == 0x5C && IsShortEscape(piece[1], c))
    || (&& |piece| == 6 && piece[0] == 0x5C && piece[1] == 0x75
        && IsAnyHexDigit(piece[2]) && IsAnyHexDigit(piece[3]) && IsAnyHexDigit(piece[4]) && IsAnyHexDigit(piece[5])
        && c == 0x1000 * AnyHexWorth(piece[2]) + 0x100 * AnyHexWorth(piece[3])
              + 0x10 * AnyHexWorth(piece[4]) + AnyHexWorth(piece[5]))
  }

  predicate ReadAs(pieces: seq<Text>, x: Text)
  {
    |pieces| == |x| && forall i :: 0 <= i < |x| ==> ReadsAs(pieces[i], x[i])
  }

  lemma HexRead(d: Text)
    requires |d| == 4
    requires IsAnyHexDigit(d[0]) && IsAnyHexDigit(d[1]) && IsAnyHexDigit(d[2]) && IsAnyHexDigit(d[3])
    ensures CodePoint(d) == Some(0x1000 * AnyHexWorth(d[0]) + 0x100 * AnyHexWorth(d[1])
                                 + 0x10 * AnyHexWorth(d[2]) + AnyHexWorth(d[3]))
  {
    assert LStripped(d) == d && RStripped(d) == d;
    var three := d[..3];
    assert three[..2] == [d[0], d[1]] && three[..2][..1] == [d[0]] && three[..2][..1][..0] == [];
    assert HexNumber([d[0]]) == Some(AnyHexWorth(d[0]));
    assert HexNumber(three[..2]) == Some(16 * AnyHexWorth(d[0]) + AnyHexWorth(d[1]));
    assert HexNumber(three) == Some(16 * (16 * AnyHexWorth(d[0]) + AnyHexWorth(d[1])) + AnyHexWorth(d[2]));
  }

  lemma ThreeDigits(d: Text)
    requires |d| == 3 && IsAnyHexDigit(d[0]) && IsAnyHexDigit(d[1]) && IsAnyHexDigit(d[2])
    ensures HexNumber(d[..2]) == Some(0x10 * AnyHexWorth(d[0]) + AnyHexWorth(d[1]))
    ensures HexNumber(d) == Some(0x100 * AnyHexWorth(d[0]) + 0x10 * AnyHexWorth(d[1]) + AnyHexWorth(d[2]))
  {
    assert d[..2][..1] == [d[0]] && d[..2][..1][..0] == [];
    assert HexNumber(d[..2][..1]) == Some(AnyHexWorth(d[0]));
    assert d[..2][1] == d[1];
  }

  // The four characters behind \u are read as int() reads them: a blank before or behind the
  // digits, a plus sign or a 0x prefix changes nothing, and a minus sign leaves only zero.
  lemma LooseCode(d: Text)
    requires |d| == 3 && IsAnyHexDigit(d[0]) && IsAnyHexDigit(d[1]) && IsAnyHexDigit(d[2])
    ensures var n := 0x100 * AnyHexWorth(d[0]) + 0x10 * AnyHexWorth(d[1]) + AnyHexWorth(d[2]);
            && CodePoint([0x20] + d) == CodePoint(d + [0x20]) == CodePoint([0x2B] + d) == Some(n)
            && CodePoint([0x2D] + d) == (if n == 0 then Some(0) else None)
    ensures CodePoint([0x30, 0x78] + d[..2]) == Some(0x10 * AnyHexWorth(d[0]) + AnyHexWorth(d[1]))
  {
    ThreeDigits(d);
    Blanks(d);
    assert ([0x2B] + d)[1..] == d && ([0x2D] + d)[1..] == d;
    assert ([0x30, 0x78] + d[..2])[2..] == d[..2];
  }

  lemma Blanks(d: Text)
    requires d != [] && IsAnyHexDigit(d[0]) && IsAnyHexDigit(d[|d| - 1])
    ensures LStripped(d) == RStripped(d) == d
    ensures LStripped([0x20] + d) == d && LStripped(d + [0x20]) == d + [0x20] && RStripped(d + [0x20]) == d
  {
    assert ([0x20] + d)[1..] == d && (d + [0x20])[..|d|] == d;
  }

  lemma PieceRead(piece: Text, c: nat, tail: Text, acc: Text)
    requires ReadsAs(piece, c)
    ensures StringBody(piece + tail, acc) == StringBody(tail, acc + [c])
  {
    var t := piece + tail;
    if |piece| == 1 {
      assert t[1..] == tail;
    } else if |piece| == 2 {
      assert t[2..] == tail;
    } else {
      HexRead(piece[2..]);
      assert t[2..6] == piece[2..] && t[6..] == tail;
    }
  }

  lemma {:induction false} PiecesRead(pieces: seq<Text>, x: Text, tail: Text, acc: Text)
    requires ReadAs(pieces, x)
    ensures StringBody(Flat(pieces) + tail, acc) == StringBody(tail, acc + x)
    decreases |x|
  {
    if x == [] {
      assert Flat(pieces) + tail == tail && acc + x == acc;
    } else {
      JoinAssociative(pieces[0], Flat(pieces[1..]), tail);
      PieceRead(pieces[0], x[0], Flat(pieces[1..]) + tail, acc);
      PiecesRead(pieces[1..], x[1..], tail, acc + [x[0]]);
      FirstRest(x);
      JoinAssociative(acc, [x[0]], x[1..]);
    }
  }

  // After the pieces of a string, a quotation mark ends it; the end of the source, or a reverse
  // solidus before another letter than those of the escapes, is an error.
  lemma StringLiteral(pieces: seq<Text>, x: Text, tail: Text, letter: nat)
    requires ReadAs(pieces, x)
    ensures Loaded([0x22] + (Flat(pieces) + ([0x22] + tail))) == Ok(Str(x))
    ensures Loaded([0x22] + Flat(pieces)) == Err(EndOfString)
    ensures letter !in {0x62, 0x74, 0x6E, 0x66, 0x72, 0x22, 0x2F, 0x5C, 0x75} ==>
            Loaded([0x22] + (Flat(pieces) + ([0x5C, letter] + tail))) == Err(BadEscape)
  {
    PiecesRead(pieces, x, [0x22] + tail, []);
    PiecesRead(pieces, x, [], []);
    PiecesRead(pieces, x, [0x5C, letter] + tail, []);
    assert [] + x == x && Flat(pieces) + [] == Flat(pieces);
    LiteralRead(Flat(pieces) + ([0x22] + tail));
    LiteralRead(Flat(pieces));
    LiteralRead(Flat(pieces) + ([0x5C, letter] + tail));
    assert ([0x22] + tail)[1..] == tail;
  }

  lemma LiteralRead(body: Text)
    ensures Loaded([0x22] + body) == match StringBody(body, [])
              case Got(x, _) => Ok(Str(x))
              case Fail(e) => Err(e)
  {
    var s := [0x22] + body;
    assert s[1..] == body;
    FirstAtom(s);
  }

  // ---------- numbers ----------

  predicate AreDigits(s: Text) { forall i :: 0 <= i < |s| ==> 0x30 <= s[i] <= 0x39 }

  predicate EndsDigits(tail: Text) { tail != [] && !(0x30 <= tail[0] <= 0x39) }

  lemma {:induction false} DigitsRun(ds: Text, tail: Text)
    requires AreDigits(ds) && EndsDigits(tail)
    ensures DigitRun(ds + tail) == Run(ds, false, tail)
    decreases |ds|
  {
    if ds == [] {
      assert ds + tail == tail;
    } else {
      JoinRest(ds, tail);
      DigitsRun(ds[1..], tail);
      FirstRest(ds);
    }
  }

  lemma {:induction false} WorthIsValue(ds: Text)
    ensures DecimalValue(ds) == Worth(ds)
  {
    if ds != [] { WorthIsValue(ds[..|ds| - 1]); }
  }

  lemma NumberLoaded(s: Text)
    requires s != [] && (s[0] == 0x2D || 0x30 <= s[0] <= 0x39)
    ensures Loaded(s) == match NumberScan(s)
              case Got(v, _) => Ok(v)
              case Fail(e) => Err(e)
  {
    FirstAtom(s);
  }

  // Digits, with leading zeros or not, a minus sign before them or not, and something behind them
  // that prolongs no number, are an integer.
  lemma IntegerLiteral(ds: Text, tail: Text)
    requires AreDigits(ds) && ds != [] && EndsDigits(tail) && tail[0] != 0x2E
    ensures Loaded(ds + tail) == Ok(Int(Worth(ds)))
  {
    var s := ds + tail;
    JoinRest(ds, tail);
    DigitsRun(ds[1..], tail);
    FirstRest(ds);
    WorthIsValue(ds);
    assert NumberScan(s) == IntScan(ds, tail);
    NumberLoaded(s);
  }

  // A minus sign needs a digit.
  lemma NegativeLiteral(ds: Text, tail: Text)
    requires AreDigits(ds) && EndsDigits(tail) && tail[0] != 0x2E
    ensures Loaded([0x2D] + (ds + tail)) == if ds == [] then Err(BadConversion) else Ok(Int(-Worth(ds)))
  {
    var s, text := [0x2D] + (ds + tail), [0x2D] + ds;
    assert s[1..] == ds + tail && text[1..] == ds;
    DigitsRun(ds, tail);
    WorthIsValue(ds);
    assert NumberScan(s) == IntScan(text, tail);
    NumberLoaded(s);
  }

  // The part of a float before its exponent: a digit or a minus sign, digits, a dot and digits.
  predicate IsFraction(text: Text, first: nat, whole: Text, fraction: Text)
  {
    && (first == 0x2D || 0x30 <= first <= 0x39) && AreDigits(whole) && AreDigits(fraction)
    && text == [first] + whole + [0x2E] + fraction
  }

  // A float needs a digit before its exponent.
  predicate SomeDigit(first: nat, whole: Text, fraction: Text)
  {
    first != 0x2D || whole != [] || fraction != []
  }

  // Without an exponent mark such a text is a float if it has a digit; with one there must be a
  // sign behind it.
  lemma FloatLiteral(text: Text, first: nat, whole: Text, fraction: Text, tail: Text)
    requires IsFraction(text, first, whole, fraction) && EndsDigits(tail)
    ensures tail[0] != 0x45 && tail[0] != 0x65 ==>
      Loaded(text + tail) == if SomeDigit(first, whole, fraction) then Ok(Float(text)) else Err(BadConversion)
    ensures tail[0] in {0x45, 0x65} && |tail| > 1 && tail[1] != 0x2B && tail[1] != 0x2D ==>
      Loaded(text + tail) == Err(BadExponent)
  {
    FloatRead(text, first, whole, fraction, tail);
    NumberLoaded(text + tail);
  }

  // Behind mark and sign there must be digits.
  lemma ExponentLiteral(text: Text, first: nat, whole: Text, fraction: Text,
                        mark: nat, sign: nat, exponent: Text, tail: Text)
    requires IsFraction(text, first, whole, fraction) && AreDigits(exponent) && EndsDigits(tail)
    requires mark in {0x45, 0x65} && sign in {0x2B, 0x2D}
    ensures Loaded(text + ([mark, sign] + exponent + tail)) ==
      if SomeDigit(first, whole, fraction) && exponent != [] then Ok(Float(text + [mark] + [sign] + exponent))
      else Err(BadConversion)
  {
    var after := [mark, sign] + exponent + tail;
    assert after[1..] == [sign] + (exponent + tail);
    FloatRead(text, first, whole, fraction, after);
    ExponentRead(mark, sign, exponent, tail, text + [mark], SomeDigit(first, whole, fraction));
    NumberLoaded(text + after);
  }

  lemma ExponentRead(mark: nat, sign: nat, exponent: Text, tail: Text, text: Text, mantissa: bool)
    requires AreDigits(exponent) && EndsDigits(tail) && sign in {0x2B, 0x2D}
    ensures ExponentScan(mark, [sign] + (exponent + tail), text, mantissa)
         == FloatScan(mantissa && exponent != [], text + [sign] + exponent, tail)
  {
    assert ([sign] + (exponent + tail))[1..] == exponent + tail;
    DigitsRun(exponent, tail);
  }

  lemma LastExponentRead(mark: nat, sign: nat, exponent: Text, text: Text, mantissa: bool)
    requires AreDigits(exponent) && exponent != [] && sign in {0x2B, 0x2D}
    ensures ExponentScan(mark, [sign] + exponent, text, mantissa)
         == FloatScan(mantissa, text + [sign] + exponent, [exponent[|exponent| - 1]])
  {
    assert ([sign] + exponent)[1..] == exponent;
    LastDigitsRun(exponent);
  }

  lemma FloatRead(text: Text, first: nat, whole: Text, fraction: Text, tail: Text)
    requires IsFraction(text, first, whole, fraction) && EndsDigits(tail)
    ensures NumberScan(text + tail) ==
      if tail[0] != 0x45 && tail[0] != 0x65 then FloatScan(SomeDigit(first, whole, fraction), text, tail)
      else ExponentScan(tail[0], tail[1..], text + [tail[0]], SomeDigit(first, whole, fraction))
  {
    var s, after := text + tail, [0x2E] + (fraction + tail);
    assert s[1..] == whole + after && after[1..] == fraction + tail;
    DigitsRun(whole, after);
    FractionRead(fraction, tail, [first] + whole + [0x2E], first != 0x2D || whole != []);
  }

  lemma FractionRead(fraction: Text, tail: Text, text: Text, mantissa: bool)
    requires AreDigits(fraction) && EndsDigits(tail)
    ensures FractionScan(fraction + tail, text, mantissa) ==
      if tail[0] != 0x45 && tail[0] != 0x65 then FloatScan(mantissa || fraction != [], text + fraction, tail)
      else ExponentScan(tail[0], tail[1..], text + fraction + [tail[0]], mantissa || fraction != [])
  {
    DigitsRun(fraction, tail);
  }

  lemma {:induction false} LastDigitsRun(ds: Text)
    requires AreDigits(ds) && ds != []
    ensures DigitRun(ds) == Run(ds, true, [ds[|ds| - 1]])
    decreases |ds|
  {
    if |ds| > 1 {
      LastDigitsRun(ds[1..]);
      FirstRest(ds);
    }
  }

  // A source that ends with a float.
  lemma FloatEnds(text: Text, first: nat, whole: Text, fraction: Text)
    requires IsFraction(text, first, whole, fraction)
    ensures Loaded(text) == if SomeDigit(first, whole, fraction) then Ok(Float(text)) else Err(BadConversion)
  {
    var after := [0x2E] + fraction;
    assert text[1..] == whole + after && after[1..] == fraction;
    DigitsRun(whole, after);
    if fraction == [] {
      assert text == [first] + whole + [0x2E];
    } else {
      LastDigitsRun(fraction);
    }
    NumberLoaded(text);
  }

  // A source that ends with an exponent: with its mark, or with digits or none behind the sign.
  lemma ExponentEnds(text: Text, first: nat, whole: Text, fraction: Text, mark: nat, sign: nat, exponent: Text)
    requires IsFraction(text, first, whole, fraction) && AreDigits(exponent)
    requires mark in {0x45, 0x65} && sign in {0x2B, 0x2D}
    ensures Loaded(text + [mark]) == Err(BadConversion)
    ensures Loaded(text + ([mark, sign] + exponent)) ==
      if SomeDigit(first, whole, fraction) && exponent != [] then Ok(Float(text + [mark] + [sign] + exponent))
      else Err(BadConversion)
  {
    var after := [mark, sign] + exponent;
    FloatRead(text, first, whole, fraction, [mark]);
    NumberLoaded(text + [mark]);
    assert after[1..] == [sign] + exponent;
    FloatRead(text, first, whole, fraction, after);
    if exponent != [] { LastExponentRead(mark, sign, exponent, text + [mark], SomeDigit(first, whole, fraction)); }
    NumberLoaded(text + after);
  }

  // ---------- keywords ----------

  // A source that begins with one of the letters t, f and n and is long enough holds a keyword or
  // is rejected.
  lemma KeywordLiteral(s: Text)
    requires |s| >= 5 && s[0] in {0x74, 0x66, 0x6E}
    ensures Loaded(s) ==
      if s[..4] == [0x74, 0x72, 0x75, 0x65] then Ok(Bool(true))
      else if s[..5] == [0x66, 0x61, 0x6C, 0x73, 0x65] then Ok(Bool(false))
      else if s[..4] == [0x6E, 0x75, 0x6C, 0x6C] then Ok(Null)
      else Err(BadKeyword)
  {
    FirstAtom(s);
    assert s[..5] == s[..4] + [s[4]];
    var word: Text := [0x66, 0x61, 0x6C, 0x73, 0x65];
    assert word[..4] + [word[4]] == word;
  }
}
