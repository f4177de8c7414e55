// The parser: a character reader and a machine that keeps open containers and pending
// dictionary keys on one stack.

module JsonParser {
  import opened JsonData
  import opened JsonPrinter
  import opened Sequences
  import opened Wrappers

  datatype Error =
    | UnexpectedEnd      // "Unexpected end of JSON source"
    | EndOfString        // "Expected end of String"
    | BadEscape          // "Bad Escape Sequence Found"
    | BadExponent        // "Expected + or -"
    | BadKeyword         // "Expected Null, False or True"
    | BadStart           // no token starts with this character
    | BadPlace           // "Expected dictionary key, or start of a value"
    | PopFromEmpty       // IndexError: a closing bracket with nothing open
    | BadConversion      // ValueError: int(), float() or unichr() rejects its argument
    | NotADictionary     // TypeError: a key whose container is not a dictionary

  datatype Result = Ok(v: Json) | Err(e: Error)

  predicate IsBlank(c: nat) { c == SPACE || c == TAB || c == RETURN || c == NEWLINE }

  predicate IsDigit(c: nat) { ZERO <= c <= NINE }

  // ---------- strings ----------

  // The character an escape letter stands for; None is a KeyError.
  function Unescaped(c: nat): Option<nat>
  {
    if c == 116 then Some(TAB)
    else if c == 98 then Some(BACKSPACE)
    else if c == 102 then Some(FORMFEED)
    else if c == 110 then Some(NEWLINE)
    else if c == 114 then Some(RETURN)
    else if c == BACKSLASH then Some(BACKSLASH)
    else if c == SLASH then Some(SLASH)
    else if c == QUOTE then Some(QUOTE)
    else None
  }

  predicate IsSpaceForInt(c: nat) { 9 <= c <= 13 || c == SPACE }

  function LStripped(t: Text): Text
  {
    if t != [] && IsSpaceForInt(t[0]) then LStripped(t[1..]) else t
  }

  function RStripped(t: Text): Text
  {
    if t != [] && IsSpaceForInt(t[|t| - 1]) then RStripped(t[..|t| - 1]) else t
  }

  function HexValue(c: nat): Option<nat>
  {
    if IsDigit(c) then Some(c - ZERO)
    else if 97 <= c <= 102 then Some(c - 87)
    else if 65 <= c <= 70 then Some(c - 55)
    else None
  }

  function HexNumber(t: Text): Option<nat>
  {
    if t == [] then Some(0)
    else match (HexNumber(t[..|t| - 1]), HexValue(t[|t| - 1]))
      case (Some(high), Some(low)) => Some(16 * high + low)
      case _ => None
  }

  // unichr(int(code, 16)): blanks around the number, a sign and a 0x prefix are accepted, and a
  // negative number is not a character.
  function CodePoint(code: Text): Option<nat>
  {
    var t := RStripped(LStripped(code));
    var negative := t != [] && t[0] == MINUS;
    var u := if negative || (t != [] && t[0] == 43) then t[1..] else t;
    var digits := if |u| >= 2 && u[0] == ZERO && (u[1] == 120 || u[1] == 88) then u[2..] else u;
    if digits == [] then None
    else match HexNumber(digits)
      case None => None
      case Some(v) => if negative && v != 0 then None else Some(v)
  }

  datatype Scan<T> = Got(value: T, rest: Text) | Fail(e: Error)

  // The rest of a string literal after its opening quote; acc holds the characters read so far.
  function StringBody(t: Text, acc: Text): (r: Scan<Text>)
    ensures r.Got? ==> |r.rest| < |t|
    decreases |t|
  {
    if t == [] then Fail(EndOfString)
    else if t[0] == QUOTE then Got(acc, t[1..])
    else if t[0] != BACKSLASH then StringBody(t[1..], acc + [t[0]])
    else if |t| < 2 then Fail(EndOfString)
    else match Unescaped(t[1])
      case Some(x) => StringBody(t[2..], acc + [x])
      case None =>
        if t[1] != LETTER_U then Fail(BadEscape)
        else if |t| < 6 then Fail(EndOfString)
        else match CodePoint(t[2..6])
          case None => Fail(BadConversion)
          case Some(x) => StringBody(t[6..], acc + [x])
  }

  // ---------- numbers ----------

  // A run of digits.  `rest` starts with the last character taken from the source: the first
  // non-digit, or, when the source ended, the last character of the run once more.
  datatype Run = Run(digits: Text, ended: bool, rest: Text)

  function DigitRun(t: Text): (r: Run)
    requires t != []
    ensures 0 < |r.rest| <= |t|
    ensures |r.digits| <= |t|
  {
    if !IsDigit(t[0]) then Run([], false, t)
    else if |t| == 1 then Run(t, true, t)
    else var r := DigitRun(t[1..]); Run([t[0]] + r.digits, r.ended, r.rest)
  }

  function DecimalValue(ds: Text): int
  {
    if ds == [] then 0 else 10 * DecimalValue(ds[..|ds| - 1]) + (ds[|ds| - 1] - ZERO)
  }

  // int(text) for a digit or a minus sign followed by digits.
  function IntValue(text: Text): Option<int>
  {
    if text == [] || text == [MINUS] then None
    else if text[0] == MINUS then Some(-DecimalValue(text[1..]))
    else Some(DecimalValue(text))
  }

  function IntScan(text: Text, rest: Text): Scan<Json>
  {
    match IntValue(text)
    case None => Fail(BadConversion)
    case Some(n) => Got(Int(n), rest)
  }

  function FloatScan(valid: bool, text: Text, rest: Text): Scan<Json>
  {
    if valid then Got(Float(text), rest) else Fail(BadConversion)
  }

  predicate IsExponentMark(c: nat) { c == 69 || c == 101 }

  predicate IsSign(c: nat) { c == 43 || c == MINUS }

  // The part of a float after its exponent mark.  `text` is what was collected including the
  // mark, `mantissa` tells whether a digit came before it.
  function ExponentScan(mark: nat, t: Text, text: Text, mantissa: bool): (r: Scan<Json>)
    ensures r.Got? ==> |r.rest| <= 1 + |t|
  {
    if t == [] then FloatScan(false, text, [mark])
    else if !IsSign(t[0]) then Fail(BadExponent)
    else if |t| == 1 then FloatScan(false, text + t, t)
    else
      var r := DigitRun(t[1..]);
      FloatScan(mantissa && r.digits != [], text + [t[0]] + r.digits, r.rest)
  }

  // The part of a float after its dot.
  function FractionScan(t: Text, text: Text, mantissa: bool): (r: Scan<Json>)
    ensures r.Got? ==> |r.rest| <= 1 + |t|
  {
    if t == [] then FloatScan(mantissa, text, [DOT])
    else
      var r := DigitRun(t);
      var seen := mantissa || r.digits != [];
      if r.ended || !IsExponentMark(r.rest[0]) then FloatScan(seen, text + r.digits, r.rest)
      else ExponentScan(r.rest[0], r.rest[1..], text + r.digits + [r.rest[0]], seen)
  }

  // A number starting with t[0].  The first look past t[0] is not guarded, so a number that is
  // the whole source is only read when it has at least two characters.
  function NumberScan(t: Text): (r: Scan<Json>)
    requires t != []
    ensures r.Got? ==> |r.rest| < |t|
  {
    if |t| == 1 then Fail(UnexpectedEnd)
    else
      var r := DigitRun(t[1..]);
      var text := [t[0]] + r.digits;
      if r.ended || r.rest[0] != DOT then IntScan(text, r.rest)
      else FractionScan(r.rest[1..], text + [DOT], IsDigit(t[0]) || r.digits != [])
  }

  // ---------- keywords ----------

  function KeywordScan(t: Text): (r: Scan<Json>)
    requires t != []
    ensures r.Got? ==> |r.rest| < |t|
  {
    if |t| < 4 then Fail(UnexpectedEnd)
    else if t[..4] == NULL_WORD then Got(Null, t[4..])
    else if t[..4] == TRUE_WORD then Got(Bool(true), t[4..])
    else if t[..4] != FALSE_WORD[..4] then Fail(BadKeyword)
    else if |t| == 4 then Fail(UnexpectedEnd)
    else if t[4] == FALSE_WORD[4] then Got(Bool(false), t[5..])
    else Fail(BadKeyword)
  }

  // ---------- the stack machine ----------

  datatype Lexeme =
    | Open(container: Json)
    | Close
    | Separator
    | Atom(v: Json)

  function Lex(t: Text): (r: Scan<Lexeme>)
    requires t != []
    ensures r.Got? ==> |r.rest| < |t|
  {
    var c := t[0];
    if c == OPEN_DICT then Got(Open(Dict(map[])), t[1..])
    else if c == OPEN_LIST then Got(Open(List([])), t[1..])
    else if c == CLOSE_DICT || c == CLOSE_LIST then Got(Close, t[1..])
    else if c == COMMA || c == COLON then Got(Separator, t[1..])
    else match AtomScan(t)
      case Got(v, rest) => Got(Atom(v), rest)
      case Fail(e) => Fail(e)
  }

  function AtomScan(t: Text): (r: Scan<Json>)
    requires t != []
    ensures r.Got? ==> |r.rest| < |t|
  {
    var c := t[0];
    if c == QUOTE then
      match StringBody(t[1..], [])
      case Got(s, rest) => Got(Str(s), rest)
      case Fail(e) => Fail(e)
    else if IsDigit(c) || c == MINUS then NumberScan(t)
    else if c == 116 || c == 102 || c == 110 then KeywordScan(t)
    else Fail(BadStart)
  }

  datatype Next = Return(v: Json) | Continue(stack: seq<Json>) | Stop(e: Error)

  // What happens to a finished value: it is the result, an element of the innermost list, a
  // pending key of the innermost dictionary, or the value of the pending key.
  function Place(stack: seq<Json>, v: Json): Next
  {
    if stack == [] then Return(v)
    else
      var below, top := stack[..|stack| - 1], stack[|stack| - 1];
      match top
      case List(items) => Continue(below + [List(items + [v])])
      case Dict(_) => Continue(stack + [v])
      case Str(key) =>
        if below == [] then Stop(PopFromEmpty)
        else if !below[|below| - 1].Dict? then Stop(NotADictionary)
        else Continue(below[..|below| - 1] + [Dict(below[|below| - 1].m[key := v])])
      case _ => Stop(BadPlace)
  }

  function SkipBlanks(t: Text): (r: Text)
    ensures |r| <= |t|
    ensures r != [] ==> !IsBlank(r[0])
  {
    if t != [] && IsBlank(t[0]) then SkipBlanks(t[1..]) else t
  }

  // The machine from any point on: `t` is the text still ahead, starting with the character
  // already read if there is one.
  function Parse(t: Text, stack: seq<Json>): Result
    decreases |t|
  {
    var u := SkipBlanks(t);
    if u == [] then Err(UnexpectedEnd)
    else match Lex(u)
      case Fail(e) => Err(e)
      case Got(lexeme, rest) => Resume(Taken(lexeme, stack), rest)
  }

  // The effect of one lexeme on the stack.
  function Taken(lexeme: Lexeme, stack: seq<Json>): Next
  {
    match lexeme
    case Open(container) => Continue(stack + [container])
    case Separator => Continue(stack)
    case Atom(v) => Place(stack, v)
    case Close =>
      if stack == [] then Stop(PopFromEmpty)
      else Place(stack[..|stack| - 1], stack[|stack| - 1])
  }

  function Resume(next: Next, t: Text): Result
    decreases |t| + 1, 0
  {
    match next
    case Return(v) => Ok(v)
    case Stop(e) => Err(e)
    case Continue(stack) => Parse(t, stack)
  }

  // The result of loads on a whole source.
  function Loaded(s: Text): Result { Parse(s, []) }

  // ---------- the loops of loads ----------

  // The text ahead of a reader at position pos that may hold one character c read in advance.
  function Ahead(s: Text, pos: nat, c: nat, held: bool): Text
    requires pos <= |s|
  {
    if held then [c] + s[pos..] else s[pos..]
  }

  // Reads the characters of a string literal up to its closing quote.
  method ReadString(s: Text, start: nat) returns (r: Scan<Text>, pos: nat)
    requires start <= |s|
    ensures r == StringBody(s[start..], [])
    ensures pos <= |s| && (r.Got? ==> start < pos && r.rest == s[pos..])
  {
    var value: Text := [];
    pos := start;
    while pos < |s| && s[pos] != QUOTE
      invariant start <= pos <= |s|
      invariant StringBody(s[pos..], value) == StringBody(s[start..], [])
      decreases |s| - pos
    {
      var c := s[pos];
      StringAhead(s, pos, value);
      if c == BACKSLASH {
        if pos + 1 == |s| { return Fail(EndOfString), |s|; }
        var x := Unescaped(s[pos + 1]);
        if x.Some? {
          value := value + [x.value];
          pos := pos + 2;
        } else if s[pos + 1] == LETTER_U {
          if pos + 6 > |s| { return Fail(EndOfString), |s|; }
          x := CodePoint(s[pos + 2..pos + 6]);
          if x.None? { return Fail(BadConversion), pos; }
          value := value + [x.value];
          pos := pos + 6;
        } else {
          return Fail(BadEscape), pos;
        }
      } else {
        value := value + [c];
        pos := pos + 1;
      }
    }
    if pos == |s| {
      assert s[pos..] == [];
      return Fail(EndOfString), pos;
    }
    DropNext(s, pos);
    r, pos := Got(value, s[pos + 1..]), pos + 1;
  }

  // The rest of a string literal in terms of the source it lies in.
  lemma StringAhead(s: Text, pos: nat, acc: Text)
    requires pos < |s| && s[pos] != QUOTE
    ensures StringBody(s[pos..], acc) ==
      if s[pos] != BACKSLASH then StringBody(s[pos + 1..], acc + [s[pos]])
      else if pos + 1 == |s| then Fail(EndOfString)
      else match Unescaped(s[pos + 1])
        case Some(x) => StringBody(s[pos + 2..], acc + [x])
        case None =>
          if s[pos + 1] != LETTER_U then Fail(BadEscape)
          else if pos + 6 > |s| then Fail(EndOfString)
          else match CodePoint(s[pos + 2..pos + 6])
            case None => Fail(BadConversion)
            case Some(x) => StringBody(s[pos + 6..], acc + [x])
  {
    var t := s[pos..];
    assert t[0] == s[pos] && t[1..] == s[pos + 1..];
    if pos + 1 < |s| { assert t[1] == s[pos + 1] && t[2..] == s[pos + 2..]; }
    if pos + 6 <= |s| { assert t[2..6] == s[pos + 2..pos + 6] && t[6..] == s[pos + 6..]; }
  }

  // Collects digits.  On entry c is the character just read (s[start - 1]); on exit c is the last
  // one read, which is still a digit when the source ended.
  method ReadDigits(s: Text, start: nat, first: nat)
    returns (digits: Text, ended: bool, c: nat, pos: nat)
    requires start <= |s|
    ensures start <= pos <= |s|
    ensures ended ==> pos == |s|
    ensures DigitRun([first] + s[start..]) == Run(digits, ended, [c] + s[pos..])
  {
    digits, ended, c, pos := [], false, first, start;
    ghost var all := DigitRun([first] + s[start..]);
    while IsDigit(c) && !ended
      invariant start <= pos <= |s|
      invariant ended ==> pos == |s| && all == Run(digits, true, [c])
      invariant !ended ==> all == WithDigits(digits, DigitRun([c] + s[pos..]))
      decreases |s| - pos, if ended then 0 else 1
    {
      DigitTaken(digits, c, s, pos);
      digits := digits + [c];
      if pos == |s| {
        ended := true;
      } else {
        c, pos := s[pos], pos + 1;
      }
    }
    if ended { assert [c] + s[pos..] == [c]; }
  }

  function WithDigits(digits: Text, r: Run): Run { Run(digits + r.digits, r.ended, r.rest) }

  lemma DigitTaken(digits: Text, c: nat, s: Text, pos: nat)
    requires IsDigit(c) && pos <= |s|
    ensures WithDigits(digits, DigitRun([c] + s[pos..])) ==
      if pos == |s| then Run(digits + [c], true, [c])
      else WithDigits(digits + [c], DigitRun([s[pos]] + s[pos + 1..]))
  {
    var t := [c] + s[pos..];
    if pos == |s| {
      assert t == [c];
    } else {
      DropNext(s, pos);
      assert t[1..] == s[pos..];
      JoinAssociative(digits, [c], DigitRun(t[1..]).digits);
    }
  }

  // Reads what follows the exponent mark `c0`, which is s[start - 1].
  method ReadExponent(s: Text, start: nat, c0: nat, text: Text, mantissa: bool)
    returns (r: Scan<Json>, c: nat, pos: nat)
    requires start <= |s|
    ensures r == ExponentScan(c0, s[start..], text, mantissa)
    ensures start <= pos <= |s|
    ensures r.Got? ==> r.rest == [c] + s[pos..]
  {
    c, pos := c0, start;
    if pos == |s| { return FloatScan(false, text, [c]), c, pos; }
    c, pos := s[pos], pos + 1;
    if !IsSign(c) { return Fail(BadExponent), c, pos; }
    if pos == |s| {
      assert s[start..] == [c];
      return FloatScan(false, text + [c], [c]), c, pos;
    }
    assert s[start..][1..] == [s[pos]] + s[pos + 1..];
    var digits := text + [c];
    var run, ended;
    run, ended, c, pos := ReadDigits(s, pos + 1, s[pos]);
    r := FloatScan(mantissa && run != [], digits + run, [c] + s[pos..]);
  }

  // Reads what follows the dot of a number, which is s[start - 1].
  method ReadFraction(s: Text, start: nat, text: Text, mantissa: bool)
    returns (r: Scan<Json>, c: nat, pos: nat)
    requires start <= |s|
    ensures r == FractionScan(s[start..], text, mantissa)
    ensures start <= pos <= |s|
    ensures r.Got? ==> r.rest == [c] + s[pos..]
  {
    c, pos := DOT, start;
    if pos == |s| { return FloatScan(mantissa, text, [c]), c, pos; }
    assert s[pos..] == [s[pos]] + s[pos + 1..];
    var run, ended;
    run, ended, c, pos := ReadDigits(s, pos + 1, s[pos]);
    var seen := mantissa || run != [];
    if ended || !IsExponentMark(c) {
      return FloatScan(seen, text + run, [c] + s[pos..]), c, pos;
    }
    assert ([c] + s[pos..])[1..] == s[pos..];
    r, c, pos := ReadExponent(s, pos, c, text + run + [c], seen);
  }

  // Reads a number whose first character c0 is s[start - 1].  On success c is the last character
  // read, kept for the next round.
  method ReadNumber(s: Text, start: nat, c0: nat) returns (r: Scan<Json>, c: nat, pos: nat)
    requires start <= |s|
    ensures r == NumberScan([c0] + s[start..])
    ensures pos <= |s|
    ensures r.Got? ==> start < pos && r.rest == [c] + s[pos..]
  {
    c, pos := c0, start;
    ghost var t := [c0] + s[start..];
    if pos == |s| { return Fail(UnexpectedEnd), c, pos; }
    assert t[1..] == [s[start]] + s[start + 1..];
    var run, ended;
    run, ended, c, pos := ReadDigits(s, start + 1, s[start]);
    var digits := [c0] + run;
    if ended || c != DOT {
      return IntScan(digits, [c] + s[pos..]), c, pos;
    }
    assert ([c] + s[pos..])[1..] == s[pos..];
    r, c, pos := ReadFraction(s, pos, digits + [DOT], IsDigit(c0) || run != []);
  }

  // Reads past blanks.  `first` is the character just read (s[start - 1]); on success c is the
  // first character that is not blank.
  method ReadBlanks(s: Text, start: nat, first: nat) returns (found: bool, c: nat, pos: nat)
    requires start <= |s|
    ensures start <= pos <= |s|
    ensures SkipBlanks([first] + s[start..]) == if found then [c] + s[pos..] else []
    ensures found ==> !IsBlank(c)
  {
    c, pos := first, start;
    while IsBlank(c)
      invariant start <= pos <= |s|
      invariant SkipBlanks([c] + s[pos..]) == SkipBlanks([first] + s[start..])
      decreases |s| - pos
    {
      assert ([c] + s[pos..])[1..] == s[pos..];
      if pos == |s| { return false, c, pos; }
      assert s[pos..] == [s[pos]] + s[pos + 1..];
      c, pos := s[pos], pos + 1;
    }
    found := true;
  }

  // Reads the keyword whose first character c0 is s[start - 1].
  method ReadKeyword(s: Text, start: nat, c0: nat) returns (r: Scan<Json>, pos: nat)
    requires start <= |s|
    ensures r == KeywordScan([c0] + s[start..])
    ensures pos <= |s| && (r.Got? ==> start < pos && r.rest == s[pos..])
  {
    pos := start;
    if pos + 3 > |s| { return Fail(UnexpectedEnd), pos; }
    var kw := [c0] + s[pos..pos + 3];
    ghost var t := [c0] + s[pos..];
    assert t[..4] == kw && t[4..] == s[pos + 3..];
    pos := pos + 3;
    if kw == NULL_WORD { return Got(Null, s[pos..]), pos; }
    if kw == TRUE_WORD { return Got(Bool(true), s[pos..]), pos; }
    if kw != FALSE_WORD[..4] { return Fail(BadKeyword), pos; }
    if pos == |s| { return Fail(UnexpectedEnd), pos; }
    if s[pos] != FALSE_WORD[4] { return Fail(BadKeyword), pos; }
    assert t[5..] == s[pos + 1..];
    r, pos := Got(Bool(false), s[pos + 1..]), pos + 1;
  }

  // Reads a string, number or keyword whose first character c0 is s[start - 1].  `held` tells
  // whether the character c was read beyond the token.
  method ReadAtom(s: Text, start: nat, c0: nat) returns (r: Scan<Json>, c: nat, pos: nat, held: bool)
    requires start <= |s|
    ensures pos <= |s|
    ensures r == AtomScan([c0] + s[start..])
    ensures r.Got? ==> r.rest == Ahead(s, pos, c, held)
  {
    c, pos, held := c0, start, false;
    assert ([c0] + s[start..])[1..] == s[start..];
    if c0 == QUOTE {
      var text;
      text, pos := ReadString(s, pos);
      r := if text.Fail? then Fail(text.e) else Got(Str(text.value), text.rest);
    } else if IsDigit(c0) || c0 == MINUS {
      r, c, pos := ReadNumber(s, pos, c0);
      held := true;
    } else if c0 == 116 || c0 == 102 || c0 == 110 {
      r, pos := ReadKeyword(s, pos, c0);
    } else {
      r := Fail(BadStart);
    }
  }

  // Reads the lexeme whose first character c0 is s[start - 1].
  method ReadLexeme(s: Text, start: nat, c0: nat)
    returns (r: Scan<Lexeme>, c: nat, pos: nat, held: bool)
    requires start <= |s|
    ensures pos <= |s|
    ensures r == Lex([c0] + s[start..])
    ensures r.Got? ==> r.rest == Ahead(s, pos, c, held)
  {
    c, pos, held := c0, start, false;
    assert ([c0] + s[start..])[1..] == s[start..];
    if c0 == OPEN_DICT {
      r := Got(Open(Dict(map[])), s[pos..]);
    } else if c0 == OPEN_LIST {
      r := Got(Open(List([])), s[pos..]);
    } else if c0 == CLOSE_DICT || c0 == CLOSE_LIST {
      r := Got(Close, s[pos..]);
    } else if c0 == COMMA || c0 == COLON {
      r := Got(Separator, s[pos..]);
    } else {
      var atom;
      atom, c, pos, held := ReadAtom(s, pos, c0);
      r := if atom.Fail? then Fail(atom.e) else Got(Atom(atom.value), atom.rest);
    }
  }

  method Loads(s: Text) returns (r: Result)
    ensures r == Loaded(s)
  {
    var stack: seq<Json> := [];
    var pos, c, currCharIsNext := 0, 0, false;
    assert s[0..] == s;
    while true
      invariant pos <= |s|
      invariant Parse(Ahead(s, pos, c, currCharIsNext), stack) == Loaded(s)
      decreases |s| - pos + if currCharIsNext then 1 else 0
    {
      ghost var ahead := Ahead(s, pos, c, currCharIsNext);
      if !currCharIsNext {
        if pos == |s| { return Err(UnexpectedEnd); }
        assert s[pos..] == [s[pos]] + s[pos + 1..];
        c, pos := s[pos], pos + 1;
      }
      var found, lexeme;
      found, c, pos := ReadBlanks(s, pos, c);
      if !found { return Err(UnexpectedEnd); }
      lexeme, c, pos, currCharIsNext := ReadLexeme(s, pos, c);
      if lexeme.Fail? { return Err(lexeme.e); }
      var next := Taken(lexeme.value, stack);
      match next
      case Return(v) => return Ok(v);
      case Stop(e) => return Err(e);
      case Continue(st) => stack := st;
    }
  }
}
