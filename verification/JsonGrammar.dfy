// The grammar of the printed text, spelled out in code points.  It shares no name with the
// printer or the parser but the objects.

module JsonGrammar {
  import opened JsonData
  import opened Sequences
  import JsonPrinter

  // Pieces one after the other, and pieces separated by one character.
  function Flat(pieces: seq<Text>): Text
  {
    if pieces == [] then [] else pieces[0] + Flat(pieces[1..])
  }

  function Separated(sep: nat, pieces: seq<Text>): Text
  {
    if pieces == [] then []
    else if |pieces| == 1 then pieces[0]
    else pieces[0] + [sep] + Separated(sep, pieces[1..])
  }

  // ---------- characters and strings ----------

  predicate IsHexDigit(c: nat) { 0x30 <= c <= 0x39 || 0x61 <= c <= 0x66 }

  function HexWorth(c: nat): int { if c <= 0x39 then c - 0x30 else c - 0x61 + 10 }

  // The two-character escapes: backspace, tab, line feed, form feed, carriage return, quotation
  // mark, solidus and reverse solidus.
  predicate IsShortEscape(letter: nat, c: nat)
  {
    || (letter == 0x62 && c == 0x08) || (letter == 0x74 && c == 0x09)
    || (letter == 0x6E && c == 0x0A) || (letter == 0x66 && c == 0x0C)
    || (letter == 0x72 && c == 0x0D) || (letter == 0x22 && c == 0x22)
    || (letter == 0x2F && c == 0x2F) || (letter == 0x5C && c == 0x5C)
  }

  predicate HasShortEscape(c: nat) { c in {0x08, 0x09, 0x0A, 0x0C, 0x0D, 0x22, 0x2F, 0x5C} }

  // How one character is written: by its short escape; else, up to U+0019, by a reverse solidus,
  // the letter u and four lower-case hexadecimal digits; else by itself.
  predicate IsChar(piece: Text, c: nat)
  {
    if HasShortEscape(c) then
      |piece| == 2 && piece[0] == 0x5C && IsShortEscape(piece[1], c)
    else if c <= 0x19 then
      && |piece| == 6 && piece[0] == 0x5C && piece[1] == 0x75
      && (forall i :: 2 <= i < 6 ==> IsHexDigit(piece[i]))
      && c == 0x1000 * HexWorth(piece[2]) + 0x100 * HexWorth(piece[3]) + 0x10 * HexWorth(piece[4]) + HexWorth(piece[5])
    else piece == [c]
  }

  ghost predicate IsString(s: Text, x: Text)
  {
    exists pieces: seq<Text> ::
      && |pieces| == |x| && (forall i :: 0 <= i < |x| ==> IsChar(pieces[i], x[i]))
      && s == [0x22] + Flat(pieces) + [0x22]
  }

  // ---------- numbers ----------

  // The value of decimal digits, the last one counting least.
  function Worth(digits: Text): int
  {
    if digits == [] then 0 else 10 * Worth(digits[..|digits| - 1]) + digits[|digits| - 1] - 0x30
  }

  // Decimal digits without a leading zero.
  predicate IsNatural(s: Text, n: nat)
  {
    && s != [] && (forall i :: 0 <= i < |s| ==> 0x30 <= s[i] <= 0x39)
    && (|s| > 1 ==> s[0] != 0x30) && Worth(s) == n
  }

  predicate IsInteger(s: Text, n: int)
  {
    if n < 0 then s != [] && s[0] == 0x2D && IsNatural(s[1..], -n) else IsNatural(s, n)
  }

  // ---------- values ----------

  // s is the text of the object t: null, true, false, a number, a string in quotation marks,
  // values between square brackets separated by commas, or members, each a string, a colon and a
  // value, between curly brackets separated by commas.
  ghost predicate IsJson(s: Text, t: Tree)
    decreases t
  {
    match t
    case NullObj => s == [0x6E, 0x75, 0x6C, 0x6C]
    case BoolObj(b) => s == if b then [0x74, 0x72, 0x75, 0x65] else [0x66, 0x61, 0x6C, 0x73, 0x65]
    case IntObj(n) => IsInteger(s, n)
    case StrObj(x) => IsString(s, x)
    case ListObj(items) =>
      exists values: seq<Text> ::
        && |values| == |items| && (forall i :: 0 <= i < |items| ==> IsJson(values[i], items[i]))
        && s == [0x5B] + Separated(0x2C, values) + [0x5D]
    case DictObj(entries) =>
      exists keys: seq<Text>, values: seq<Text> ::
        && |keys| == |values| == |entries|
        && (forall i :: 0 <= i < |entries| ==> IsString(keys[i], entries[i].key))
        && (forall i :: 0 <= i < |entries| ==> IsJson(values[i], entries[i].value))
        && s == [0x7B] + Separated(0x2C, Members(keys, values)) + [0x7D]
  }

  function Members(keys: seq<Text>, values: seq<Text>): seq<Text>
    requires |keys| == |values|
  {
    seq(|keys|, i requires 0 <= i < |keys| => keys[i] + [0x3A] + values[i])
  }

  // ---------- the printer follows the grammar, and nothing else does ----------

  lemma CharText(piece: Text, c: nat)
    ensures IsChar(piece, c) <==> piece == JsonPrinter.Shown(c)
  {
    if !HasShortEscape(c) && c <= 0x19 {
      var shown := JsonPrinter.Shown(c);
      assert shown == [0x5C, 0x75, 0x30, 0x30, JsonPrinter.HexDigit(c / 16), JsonPrinter.HexDigit(c % 16)];
      if IsChar(piece, c) { HexText(piece, c); }
    }
  }

  lemma HexText(piece: Text, c: nat)
    requires IsChar(piece, c) && !HasShortEscape(c) && c <= 0x19
    ensures piece == [0x5C, 0x75, 0x30, 0x30, JsonPrinter.HexDigit(c / 16), JsonPrinter.HexDigit(c % 16)]
  {
    assert IsHexDigit(piece[2]) && IsHexDigit(piece[3]) && IsHexDigit(piece[4]) && IsHexDigit(piece[5]);
    assert HexWorth(piece[2]) == 0 && HexWorth(piece[3]) == 0;
    assert c / 16 == HexWorth(piece[4]) && c % 16 == HexWorth(piece[5]);
  }

  function Pieces(x: Text): seq<Text>
  {
    seq(|x|, i requires 0 <= i < |x| => JsonPrinter.Shown(x[i]))
  }

  lemma {:induction false} PiecesAreEscaped(x: Text)
    ensures Flat(Pieces(x)) == JsonPrinter.EscapeText(x)
  {
    if x != [] {
      assert Pieces(x)[1..] == Pieces(x[1..]);
      PiecesAreEscaped(x[1..]);
    }
  }

  lemma StringText(s: Text, x: Text)
    ensures IsString(s, x) <==> s == [JsonPrinter.QUOTE] + JsonPrinter.EscapeText(x) + [JsonPrinter.QUOTE]
  {
    PiecesAreEscaped(x);
    forall i | 0 <= i < |x| ensures IsChar(Pieces(x)[i], x[i]) { CharText(Pieces(x)[i], x[i]); }
    if IsString(s, x) {
      var pieces: seq<Text> :| |pieces| == |x| && (forall i :: 0 <= i < |x| ==> IsChar(pieces[i], x[i]))
        && s == [0x22] + Flat(pieces) + [0x22];
      forall i | 0 <= i < |x| ensures pieces[i] == Pieces(x)[i] { CharText(pieces[i], x[i]); }
      assert pieces == Pieces(x);
    }
  }

  lemma {:induction false} NaturalText(s: Text, n: nat)
    ensures IsNatural(s, n) <==> s == JsonPrinter.Decimal(n)
    decreases |s| + n
  {
    DecimalIsNatural(n);
    if IsNatural(s, n) { NaturalUnique(s, n); }
  }

  lemma {:induction false} DecimalIsNatural(n: nat)
    ensures IsNatural(JsonPrinter.Decimal(n), n)
    ensures n > 0 ==> JsonPrinter.Decimal(n)[0] != 0x30
  {
    var s := JsonPrinter.Decimal(n);
    if n < 10 {
      assert s == [0x30 + n] && s[..0] == [];
    } else {
      DecimalIsNatural(n / 10);
      assert s[..|s| - 1] == JsonPrinter.Decimal(n / 10);
    }
  }

  lemma {:induction false} WorthPositive(s: Text)
    requires forall i :: 0 <= i < |s| ==> 0x30 <= s[i] <= 0x39
    ensures Worth(s) >= 0 && (s != [] && s[0] != 0x30 ==> Worth(s) > 0)
  {
    if s != [] { WorthPositive(s[..|s| - 1]); }
  }

  lemma {:induction false} NaturalUnique(s: Text, n: nat)
    requires IsNatural(s, n)
    ensures s == JsonPrinter.Decimal(n)
    decreases |s|
  {
    var front, last := s[..|s| - 1], s[|s| - 1];
    assert s == front + [last];
    if front == [] {
      assert Worth(front) == 0;
    } else {
      WorthPositive(front);
      assert n / 10 == Worth(front) && n % 10 == last - 0x30;
      NaturalUnique(front, n / 10);
    }
  }

  lemma IntegerText(s: Text, n: int)
    ensures IsInteger(s, n) <==> s == JsonPrinter.IntText(n)
  {
    if n < 0 {
      var printed := JsonPrinter.IntText(n);
      assert printed[1..] == JsonPrinter.Decimal(-n);
      if s != [] {
        NaturalText(s[1..], -n);
        assert s == [s[0]] + s[1..];
      }
      NaturalText(printed[1..], -n);
    } else {
      NaturalText(s, n);
    }
  }

  function ItemTexts(items: seq<Tree>): seq<Text>
  {
    seq(|items|, i requires 0 <= i < |items| => JsonPrinter.Dumps(items[i]))
  }

  function KeyText(x: Text): Text
  {
    [JsonPrinter.QUOTE] + JsonPrinter.EscapeText(x) + [JsonPrinter.QUOTE]
  }

  function KeyTexts(entries: seq<Entry>): seq<Text>
  {
    seq(|entries|, i requires 0 <= i < |entries| => KeyText(entries[i].key))
  }

  function ValueTexts(entries: seq<Entry>): seq<Text>
  {
    seq(|entries|, i requires 0 <= i < |entries| => JsonPrinter.Dumps(entries[i].value))
  }

  function MemberTexts(entries: seq<Entry>): seq<Text>
  {
    Members(KeyTexts(entries), ValueTexts(entries))
  }

  lemma MemberText(e: Entry)
    ensures JsonPrinter.DumpEntry(e) == KeyText(e.key) + [0x3A] + JsonPrinter.Dumps(e.value)
  {
  }

  function AfterComma(pieces: seq<Text>): Text
  {
    if pieces == [] then [] else [0x2C] + Separated(0x2C, pieces)
  }

  lemma SeparatedFront(first: Text, others: seq<Text>)
    ensures Separated(0x2C, [first] + others) == first + AfterComma(others)
  {
    var all := [first] + others;
    assert all[1..] == others;
    if others == [] {
      assert first + [] == first;
    } else {
      JoinAssociative(first, [0x2C], Separated(0x2C, others));
    }
  }

  lemma PrintedFront(first: Text, others: Text)
    ensures [] + first + others == first + others
    ensures [0x2C] + first + others == [0x2C] + (first + others)
  {
  }

  lemma {:induction false} ItemsSeparated(items: seq<Tree>)
    ensures JsonPrinter.DumpItems(items, true) == Separated(0x2C, ItemTexts(items))
    ensures JsonPrinter.DumpItems(items, false) == AfterComma(ItemTexts(items))
  {
    if items != [] {
      var first, others := JsonPrinter.Dumps(items[0]), ItemTexts(items[1..]);
      assert ItemTexts(items) == [first] + others;
      ItemsSeparated(items[1..]);
      SeparatedFront(first, others);
      PrintedFront(first, AfterComma(others));
    }
  }

  lemma {:induction false} MembersSeparated(entries: seq<Entry>)
    ensures JsonPrinter.DumpEntries(entries, true) == Separated(0x2C, MemberTexts(entries))
    ensures JsonPrinter.DumpEntries(entries, false) == AfterComma(MemberTexts(entries))
  {
    if entries != [] {
      var first, others := JsonPrinter.DumpEntry(entries[0]), MemberTexts(entries[1..]);
      MemberText(entries[0]);
      assert MemberTexts(entries) == [first] + others;
      MembersSeparated(entries[1..]);
      SeparatedFront(first, others);
      PrintedFront(first, AfterComma(others));
    }
  }

  // The printed text of an object is the one text the grammar gives it.
  lemma {:induction false} DumpsIsTheText(s: Text, t: Tree)
    ensures IsJson(s, t) <==> s == JsonPrinter.Dumps(t)
    decreases t
  {
    match t
    case IntObj(n) => IntegerText(s, n);
    case StrObj(x) => StringText(s, x);
    case ListObj(items) => ListText(s, items);
    case DictObj(entries) => DictText(s, entries);
    case _ =>
  }

  lemma {:induction false} ListText(s: Text, items: seq<Tree>)
    ensures IsJson(s, ListObj(items)) <==> s == JsonPrinter.Dumps(ListObj(items))
    decreases items
  {
    ItemsSeparated(items);
    var texts := ItemTexts(items);
    forall i | 0 <= i < |items| ensures IsJson(texts[i], items[i]) { DumpsIsTheText(texts[i], items[i]); }
    if IsJson(s, ListObj(items)) {
      var values: seq<Text> :| |values| == |items| && (forall i :: 0 <= i < |items| ==> IsJson(values[i], items[i]))
        && s == [0x5B] + Separated(0x2C, values) + [0x5D];
      forall i | 0 <= i < |items| ensures values[i] == texts[i] { DumpsIsTheText(values[i], items[i]); }
      assert values == texts;
    }
  }

  lemma {:induction false} DictText(s: Text, entries: seq<Entry>)
    ensures IsJson(s, DictObj(entries)) <==> s == JsonPrinter.Dumps(DictObj(entries))
    decreases entries, 1
  {
    MembersSeparated(entries);
    var keyTexts, texts := KeyTexts(entries), ValueTexts(entries);
    forall i | 0 <= i < |entries|
      ensures IsString(keyTexts[i], entries[i].key) && IsJson(texts[i], entries[i].value)
    {
      StringText(keyTexts[i], entries[i].key);
      DumpsIsTheText(texts[i], entries[i].value);
    }
    if IsJson(s, DictObj(entries)) { DictUnique(s, entries); }
  }

  lemma {:induction false} DictUnique(s: Text, entries: seq<Entry>)
    requires IsJson(s, DictObj(entries))
    ensures s == [0x7B] + Separated(0x2C, MemberTexts(entries)) + [0x7D]
    decreases entries, 0
  {
    var keys: seq<Text>, values: seq<Text> :|
      && |keys| == |values| == |entries|
      && (forall i :: 0 <= i < |entries| ==> IsString(keys[i], entries[i].key))
      && (forall i :: 0 <= i < |entries| ==> IsJson(values[i], entries[i].value))
      && s == [0x7B] + Separated(0x2C, Members(keys, values)) + [0x7D];
    forall i | 0 <= i < |entries| ensures keys[i] == KeyTexts(entries)[i] && values[i] == ValueTexts(entries)[i] {
      StringText(keys[i], entries[i].key);
      DumpsIsTheText(values[i], entries[i].value);
    }
    assert keys == KeyTexts(entries) && values == ValueTexts(entries);
  }
}
