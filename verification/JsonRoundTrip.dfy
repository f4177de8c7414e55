// loads undoes dumps, with blanks between the tokens and text after the value.

module JsonRoundTrip {
  import opened JsonData
  import opened JsonPrinter
  import opened JsonParser
  import opened Sequences
  import opened Wrappers

  // ---------- tokens of a printed value ----------

  // A Leaf holds an object that prints as one token: anything but a list or a dictionary.
  datatype Token = OpenToken(c: nat) | CloseToken(c: nat) | SeparatorToken(c: nat) | Leaf(t: Tree)
  {
    predicate Valid() {
      match this
      case OpenToken(c) => c == OPEN_LIST || c == OPEN_DICT
      case CloseToken(c) => c == CLOSE_LIST || c == CLOSE_DICT
      case SeparatorToken(c) => c == COMMA || c == COLON
      case Leaf(t) => !t.ListObj? && !t.DictObj?
    }

    predicate IsInt() { Leaf? && t.IntObj? }

    function Text(): Text
    {
      match this
      case OpenToken(c) => [c]
      case CloseToken(c) => [c]
      case SeparatorToken(c) => [c]
      case Leaf(t) => Dumps(t)
    }

    function Lexeme(): Lexeme
    {
      match this
      case OpenToken(c) => Open(if c == OPEN_DICT then Dict(map[]) else List([]))
      case CloseToken(_) => Close
      case SeparatorToken(_) => Separator
      case Leaf(t) => Atom(Value(t))
    }
  }

  function CommaUnless(isFirst: bool): seq<Token>
  {
    if isFirst then [] else [SeparatorToken(COMMA)]
  }

  function Tokens(t: Tree): seq<Token>
    decreases t, 1
  {
    match t
    case ListObj(items) => [OpenToken(OPEN_LIST)] + ItemTokens(items, true) + [CloseToken(CLOSE_LIST)]
    case DictObj(entries) =>
      [OpenToken(OPEN_DICT)] + EntryTokens(entries, true) + [CloseToken(CLOSE_DICT)]
    case _ => [Leaf(t)]
  }

  function ItemTokens(items: seq<Tree>, isFirst: bool): seq<Token>
    decreases items, 0
  {
    if items == [] then []
    else CommaUnless(isFirst) + Tokens(items[0])
         + ItemTokens(items[1..], false)
  }

  function EntryTokens(entries: seq<Entry>, isFirst: bool): seq<Token>
    decreases entries, 0
  {
    if entries == [] then []
    else CommaUnless(isFirst) + OneEntryTokens(entries[0])
         + EntryTokens(entries[1..], false)
  }

  function OneEntryTokens(e: Entry): seq<Token>
    decreases e, 2
  {
    [Leaf(StrObj(e.key)), SeparatorToken(COLON)] + Tokens(e.value)
  }

  // The tokens written one after the other, gaps[i] before token i.
  function Layout(tokens: seq<Token>, gaps: seq<Text>): Text
    requires |gaps| == |tokens|
  {
    if tokens == [] then [] else gaps[0] + tokens[0].Text() + Layout(tokens[1..], gaps[1..])
  }

  predicate Blank(gap: Text) { forall i :: 0 <= i < |gap| ==> IsBlank(gap[i]) }

  predicate AllBlank(gaps: seq<Text>) { forall i :: 0 <= i < |gaps| ==> Blank(gaps[i]) }

  function NoGaps(n: nat): (gaps: seq<Text>)
    ensures |gaps| == n && forall i :: 0 <= i < n ==> gaps[i] == []
  {
    seq(n, i => [])
  }

  // A text that cannot prolong a number: it starts with neither a digit nor a dot.
  predicate EndsNumber(t: Text) { t != [] && !IsDigit(t[0]) && t[0] != DOT }

  // ---------- lexing one token ----------

  lemma HexDigitsRead(c: nat)
    requires c < 32
    ensures CodePoint([ZERO, ZERO, HexDigit(c / 16), HexDigit(c % 16)]) == Some(c)
  {
    var d: Text := [ZERO, ZERO, HexDigit(c / 16), HexDigit(c % 16)];
    assert LStripped(d) == d && RStripped(d) == d;
    assert d[..3] == [ZERO, ZERO, HexDigit(c / 16)];
    assert d[..3][..2] == [ZERO, ZERO];
    assert d[..3][..2][..1] == [ZERO];
    assert d[..3][..2][..1][..0] == [];
    assert HexNumber([ZERO]) == Some(0);
    assert HexNumber([ZERO, ZERO]) == Some(0);
    assert HexNumber(d[..3]) == Some(c / 16);
    assert HexNumber(d) == Some(16 * (c / 16) + c % 16);
  }

  lemma EscapedCharRead(c: nat, tail: Text, acc: Text)
    ensures StringBody(Shown(c) + tail, acc) == StringBody(tail, acc + [c])
  {
    var t := Shown(c) + tail;
    if Replacement(c) != 0 {
      assert t[2..] == tail;
      assert Unescaped(t[1]) == Some(c);
    } else if Matches(c) {
      HexDigitsRead(c);
      assert t[2..6] == [ZERO, ZERO, HexDigit(c / 16), HexDigit(c % 16)];
      assert t[6..] == tail;
    } else {
      assert t[1..] == tail;
    }
  }

  lemma {:induction false} EscapedTextRead(s: Text, tail: Text, acc: Text)
    ensures StringBody(EscapeText(s) + [QUOTE] + tail, acc) == Got(acc + s, tail)
    decreases |s|
  {
    if s == [] {
      assert EscapeText(s) + [QUOTE] + tail == [QUOTE] + tail;
      assert ([QUOTE] + tail)[1..] == tail;
      assert acc + s == acc;
    } else {
      var rest := EscapeText(s[1..]) + [QUOTE] + tail;
      assert EscapeText(s) + [QUOTE] + tail == Shown(s[0]) + rest;
      EscapedCharRead(s[0], rest, acc);
      EscapedTextRead(s[1..], tail, acc + [s[0]]);
      assert acc + [s[0]] + s[1..] == acc + s;
    }
  }

  lemma {:induction false} DecimalDigits(n: nat)
    ensures Decimal(n) != [] && forall i :: 0 <= i < |Decimal(n)| ==> IsDigit(Decimal(n)[i])
    ensures DecimalValue(Decimal(n)) == n
    ensures |Decimal(n)| == 1 <==> n < 10
  {
    if n < 10 {
      assert [ZERO + n][..0] == [];
      assert DecimalValue([]) == 0;
    } else {
      DecimalDigits(n / 10);
      assert Decimal(n)[..|Decimal(n)| - 1] == Decimal(n / 10);
    }
  }

  lemma {:induction false} DigitsRead(ds: Text, tail: Text)
    requires forall i :: 0 <= i < |ds| ==> IsDigit(ds[i])
    requires EndsNumber(tail)
    ensures DigitRun(ds + tail) == Run(ds, false, tail)
    decreases |ds|
  {
    if ds == [] {
      assert ds + tail == tail;
    } else {
      assert (ds + tail)[1..] == ds[1..] + tail;
      DigitsRead(ds[1..], tail);
    }
  }

  lemma {:induction false} LastDigitsRead(ds: Text)
    requires ds != [] && forall i :: 0 <= i < |ds| ==> IsDigit(ds[i])
    ensures DigitRun(ds) == Run(ds, true, [ds[|ds| - 1]])
    decreases |ds|
  {
    if |ds| > 1 { LastDigitsRead(ds[1..]); }
  }

  // int() of what IntText printed.
  lemma IntTextValue(n: int)
    ensures IntText(n) != [] && (IsDigit(IntText(n)[0]) || IntText(n)[0] == MINUS)
    ensures forall i :: 1 <= i < |IntText(n)| ==> IsDigit(IntText(n)[i])
    ensures IntValue(IntText(n)) == Some(n)
    ensures |IntText(n)| == 1 <==> 0 <= n <= 9
  {
    if n < 0 {
      DecimalDigits(-n);
      assert IntText(n)[1..] == Decimal(-n);
    } else {
      DecimalDigits(n);
    }
  }

  lemma IntRead(n: int, tail: Text)
    requires EndsNumber(tail)
    ensures NumberScan(IntText(n) + tail) == Got(Int(n), tail)
  {
    IntTextValue(n);
    var t := IntText(n);
    assert (t + tail)[1..] == t[1..] + tail;
    DigitsRead(t[1..], tail);
    assert [t[0]] + t[1..] == t;
  }

  // A number that ends the source is read unless it has one character only.
  lemma LastIntRead(n: int)
    ensures NumberScan(IntText(n)) ==
            if 0 <= n <= 9 then Fail(UnexpectedEnd)
            else Got(Int(n), [IntText(n)[|IntText(n)| - 1]])
  {
    IntTextValue(n);
    var t := IntText(n);
    if |t| > 1 {
      LastDigitsRead(t[1..]);
      assert [t[0]] + t[1..] == t;
    }
  }

  lemma StringRead(s: Text, tail: Text)
    ensures AtomScan([QUOTE] + EscapeText(s) + [QUOTE] + tail) == Got(Str(s), tail)
  {
    assert ([QUOTE] + EscapeText(s) + [QUOTE] + tail)[1..] == EscapeText(s) + [QUOTE] + tail;
    EscapedTextRead(s, tail, []);
    assert [] + s == s;
  }

  lemma KeywordsRead(tail: Text)
    ensures KeywordScan(NULL_WORD + tail) == Got(Null, tail)
    ensures KeywordScan(TRUE_WORD + tail) == Got(Bool(true), tail)
    ensures KeywordScan(FALSE_WORD + tail) == Got(Bool(false), tail)
  {
    var n, t, f := NULL_WORD + tail, TRUE_WORD + tail, FALSE_WORD + tail;
    assert n[..4] == NULL_WORD && n[4..] == tail;
    assert t[..4] == TRUE_WORD && t[4..] == tail && TRUE_WORD[0] != NULL_WORD[0];
    assert f[..4] == FALSE_WORD[..4] && f[..4][0] == 102 && f[4] == FALSE_WORD[4] && f[5..] == tail;
  }

  lemma LeafRead(t: Tree, tail: Text)
    requires !t.ListObj? && !t.DictObj?
    requires t.IntObj? ==> EndsNumber(tail)
    ensures Dumps(t) != [] && AtomScan(Dumps(t) + tail) == Got(Value(t), tail)
    ensures Dumps(t)[0] !in {OPEN_DICT, OPEN_LIST, CLOSE_DICT, CLOSE_LIST, COMMA, COLON}
    ensures !IsBlank(Dumps(t)[0])
  {
    match t
    case StrObj(s) => StringRead(s, tail);
    case IntObj(n) =>
      IntTextValue(n);
      IntRead(n, tail);
    case _ => KeywordsRead(tail);
  }

  lemma TokenRead(token: Token, tail: Text)
    requires token.Valid()
    requires token.IsInt() ==> EndsNumber(tail)
    ensures token.Text() != [] && !IsBlank(token.Text()[0])
    ensures Lex(token.Text() + tail) == Got(token.Lexeme(), tail)
  {
    match token
    case Leaf(t) => LeafRead(t, tail);
    case OpenToken(_) | CloseToken(_) | SeparatorToken(_) =>
      assert (token.Text() + tail)[1..] == tail;
  }

  lemma {:induction false} BlanksSkipped(gap: Text, t: Text)
    requires Blank(gap)
    ensures SkipBlanks(gap + t) == SkipBlanks(t)
    decreases |gap|
  {
    if gap == [] {
      assert gap + t == t;
    } else {
      assert (gap + t)[1..] == gap[1..] + t;
      BlanksSkipped(gap[1..], t);
    }
  }

  // ---------- the machine on tokens ----------

  // The stack machine fed with tokens, then with the text after them.
  function Fed(tokens: seq<Token>, stack: seq<Json>, tail: Text): Result
    decreases |tokens|, 0
  {
    if tokens == [] then Parse(tail, stack) else FedNext(Taken(tokens[0].Lexeme(), stack), tokens[1..], tail)
  }

  function FedNext(next: Next, tokens: seq<Token>, tail: Text): Result
    decreases |tokens|, 1
  {
    match next
    case Return(v) => Ok(v)
    case Stop(e) => Err(e)
    case Continue(stack) => Fed(tokens, stack, tail)
  }

  predicate AllValid(tokens: seq<Token>) { forall i :: 0 <= i < |tokens| ==> tokens[i].Valid() }

  // No integer is directly followed by another leaf.
  predicate Apart(tokens: seq<Token>)
  {
    forall i :: 0 <= i < |tokens| - 1 && tokens[i].IsInt() ==> !tokens[i + 1].Leaf?
  }

  lemma LayoutEndsNumber(tokens: seq<Token>, gaps: seq<Text>, tail: Text)
    requires |gaps| == |tokens| && AllBlank(gaps) && AllValid(tokens)
    requires tokens == [] || !tokens[0].Leaf?
    requires tokens == [] ==> EndsNumber(tail)
    ensures EndsNumber(Layout(tokens, gaps) + tail)
  {
    if tokens != [] {
      assert Blank(gaps[0]);
      assert (gaps[0] + tokens[0].Text())[0] == if gaps[0] == [] then tokens[0].Text()[0] else gaps[0][0];
    }
  }

  lemma LayoutTail(tokens: seq<Token>, gaps: seq<Text>)
    requires tokens != [] && |gaps| == |tokens|
    requires AllBlank(gaps) && AllValid(tokens) && Apart(tokens)
    ensures AllBlank(gaps[1..]) && AllValid(tokens[1..]) && Apart(tokens[1..])
    ensures tokens[0].IsInt() && |tokens| > 1 ==> !tokens[1].Leaf?
  {
    forall i | 0 <= i < |gaps[1..]| ensures Blank(gaps[1..][i]) { assert Blank(gaps[i + 1]); }
    forall i | 0 <= i < |tokens[1..]| - 1 && tokens[1..][i].IsInt() ensures !tokens[1..][i + 1].Leaf? {
      assert tokens[i + 1].IsInt();
    }
    if tokens[0].IsInt() && |tokens| > 1 { assert !tokens[0 + 1].Leaf?; }
  }

  // The machine reads one token behind blanks.
  lemma ParseToken(gap: Text, token: Token, rest: Text, stack: seq<Json>)
    requires Blank(gap) && token.Valid()
    requires token.IsInt() ==> EndsNumber(rest)
    ensures Parse(gap + (token.Text() + rest), stack) == Resume(Taken(token.Lexeme(), stack), rest)
  {
    TokenRead(token, rest);
    BlanksSkipped(gap, token.Text() + rest);
    assert SkipBlanks(token.Text() + rest) == token.Text() + rest;
  }

  // Lexing: the character machine on laid out tokens is the token machine.
  lemma {:induction false} LayoutFed(tokens: seq<Token>, gaps: seq<Text>, stack: seq<Json>, tail: Text)
    requires |gaps| == |tokens| && AllBlank(gaps) && AllValid(tokens) && Apart(tokens)
    requires tokens != [] && tokens[|tokens| - 1].IsInt() ==> EndsNumber(tail)
    ensures Parse(Layout(tokens, gaps) + tail, stack) == Fed(tokens, stack, tail)
    decreases |tokens|
  {
    if tokens == [] {
      assert Layout(tokens, gaps) + tail == tail;
    } else {
      var token, rest := tokens[0], Layout(tokens[1..], gaps[1..]) + tail;
      LayoutTail(tokens, gaps);
      if token.IsInt() { LayoutEndsNumber(tokens[1..], gaps[1..], tail); }
      assert Layout(tokens, gaps) + tail == gaps[0] + (token.Text() + rest);
      assert Blank(gaps[0]);
      ParseToken(gaps[0], token, rest, stack);
      match Taken(token.Lexeme(), stack)
      case Continue(st) => LayoutFed(tokens[1..], gaps[1..], st, tail);
      case _ =>
    }
  }

  // ---------- parsing: the tokens of a value deliver it ----------

  // Feeding the tokens of t on any stack is delivering its value there.
  lemma {:induction false} ValueFed(t: Tree, more: seq<Token>, stack: seq<Json>, tail: Text)
    ensures Fed(Tokens(t) + more, stack, tail) == FedNext(Place(stack, Value(t)), more, tail)
    decreases t, 1
  {
    var tokens := Tokens(t) + more;
    match t
    case ListObj(items) =>
      var inner := ItemTokens(items, true) + ([CloseToken(CLOSE_LIST)] + more);
      assert tokens == [OpenToken(OPEN_LIST)] + inner;
      assert tokens[1..] == inner;
      ItemsFed(items, true, [], more, stack, tail);
      assert [] + Values(items) == Values(items);
    case DictObj(entries) =>
      var inner := EntryTokens(entries, true) + ([CloseToken(CLOSE_DICT)] + more);
      assert tokens == [OpenToken(OPEN_DICT)] + inner;
      assert tokens[1..] == inner;
      EntriesFed(entries, true, map[], more, stack, tail);
    case _ =>
      assert tokens[1..] == more;
  }

  lemma CommaFed(isFirst: bool, front: seq<Token>, stack: seq<Json>, tail: Text)
    ensures Fed(CommaUnless(isFirst) + front, stack, tail) == Fed(front, stack, tail)
  {
    if isFirst {
      assert CommaUnless(isFirst) + front == front;
    } else {
      assert (CommaUnless(isFirst) + front)[1..] == front;
    }
  }

  // The bracket or brace completes the container under construction on top.
  lemma CloseFed(code: nat, top: Json, more: seq<Token>, stack: seq<Json>, tail: Text)
    ensures Fed([CloseToken(code)] + more, stack + [top], tail) == FedNext(Place(stack, top), more, tail)
  {
    var tokens, open := [CloseToken(code)] + more, stack + [top];
    assert tokens[1..] == more && open[..|open| - 1] == stack;
  }

  // With a list under construction on top, its remaining items and its bracket complete it.
  lemma {:induction false} ItemsFed(items: seq<Tree>, isFirst: bool, acc: seq<Json>,
                                    more: seq<Token>, stack: seq<Json>, tail: Text)
    ensures Fed(ItemTokens(items, isFirst) + ([CloseToken(CLOSE_LIST)] + more), stack + [List(acc)], tail)
         == FedNext(Place(stack, List(acc + Values(items))), more, tail)
    decreases items, 0
  {
    var closing := [CloseToken(CLOSE_LIST)] + more;
    if items == [] {
      assert ItemTokens(items, isFirst) + closing == closing;
      assert acc + Values(items) == acc;
      CloseFed(CLOSE_LIST, List(acc), more, stack, tail);
    } else {
      var first, others := items[0], ItemTokens(items[1..], false);
      Regrouped(CommaUnless(isFirst), Tokens(first), others, closing);
      CommaFed(isFirst, Tokens(first) + (others + closing), stack + [List(acc)], tail);
      ItemFed(first, acc, others + closing, stack, tail);
      ItemsFed(items[1..], false, acc + [Value(first)], more, stack, tail);
      JoinAssociative(acc, [Value(first)], Values(items[1..]));
    }
  }

  // One item is appended to the list.
  lemma {:induction false} ItemFed(item: Tree, acc: seq<Json>, others: seq<Token>, stack: seq<Json>, tail: Text)
    ensures Fed(Tokens(item) + others, stack + [List(acc)], tail)
         == Fed(others, stack + [List(acc + [Value(item)])], tail)
    decreases item, 2
  {
    var open := stack + [List(acc)];
    ValueFed(item, others, open, tail);
    assert open[..|open| - 1] == stack;
  }

  // With a dictionary under construction on top, its remaining entries and its brace complete it.
  lemma {:induction false} EntriesFed(entries: seq<Entry>, isFirst: bool, m: map<Text, Json>,
                                      more: seq<Token>, stack: seq<Json>, tail: Text)
    ensures Fed(EntryTokens(entries, isFirst) + ([CloseToken(CLOSE_DICT)] + more), stack + [Dict(m)], tail)
         == FedNext(Place(stack, Dict(Stored(m, entries))), more, tail)
    decreases entries, 0
  {
    var closing := [CloseToken(CLOSE_DICT)] + more;
    if entries == [] {
      assert EntryTokens(entries, isFirst) + closing == closing;
      CloseFed(CLOSE_DICT, Dict(m), more, stack, tail);
    } else {
      var first, others := entries[0], EntryTokens(entries[1..], false);
      Regrouped(CommaUnless(isFirst), OneEntryTokens(first), others, closing);
      CommaFed(isFirst, OneEntryTokens(first) + (others + closing), stack + [Dict(m)], tail);
      EntryFed(first, m, others + closing, stack, tail);
      EntriesFed(entries[1..], false, StoredOne(m, first), more, stack, tail);
    }
  }

  // One entry pushes its key on the dictionary, and its value takes the key off again.
  lemma {:induction false} EntryFed(e: Entry, m: map<Text, Json>, others: seq<Token>,
                                    stack: seq<Json>, tail: Text)
    ensures Fed(OneEntryTokens(e) + others, stack + [Dict(m)], tail)
         == Fed(others, stack + [Dict(StoredOne(m, e))], tail)
    decreases e, 2
  {
    var open := stack + [Dict(m)];
    var keyed := open + [Str(e.key)];
    var valueTokens := Tokens(e.value) + others;
    var colon := [SeparatorToken(COLON)] + valueTokens;
    var tokens := OneEntryTokens(e) + others;
    assert tokens == [Leaf(StrObj(e.key))] + colon;
    assert tokens[1..] == colon && colon[1..] == valueTokens;
    assert Place(open, Str(e.key)) == Continue(keyed);
    assert Fed(tokens, open, tail) == Fed(colon, keyed, tail) == Fed(valueTokens, keyed, tail);
    ValueFed(e.value, others, keyed, tail);
    assert keyed[..|keyed| - 1] == open && open[..|open| - 1] == stack;
  }

  // ---------- the printed tokens are well separated ----------

  predicate StartsClosed(tokens: seq<Token>) { tokens == [] || !tokens[0].Leaf? }

  lemma ApartJoin(a: seq<Token>, b: seq<Token>)
    requires Apart(a) && Apart(b) && AllValid(a) && AllValid(b)
    requires a == [] || !a[|a| - 1].IsInt() || StartsClosed(b)
    ensures Apart(a + b) && AllValid(a + b)
  {
    var c := a + b;
    forall i | 0 <= i < |c| - 1 && c[i].IsInt() ensures !c[i + 1].Leaf? {
      if i < |a| - 1 { assert a[i].IsInt(); }
      else if i >= |a| { assert b[i - |a|].IsInt(); }
    }
  }

  lemma {:induction false} TokensApart(t: Tree)
    ensures Apart(Tokens(t)) && AllValid(Tokens(t)) && Tokens(t) != []
    ensures Tokens(t)[|Tokens(t)| - 1].IsInt() <==> t.IntObj?
    decreases t, 1
  {
    match t
    case ListObj(items) =>
      ItemTokensApart(items, true);
      ApartJoin([OpenToken(OPEN_LIST)], ItemTokens(items, true));
      ApartJoin([OpenToken(OPEN_LIST)] + ItemTokens(items, true), [CloseToken(CLOSE_LIST)]);
    case DictObj(entries) =>
      EntryTokensApart(entries, true);
      ApartJoin([OpenToken(OPEN_DICT)], EntryTokens(entries, true));
      ApartJoin([OpenToken(OPEN_DICT)] + EntryTokens(entries, true), [CloseToken(CLOSE_DICT)]);
    case _ =>
  }

  lemma {:induction false} ItemTokensApart(items: seq<Tree>, isFirst: bool)
    ensures Apart(ItemTokens(items, isFirst)) && AllValid(ItemTokens(items, isFirst))
    ensures !isFirst ==> StartsClosed(ItemTokens(items, isFirst))
    decreases items, 0
  {
    if items != [] {
      TokensApart(items[0]);
      ItemTokensApart(items[1..], false);
      var sep := CommaUnless(isFirst);
      ApartJoin(sep, Tokens(items[0]));
      ApartJoin(sep + Tokens(items[0]), ItemTokens(items[1..], false));
    }
  }

  lemma {:induction false} EntryTokensApart(entries: seq<Entry>, isFirst: bool)
    ensures Apart(EntryTokens(entries, isFirst)) && AllValid(EntryTokens(entries, isFirst))
    ensures !isFirst ==> StartsClosed(EntryTokens(entries, isFirst))
    decreases entries, 0
  {
    if entries != [] {
      OneEntryApart(entries[0]);
      EntryTokensApart(entries[1..], false);
      var sep := CommaUnless(isFirst);
      ApartJoin(sep, OneEntryTokens(entries[0]));
      ApartJoin(sep + OneEntryTokens(entries[0]), EntryTokens(entries[1..], false));
    }
  }

  lemma {:induction false} OneEntryApart(e: Entry)
    ensures Apart(OneEntryTokens(e)) && AllValid(OneEntryTokens(e))
    decreases e, 2
  {
    TokensApart(e.value);
    ApartJoin([Leaf(StrObj(e.key)), SeparatorToken(COLON)], Tokens(e.value));
  }

  // ---------- dumps is the layout without gaps ----------

  lemma {:induction false} LayoutJoin(a: seq<Token>, b: seq<Token>)
    ensures Layout(a + b, NoGaps(|a + b|)) == Layout(a, NoGaps(|a|)) + Layout(b, NoGaps(|b|))
    decreases |a|
  {
    if a == [] {
      assert a + b == b;
    } else {
      assert (a + b)[1..] == a[1..] + b;
      assert NoGaps(|a + b|)[1..] == NoGaps(|a[1..] + b|);
      assert NoGaps(|a|)[1..] == NoGaps(|a[1..]|);
      LayoutJoin(a[1..], b);
    }
  }

  lemma LayoutOne(token: Token)
    ensures Layout([token], NoGaps(1)) == token.Text()
  {
    assert [token][1..] == [] && NoGaps(1)[1..] == [];
    assert Layout([token], NoGaps(1)) == [] + token.Text() + [];
  }

  lemma {:induction false} DumpsIsLayout(t: Tree)
    ensures Dumps(t) == Layout(Tokens(t), NoGaps(|Tokens(t)|))
    decreases t, 1
  {
    match t
    case ListObj(items) =>
      ItemsAreLayout(items, true);
      var open, close := OpenToken(OPEN_LIST), CloseToken(CLOSE_LIST);
      LayoutJoin([open] + ItemTokens(items, true), [close]);
      LayoutJoin([open], ItemTokens(items, true));
      LayoutOne(open);
      LayoutOne(close);
    case DictObj(entries) =>
      EntriesAreLayout(entries, true);
      var open, close := OpenToken(OPEN_DICT), CloseToken(CLOSE_DICT);
      LayoutJoin([open] + EntryTokens(entries, true), [close]);
      LayoutJoin([open], EntryTokens(entries, true));
      LayoutOne(open);
      LayoutOne(close);
    case _ =>
      LayoutOne(Leaf(t));
  }

  lemma {:induction false} ItemsAreLayout(items: seq<Tree>, isFirst: bool)
    ensures DumpItems(items, isFirst) == Layout(ItemTokens(items, isFirst), NoGaps(|ItemTokens(items, isFirst)|))
    decreases items, 0
  {
    if items != [] {
      DumpsIsLayout(items[0]);
      ItemsAreLayout(items[1..], false);
      var sep := CommaUnless(isFirst);
      LayoutJoin(sep + Tokens(items[0]), ItemTokens(items[1..], false));
      LayoutJoin(sep, Tokens(items[0]));
      LayoutOne(SeparatorToken(COMMA));
    }
  }

  lemma {:induction false} EntriesAreLayout(entries: seq<Entry>, isFirst: bool)
    ensures DumpEntries(entries, isFirst)
         == Layout(EntryTokens(entries, isFirst), NoGaps(|EntryTokens(entries, isFirst)|))
    decreases entries, 0
  {
    if entries != [] {
      OneEntryIsLayout(entries[0]);
      EntriesAreLayout(entries[1..], false);
      var sep := CommaUnless(isFirst);
      LayoutJoin(sep + OneEntryTokens(entries[0]), EntryTokens(entries[1..], false));
      LayoutJoin(sep, OneEntryTokens(entries[0]));
      LayoutOne(SeparatorToken(COMMA));
    }
  }

  lemma KeyIsLayout(key: Text)
    ensures Layout([Leaf(StrObj(key)), SeparatorToken(COLON)], NoGaps(2))
         == [QUOTE] + EscapeText(key) + [QUOTE, COLON]
  {
    var name, colon := Leaf(StrObj(key)), SeparatorToken(COLON);
    assert [name, colon] == [name] + [colon];
    LayoutJoin([name], [colon]);
    LayoutOne(name);
    LayoutOne(colon);
    assert [QUOTE] + [COLON] == [QUOTE, COLON];
  }

  lemma {:induction false} OneEntryIsLayout(e: Entry)
    ensures DumpEntry(e) == Layout(OneEntryTokens(e), NoGaps(|OneEntryTokens(e)|))
    decreases e, 2
  {
    DumpsIsLayout(e.value);
    KeyIsLayout(e.key);
    LayoutJoin([Leaf(StrObj(e.key)), SeparatorToken(COLON)], Tokens(e.value));
  }

  // ---------- main results ----------

  // Blanks between the tokens of a printed value, and any text after it, change nothing.  Only a
  // number needs to be followed by something that ends it.
  lemma LoadsLayout(t: Tree, gaps: seq<Text>, tail: Text)
    requires |gaps| == |Tokens(t)| && AllBlank(gaps)
    requires t.IntObj? ==> EndsNumber(tail)
    ensures Loaded(Layout(Tokens(t), gaps) + tail) == Ok(Value(t))
  {
    TokensApart(t);
    LayoutFed(Tokens(t), gaps, [], tail);
    ValueFed(t, [], [], tail);
    assert Tokens(t) + [] == Tokens(t);
  }

  // loads undoes dumps on every object except the integers 0 to 9, which it rejects.
  lemma LoadsDumps(t: Tree)
    ensures Loaded(Dumps(t)) ==
            if t.IntObj? && 0 <= t.n <= 9 then Err(UnexpectedEnd) else Ok(Value(t))
  {
    if t.IntObj? {
      IntTextValue(t.n);
      LastIntRead(t.n);
      var d := IntText(t.n);
      assert !IsBlank(d[0]) && SkipBlanks(d) == d;
      assert AtomScan(d) == NumberScan(d);
      assert Taken(Atom(Int(t.n)), []) == Return(Int(t.n));
      if 0 <= t.n <= 9 {
        assert Lex(d) == Fail(UnexpectedEnd);
        assert Parse(d, []) == Err(UnexpectedEnd);
      } else {
        var last := [d[|d| - 1]];
        assert Lex(d) == Got(Atom(Int(t.n)), last);
        assert Parse(d, []) == Resume(Return(Int(t.n)), last);
      }
    } else {
      DumpsIsLayout(t);
      LoadsLayout(t, NoGaps(|Tokens(t)|), []);
      assert Dumps(t) + [] == Dumps(t);
    }
  }

  // The tokens without commas and colons, and with one kind of closing bracket.
  function Bare(tokens: seq<Token>): seq<Token>
  {
    if tokens == [] then []
    else (match tokens[0]
          case SeparatorToken(_) => []
          case CloseToken(_) => [CloseToken(CLOSE_LIST)]
          case token => [token]) + Bare(tokens[1..])
  }

  lemma {:induction false} BareFed(tokens: seq<Token>, stack: seq<Json>, tail: Text)
    ensures Fed(Bare(tokens), stack, tail) == Fed(tokens, stack, tail)
    decreases |tokens|
  {
    if tokens != [] {
      var first, rest := tokens[0], tokens[1..];
      if first.SeparatorToken? {
        assert Bare(tokens) == Bare(rest);
        BareFed(rest, stack, tail);
      } else {
        var bare := if first.CloseToken? then CloseToken(CLOSE_LIST) else first;
        assert Bare(tokens) == [bare] + Bare(rest);
        FirstFed(bare, Bare(rest), stack, tail);
        match Taken(first.Lexeme(), stack)
        case Continue(st) => BareFed(rest, st, tail);
        case _ =>
      }
    }
  }

  // Commas and colons stand for each other and may be left out, repeated or put anywhere, and one
  // closing bracket is as good as the other.  Only numbers must be kept apart.
  lemma LooseLayout(t: Tree, tokens: seq<Token>, gaps: seq<Text>, tail: Text)
    requires |gaps| == |tokens| && AllBlank(gaps) && AllValid(tokens) && Apart(tokens)
    requires tokens != [] && tokens[|tokens| - 1].IsInt() ==> EndsNumber(tail)
    requires Bare(tokens) == Bare(Tokens(t))
    ensures Loaded(Layout(tokens, gaps) + tail) == Ok(Value(t))
  {
    LayoutFed(tokens, gaps, [], tail);
    BareFed(tokens, [], tail);
    BareFed(Tokens(t), [], tail);
    ValueFed(t, [], [], tail);
    assert Tokens(t) + [] == Tokens(t);
  }

  // The tokens of a dictionary with a closing bracket between the key and its value.
  function ClosedTooSoon(key: Text, t: Tree): seq<Token>
  {
    [OpenToken(OPEN_DICT), Leaf(StrObj(key)), CloseToken(CLOSE_DICT)] + (Tokens(t) + [CloseToken(CLOSE_DICT)])
  }

  // A key that is closed without a value waits on: the value behind the bracket becomes its own.
  lemma DanglingKey(key: Text, t: Tree, gaps: seq<Text>, tail: Text)
    requires |gaps| == |ClosedTooSoon(key, t)| && AllBlank(gaps)
    ensures Loaded(Layout(ClosedTooSoon(key, t), gaps) + tail) == Ok(Dict(map[key := Value(t)]))
  {
    var close := CloseToken(CLOSE_DICT);
    TokensApart(t);
    ApartJoin(Tokens(t), [close]);
    ApartJoin([OpenToken(OPEN_DICT), Leaf(StrObj(key)), close], Tokens(t) + [close]);
    LayoutFed(ClosedTooSoon(key, t), gaps, [], tail);
    DanglingKeyFed(key, t, tail);
  }

  lemma DanglingKeyFed(key: Text, t: Tree, tail: Text)
    ensures Fed(ClosedTooSoon(key, t), [], tail) == Ok(Dict(map[key := Value(t)]))
  {
    var rest := Tokens(t) + [CloseToken(CLOSE_DICT)];
    var open, name, close := OpenToken(OPEN_DICT), Leaf(StrObj(key)), CloseToken(CLOSE_DICT);
    var empty, waiting: seq<Json> := [Dict(map[])], [Dict(map[]), Str(key)];
    assert [open, name, close] + rest == [open] + ([name] + ([close] + rest));
    FirstFed(open, [name] + ([close] + rest), [], tail);
    assert Taken(open.Lexeme(), []) == Continue(empty) by { assert [] + empty == empty; }
    FirstFed(name, [close] + rest, empty, tail);
    assert Taken(name.Lexeme(), empty) == Continue(waiting) by { assert empty + [Str(key)] == waiting; }
    FirstFed(close, rest, waiting, tail);
    assert Taken(close.Lexeme(), waiting) == Continue(waiting) by {
      assert waiting[..1] == empty && waiting[1] == Str(key) && empty + [Str(key)] == waiting;
    }
    ValueClosed(key, t, tail);
  }

  lemma PlacedUnderKey(m: map<Text, Json>, key: Text, v: Json)
    ensures Place([Dict(m), Str(key)], v) == Continue([Dict(m[key := v])])
  {
    var stack := [Dict(m), Str(key)];
    var below := stack[..|stack| - 1];
    assert below == [Dict(m)] && below[..|below| - 1] == [];
    assert [] + [Dict(m[key := v])] == [Dict(m[key := v])];
  }

  lemma LastClosed(v: Json, tail: Text)
    ensures FedNext(Continue([v]), [CloseToken(CLOSE_DICT)], tail) == Ok(v)
  {
    var close, stack := CloseToken(CLOSE_DICT), [v];
    assert stack[..|stack| - 1] == [] && [close] == [close] + [];
    FirstFed(close, [], stack, tail);
  }

  lemma ValueClosed(key: Text, t: Tree, tail: Text)
    ensures Fed(Tokens(t) + [CloseToken(CLOSE_DICT)], [Dict(map[]), Str(key)], tail)
         == Ok(Dict(map[key := Value(t)]))
  {
    ValueFed(t, [CloseToken(CLOSE_DICT)], [Dict(map[]), Str(key)], tail);
    PlacedUnderKey(map[], key, Value(t));
    LastClosed(Dict(map[key := Value(t)]), tail);
    assert map[][key := Value(t)] == map[key := Value(t)];
  }

  // A dictionary key that is a number, a truth value or null is rejected when its value is
  // complete, whatever that value is.
  lemma KeyMustBeString(key: Tree, t: Tree, gaps: seq<Text>, tail: Text)
    requires key.NullObj? || key.BoolObj? || key.IntObj?
    requires |gaps| == 3 + |Tokens(t)| && AllBlank(gaps)
    requires t.IntObj? ==> EndsNumber(tail)
    ensures Loaded(Layout([OpenToken(OPEN_DICT), Leaf(key), SeparatorToken(COLON)] + Tokens(t), gaps) + tail)
         == Err(BadPlace)
  {
    var front := [OpenToken(OPEN_DICT), Leaf(key), SeparatorToken(COLON)];
    TokensApart(t);
    ApartJoin(front, Tokens(t));
    assert (front + Tokens(t))[|front + Tokens(t)| - 1] == Tokens(t)[|Tokens(t)| - 1];
    LayoutFed(front + Tokens(t), gaps, [], tail);
    KeyFed(key, t, tail);
  }

  lemma KeyFed(key: Tree, t: Tree, tail: Text)
    requires key.NullObj? || key.BoolObj? || key.IntObj?
    ensures Fed([OpenToken(OPEN_DICT), Leaf(key), SeparatorToken(COLON)] + Tokens(t), [], tail) == Err(BadPlace)
  {
    var rest, stack := Tokens(t) + [], [Dict(map[]), Value(key)];
    assert rest == Tokens(t);
    KeyPushed(key, rest, tail);
    ValueFed(t, [], stack, tail);
    assert stack[|stack| - 1] == Value(key);
    assert Place(stack, Value(t)) == Stop(BadPlace);
  }

  lemma KeyPushed(key: Tree, rest: seq<Token>, tail: Text)
    requires Leaf(key).Valid()
    ensures Fed([OpenToken(OPEN_DICT), Leaf(key), SeparatorToken(COLON)] + rest, [], tail)
         == Fed(rest, [Dict(map[]), Value(key)], tail)
  {
    var dict, k, colon := OpenToken(OPEN_DICT), Leaf(key), SeparatorToken(COLON);
    assert [dict, k, colon] + rest == [dict] + ([k] + ([colon] + rest));
    FirstFed(dict, [k] + ([colon] + rest), [], tail);
    assert Taken(dict.Lexeme(), []) == Continue([Dict(map[])]) by { assert [] + [Dict(map[])] == [Dict(map[])]; }
    FirstFed(k, [colon] + rest, [Dict(map[])], tail);
    assert Taken(k.Lexeme(), [Dict(map[])]) == Continue([Dict(map[]), Value(key)]) by {
      assert [Dict(map[])] + [Value(key)] == [Dict(map[]), Value(key)];
    }
    FirstFed(colon, rest, [Dict(map[]), Value(key)], tail);
  }

  lemma FirstFed(token: Token, more: seq<Token>, stack: seq<Json>, tail: Text)
    ensures Fed([token] + more, stack, tail) == FedNext(Taken(token.Lexeme(), stack), more, tail)
  {
    assert ([token] + more)[1..] == more;
  }

  // Two objects that print alike denote the same value.
  lemma DumpsIsUnambiguous(a: Tree, b: Tree)
    requires Dumps(a) == Dumps(b)
    ensures Value(a) == Value(b)
  {
    DumpsIsLayout(a);
    DumpsIsLayout(b);
    LoadsLayout(a, NoGaps(|Tokens(a)|), [SPACE]);
    LoadsLayout(b, NoGaps(|Tokens(b)|), [SPACE]);
  }
}
