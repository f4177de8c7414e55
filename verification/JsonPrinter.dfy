// The printer: dumps, dumpParts and escapeChar.

module JsonPrinter {
  import opened JsonData

  const TAB: nat := 9
  const BACKSPACE: nat := 8
  const FORMFEED: nat := 12
  const NEWLINE: nat := 10
  const RETURN: nat := 13
  const SPACE: nat := 32
  const QUOTE: nat := 34
  const COMMA: nat := 44
  const MINUS: nat := 45
  const DOT: nat := 46
  const SLASH: nat := 47
  const ZERO: nat := 48
  const NINE: nat := 57
  const COLON: nat := 58
  const OPEN_LIST: nat := 91
  const BACKSLASH: nat := 92
  const CLOSE_LIST: nat := 93
  const OPEN_DICT: nat := 123
  const CLOSE_DICT: nat := 125
  const LETTER_U: nat := 117

  const NULL_WORD: Text := [110, 117, 108, 108]
  const TRUE_WORD: Text := [116, 114, 117, 101]
  const FALSE_WORD: Text := [102, 97, 108, 115, 101]

  // The letter after the backslash in the replacement of c, or 0 if c has no entry in the
  // replacement table.
  function Replacement(c: nat): nat
  {
    if c == TAB then 116
    else if c == BACKSPACE then 98
    else if c == FORMFEED then 102
    else if c == NEWLINE then 110
    else if c == RETURN then 114
    else if c == BACKSLASH then BACKSLASH
    else if c == SLASH then SLASH
    else if c == QUOTE then QUOTE
    else 0
  }

  // The class of characters the substitution looks at.  It ends at U+0019, so U+001A to
  // U+001F are printed as they are.
  predicate Matches(c: nat)
  {
    c <= 0x19 || c == BACKSLASH || c == QUOTE || c == SLASH
  }

  function HexDigit(d: nat): nat
    requires d < 16
  {
    if d < 10 then ZERO + d else 97 + (d - 10)
  }

  function EscapeChar(c: nat): Text
  {
    if Replacement(c) != 0 then [BACKSLASH, Replacement(c)]
    else if c < 32 then
      [BACKSLASH, LETTER_U, ZERO, ZERO, HexDigit(c / 16), HexDigit(c % 16)]
    else [c]
  }

  function Shown(c: nat): Text
  {
    if Matches(c) then EscapeChar(c) else [c]
  }

  function EscapeText(s: Text): Text
  {
    if s == [] then [] else Shown(s[0]) + EscapeText(s[1..])
  }

  function Decimal(n: nat): Text
  {
    if n < 10 then [ZERO + n] else Decimal(n / 10) + [ZERO + n % 10]
  }

  function IntText(n: int): Text
  {
    if n < 0 then [MINUS] + Decimal(-n) else Decimal(n)
  }

  function Dumps(t: Tree): Text
    decreases t, 1
  {
    match t
    case NullObj => NULL_WORD
    case BoolObj(b) => if b then TRUE_WORD else FALSE_WORD
    case IntObj(n) => IntText(n)
    case StrObj(s) => [QUOTE] + EscapeText(s) + [QUOTE]
    case ListObj(items) => [OPEN_LIST] + DumpItems(items, true) + [CLOSE_LIST]
    case DictObj(entries) => [OPEN_DICT] + DumpEntries(entries, true) + [CLOSE_DICT]
  }

  function DumpItems(items: seq<Tree>, isFirst: bool): Text
    decreases items, 0
  {
    if items == [] then []
    else (if isFirst then [] else [COMMA]) + Dumps(items[0]) + DumpItems(items[1..], false)
  }

  function DumpEntries(entries: seq<Entry>, isFirst: bool): Text
    decreases entries, 0
  {
    if entries == [] then []
    else (if isFirst then [] else [COMMA]) + DumpEntry(entries[0]) + DumpEntries(entries[1..], false)
  }

  function DumpEntry(e: Entry): Text
    decreases e, 2
  {
    [QUOTE] + EscapeText(e.key) + [QUOTE, COLON] + Dumps(e.value)
  }
}
