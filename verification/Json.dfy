/** The JSON text the snapshot encoder emits, read back by a reader of the grammar of
    RFC 8259 without insignificant space: reading what was printed gives it back. */
module Json {
  import opened Options
  import opened TrustPairs

  datatype Json =
    | Null
    | False
    | True
    | Num(n: int)
    | Str(s: string)
    | Arr(items: seq<Json>)
    | Obj(members: seq<(string, Json)>)

  // --- printing --------------------------------------------------------------------------------

  function PrintInt(n: int): string {
    if n < 0 then "-" + Decimal(-n) else Decimal(n)
  }

  function HexDigit(d: nat): (c: char)
    requires d < 16
    ensures HexValue(c) == d
  {
    if d < 10 then ('0' as int + d) as char else ('a' as int + d - 10) as char
  }

  /** The value of a hexadecimal digit in either case, and 16 for any other character. */
  function HexValue(c: char): (d: nat)
    ensures d <= 16
  {
    if '0' <= c <= '9' then c as int - '0' as int
    else if 'a' <= c <= 'f' then c as int - 'a' as int + 10
    else if 'A' <= c <= 'F' then c as int - 'A' as int + 10
    else 16
  }

  const BACKSPACE: char := 8 as char
  const FORM_FEED: char := 12 as char
  const LINE_SEPARATOR: char := 0x2028 as char
  const PARAGRAPH_SEPARATOR: char := 0x2029 as char

  /** The letter of a two-character escape. */
  function Short(c: char): (letter: Option<char>) {
    if c == '"' then Some('"')
    else if c == '\\' then Some('\\')
    else if c == BACKSPACE then Some('b')
    else if c == FORM_FEED then Some('f')
    else if c == '\n' then Some('n')
    else if c == '\r' then Some('r')
    else if c == '\t' then Some('t')
    else None
  }

  predicate ByCode(c: char) {
    Short(c).None? && (c < ' ' || c == LINE_SEPARATOR || c == PARAGRAPH_SEPARATOR)
  }

  function Hex(n: nat): string
    requires n < 0x10000
  {
    [HexDigit(n / 4096), HexDigit(n / 256 % 16), HexDigit(n / 16 % 16), HexDigit(n % 16)]
  }

  /** One character inside a string, as the standard encoder writes it without HTML escapes. */
  function Escape(c: char): string {
    if Short(c).Some? then ['\\', Short(c).value]
    else if ByCode(c) then ['\\', 'u'] + Hex(c as int)
    else [c]
  }

  function EscapeAll(s: string): string {
    if s == "" then "" else Escape(s[0]) + EscapeAll(s[1..])
  }

  function Quote(s: string): string {
    "\"" + EscapeAll(s) + "\""
  }

  function Print(j: Json): string
    decreases j
  {
    match j
    case Null => "null"
    case False => "false"
    case True => "true"
    case Num(n) => PrintInt(n)
    case Str(s) => Quote(s)
    case Arr(items) => "[" + ItemsText(items)
    case Obj(ms) => "{" + MembersText(ms)
  }

  function MoreItems(items: seq<Json>): string
    decreases items, 0
  {
    if items == [] then "" else "," + Print(items[0]) + MoreItems(items[1..])
  }

  function PrintMember(m: (string, Json)): string
    decreases m
  {
    Quote(m.0) + ":" + Print(m.1)
  }

  function MoreMembers(ms: seq<(string, Json)>): string
    decreases ms, 0
  {
    if ms == [] then "" else "," + PrintMember(ms[0]) + MoreMembers(ms[1..])
  }

  /** The elements and the closing bracket. */
  function ItemsText(items: seq<Json>): string
    decreases items, 1
  {
    (if items == [] then "" else Print(items[0]) + MoreItems(items[1..])) + "]"
  }

  /** The members and the closing brace. */
  function MembersText(ms: seq<(string, Json)>): string
    decreases ms, 1
  {
    (if ms == [] then "" else PrintMember(ms[0]) + MoreMembers(ms[1..])) + "}"
  }

  /** The characters the encoder's fast path copies as they are. */
  predicate PlainChar(c: char) {
    ' ' <= c < 128 as char && c != '"' && c != '\\'
  }

  predicate Plain(s: string) {
    forall i :: 0 <= i < |s| ==> PlainChar(s[i])
  }

  /** Copying a plain string between quotes is the standard encoding of it. */
  lemma {:induction false} PlainQuote(s: string)
    requires Plain(s)
    ensures EscapeAll(s) == s && Quote(s) == "\"" + s + "\""
  {
    if s != "" {
      PlainQuote(s[1..]);
      assert Escape(s[0]) == [s[0]];
    }
  }

  // --- reading ---------------------------------------------------------------------------------

  datatype Reading<+T> = Fail | Got(value: T, rest: string)

  predicate IsDigit(c: char) {
    '0' <= c <= '9'
  }

  /** Length of the leading run of digits. */
  function Digits(s: string): (k: nat)
    ensures k <= |s| && forall i :: 0 <= i < k ==> IsDigit(s[i])
  {
    if s == "" || !IsDigit(s[0]) then 0 else 1 + Digits(s[1..])
  }

  function ReadNat(s: string): (r: Reading<nat>)
    ensures r.Got? ==> |r.rest| < |s|
  {
    var k := Digits(s);
    if k == 0 then Fail else Got(Value(s[..k]), s[k..])
  }

  function Unshort(letter: char): Option<char> {
    if letter == '"' then Some('"')
    else if letter == '\\' then Some('\\')
    else if letter == '/' then Some('/')
    else if letter == 'b' then Some(BACKSPACE)
    else if letter == 'f' then Some(FORM_FEED)
    else if letter == 'n' then Some('\n')
    else if letter == 'r' then Some('\r')
    else if letter == 't' then Some('\t')
    else None
  }

  /** The character a code of four digits names; half of a surrogate pair names none. */
  function ReadCode(s: string): (r: Reading<char>)
    ensures r.Got? ==> |r.rest| < |s|
  {
    if |s| < 4 then Fail
    else
      var a, b, c, d := HexValue(s[0]), HexValue(s[1]), HexValue(s[2]), HexValue(s[3]);
      if a == 16 || b == 16 || c == 16 || d == 16 then Fail
      else
        var code := a * 4096 + b * 256 + c * 16 + d;
        if 0xD800 <= code < 0xE000 then Fail else Got(code as char, s[4..])
  }

  /** One character of a string, escaped or not; control characters must be escaped. */
  function ReadChar(s: string): (r: Reading<char>)
    requires s != ""
    ensures r.Got? ==> |r.rest| < |s|
  {
    if s[0] < ' ' then Fail
    else if s[0] != '\\' then Got(s[0], s[1..])
    else if |s| == 1 then Fail
    else if s[1] == 'u' then ReadCode(s[2..])
    else if Unshort(s[1]).Some? then Got(Unshort(s[1]).value, s[2..])
    else Fail
  }

  /** The rest of a string whose opening quote was read. */
  function ReadString(s: string): (r: Reading<string>)
    ensures r.Got? ==> |r.rest| < |s|
    decreases |s|
  {
    if s == "" then Fail
    else if s[0] == '"' then Got("", s[1..])
    else
      var c := ReadChar(s);
      if c.Fail? then Fail
      else
        var r := ReadString(c.rest);
        if r.Fail? then Fail else Got([c.value] + r.value, r.rest)
  }

  function Word(word: string, j: Json, s: string): Reading<Json> {
    if word <= s then Got(j, s[|word|..]) else Fail
  }

  function ReadValue(s: string): (r: Reading<Json>)
    ensures r.Got? ==> |r.rest| < |s|
    decreases |s|, 1
  {
    if s == "" then Fail
    else if s[0] == 'n' then Word("null", Null, s)
    else if s[0] == 'f' then Word("false", False, s)
    else if s[0] == 't' then Word("true", True, s)
    else if s[0] == '"' then
      var r := ReadString(s[1..]);
      if r.Fail? then Fail else Got(Str(r.value), r.rest)
    else if s[0] == '-' then
      var r := ReadNat(s[1..]);
      if r.Fail? then Fail else Got(Num(0 - r.value), r.rest)
    else if s[0] == '[' then
      var r := ReadItems(s[1..]);
      if r.Fail? then Fail else Got(Arr(r.value), r.rest)
    else if s[0] == '{' then
      var r := ReadMembers(s[1..]);
      if r.Fail? then Fail else Got(Obj(r.value), r.rest)
    else
      var r := ReadNat(s);
      if r.Fail? then Fail else Got(Num(r.value), r.rest)
  }

  /** After an opening bracket. */
  function ReadItems(s: string): (r: Reading<seq<Json>>)
    ensures r.Got? ==> |r.rest| < |s|
    decreases |s|, 2
  {
    if s == "" then Fail
    else if s[0] == ']' then Got([], s[1..])
    else
      var first := ReadValue(s);
      if first.Fail? then Fail
      else
        var more := ReadMoreItems(first.rest);
        if more.Fail? then Fail else Got([first.value] + more.value, more.rest)
  }

  function ReadMoreItems(s: string): (r: Reading<seq<Json>>)
    ensures r.Got? ==> |r.rest| < |s|
    decreases |s|, 0
  {
    if s == "" then Fail
    else if s[0] == ']' then Got([], s[1..])
    else if s[0] != ',' then Fail
    else
      var first := ReadValue(s[1..]);
      if first.Fail? then Fail
      else
        var more := ReadMoreItems(first.rest);
        if more.Fail? then Fail else Got([first.value] + more.value, more.rest)
  }

  function ReadMember(s: string): (r: Reading<(string, Json)>)
    ensures r.Got? ==> |r.rest| < |s|
    decreases |s|, 2
  {
    if s == "" || s[0] != '"' then Fail
    else
      var name := ReadString(s[1..]);
      if name.Fail? || name.rest == "" || name.rest[0] != ':' then Fail
      else
        var j := ReadValue(name.rest[1..]);
        if j.Fail? then Fail else Got((name.value, j.value), j.rest)
  }

  /** After an opening brace. */
  function ReadMembers(s: string): (r: Reading<seq<(string, Json)>>)
    ensures r.Got? ==> |r.rest| < |s|
    decreases |s|, 3
  {
    if s == "" then Fail
    else if s[0] == '}' then Got([], s[1..])
    else
      var first := ReadMember(s);
      if first.Fail? then Fail
      else
        var more := ReadMoreMembers(first.rest);
        if more.Fail? then Fail else Got([first.value] + more.value, more.rest)
  }

  function ReadMoreMembers(s: string): (r: Reading<seq<(string, Json)>>)
    ensures r.Got? ==> |r.rest| < |s|
    decreases |s|, 0
  {
    if s == "" then Fail
    else if s[0] == '}' then Got([], s[1..])
    else if s[0] != ',' then Fail
    else
      var first := ReadMember(s[1..]);
      if first.Fail? then Fail
      else
        var more := ReadMoreMembers(first.rest);
        if more.Fail? then Fail else Got([first.value] + more.value, more.rest)
  }

  // --- reading what was printed ------------------------------------------------------------------

  /** What may follow a value: nothing that would lengthen a number. */
  predicate Ends(rest: string) {
    rest == "" || !IsDigit(rest[0])
  }

  lemma {:induction false} DigitsAll(a: string, rest: string)
    requires Ends(rest) && forall i :: 0 <= i < |a| ==> IsDigit(a[i])
    ensures Digits(a + rest) == |a|
  {
    if a == "" {
      assert a + rest == rest;
    } else {
      assert (a + rest)[0] == a[0] && (a + rest)[1..] == a[1..] + rest;
      DigitsAll(a[1..], rest);
    }
  }

  lemma ReadNatDecimal(n: nat, rest: string)
    requires Ends(rest)
    ensures ReadNat(Decimal(n) + rest) == Got(n, rest)
  {
    var d := Decimal(n);
    DigitsAll(d, rest);
    ValueOfDecimal(n);
    assert (d + rest)[..|d|] == d && (d + rest)[|d|..] == rest;
  }

  lemma HexBack(n: nat)
    requires n < 0x10000
    ensures n / 4096 < 16
    ensures n / 4096 * 4096 + n / 256 % 16 * 256 + n / 16 % 16 * 16 + n % 16 == n
  {
    var a := n / 16;
    var b := a / 16;
    var c := b / 16;
    assert n == a * 16 + n % 16 && a == b * 16 + a % 16 && b == c * 16 + b % 16;
    assert b == n / 256 && c == n / 4096;
  }

  lemma ReadByCode(c: char, rest: string)
    requires ByCode(c)
    ensures ReadCode(Hex(c as int) + rest) == Got(c, rest)
  {
    var n, s := c as int, Hex(c as int) + rest;
    HexBack(n);
    assert s[0] == HexDigit(n / 4096) && s[1] == HexDigit(n / 256 % 16);
    assert s[2] == HexDigit(n / 16 % 16) && s[3] == HexDigit(n % 16) && s[4..] == rest;
  }

  /** Every character reads back from how it is written, and none is written like a quote. */
  lemma ReadEscape(c: char, rest: string)
    ensures var s := Escape(c) + rest; s != "" && s[0] != '"' && ReadChar(s) == Got(c, rest)
  {
    var s := Escape(c) + rest;
    if ByCode(c) {
      ReadByCode(c, rest);
      assert s[0] == '\\' && s[1] == 'u' && s[2..] == Hex(c as int) + rest;
    } else if Short(c).Some? {
      assert s[0] == '\\' && s[1] == Short(c).value && s[2..] == rest;
    } else {
      assert s[0] == c && s[1..] == rest;
    }
  }

  lemma {:induction false} ReadEscaped(a: string, rest: string)
    ensures ReadString(EscapeAll(a) + "\"" + rest) == Got(a, rest)
  {
    var s := EscapeAll(a) + "\"" + rest;
    if a == "" {
      assert s[0] == '"' && s[1..] == rest;
    } else {
      var after := EscapeAll(a[1..]) + "\"" + rest;
      assert s == Escape(a[0]) + after;
      ReadEscape(a[0], after);
      ReadEscaped(a[1..], rest);
      assert [a[0]] + a[1..] == a;
    }
  }

  // What the first character says about the value.

  lemma AtWord(s: string, word: string, j: Json, rest: string)
    requires (word == "null" && j == Null) || (word == "false" && j == False) || (word == "true" && j == True)
    requires s == word + rest
    ensures ReadValue(s) == Got(j, rest)
  {
    assert word <= s && s[|word|..] == rest;
    assert s[0] == word[0];
  }

  lemma AtQuote(s: string, a: string, rest: string)
    requires s != "" && s[0] == '"' && ReadString(s[1..]) == Got(a, rest)
    ensures ReadValue(s) == Got(Str(a), rest)
  {
  }

  lemma AtBracket(s: string, items: seq<Json>, rest: string)
    requires s != "" && s[0] == '[' && ReadItems(s[1..]) == Got(items, rest)
    ensures ReadValue(s) == Got(Arr(items), rest)
  {
  }

  lemma AtBrace(s: string, ms: seq<(string, Json)>, rest: string)
    requires s != "" && s[0] == '{' && ReadMembers(s[1..]) == Got(ms, rest)
    ensures ReadValue(s) == Got(Obj(ms), rest)
  {
  }

  lemma AtMinus(s: string, n: nat, rest: string)
    requires s != "" && s[0] == '-' && ReadNat(s[1..]) == Got(n, rest)
    ensures ReadValue(s) == Got(Num(0 - n), rest)
  {
  }

  lemma AtDigit(s: string, n: nat, rest: string)
    requires s != "" && IsDigit(s[0]) && ReadNat(s) == Got(n, rest)
    ensures ReadValue(s) == Got(Num(n), rest)
  {
  }

  lemma AtMember(s: string, name: string, after: string, j: Json, rest: string)
    requires s != "" && s[0] == '"' && ReadString(s[1..]) == Got(name, after)
    requires after != "" && after[0] == ':' && ReadValue(after[1..]) == Got(j, rest)
    ensures ReadMember(s) == Got((name, j), rest)
  {
  }

  lemma Shift(a: string, b: string, c: string)
    ensures a + b + c == a + (b + c) && (b != "" ==> (b + c)[0] == b[0])
  {
  }

  lemma MemberText(name: string, value: string, rest: string)
    ensures Quote(name) + ":" + value + rest == ['"'] + (EscapeAll(name) + "\"" + ([':'] + (value + rest)))
  {
  }

  lemma ReadMemberText(name: string, value: string, j: Json, rest: string)
    requires ReadValue(value + rest) == Got(j, rest)
    ensures ReadMember(Quote(name) + ":" + value + rest) == Got((name, j), rest)
  {
    var after := [':'] + (value + rest);
    var t := EscapeAll(name) + "\"" + after;
    ReadEscaped(name, after);
    Starts(':', value + rest);
    Starts('"', t);
    AtMember(['"'] + t, name, after, j, rest);
    MemberText(name, value, rest);
  }

  lemma Starts(c: char, t: string)
    ensures ([c] + t) != "" && ([c] + t)[0] == c && ([c] + t)[1..] == t
  {
  }

  lemma ReadInt(n: int, rest: string)
    requires Ends(rest)
    ensures ReadValue(PrintInt(n) + rest) == Got(Num(n), rest)
  {
    if n < 0 {
      var t := Decimal(-n) + rest;
      ReadNatDecimal(-n, rest);
      Starts('-', t);
      AtMinus(['-'] + t, -n, rest);
      Shift("-", Decimal(-n), rest);
    } else {
      ReadNatDecimal(n, rest);
      Shift("", Decimal(n), rest);
      AtDigit(Decimal(n) + rest, n, rest);
    }
  }

  lemma ReadStr(a: string, rest: string)
    ensures ReadValue(Quote(a) + rest) == Got(Str(a), rest)
  {
    var t := EscapeAll(a) + "\"" + rest;
    ReadEscaped(a, rest);
    Starts('"', t);
    AtQuote(['"'] + t, a, rest);
    assert Quote(a) + rest == ['"'] + t;
  }

  lemma ReadArr(items: seq<Json>, rest: string)
    requires ReadItems(ItemsText(items) + rest) == Got(items, rest)
    ensures ReadValue(Print(Arr(items)) + rest) == Got(Arr(items), rest)
  {
    var t := ItemsText(items) + rest;
    Starts('[', t);
    AtBracket(['['] + t, items, rest);
    Shift("[", ItemsText(items), rest);
  }

  lemma ReadObj(ms: seq<(string, Json)>, rest: string)
    requires ReadMembers(MembersText(ms) + rest) == Got(ms, rest)
    ensures ReadValue(Print(Obj(ms)) + rest) == Got(Obj(ms), rest)
  {
    var t := MembersText(ms) + rest;
    Starts('{', t);
    AtBrace(['{'] + t, ms, rest);
    Shift("{", MembersText(ms), rest);
  }

  /** No value starts with a separator or a closing bracket. */
  lemma PrintStarts(j: Json)
    ensures Print(j) != "" && Print(j)[0] != ']'
  {
    if j.Num? { assert Print(j)[0] == '-' || IsDigit(Print(j)[0]); }
  }

  lemma MoreItemsEnds(items: seq<Json>, rest: string)
    ensures Ends(MoreItems(items) + "]" + rest)
  {
    var s := MoreItems(items) + "]" + rest;
    assert items == [] ==> s[0] == ']';
    assert items != [] ==> s[0] == ',';
  }

  lemma MoreMembersEnds(ms: seq<(string, Json)>, rest: string)
    ensures Ends(MoreMembers(ms) + "}" + rest)
  {
    var s := MoreMembers(ms) + "}" + rest;
    assert ms == [] ==> s[0] == '}';
    assert ms != [] ==> s[0] == ',';
  }

  /** Reading a printed value gives the value and leaves what follows. */
  lemma {:induction false} ReadPrint(j: Json, rest: string)
    requires Ends(rest)
    ensures ReadValue(Print(j) + rest) == Got(j, rest)
    decreases j, 1
  {
    match j
    case Null => AtWord(Print(j) + rest, "null", j, rest);
    case False => AtWord(Print(j) + rest, "false", j, rest);
    case True => AtWord(Print(j) + rest, "true", j, rest);
    case Num(n) => ReadInt(n, rest);
    case Str(a) => ReadStr(a, rest);
    case Arr(items) =>
      ReadPrintItems(items, rest);
      ReadArr(items, rest);
    case Obj(ms) =>
      ReadPrintMembers(ms, rest);
      ReadObj(ms, rest);
  }

  lemma {:induction false} ReadPrintItems(items: seq<Json>, rest: string)
    ensures ReadItems(ItemsText(items) + rest) == Got(items, rest)
    decreases items, 1
  {
    var s := ItemsText(items) + rest;
    if items == [] {
      assert s[0] == ']' && s[1..] == rest;
    } else {
      var tail := MoreItems(items[1..]) + "]" + rest;
      assert s == Print(items[0]) + tail;
      PrintStarts(items[0]);
      MoreItemsEnds(items[1..], rest);
      ReadPrint(items[0], tail);
      ReadPrintMoreItems(items[1..], rest);
      assert [items[0]] + items[1..] == items;
    }
  }

  lemma {:induction false} ReadPrintMoreItems(items: seq<Json>, rest: string)
    ensures ReadMoreItems(MoreItems(items) + "]" + rest) == Got(items, rest)
    decreases items, 0
  {
    var s := MoreItems(items) + "]" + rest;
    if items == [] {
      assert s[0] == ']' && s[1..] == rest;
    } else {
      var tail := MoreItems(items[1..]) + "]" + rest;
      assert s[0] == ',' && s[1..] == Print(items[0]) + tail;
      MoreItemsEnds(items[1..], rest);
      ReadPrint(items[0], tail);
      ReadPrintMoreItems(items[1..], rest);
      assert [items[0]] + items[1..] == items;
    }
  }

  lemma {:induction false} ReadPrintMember(m: (string, Json), rest: string)
    requires Ends(rest)
    ensures ReadMember(PrintMember(m) + rest) == Got(m, rest)
    decreases m
  {
    ReadPrint(m.1, rest);
    ReadMemberText(m.0, Print(m.1), m.1, rest);
  }

  lemma {:induction false} ReadPrintMembers(ms: seq<(string, Json)>, rest: string)
    ensures ReadMembers(MembersText(ms) + rest) == Got(ms, rest)
    decreases ms, 1
  {
    var s := MembersText(ms) + rest;
    if ms == [] {
      assert s[0] == '}' && s[1..] == rest;
    } else {
      var tail := MoreMembers(ms[1..]) + "}" + rest;
      assert s == PrintMember(ms[0]) + tail;
      assert s[0] == '"';
      MoreMembersEnds(ms[1..], rest);
      ReadPrintMember(ms[0], tail);
      ReadPrintMoreMembers(ms[1..], rest);
      assert [ms[0]] + ms[1..] == ms;
    }
  }

  lemma {:induction false} ReadPrintMoreMembers(ms: seq<(string, Json)>, rest: string)
    ensures ReadMoreMembers(MoreMembers(ms) + "}" + rest) == Got(ms, rest)
    decreases ms, 0
  {
    var s := MoreMembers(ms) + "}" + rest;
    if ms == [] {
      assert s[0] == '}' && s[1..] == rest;
    } else {
      var tail := MoreMembers(ms[1..]) + "}" + rest;
      assert s[0] == ',' && s[1..] == PrintMember(ms[0]) + tail;
      MoreMembersEnds(ms[1..], rest);
      ReadPrintMember(ms[0], tail);
      ReadPrintMoreMembers(ms[1..], rest);
      assert [ms[0]] + ms[1..] == ms;
    }
  }

  /** A whole text holding one value. */
  function Parse(s: string): Reading<Json> {
    var r := ReadValue(s);
    if r.Got? && r.rest != "" then Fail else r
  }

  lemma ParsePrint(j: Json)
    ensures Parse(Print(j)) == Got(j, "")
  {
    ReadPrint(j, "");
    assert Print(j) + "" == Print(j);
  }
}
