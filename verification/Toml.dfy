/** The scanners and values of the TOML subset: internal/tomlx/tomlx.go, as functions of a text. */
module Toml {
  import opened Text

  datatype Value = Str(s: string) | Bool(b: bool) | Int(i: int) | Strs(ss: seq<string>)

  datatype ValueError = Empty | BadString | Unsupported | UnterminatedArray | NotQuoted | UnterminatedString | NoComma

  datatype Result<+T, +E> = Ok(value: T) | Err(error: E)

  // ----- characters

  predicate IsAsciiAlnum(c: char) {
    'a' <= c <= 'z' || 'A' <= c <= 'Z' || '0' <= c <= '9'
  }

  /** `wide` are the letters and digits beyond ASCII; which they are does not matter. */
  predicate WideOk(wide: set<char>) {
    forall c <- wide :: c as int > 127 && !IsSpace(c)
  }

  predicate IsKeyChar(c: char, wide: set<char>) {
    c == '_' || c == '-' || IsAsciiAlnum(c) || c in wide
  }

  predicate ValidKey(key: string, wide: set<char>) {
    key != "" && forall c <- key :: IsKeyChar(c, wide)
  }

  // ----- trimming

  function TrimLeft(s: string): (t: string)
    ensures |t| <= |s|
  {
    if s == "" || !IsSpace(s[0]) then s else TrimLeft(s[1..])
  }

  function TrimRight(s: string): (t: string)
    ensures |t| <= |s|
  {
    if s == "" || !IsSpace(s[|s| - 1]) then s else TrimRight(s[..|s| - 1])
  }

  /** strings.TrimSpace */
  function Trim(s: string): (t: string)
    ensures |t| <= |s|
  {
    TrimRight(TrimLeft(s))
  }

  /** Not empty, and no space at either end. */
  predicate Tight(s: string) {
    s != "" && !IsSpace(s[0]) && !IsSpace(s[|s| - 1])
  }

  // ----- quotes

  /** Where a scanner is with respect to double quotes. */
  datatype Quote = Outside | Inside | Escaped

  function Step(q: Quote, c: char): Quote {
    match q
    case Outside => if c == '"' then Inside else Outside
    case Inside => if c == '\\' then Escaped else if c == '"' then Outside else Inside
    case Escaped => Inside
  }

  /** The quote state after a text. */
  function Run(q: Quote, s: string): Quote
    decreases |s|
  {
    if s == "" then q else Run(Step(q, s[0]), s[1..])
  }

  /** The first occurrence of a character outside quotes, or the length of the text. */
  function Find(s: string, q: Quote, target: char): (i: nat)
    ensures i <= |s|
  {
    if s == "" || (q == Outside && s[0] == target) then 0 else 1 + Find(s[1..], Step(q, s[0]), target)
  }

  /** The first closing quote, or the length of the text; the scan begins inside the quotes. */
  function FindQuote(s: string, q: Quote): (i: nat)
    requires q != Outside
    ensures i <= |s|
  {
    if s == "" || (q == Inside && s[0] == '"') then 0 else 1 + FindQuote(s[1..], Step(q, s[0]))
  }

  /** stripComment */
  function StripComment(line: string): string {
    line[..Find(line, Outside, '#')]
  }

  /** splitAssignment */
  function SplitAssignment(line: string): (r: Assignment)
  {
    var i := Find(line, Outside, '=');
    if i == |line| then NoPair else Pair(Trim(line[..i]), Trim(line[i + 1..]))
  }

  datatype Assignment = NoPair | Pair(key: string, raw: string)

  /** quotedEnd, for a text that starts with a quote: the index of the quote that closes it. */
  function QuotedEnd(text: string): (r: Result<nat, ValueError>)
    requires text != ""
    ensures r.Ok? ==> 1 <= r.value < |text|
  {
    var i := FindQuote(text[1..], Inside);
    if i == |text| - 1 then Err(UnterminatedString) else Ok(i + 1)
  }

  // ----- strings

  /** The escapes of strconv.Unquote that the canonical printing uses. */
  function Unescape(s: string): (r: Result<string, ValueError>)
  {
    if s == "" then Ok("")
    else if s[0] == '"' || s[0] == '\n' then Err(BadString)
    else if s[0] == '\\' then
      if |s| < 2 || EscapedChar(s[1]).Err? then Err(BadString)
      else
        var rest := Unescape(s[2..]);
        if rest.Err? then rest else Ok([EscapedChar(s[1]).value] + rest.value)
    else
      var rest := Unescape(s[1..]);
      if rest.Err? then rest else Ok([s[0]] + rest.value)
  }

  function EscapedChar(c: char): Result<char, ValueError> {
    match c
    case '\\' => Ok('\\')
    case '"' => Ok('"')
    case 'n' => Ok('\n')
    case 'r' => Ok('\r')
    case 't' => Ok('\t')
    case _ => Err(BadString)
  }

  /** strconv.Unquote of a double-quoted text. */
  function Unquote(text: string): Result<string, ValueError> {
    if |text| < 2 || text[0] != '"' || text[|text| - 1] != '"' then Err(BadString)
    else Unescape(text[1..|text| - 1])
  }

  // ----- numbers

  function Digits(s: string): Result<nat, ValueError> {
    if s == "" then Err(Unsupported)
    else
      var last := s[|s| - 1];
      if !('0' <= last <= '9') then Err(Unsupported)
      else if |s| == 1 then Ok(last as int - '0' as int)
      else
        var front := Digits(s[..|s| - 1]);
        if front.Err? then front else Ok(front.value * 10 + (last as int - '0' as int))
  }

  const MIN_INT: int := -0x8000_0000_0000_0000
  const MAX_INT: int := 0x7FFF_FFFF_FFFF_FFFF

  /** strconv.Atoi on a 64-bit machine. */
  function Atoi(s: string): Result<int, ValueError> {
    var signed := s != "" && (s[0] == '-' || s[0] == '+');
    var digits := Digits(if signed then s[1..] else s);
    if digits.Err? then Err(Unsupported)
    else
      var d: int := digits.value;
      var n := if signed && s[0] == '-' then -d else d;
      if MIN_INT <= n <= MAX_INT then Ok(n) else Err(Unsupported)
  }

  // ----- values

  /** The loop of parseStringArray: `body` is what is left of the array before it is trimmed. */
  function ParseItems(body: string): Result<seq<string>, ValueError>
    decreases |body|, 1
  {
    if body == "" then Ok([]) else ParseTrimmed(Trim(body))
  }

  /** One round of the loop. */
  function ParseTrimmed(text: string): Result<seq<string>, ValueError>
    decreases |text|, 0
  {
    if text == "" || text[0] != '"' then Err(NotQuoted)
    else
      var end := QuotedEnd(text);
      if end.Err? then Err(end.error)
      else
        var value := Unquote(text[..end.value + 1]);
        if value.Err? then Err(value.error)
        else
          var rest := Trim(text[end.value + 1..]);
          if rest == "" then Ok([value.value])
          else if rest[0] != ',' then Err(NoComma)
          else
            var items := ParseItems(rest[1..]);
            if items.Err? then items else Ok([value.value] + items.value)
  }

  function ParseStringArray(raw: string): Result<seq<string>, ValueError>
    requires raw != "" && raw[0] == '['
  {
    if |raw| < 2 || raw[|raw| - 1] != ']' then Err(UnterminatedArray)
    else ParseItems(Trim(raw[1..|raw| - 1]))
  }

  /** parseValue */
  function ParseValue(raw: string): Result<Value, ValueError> {
    if raw == "" then Err(Empty)
    else if raw[0] == '"' then
      var s := Unquote(raw);
      if s.Err? then Err(BadString) else Ok(Str(s.value))
    else if raw == "true" then Ok(Bool(true))
    else if raw == "false" then Ok(Bool(false))
    else if raw[0] == '[' then
      var ss := ParseStringArray(raw);
      if ss.Err? then Err(ss.error) else Ok(Strs(ss.value))
    else
      var i := Atoi(raw);
      if i.Err? then Err(Unsupported) else Ok(Int(i.value))
  }

  // ----- canonical printing of values

  function EscapeChar(c: char): string {
    match c
    case '\\' => "\\\\"
    case '"' => "\\\""
    case '\n' => "\\n"
    case '\r' => "\\r"
    case '\t' => "\\t"
    case _ => [c]
  }

  function Escape(s: string): string {
    if s == "" then "" else EscapeChar(s[0]) + Escape(s[1..])
  }

  function Quoted(s: string): (t: string)
    ensures |t| >= 2 && t[0] == '"' && t[|t| - 1] == '"'
  {
    "\"" + Escape(s) + "\""
  }

  function PrintItems(ss: seq<string>): string {
    if |ss| == 0 then "" else if |ss| == 1 then Quoted(ss[0]) else Quoted(ss[0]) + ", " + PrintItems(ss[1..])
  }

  function PrintInt(i: int): string {
    if i < 0 then "-" + Decimal(-i) else Decimal(i)
  }

  function PrintValue(v: Value): string {
    match v
    case Str(s) => Quoted(s)
    case Bool(b) => if b then "true" else "false"
    case Int(i) => PrintInt(i)
    case Strs(ss) => "[" + PrintItems(ss) + "]"
  }

  predicate Printable(v: Value) {
    v.Int? ==> MIN_INT <= v.i <= MAX_INT
  }

  // ----- the quote scanners agree

  lemma {:induction false} RunSplits(q: Quote, a: string, b: string)
    ensures Run(q, a + b) == Run(Run(q, a), b)
    decreases |a|
  {
    if a == "" {
      assert a + b == b;
    } else {
      assert (a + b)[1..] == a[1..] + b;
      RunSplits(Step(q, a[0]), a[1..], b);
    }
  }

  /** A search goes on behind a piece in which it finds nothing. */
  lemma {:induction false} FindSkips(a: string, b: string, q: Quote, target: char)
    requires Find(a, q, target) == |a|
    ensures Find(a + b, q, target) == |a| + Find(b, Run(q, a), target)
  {
    if a == "" {
      assert a + b == b;
    } else {
      assert (a + b)[1..] == a[1..] + b;
      FindSkips(a[1..], b, Step(q, a[0]), target);
    }
  }

  /** A text without quotes and without the target. */
  lemma {:induction false} PlainText(a: string, target: char)
    requires '"' !in a && target !in a
    ensures Find(a, Outside, target) == |a| && Run(Outside, a) == Outside
  {
    if a != "" {
      assert a[0] in a && forall c <- a[1..] :: c in a;
      PlainText(a[1..], target);
    }
  }

  lemma {:induction false} EscapeStaysInside(s: string, target: char)
    ensures Run(Inside, Escape(s)) == Inside
    ensures Find(Escape(s), Inside, target) == |Escape(s)|
  {
    if s != "" {
      var c := EscapeChar(s[0]);
      EscapeStaysInside(s[1..], target);
      OneCharStaysInside(s[0], target);
      RunSplits(Inside, c, Escape(s[1..]));
      FindSkips(c, Escape(s[1..]), Inside, target);
    }
  }

  lemma OneCharStaysInside(c: char, target: char)
    ensures Run(Inside, EscapeChar(c)) == Inside
    ensures Find(EscapeChar(c), Inside, target) == |EscapeChar(c)|
  {
    var t := EscapeChar(c);
    if |t| == 1 {
      assert Run(Inside, t) == Run(Step(Inside, t[0]), t[1..]);
    } else {
      assert Run(Inside, t) == Run(Step(Step(Inside, t[0]), t[1]), t[1..][1..]);
      assert Find(t[1..][1..], Inside, target) == 0;
    }
  }

  /** A quoted text hides whatever it contains, and closes its quotes. */
  lemma QuotedHides(s: string, target: char)
    requires target != '"'
    ensures Run(Outside, Quoted(s)) == Outside
    ensures Find(Quoted(s), Outside, target) == |Quoted(s)|
  {
    var e := Escape(s);
    EscapeStaysInside(s, target);
    assert "\""[1..] == "";
    assert Run(Outside, "\"") == Inside && Find("\"", Outside, target) == 1;
    RunSplits(Outside, "\"", e);
    FindSkips("\"", e, Outside, target);
    RunSplits(Outside, "\"" + e, "\"");
    assert Run(Inside, "\"") == Outside && Find("\"", Inside, target) == 1;
    FindSkips("\"" + e, "\"", Outside, target);
  }

  lemma FindQuoteOne(c: char, rest: string)
    ensures FindQuote(EscapeChar(c) + rest, Inside) == |EscapeChar(c)| + FindQuote(rest, Inside)
  {
    var e := EscapeChar(c);
    var text := e + rest;
    if |e| == 1 {
      assert text[0] == e[0] && text[1..] == rest;
    } else {
      assert text[0] == '\\' && text[1..][0] == e[1] && text[1..][1..] == rest;
      assert FindQuote(text, Inside) == 1 + FindQuote(text[1..], Escaped);
    }
  }

  lemma {:induction false} FindQuoteSkips(s: string, rest: string)
    ensures FindQuote(Escape(s) + "\"" + rest, Inside) == |Escape(s)|
  {
    var text := Escape(s) + "\"" + rest;
    if s == "" {
      assert text[0] == '"';
    } else {
      var tail := Escape(s[1..]) + "\"" + rest;
      FindQuoteSkips(s[1..], rest);
      FindQuoteOne(s[0], tail);
      assert text == EscapeChar(s[0]) + tail;
    }
  }

  /** The third scanner closes a quoted text where the first two do. */
  lemma QuotedEndOf(s: string, rest: string)
    ensures QuotedEnd(Quoted(s) + rest) == Ok(|Quoted(s)| - 1)
  {
    FindQuoteSkips(s, rest);
    assert (Quoted(s) + rest)[1..] == Escape(s) + "\"" + rest;
  }

  function Prepend(c: char, rest: Result<string, ValueError>): Result<string, ValueError> {
    if rest.Err? then rest else Ok([c] + rest.value)
  }

  lemma UnescapePlain(c: char, text: string)
    requires text != "" && text[0] == c && c != '"' && c != '\n' && c != '\\'
    ensures Unescape(text) == Prepend(c, Unescape(text[1..]))
  {
  }

  lemma UnescapePair(c: char, text: string)
    requires |text| >= 2 && text[0] == '\\' && EscapedChar(text[1]) == Ok(c)
    ensures Unescape(text) == Prepend(c, Unescape(text[2..]))
  {
  }

  /** One printed character is read back in front of anything. */
  lemma UnescapeOne(c: char, rest: string)
    ensures Unescape(EscapeChar(c) + rest) == Prepend(c, Unescape(rest))
  {
    var e := EscapeChar(c);
    var text := e + rest;
    assert text[|e|..] == rest;
    if |e| == 1 {
      UnescapePlain(c, text);
    } else {
      assert text[0] == '\\' && text[1] == e[1];
      UnescapePair(c, text);
    }
  }

  lemma {:induction false} UnescapeUndoesEscape(s: string)
    ensures Unescape(Escape(s)) == Ok(s)
  {
    if s != "" {
      UnescapeUndoesEscape(s[1..]);
      UnescapeOne(s[0], Escape(s[1..]));
      assert [s[0]] + s[1..] == s;
    }
  }

  lemma UnquoteUndoesQuoted(s: string)
    ensures Unquote(Quoted(s)) == Ok(s)
  {
    UnescapeUndoesEscape(s);
    assert Quoted(s)[1..|Quoted(s)| - 1] == Escape(s);
  }

  // ----- trimming printed pieces

  lemma TrimTight(s: string)
    requires Tight(s)
    ensures Trim(s) == s
  {
  }

  lemma TrimBlankBefore(s: string)
    requires Tight(s)
    ensures Trim(" " + s) == s
  {
    assert (" " + s)[1..] == s;
    assert IsSpace(' ') && TrimLeft(" " + s) == TrimLeft(s);
  }

  lemma TrimBlankBehind(s: string)
    requires Tight(s)
    ensures Trim(s + " ") == s
  {
    assert (s + " ")[..|s + " "| - 1] == s;
    assert IsSpace(' ') && TrimLeft(s + " ") == s + " ";
    assert TrimRight(s + " ") == TrimRight(s);
  }

  // ----- every value is read back

  lemma {:induction false} PrintItemsTight(ss: seq<string>)
    requires |ss| > 0
    ensures Tight(PrintItems(ss)) && PrintItems(ss)[0] == '"'
  {
    var text := PrintItems(ss);
    if |ss| > 1 {
      PrintItemsTight(ss[1..]);
      var more := PrintItems(ss[1..]);
      assert text[|text| - 1] == more[|more| - 1];
    }
    assert text[0] == Quoted(ss[0])[0];
  }

  /** One round reads one printed item. */
  lemma OneItem(s: string, rest: string)
    requires rest == "" || (Tight(rest) && rest[0] == ',')
    ensures ParseTrimmed(Quoted(s) + rest)
            == if rest == "" then Ok([s])
               else if ParseItems(rest[1..]).Err? then ParseItems(rest[1..])
               else Ok([s] + ParseItems(rest[1..]).value)
  {
    var quoted := Quoted(s);
    var text := quoted + rest;
    QuotedEndOf(s, rest);
    UnquoteUndoesQuoted(s);
    assert text[..|quoted|] == quoted && text[|quoted|..] == rest;
    if rest != "" { TrimTight(rest); }
  }

  lemma {:induction false} ItemsReadBack(ss: seq<string>)
    requires |ss| > 0
    ensures ParseTrimmed(PrintItems(ss)) == Ok(ss)
  {
    if |ss| == 1 {
      assert PrintItems(ss) == Quoted(ss[0]) + "" && ss == [ss[0]];
      OneItem(ss[0], "");
    } else {
      ItemsReadBack(ss[1..]);
      PrintItemsTight(ss[1..]);
      MoreItems(ss[0], ss[1..], PrintItems(ss[1..]));
      assert ss == [ss[0]] + ss[1..];
    }
  }

  lemma Reassociate(a: string, b: string, c: string)
    ensures a + b + c == a + (b + c)
  {
  }

  /** What follows an item: a comma, and behind it a blank that the next round trims away. */
  lemma BehindItem(more: string)
    requires Tight(more)
    ensures Tight(", " + more) && (", " + more)[0] == ',' && ParseItems((", " + more)[1..]) == ParseTrimmed(more)
  {
    var rest := ", " + more;
    assert rest[0] == ',' && rest[|rest| - 1] == more[|more| - 1];
    assert rest[1..] == " " + more;
    TrimBlankBefore(more);
  }

  lemma MoreItems(s: string, tail: seq<string>, more: string)
    requires Tight(more) && ParseTrimmed(more) == Ok(tail)
    ensures ParseTrimmed(Quoted(s) + ", " + more) == Ok([s] + tail)
  {
    Reassociate(Quoted(s), ", ", more);
    BehindItem(more);
    OneItem(s, ", " + more);
  }

  lemma {:induction false} DigitsReadBack(n: nat)
    ensures Digits(Decimal(n)) == Ok(n)
  {
    var s := Decimal(n);
    if n >= 10 {
      DigitsReadBack(n / 10);
      assert s[..|s| - 1] == Decimal(n / 10);
    }
  }

  lemma {:induction false} DecimalStart(n: nat)
    ensures '0' <= Decimal(n)[0] <= '9' && '0' <= Decimal(n)[|Decimal(n)| - 1] <= '9'
    ensures forall c <- Decimal(n) :: '0' <= c <= '9'
  {
    if n >= 10 { DecimalStart(n / 10); }
  }

  lemma NatReadsBack(n: nat)
    requires n <= MAX_INT
    ensures Atoi(Decimal(n)) == Ok(n)
  {
    DigitsReadBack(n);
    DecimalStart(n);
  }

  lemma NegativeReadsBack(n: nat)
    requires n <= -MIN_INT
    ensures Atoi("-" + Decimal(n)) == Ok(0 - n as int)
  {
    DigitsReadBack(n);
    assert ("-" + Decimal(n))[1..] == Decimal(n);
  }

  lemma IntReadsBack(i: int)
    requires MIN_INT <= i <= MAX_INT
    ensures Atoi(PrintInt(i)) == Ok(i)
  {
    if i < 0 { NegativeReadsBack(-i); } else { NatReadsBack(i); }
  }

  lemma PrintIntShape(i: int)
    ensures Tight(PrintInt(i)) && (PrintInt(i)[0] == '-' || '0' <= PrintInt(i)[0] <= '9')
    ensures forall c <- PrintInt(i) :: c == '-' || '0' <= c <= '9'
  {
    DecimalStart(if i < 0 then -i else i);
  }

  lemma StringsReadBack(ss: seq<string>)
    ensures ParseStringArray("[" + PrintItems(ss) + "]") == Ok(ss)
  {
    var items := PrintItems(ss);
    var raw := "[" + items + "]";
    assert raw[1..|raw| - 1] == items;
    if |ss| > 0 {
      PrintItemsTight(ss);
      TrimTight(items);
      ItemsReadBack(ss);
    }
  }

  lemma IntIsNoOther(i: int)
    ensures PrintInt(i) != "" && PrintInt(i)[0] != '"' && PrintInt(i)[0] != '['
    ensures PrintInt(i) != "true" && PrintInt(i) != "false"
  {
    PrintIntShape(i);
  }

  /** Every printable value is read back from its printing. */
  lemma ValueReadsBack(v: Value)
    requires Printable(v)
    ensures ParseValue(PrintValue(v)) == Ok(v)
  {
    match v
    case Str(s) => UnquoteUndoesQuoted(s);
    case Bool(b) =>
    case Int(i) =>
      IntReadsBack(i);
      IntIsNoOther(i);
    case Strs(ss) => StringsReadBack(ss);
  }
}
