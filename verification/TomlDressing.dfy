/**
  Texts that differ only in what people may write as they like: blank lines, comments, indentation, blanks around equals
  signs, inside headers and between the items of an array.
 */
module TomlDressings {
  import opened Text
  import opened Toml
  import opened TomlDocuments
  import opened TomlLaws

  // ----- one line

  ghost predicate SameAssignment(plain: string, core: string, wide: set<char>) {
    exists key, before, after, before', lead, value ::
      && ValidKey(key, wide) && IsBlank(before) && IsBlank(after) && IsBlank(before') && IsBlank(lead)
      && plain == key + before + "=" + (after + value) && core == key + before' + "=" + (lead + value)
  }

  ghost predicate SameTable(plain: string, core: string, wide: set<char>) {
    exists name :: ValidKey(name, wide) && IsTableLine(plain, name) && IsTableLine(core, name)
  }

  ghost predicate IsArrayLine(line: string, name: string) {
    exists before, after :: IsBlank(before) && IsBlank(after) && line == "[[" + before + name + after + "]]"
  }

  ghost predicate SameArray(plain: string, core: string, wide: set<char>) {
    exists name :: ValidKey(name, wide) && IsArrayLine(plain, name) && IsArrayLine(core, name)
  }

  /** The same assignment or header with other blanks around the equals sign or inside the brackets. */
  ghost predicate Respaced(plain: string, core: string, wide: set<char>) {
    core == plain || SameAssignment(plain, core, wide) || SameTable(plain, core, wide) || SameArray(plain, core, wide)
  }

  /** Indented, respaced, and with blanks and perhaps a comment behind it. */
  ghost predicate Dressed(plain: string, fancy: string, wide: set<char>) {
    exists lead, core, trail, comment ::
      && IsBlank(lead) && Respaced(plain, core, wide) && IsBlank(trail) && (comment == "" || comment[0] == '#')
      && fancy == lead + core + trail + comment
  }

  lemma SameValue(blanks: string, value: string)
    requires IsBlank(blanks)
    ensures Trim(StripComment(blanks + value)) == Trim(StripComment(value))
  {
    StripBlankBefore(blanks, value);
    TrimSkipsBefore(blanks, StripComment(value));
  }

  lemma RespacedAssignment(s: GoodState, plain: string, core: string, wide: set<char>)
    requires WideOk(wide) && SameAssignment(plain, core, wide)
    ensures StepLine(s, core, wide) == StepLine(s, plain, wide)
  {
    var key, before, after, before', lead, value :|
      && ValidKey(key, wide) && IsBlank(before) && IsBlank(after) && IsBlank(before') && IsBlank(lead)
      && plain == key + before + "=" + (after + value) && core == key + before' + "=" + (lead + value);
    AssignmentLine(s, key, before, after + value, wide);
    AssignmentLine(s, key, before', lead + value, wide);
    SameValue(after, value);
    SameValue(lead, value);
  }

  lemma RespacedTable(s: GoodState, plain: string, core: string, wide: set<char>)
    requires WideOk(wide) && SameTable(plain, core, wide)
    ensures StepLine(s, core, wide) == StepLine(s, plain, wide)
  {
    var name :| ValidKey(name, wide) && IsTableLine(plain, name) && IsTableLine(core, name);
    AnyTableLine(s, plain, name, wide);
    AnyTableLine(s, core, name, wide);
  }

  lemma AnyTableLine(s: GoodState, line: string, name: string, wide: set<char>)
    requires WideOk(wide) && ValidKey(name, wide) && IsTableLine(line, name)
    ensures StepLine(s, line, wide) == TableBegun(s, name)
  {
    var before, after :| IsBlank(before) && IsBlank(after) && line == "[" + before + name + after + "]";
    TableLine(s, name, before, after, wide);
  }

  lemma RespacedArray(s: GoodState, plain: string, core: string, wide: set<char>)
    requires WideOk(wide) && SameArray(plain, core, wide)
    ensures StepLine(s, core, wide) == StepLine(s, plain, wide)
  {
    var name :| ValidKey(name, wide) && IsArrayLine(plain, name) && IsArrayLine(core, name);
    AnyArrayLine(s, plain, name, wide);
    AnyArrayLine(s, core, name, wide);
  }

  lemma AnyArrayLine(s: GoodState, line: string, name: string, wide: set<char>)
    requires WideOk(wide) && ValidKey(name, wide) && IsArrayLine(line, name)
    ensures StepLine(s, line, wide) == ElementBegun(s, name)
  {
    var before, after :| IsBlank(before) && IsBlank(after) && line == "[[" + before + name + after + "]]";
    ArrayLine(s, name, before, after, wide);
  }

  lemma RespacedLine(s: GoodState, plain: string, core: string, wide: set<char>)
    requires WideOk(wide) && Respaced(plain, core, wide)
    ensures StepLine(s, core, wide) == StepLine(s, plain, wide)
  {
    if SameAssignment(plain, core, wide) {
      RespacedAssignment(s, plain, core, wide);
    } else if SameTable(plain, core, wide) {
      RespacedTable(s, plain, core, wide);
    } else if SameArray(plain, core, wide) {
      RespacedArray(s, plain, core, wide);
    }
  }

  /** A good line stays good, and means the same, however it is dressed. */
  lemma DressedLine(s: GoodState, plain: string, fancy: string, wide: set<char>)
    requires WideOk(wide) && Dressed(plain, fancy, wide) && StepLine(s, plain, wide).Ok?
    ensures StepLine(s, fancy, wide) == StepLine(s, plain, wide)
  {
    var lead, core, trail, comment :|
      && IsBlank(lead) && Respaced(plain, core, wide) && IsBlank(trail) && (comment == "" || comment[0] == '#')
      && fancy == lead + core + trail + comment;
    RespacedLine(s, plain, core, wide);
    IndentedLine(s, lead, core, trail, wide);
    CommentBehind(s, lead + core + trail, comment, wide);
  }

  lemma CommentBehind(s: GoodState, bare: string, comment: string, wide: set<char>)
    requires WideOk(wide) && StepLine(s, bare, wide).Ok? && (comment == "" || comment[0] == '#')
    ensures StepLine(s, bare + comment, wide) == StepLine(s, bare, wide)
  {
    if comment == "" {
      assert bare + comment == bare;
    } else {
      GoodLinesAreClosed(s, bare, wide);
      CommentedLine(s, bare, comment[1..], wide);
      assert comment == "#" + comment[1..];
      Reassociate(bare, "#", comment[1..]);
    }
  }

  // ----- whole texts

  /** Line by line the same, dressed, with lines of white space and comments in between. */
  ghost predicate Decorates(plain: seq<string>, fancy: seq<string>, wide: set<char>)
    decreases |fancy|
  {
    if |fancy| == 0 then |plain| == 0
    else
      || (Ignorable(fancy[0]) && Decorates(plain, fancy[1..], wide))
      || (|plain| > 0 && Dressed(plain[0], fancy[0], wide) && Decorates(plain[1..], fancy[1..], wide))
  }

  lemma {:induction false} DecoratedLines(s: GoodState, plain: seq<string>, fancy: seq<string>, n: nat, m: nat, wide: set<char>)
    requires WideOk(wide) && Decorates(plain, fancy, wide) && ParseWith(LineStepper(wide), s, plain, n).Parsed?
    ensures ParseWith(LineStepper(wide), s, fancy, m) == ParseWith(LineStepper(wide), s, plain, n)
    decreases |fancy|
  {
    if |fancy| > 0 {
      if Ignorable(fancy[0]) && Decorates(plain, fancy[1..], wide) {
        IgnorableLine(s, fancy[0], wide);
        DecoratedLines(s, plain, fancy[1..], n, m + 1, wide);
      } else {
        DressedLine(s, plain[0], fancy[0], wide);
        DecoratedLines(StepLine(s, plain[0], wide).value, plain[1..], fancy[1..], n + 1, m + 1, wide);
      }
    }
  }

  /** However a good text is decorated, the parser finds the same document. */
  lemma DecoratedTextReadsTheSame(text: string, fancy: string, wide: set<char>)
    requires WideOk(wide) && Parse(text, wide).Parsed? && Decorates(Lines(text), Lines(fancy), wide)
    ensures Parse(fancy, wide) == Parse(text, wide)
  {
    DecoratedLines(START, Lines(text), Lines(fancy), 1, 1, wide);
  }

  /** So what was written into a file is read back from it, however people decorate it afterwards. */
  lemma DecoratedListingReadsBack(l: Listing, fancy: string, wide: set<char>)
    requires WideOk(wide) && ListingOk(l, wide) && Decorates(Lines(Print(l)), Lines(fancy), wide)
    ensures Parse(fancy, wide).Parsed? && Parse(fancy, wide).state.doc == Meaning(l)
  {
    ListingReadsBack(l, wide);
    DecoratedTextReadsTheSame(Print(l), fancy, wide);
  }

  // ----- values

  /** The items of an array, with blanks around each, and a comma that may follow the last. */
  ghost predicate ListsItems(body: string, ss: seq<string>)
    decreases |ss|
  {
    |ss| > 0 && exists before, after, rest ::
      && IsBlank(before) && IsBlank(after)
      && if |ss| == 1 then rest in {"", ","} && body == before + Quoted(ss[0]) + after + rest
         else body == before + Quoted(ss[0]) + after + "," + rest && ListsItems(rest, ss[1..])
  }

  lemma QuotedIsTight(s: string)
    ensures Tight(Quoted(s))
  {
  }

  /** What stands behind an item, trimmed. */
  lemma BehindAnItem(after: string, rest: string)
    requires IsBlank(after)
    ensures Trim(after + rest) == Trim(rest)
  {
    TrimSkipsBefore(after, rest);
  }

  /** One round of the parser on an item, the blanks around it, and what comes behind. */
  lemma ItemRound(before: string, s: string, after: string, rest: string)
    requires IsBlank(before) && IsBlank(after)
    ensures ParseItems(before + Quoted(s) + after + rest) == ParseTrimmed(Trim(Quoted(s) + (after + rest)))
  {
    Reassociate(before + Quoted(s), after, rest);
    Reassociate(before, Quoted(s), after + rest);
    TrimSkipsBefore(before, Quoted(s) + (after + rest));
  }

  lemma EndsTight(left: string, rest: string)
    requires left != "" && !IsSpace(left[|left| - 1])
    ensures TrimRight(left + TrimRight(rest)) == left + TrimRight(rest)
  {
    TrimRightEnd(rest);
    var front, back := left + TrimRight(rest), TrimRight(rest);
    if back == "" {
      assert front == left;
    } else {
      assert front[|front| - 1] == back[|back| - 1];
    }
  }

  lemma TrimBehindItem(s: string, more: string)
    ensures Trim(Quoted(s) + more) == Quoted(s) + TrimRight(more)
  {
    var trail := RightPart(more);
    Reassociate(Quoted(s), TrimRight(more), trail);
    TrimRightSkips(Quoted(s) + TrimRight(more), trail);
    EndsTight(Quoted(s), more);
    assert (Quoted(s) + more)[0] == '"';
    assert TrimLeft(Quoted(s) + more) == Quoted(s) + more;
  }

  /** The parser after one item: nothing more, something else than a comma, or the next round. */
  lemma OneRound(s: string, more: string)
    ensures ParseTrimmed(Trim(Quoted(s) + more))
            == var rest := Trim(more);
               if rest == "" then Ok([s]) else if rest[0] != ',' then Err(NoComma)
               else if ParseItems(rest[1..]).Err? then ParseItems(rest[1..])
               else Ok([s] + ParseItems(rest[1..]).value)
  {
    TrimBehindItem(s, more);
    var text := Quoted(s) + TrimRight(more);
    QuotedEndOf(s, TrimRight(more));
    UnquoteUndoesQuoted(s);
    assert text[..|Quoted(s)|] == Quoted(s) && text[|Quoted(s)|..] == TrimRight(more);
    TrimAfterTrimRight(more);
  }

  lemma TrimOfComma(rest: string)
    ensures Trim("," + rest) == "," + TrimRight(rest)
  {
    var trail := RightPart(rest);
    Reassociate(",", TrimRight(rest), trail);
    TrimRightSkips("," + TrimRight(rest), trail);
    EndsTight(",", rest);
    assert TrimLeft("," + rest) == "," + rest;
  }

  lemma ItemsWithoutTrail(rest: string)
    requires Trim(rest) != ""
    ensures ParseItems(TrimRight(rest)) == ParseItems(rest)
  {
    TrimAfterTrimRight(rest);
    assert Trim("") == "";
  }

  /** The first item, the blanks around it, and what stands behind. */
  lemma TakeItem(body: string, ss: seq<string>) returns (before: string, after: string, rest: string)
    requires ListsItems(body, ss)
    ensures |ss| > 0 && IsBlank(before) && IsBlank(after)
    ensures |ss| == 1 ==> rest in {"", ","} && body == before + Quoted(ss[0]) + after + rest
    ensures |ss| > 1 ==> body == before + Quoted(ss[0]) + after + ("," + rest) && ListsItems(rest, ss[1..])
  {
    before, after, rest :|
      && IsBlank(before) && IsBlank(after)
      && if |ss| == 1 then rest in {"", ","} && body == before + Quoted(ss[0]) + after + rest
         else body == before + Quoted(ss[0]) + after + "," + rest && ListsItems(rest, ss[1..]);
    assert before + Quoted(ss[0]) + after + "," + rest == before + Quoted(ss[0]) + after + ("," + rest);
  }

  lemma ItemIsSomething(before: string, s: string, more: string)
    requires IsBlank(before)
    ensures Trim(before + Quoted(s) + more) != ""
  {
    Reassociate(before, Quoted(s), more);
    TrimSkipsBefore(before, Quoted(s) + more);
    TrimBehindItem(s, more);
  }

  lemma ListsSomething(body: string, ss: seq<string>)
    requires ListsItems(body, ss)
    ensures Trim(body) != ""
  {
    var before, after, rest := TakeItem(body, ss);
    if |ss| == 1 {
      Reassociate(before + Quoted(ss[0]), after, rest);
      ItemIsSomething(before, ss[0], after + rest);
    } else {
      Reassociate(before + Quoted(ss[0]), after, "," + rest);
      ItemIsSomething(before, ss[0], after + ("," + rest));
    }
  }

  lemma {:induction false} SpacedItemsReadBack(body: string, ss: seq<string>)
    requires ListsItems(body, ss)
    ensures ParseItems(body) == Ok(ss)
    decreases |ss|
  {
    var before, after, rest := TakeItem(body, ss);
    if |ss| == 1 {
      LastSpacedItem(before, ss[0], after, rest);
      assert ss == [ss[0]];
    } else {
      SpacedItemsReadBack(rest, ss[1..]);
      ListsSomething(rest, ss[1..]);
      MoreSpacedItems(before, ss[0], after, rest, ss[1..]);
      assert ss == [ss[0]] + ss[1..];
    }
  }

  lemma LastSpacedItem(before: string, s: string, after: string, rest: string)
    requires IsBlank(before) && IsBlank(after) && rest in {"", ","}
    ensures ParseItems(before + Quoted(s) + after + rest) == Ok([s])
  {
    ItemRound(before, s, after, rest);
    OneRound(s, after + rest);
    BehindAnItem(after, rest);
    LastComma(rest);
    var none: seq<string> := [];
    assert [s] + none == [s];
  }

  lemma LastComma(rest: string)
    requires rest in {"", ","}
    ensures Trim(rest) == rest && (rest != "" ==> rest[0] == ',' && ParseItems(rest[1..]) == Ok([]))
  {
  }

  lemma MoreSpacedItems(before: string, s: string, after: string, rest: string, tail: seq<string>)
    requires IsBlank(before) && IsBlank(after) && ParseItems(rest) == Ok(tail) && Trim(rest) != ""
    ensures ParseItems(before + Quoted(s) + after + ("," + rest)) == Ok([s] + tail)
  {
    ItemRound(before, s, after, "," + rest);
    OneRound(s, after + ("," + rest));
    BehindComma(after, rest);
  }

  lemma BehindComma(after: string, rest: string)
    requires IsBlank(after) && Trim(rest) != ""
    ensures var r := Trim(after + ("," + rest)); r != "" && r[0] == ',' && ParseItems(r[1..]) == ParseItems(rest)
  {
    BehindAnItem(after, "," + rest);
    TrimOfComma(rest);
    ItemsWithoutTrail(rest);
    assert ("," + TrimRight(rest))[1..] == TrimRight(rest);
  }

  /** An array is read back whatever blanks stand between its items, and with or without a comma behind the last. */
  lemma SpacedArrayReadsBack(lead: string, body: string, trail: string, ss: seq<string>)
    requires IsBlank(lead) && IsBlank(trail) && ListsItems(body, ss)
    ensures ParseValue("[" + lead + body + trail + "]") == Ok(Strs(ss))
  {
    var inner := lead + body + trail;
    Bracketed("[", lead, body, trail, "]");
    Reassociate(lead, body, trail);
    TrimSkipsBefore(lead, body + trail);
    TrimSkipsBehind(body, trail);
    ListsSomething(body, ss);
    SpacedItemsReadBack(body, ss);
    SameItems(body);
    ArrayOf(inner);
  }

  lemma SameItems(body: string)
    requires Trim(body) != ""
    ensures ParseItems(Trim(body)) == ParseItems(body)
  {
    TrimTwice(body);
    assert Trim("") == "";
  }

  lemma ArrayOf(inner: string)
    ensures ParseValue("[" + inner + "]")
            == if ParseItems(Trim(inner)).Err? then Err(ParseItems(Trim(inner)).error)
               else Ok(Strs(ParseItems(Trim(inner)).value))
  {
    var raw := "[" + inner + "]";
    assert raw[1..|raw| - 1] == inner && raw[0] == '[' && raw[|raw| - 1] == ']';
  }

  /** An array without items may hold blanks. */
  lemma EmptyArrayReadsBack(blanks: string)
    requires IsBlank(blanks)
    ensures ParseValue("[" + blanks + "]") == Ok(Strs([]))
  {
    var raw := "[" + blanks + "]";
    assert raw[1..|raw| - 1] == blanks;
    TrimOfBlank(blanks);
  }

  lemma {:induction false} ZerosDoNotMatter(zeros: nat, s: string)
    requires Digits(s).Ok?
    ensures Digits(seq(zeros, _ => '0') + s) == Digits(s)
    decreases |s|
  {
    var all := seq(zeros, _ => '0') + s;
    assert all[..|all| - 1] == seq(zeros, _ => '0') + s[..|s| - 1];
    if |s| > 1 {
      ZerosDoNotMatter(zeros, s[..|s| - 1]);
    } else if zeros > 0 {
      JustZeros(zeros);
      assert s[..0] == "" && all[..|all| - 1] == seq(zeros, _ => '0');
    } else {
      assert all == s;
    }
  }

  lemma {:induction false} JustZeros(n: nat)
    requires n > 0
    ensures Digits(seq(n, _ => '0')) == Ok(0)
  {
    var all := seq(n, _ => '0');
    if n > 1 {
      assert all[..|all| - 1] == seq(n - 1, _ => '0');
      JustZeros(n - 1);
    }
  }

  lemma NumberValue(raw: string)
    requires raw != "" && (raw[0] == '+' || raw[0] == '-' || '0' <= raw[0] <= '9')
    ensures ParseValue(raw) == if Atoi(raw).Err? then Err(Unsupported) else Ok(Int(Atoi(raw).value))
  {
  }

  lemma SignedText(sign: char, digits: string, n: nat)
    requires Digits(digits) == Ok(n) && n <= MAX_INT && sign in "+-"
    ensures Atoi([sign] + digits) == Ok(if sign == '-' then 0 - n as int else n)
  {
    assert ([sign] + digits)[1..] == digits;
  }

  lemma UnsignedText(digits: string, n: nat)
    requires Digits(digits) == Ok(n) && n <= MAX_INT && digits != "" && '0' <= digits[0] <= '9'
    ensures Atoi(digits) == Ok(n)
  {
  }

  /** Numbers may carry a sign and leading zeros. */
  lemma SignedNumberReadsBack(n: nat, zeros: nat)
    requires n <= MAX_INT
    ensures ParseValue("+" + (seq(zeros, _ => '0') + Decimal(n))) == Ok(Int(n))
    ensures ParseValue("-" + (seq(zeros, _ => '0') + Decimal(n))) == Ok(Int(0 - n as int))
    ensures ParseValue(seq(zeros, _ => '0') + Decimal(n)) == Ok(Int(n))
  {
    DigitsReadBack(n);
    DecimalStart(n);
    ZerosDoNotMatter(zeros, Decimal(n));
    var digits := seq(zeros, _ => '0') + Decimal(n);
    assert digits[0] == (if zeros > 0 then '0' else Decimal(n)[0]);
    SignedText('+', digits, n);
    SignedText('-', digits, n);
    UnsignedText(digits, n);
    assert "+" == ['+'] && "-" == ['-'];
    NumberValue("+" + digits);
    NumberValue("-" + digits);
    NumberValue(digits);
  }
}
