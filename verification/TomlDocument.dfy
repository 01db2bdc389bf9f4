/** Documents of the TOML subset, line by line, and their canonical printing: ParseFile of internal/tomlx/tomlx.go. */
module TomlDocuments {
  import opened Text
  import opened Toml

  type Fields = map<string, Value>

  datatype Item = Plain(value: Value) | TableOf(fields: Fields) | TablesOf(list: seq<Fields>)

  type Document = map<string, Item>

  /** The map that assignments go to: the document, a table in it, or the last element of an array of tables. */
  datatype Cursor = Root | InTable(name: string) | InLast(name: string)

  datatype State = State(doc: Document, at: Cursor)

  datatype LineError = BadArrayTable | OtherType | BadTable | DuplicateTable | NoAssignment | DuplicateKey
                     | BadValue(error: ValueError)

  const START := State(map[], Root)

  predicate StateOk(s: State) {
    match s.at
    case Root => true
    case InTable(name) => name in s.doc && s.doc[name].TableOf?
    case InLast(name) => name in s.doc && s.doc[name].TablesOf? && |s.doc[name].list| > 0
  }

  type GoodState = s: State | StateOk(s) witness START

  /** A document, or the number of the first bad line and what is wrong with it. */
  datatype Parsed = Parsed(state: GoodState) | Failed(line: nat, error: LineError)

  predicate HasKey(s: GoodState, key: string) {
    match s.at
    case Root => key in s.doc
    case InTable(name) => key in s.doc[name].fields
    case InLast(name) => key in s.doc[name].list[|s.doc[name].list| - 1]
  }

  function Put(s: GoodState, key: string, v: Value): (t: GoodState)
    ensures HasKey(t, key) && t.at == s.at
  {
    match s.at
    case Root => s.(doc := s.doc[key := Plain(v)])
    case InTable(name) => s.(doc := s.doc[name := TableOf(s.doc[name].fields[key := v])])
    case InLast(name) =>
      var list := s.doc[name].list;
      s.(doc := s.doc[name := TablesOf(list[|list| - 1 := list[|list| - 1][key := v]])])
  }

  // ----- one line

  predicate IsArrayHeader(line: string) {
    |line| >= 4 && line[..2] == "[[" && line[|line| - 2..] == "]]"
  }

  predicate IsHeader(line: string) {
    |line| >= 2 && line[0] == '[' && line[|line| - 1] == ']'
  }

  function StepArrayHeader(s: GoodState, name: string, wide: set<char>): Result<GoodState, LineError> {
    if !ValidKey(name, wide) then Err(BadArrayTable)
    else if name !in s.doc then Ok(State(s.doc[name := TablesOf([map[]])], InLast(name)))
    else if !s.doc[name].TablesOf? then Err(OtherType)
    else Ok(State(s.doc[name := TablesOf(s.doc[name].list + [map[]])], InLast(name)))
  }

  function StepHeader(s: GoodState, name: string, wide: set<char>): Result<GoodState, LineError> {
    if !ValidKey(name, wide) then Err(BadTable)
    else if name in s.doc then Err(DuplicateTable)
    else Ok(State(s.doc[name := TableOf(map[])], InTable(name)))
  }

  function StepAssignment(s: GoodState, line: string, wide: set<char>): Result<GoodState, LineError> {
    var pair := SplitAssignment(line);
    if pair.NoPair? || !ValidKey(pair.key, wide) then Err(NoAssignment)
    else if HasKey(s, pair.key) then Err(DuplicateKey)
    else
      var value := ParseValue(pair.raw);
      if value.Err? then Err(BadValue(value.error)) else Ok(Put(s, pair.key, value.value))
  }

  /** The body of the loop of ParseFile. */
  function StepLine(s: GoodState, raw: string, wide: set<char>): Result<GoodState, LineError> {
    var line := Trim(StripComment(raw));
    if line == "" then Ok(s)
    else if IsArrayHeader(line) then StepArrayHeader(s, Trim(line[2..|line| - 2]), wide)
    else if IsHeader(line) then StepHeader(s, Trim(line[1..|line| - 1]), wide)
    else StepAssignment(s, line, wide)
  }

  type Stepper = (GoodState, string) -> Result<GoodState, LineError>

  /** Line after line, until one is bad. */
  function ParseWith(step: Stepper, s: GoodState, lines: seq<string>, n: nat): Parsed
    decreases |lines|
  {
    if |lines| == 0 then Parsed(s)
    else
      var next := step(s, lines[0]);
      if next.Err? then Failed(n, next.error) else ParseWith(step, next.value, lines[1..], n + 1)
  }

  function LineStepper(wide: set<char>): Stepper {
    (s: GoodState, line: string) => StepLine(s, line, wide)
  }

  lemma ParseFirst(step: Stepper, s: GoodState, t: GoodState, line: string, rest: seq<string>, n: nat)
    requires step(s, line) == Ok(t)
    ensures ParseWith(step, s, [line] + rest, n) == ParseWith(step, t, rest, n + 1)
  {
    assert ([line] + rest)[1..] == rest;
  }

  /** Lines are parsed one after the other. */
  lemma {:induction false} ParseInTwo(step: Stepper, s: GoodState, t: GoodState, a: seq<string>, b: seq<string>, n: nat)
    requires ParseWith(step, s, a, n) == Parsed(t)
    ensures ParseWith(step, s, a + b, n) == ParseWith(step, t, b, n + |a|)
    decreases |a|
  {
    if |a| == 0 {
      assert a + b == b;
    } else {
      assert (a + b)[0] == a[0] && (a + b)[1..] == a[1..] + b;
      ParseInTwo(step, step(s, a[0]).value, t, a[1..], b, n + 1);
    }
  }

  // ----- the text of a file

  /** bufio.ScanLines: lines end with a newline, and lose a carriage return before it. */
  function Lines(text: string): seq<string>
    decreases |text|
  {
    if text == "" then []
    else
      var i := FirstNewline(text);
      [DropReturn(text[..i])] + if i == |text| then [] else Lines(text[i + 1..])
  }

  function FirstNewline(text: string): (i: nat)
    ensures i <= |text|
  {
    if text == "" || text[0] == '\n' then 0 else 1 + FirstNewline(text[1..])
  }

  lemma {:induction false} FirstNewlineIs(line: string, rest: string)
    requires '\n' !in line
    ensures FirstNewline(line + "\n" + rest) == |line|
  {
    var text := line + "\n" + rest;
    if line == "" {
      assert text[0] == '\n';
    } else {
      assert text[0] == line[0] && line[0] in line && forall c <- line[1..] :: c in line;
      assert text[1..] == line[1..] + "\n" + rest;
      FirstNewlineIs(line[1..], rest);
    }
  }

  function DropReturn(line: string): string {
    if line != "" && line[|line| - 1] == '\r' then line[..|line| - 1] else line
  }

  function Unlines(lines: seq<string>): string {
    if |lines| == 0 then "" else lines[0] + "\n" + Unlines(lines[1..])
  }

  predicate IsLine(line: string) {
    '\n' !in line && (line == "" || line[|line| - 1] != '\r')
  }

  lemma {:induction false} LinesUndoUnlines(lines: seq<string>)
    requires forall line <- lines :: IsLine(line)
    ensures Lines(Unlines(lines)) == lines
  {
    if |lines| > 0 {
      var text, rest := Unlines(lines), Unlines(lines[1..]);
      var i := |lines[0]|;
      assert lines[0] in lines;
      FirstNewlineIs(lines[0], rest);
      assert text[..i] == lines[0] && text[i + 1..] == rest;
      LinesUndoUnlines(lines[1..]);
      assert lines == [lines[0]] + lines[1..];
    }
  }

  /** ParseFile */
  function Parse(text: string, wide: set<char>): Parsed {
    ParseWith(LineStepper(wide), START, Lines(text), 1)
  }

  // ----- canonical printing

  type Entry = (string, Value)

  datatype Section =
    | TableSection(name: string, entries: seq<Entry>)
    | TablesSection(name: string, list: seq<seq<Entry>>)

  /** A document in some order: maps have none, and each order is a printing. */
  datatype Listing = Listing(entries: seq<Entry>, sections: seq<Section>)

  function PrintEntry(e: Entry): string {
    e.0 + " = " + PrintValue(e.1)
  }

  function PrintEntries(entries: seq<Entry>): seq<string> {
    seq(|entries|, i requires 0 <= i < |entries| => PrintEntry(entries[i]))
  }

  function Header(name: string): string {
    "[" + name + "]"
  }

  function ArrayHeader(name: string): string {
    "[[" + name + "]]"
  }

  function PrintElements(name: string, list: seq<seq<Entry>>): seq<string> {
    if |list| == 0 then []
    else [ArrayHeader(name)] + PrintEntries(list[0]) + PrintElements(name, list[1..])
  }

  function PrintSection(section: Section): seq<string> {
    match section
    case TableSection(name, entries) => [Header(name)] + PrintEntries(entries)
    case TablesSection(name, list) => PrintElements(name, list)
  }

  function PrintSections(sections: seq<Section>): seq<string> {
    if |sections| == 0 then [] else PrintSection(sections[0]) + PrintSections(sections[1..])
  }

  function Print(l: Listing): string {
    Unlines(PrintEntries(l.entries) + PrintSections(l.sections))
  }

  // ----- what a listing means

  function AddAll(fields: Fields, entries: seq<Entry>): Fields
    decreases |entries|
  {
    if |entries| == 0 then fields else AddAll(fields[entries[0].0 := entries[0].1], entries[1..])
  }

  function AddPlain(doc: Document, entries: seq<Entry>): Document
    decreases |entries|
  {
    if |entries| == 0 then doc else AddPlain(doc[entries[0].0 := Plain(entries[0].1)], entries[1..])
  }

  function Elements(list: seq<seq<Entry>>): seq<Fields> {
    seq(|list|, i requires 0 <= i < |list| => AddAll(map[], list[i]))
  }

  function ItemOf(section: Section): Item {
    match section
    case TableSection(_, entries) => TableOf(AddAll(map[], entries))
    case TablesSection(_, list) => TablesOf(Elements(list))
  }

  function AddSections(doc: Document, sections: seq<Section>): Document
    decreases |sections|
  {
    if |sections| == 0 then doc
    else AddSections(doc[sections[0].name := ItemOf(sections[0])], sections[1..])
  }

  function Meaning(l: Listing): Document {
    AddSections(AddPlain(map[], l.entries), l.sections)
  }

  predicate EntriesOk(entries: seq<Entry>, wide: set<char>) {
    && (forall e <- entries :: ValidKey(e.0, wide) && Printable(e.1))
    && (forall i, j :: 0 <= i < j < |entries| ==> entries[i].0 != entries[j].0)
  }

  predicate SectionOk(section: Section, wide: set<char>) {
    ValidKey(section.name, wide)
    && match section
       case TableSection(_, entries) => EntriesOk(entries, wide)
       case TablesSection(_, list) => |list| > 0 && forall entries <- list :: EntriesOk(entries, wide)
  }

  predicate SectionsOk(sections: seq<Section>, wide: set<char>) {
    && (forall section <- sections :: SectionOk(section, wide))
    && (forall i, j :: 0 <= i < j < |sections| ==> sections[i].name != sections[j].name)
  }

  predicate ListingOk(l: Listing, wide: set<char>) {
    && EntriesOk(l.entries, wide) && SectionsOk(l.sections, wide)
    && (forall e <- l.entries, section <- l.sections :: e.0 != section.name)
  }

  // ----- printed lines are read back

  lemma KeyShape(key: string, wide: set<char>)
    requires ValidKey(key, wide) && WideOk(wide)
    ensures Tight(key) && key[0] != '['
    ensures '"' !in key && '#' !in key && '=' !in key && '\n' !in key && '[' !in key && ']' !in key
  {
    assert key[0] in key && key[|key| - 1] in key;
  }

  lemma ValueShape(v: Value)
    ensures Tight(PrintValue(v))
    ensures Find(PrintValue(v), Outside, '#') == |PrintValue(v)|
  {
    match v
    case Str(s) => QuotedHides(s, '#');
    case Bool(b) => PlainText(PrintValue(v), '#');
    case Int(i) =>
      PrintIntShape(i);
      PlainText(PrintValue(v), '#');
    case Strs(ss) => StringsShape(ss);
  }

  lemma StringsShape(ss: seq<string>)
    ensures Tight("[" + PrintItems(ss) + "]")
    ensures Find("[" + PrintItems(ss) + "]", Outside, '#') == |PrintItems(ss)| + 2
  {
    var items := PrintItems(ss);
    ItemsHide(ss);
    PlainText("[", '#');
    PlainText("]", '#');
    FindSkips("[", items, Outside, '#');
    RunSplits(Outside, "[", items);
    FindSkips("[" + items, "]", Outside, '#');
  }

  lemma {:induction false} ItemsHide(ss: seq<string>)
    ensures Run(Outside, PrintItems(ss)) == Outside && Find(PrintItems(ss), Outside, '#') == |PrintItems(ss)|
  {
    if |ss| > 0 {
      QuotedHides(ss[0], '#');
      if |ss| > 1 {
        ItemsHide(ss[1..]);
        HideThree(Quoted(ss[0]), ", ", PrintItems(ss[1..]));
      }
    }
  }

  lemma HideThree(a: string, b: string, c: string)
    requires Run(Outside, a) == Outside && Find(a, Outside, '#') == |a|
    requires '"' !in b && '#' !in b
    requires Run(Outside, c) == Outside && Find(c, Outside, '#') == |c|
    ensures Run(Outside, a + b + c) == Outside && Find(a + b + c, Outside, '#') == |a + b + c|
  {
    PlainText(b, '#');
    RunSplits(Outside, a, b);
    RunSplits(Outside, a + b, c);
    FindSkips(a, b, Outside, '#');
    FindSkips(a + b, c, Outside, '#');
  }

  lemma EntryIsWhole(key: string, value: string, wide: set<char>)
    requires ValidKey(key, wide) && WideOk(wide) && Tight(value) && Find(value, Outside, '#') == |value|
    ensures var line := key + " = " + value; Trim(StripComment(line)) == line && Tight(line) && line[0] != '['
  {
    KeyShape(key, wide);
    PlainBefore(key + " = ", value);
  }

  /** Plain text in front of a value that hides its comment signs. */
  lemma PlainBefore(left: string, value: string)
    requires left != "" && !IsSpace(left[0]) && '"' !in left && '#' !in left
    requires Tight(value) && Find(value, Outside, '#') == |value|
    ensures Trim(StripComment(left + value)) == left + value && Tight(left + value) && (left + value)[0] == left[0]
  {
    var line := left + value;
    PlainText(left, '#');
    FindSkips(left, value, Outside, '#');
    assert line[..|line|] == line;
    assert line[|line| - 1] == value[|value| - 1];
    TrimTight(line);
  }

  lemma EntrySplits(key: string, value: string, wide: set<char>)
    requires ValidKey(key, wide) && WideOk(wide) && Tight(value)
    ensures SplitAssignment(key + " = " + value) == Pair(key, value)
  {
    var left, right := key + " ", "= " + value;
    var line := key + " = " + value;
    assert line == left + right;
    KeyShape(key, wide);
    PlainText(left, '=');
    FindSkips(left, right, Outside, '=');
    assert line[..|left|] == left && line[|left| + 1..] == " " + value;
    TrimBlankBehind(key);
    TrimBlankBefore(value);
  }

  lemma AssignmentReadsBack(s: GoodState, line: string, key: string, raw: string, v: Value, wide: set<char>)
    requires Trim(StripComment(line)) == line && Tight(line) && line[0] != '['
    requires SplitAssignment(line) == Pair(key, raw) && ValidKey(key, wide) && !HasKey(s, key)
    requires ParseValue(raw) == Ok(v)
    ensures StepLine(s, line, wide) == Ok(Put(s, key, v))
  {
    assert !IsArrayHeader(line) by { assert |line| >= 4 ==> line[..2][0] == line[0]; }
  }

  lemma EntryReadsBack(s: GoodState, e: Entry, wide: set<char>)
    requires WideOk(wide) && ValidKey(e.0, wide) && Printable(e.1) && !HasKey(s, e.0)
    ensures StepLine(s, PrintEntry(e), wide) == Ok(Put(s, e.0, e.1))
  {
    var raw := PrintValue(e.1);
    ValueShape(e.1);
    EntryIsWhole(e.0, raw, wide);
    EntrySplits(e.0, raw, wide);
    ValueReadsBack(e.1);
    AssignmentReadsBack(s, e.0 + " = " + raw, e.0, raw, e.1, wide);
  }

  lemma HeaderIsWhole(left: string, name: string, right: string, wide: set<char>)
    requires ValidKey(name, wide) && WideOk(wide) && Tight(left) && Tight(right)
    requires '"' !in left && '#' !in left && '"' !in right && '#' !in right
    ensures var line := left + name + right; Trim(StripComment(line)) == line && Tight(line)
    ensures Trim((left + name + right)[|left|..|left + name|]) == name
  {
    var line := left + name + right;
    KeyShape(name, wide);
    PlainText(line, '#');
    assert line[..|line|] == line;
    assert line[0] == left[0] && line[|line| - 1] == right[|right| - 1];
    TrimTight(line);
    assert line[|left|..|left + name|] == name;
    TrimTight(name);
  }

  lemma TableHeaderReadsBack(s: GoodState, name: string, wide: set<char>)
    requires WideOk(wide) && ValidKey(name, wide) && name !in s.doc
    ensures StepLine(s, Header(name), wide) == Ok(State(s.doc[name := TableOf(map[])], InTable(name)))
  {
    var line := "[" + name + "]";
    HeaderIsWhole("[", name, "]", wide);
    KeyShape(name, wide);
    assert line[1] == name[0] && line[|line| - 1] == ']';
    assert !IsArrayHeader(line) by { assert line[..2][1] == name[0]; }
  }

  lemma ArrayHeaderReadsBack(s: GoodState, name: string, list: seq<Fields>, wide: set<char>)
    requires WideOk(wide) && ValidKey(name, wide)
    requires if name in s.doc then s.doc[name] == TablesOf(list) else list == []
    ensures StepLine(s, ArrayHeader(name), wide) == Ok(State(s.doc[name := TablesOf(list + [map[]])], InLast(name)))
  {
    var line := "[[" + name + "]]";
    HeaderIsWhole("[[", name, "]]", wide);
    assert line[..2] == "[[" && line[|line| - 2..] == "]]";
    assert |"[[" + name| == |line| - 2;
    var one: seq<Fields> := [map[]];
    assert name !in s.doc ==> list + one == one;
  }

  /** What the lists of lines need to know of a single line. */
  ghost predicate ReadsBack(step: Stepper, wide: set<char>) {
    && (forall s: GoodState, e: Entry :: ValidKey(e.0, wide) && Printable(e.1) && !HasKey(s, e.0) ==>
          step(s, PrintEntry(e)) == Ok(Put(s, e.0, e.1)))
    && (forall s: GoodState, name: string :: ValidKey(name, wide) && name !in s.doc ==>
          step(s, Header(name)) == Ok(State(s.doc[name := TableOf(map[])], InTable(name))))
    && (forall s: GoodState, name: string :: ValidKey(name, wide) && (name in s.doc ==> s.doc[name].TablesOf?) ==>
          step(s, ArrayHeader(name)) == Ok(WithElement(s, name)))
  }

  function ListOf(s: State, name: string): seq<Fields>
    requires name in s.doc ==> s.doc[name].TablesOf?
  {
    if name in s.doc then s.doc[name].list else []
  }

  /** A new element at the end of an array of tables. */
  function WithElement(s: State, name: string): GoodState
    requires name in s.doc ==> s.doc[name].TablesOf?
  {
    State(s.doc[name := TablesOf(ListOf(s, name) + [map[]])], InLast(name))
  }

  lemma LinesReadBack(wide: set<char>)
    requires WideOk(wide)
    ensures ReadsBack(LineStepper(wide), wide)
  {
    var step := LineStepper(wide);
    forall s: GoodState, e: Entry | ValidKey(e.0, wide) && Printable(e.1) && !HasKey(s, e.0)
      ensures step(s, PrintEntry(e)) == Ok(Put(s, e.0, e.1))
    {
      EntryReadsBack(s, e, wide);
    }
    forall s: GoodState, name: string | ValidKey(name, wide) && name !in s.doc
      ensures step(s, Header(name)) == Ok(State(s.doc[name := TableOf(map[])], InTable(name)))
    {
      TableHeaderReadsBack(s, name, wide);
    }
    forall s: GoodState, name: string | ValidKey(name, wide) && (name in s.doc ==> s.doc[name].TablesOf?)
      ensures step(s, ArrayHeader(name)) == Ok(WithElement(s, name))
    {
      ArrayHeaderReadsBack(s, name, ListOf(s, name), wide);
    }
  }

  // ----- listings are read back

  function PutAll(s: GoodState, entries: seq<Entry>): (t: GoodState)
    ensures t.at == s.at
    decreases |entries|
  {
    if |entries| == 0 then s else PutAll(Put(s, entries[0].0, entries[0].1), entries[1..])
  }

  lemma PutLeavesOthers(s: GoodState, key: string, v: Value, other: string)
    requires other != key && !HasKey(s, other)
    ensures !HasKey(Put(s, key, v), other)
  {
  }

  lemma {:induction false} EntriesReadBack(step: Stepper, s: GoodState, entries: seq<Entry>, n: nat, wide: set<char>)
    requires ReadsBack(step, wide) && EntriesOk(entries, wide) && forall e <- entries :: !HasKey(s, e.0)
    ensures ParseWith(step, s, PrintEntries(entries), n) == Parsed(PutAll(s, entries))
    decreases |entries|
  {
    if |entries| > 0 {
      var e := entries[0];
      assert e in entries;
      var t := Put(s, e.0, e.1);
      forall o | o in entries[1..] ensures !HasKey(t, o.0) {
        PutLeavesOthers(s, e.0, e.1, o.0);
      }
      assert PrintEntries(entries)[0] == PrintEntry(e) && PrintEntries(entries)[1..] == PrintEntries(entries[1..]);
      EntriesReadBack(step, t, entries[1..], n + 1, wide);
    }
  }

  lemma {:induction false} PutAllInRoot(doc: Document, entries: seq<Entry>)
    ensures PutAll(State(doc, Root), entries) == State(AddPlain(doc, entries), Root)
    decreases |entries|
  {
    if |entries| > 0 {
      PutAllInRoot(doc[entries[0].0 := Plain(entries[0].1)], entries[1..]);
    }
  }

  lemma {:induction false} PutAllInTable(doc: Document, name: string, fields: Fields, entries: seq<Entry>)
    ensures PutAll(State(doc[name := TableOf(fields)], InTable(name)), entries)
            == State(doc[name := TableOf(AddAll(fields, entries))], InTable(name))
    decreases |entries|
  {
    if |entries| > 0 {
      var more := fields[entries[0].0 := entries[0].1];
      assert doc[name := TableOf(fields)][name := TableOf(more)] == doc[name := TableOf(more)];
      PutAllInTable(doc, name, more, entries[1..]);
    }
  }

  lemma {:induction false} PutAllInLast(doc: Document, name: string, list: seq<Fields>, fields: Fields, entries: seq<Entry>)
    ensures PutAll(State(doc[name := TablesOf(list + [fields])], InLast(name)), entries)
            == State(doc[name := TablesOf(list + [AddAll(fields, entries)])], InLast(name))
    decreases |entries|
  {
    if |entries| > 0 {
      var more := fields[entries[0].0 := entries[0].1];
      assert (list + [fields])[|list| := more] == list + [more];
      assert doc[name := TablesOf(list + [fields])][name := TablesOf(list + [more])] == doc[name := TablesOf(list + [more])];
      PutAllInLast(doc, name, list, more, entries[1..]);
    }
  }

  /** The state when elements have been read behind those that are there. */
  function WithElements(s: State, name: string, list: seq<seq<Entry>>): (t: State)
    requires name in s.doc ==> s.doc[name].TablesOf?
    ensures |list| > 0 ==> StateOk(t)
  {
    State(s.doc[name := TablesOf(ListOf(s, name) + Elements(list))], InLast(name))
  }

  lemma WithFirst(s: State, name: string, list: seq<seq<Entry>>)
    requires |list| > 0 && (name in s.doc ==> s.doc[name].TablesOf?)
    ensures var t := State(s.doc[name := TablesOf(ListOf(s, name) + [AddAll(map[], list[0])])], InLast(name));
            && WithElements(t, name, list[1..]) == WithElements(s, name, list)
            && (|list| == 1 ==> t == WithElements(s, name, list))
  {
    var done, first := ListOf(s, name), AddAll(map[], list[0]);
    assert done + [first] + Elements(list[1..]) == done + Elements(list);
    if |list| == 1 { assert Elements(list) == [first]; }
  }

  lemma ElementReadsBack(step: Stepper, s: GoodState, name: string, entries: seq<Entry>, n: nat, wide: set<char>)
    requires ReadsBack(step, wide) && ValidKey(name, wide) && EntriesOk(entries, wide)
    requires name in s.doc ==> s.doc[name].TablesOf?
    ensures ParseWith(step, s, [ArrayHeader(name)] + PrintEntries(entries), n)
            == Parsed(State(s.doc[name := TablesOf(ListOf(s, name) + [AddAll(map[], entries)])], InLast(name)))
  {
    var t := WithElement(s, name);
    ParseFirst(step, s, t, ArrayHeader(name), PrintEntries(entries), n);
    EntriesReadBack(step, t, entries, n + 1, wide);
    PutAllInLast(s.doc, name, ListOf(s, name), map[], entries);
  }

  predicate AllOk(list: seq<seq<Entry>>, wide: set<char>) {
    forall i :: 0 <= i < |list| ==> EntriesOk(list[i], wide)
  }

  lemma {:induction false} ElementsReadBack(step: Stepper, s: GoodState, name: string, list: seq<seq<Entry>>, n: nat,
                                            wide: set<char>)
    requires ReadsBack(step, wide) && ValidKey(name, wide) && AllOk(list, wide) && |list| > 0
    requires name in s.doc ==> s.doc[name].TablesOf?
    ensures ParseWith(step, s, PrintElements(name, list), n) == Parsed(WithElements(s, name, list))
    decreases |list|
  {
    var lines, rest := [ArrayHeader(name)] + PrintEntries(list[0]), PrintElements(name, list[1..]);
    var t := State(s.doc[name := TablesOf(ListOf(s, name) + [AddAll(map[], list[0])])], InLast(name));
    ElementReadsBack(step, s, name, list[0], n, wide);
    WithFirst(s, name, list);
    ParseInTwo(step, s, t, lines, rest, n);
    if |list| > 1 {
      ElementsReadBack(step, t, name, list[1..], n + |lines|, wide);
    }
  }

  /** Where assignments go after a section. */
  function CursorAfter(section: Section): Cursor {
    if section.TableSection? then InTable(section.name) else InLast(section.name)
  }

  lemma SectionReadsBack(step: Stepper, s: GoodState, section: Section, n: nat, wide: set<char>)
    requires ReadsBack(step, wide) && SectionOk(section, wide) && section.name !in s.doc
    ensures ParseWith(step, s, PrintSection(section), n)
            == Parsed(State(s.doc[section.name := ItemOf(section)], CursorAfter(section)))
  {
    match section
    case TableSection(name, entries) =>
      var t := State(s.doc[name := TableOf(map[])], InTable(name));
      ParseFirst(step, s, t, Header(name), PrintEntries(entries), n);
      EntriesReadBack(step, t, entries, n + 1, wide);
      PutAllInTable(s.doc, name, map[], entries);
    case TablesSection(name, list) =>
      ElementsReadBack(step, s, name, list, n, wide);
      assert [] + Elements(list) == Elements(list);
  }

  /** Reading the lines ends with this document. */
  predicate Yields(step: Stepper, s: GoodState, lines: seq<string>, n: nat, doc: Document) {
    var parsed := ParseWith(step, s, lines, n);
    parsed.Parsed? && parsed.state.doc == doc
  }

  lemma YieldsInTwo(step: Stepper, s: GoodState, t: GoodState, a: seq<string>, b: seq<string>, n: nat, doc: Document)
    requires ParseWith(step, s, a, n) == Parsed(t) && Yields(step, t, b, n + |a|, doc)
    ensures Yields(step, s, a + b, n, doc)
  {
    ParseInTwo(step, s, t, a, b, n);
  }

  /** None of the sections is there yet. */
  predicate AllNew(doc: Document, sections: seq<Section>) {
    forall i :: 0 <= i < |sections| ==> sections[i].name !in doc
  }

  lemma FirstSection(doc: Document, sections: seq<Section>, wide: set<char>)
    requires SectionsOk(sections, wide) && |sections| > 0 && AllNew(doc, sections)
    ensures SectionOk(sections[0], wide) && SectionsOk(sections[1..], wide)
    ensures AllNew(doc[sections[0].name := ItemOf(sections[0])], sections[1..])
  {
    assert sections[0] in sections;
  }

  lemma {:induction false} SectionsReadBack(step: Stepper, s: GoodState, sections: seq<Section>, n: nat, wide: set<char>)
    requires ReadsBack(step, wide) && SectionsOk(sections, wide) && AllNew(s.doc, sections)
    ensures Yields(step, s, PrintSections(sections), n, AddSections(s.doc, sections))
    decreases |sections|
  {
    if |sections| > 0 {
      var section, rest := sections[0], sections[1..];
      var lines := PrintSection(section);
      var t := State(s.doc[section.name := ItemOf(section)], CursorAfter(section));
      FirstSection(s.doc, sections, wide);
      SectionReadsBack(step, s, section, n, wide);
      SectionsReadBack(step, t, rest, n + |lines|, wide);
      YieldsInTwo(step, s, t, lines, PrintSections(rest), n, AddSections(t.doc, rest));
    }
  }

  lemma AddPlainKeys(doc: Document, entries: seq<Entry>)
    ensures AddPlain(doc, entries).Keys == doc.Keys + set e | e in entries :: e.0
    decreases |entries|
  {
    if |entries| > 0 {
      AddPlainKeys(doc[entries[0].0 := Plain(entries[0].1)], entries[1..]);
      assert entries == [entries[0]] + entries[1..];
      assert (set e | e in entries :: e.0) == {entries[0].0} + set e | e in entries[1..] :: e.0;
    }
  }

  lemma SectionsAreNew(l: Listing, wide: set<char>)
    requires ListingOk(l, wide)
    ensures AllNew(AddPlain(map[], l.entries), l.sections)
  {
    AddPlainKeys(map[], l.entries);
    assert forall i :: 0 <= i < |l.sections| ==> l.sections[i] in l.sections;
  }

  lemma RootReadsBack(step: Stepper, entries: seq<Entry>, wide: set<char>)
    requires ReadsBack(step, wide) && EntriesOk(entries, wide)
    ensures ParseWith(step, START, PrintEntries(entries), 1) == Parsed(State(AddPlain(map[], entries), Root))
  {
    EntriesReadBack(step, START, entries, 1, wide);
    PutAllInRoot(map[], entries);
  }

  lemma PrintedLines(step: Stepper, l: Listing, wide: set<char>)
    requires ReadsBack(step, wide) && ListingOk(l, wide)
    ensures Yields(step, START, PrintEntries(l.entries) + PrintSections(l.sections), 1, Meaning(l))
  {
    var root := State(AddPlain(map[], l.entries), Root);
    var lines := PrintEntries(l.entries);
    SectionsAreNew(l, wide);
    RootReadsBack(step, l.entries, wide);
    SectionsReadBack(step, root, l.sections, 1 + |lines|, wide);
    YieldsInTwo(step, START, root, lines, PrintSections(l.sections), 1, Meaning(l));
  }

  // ----- no printed line is broken by a line end

  lemma {:induction false} EscapeHasNoNewline(s: string)
    ensures '\n' !in Escape(s)
  {
    if s != "" {
      EscapeHasNoNewline(s[1..]);
    }
  }

  lemma {:induction false} ItemsHaveNoNewline(ss: seq<string>)
    ensures '\n' !in PrintItems(ss)
  {
    if |ss| > 0 {
      EscapeHasNoNewline(ss[0]);
      ItemsHaveNoNewline(ss[1..]);
    }
  }

  lemma ValueIsLine(v: Value)
    ensures '\n' !in PrintValue(v) && Tight(PrintValue(v))
  {
    ValueShape(v);
    match v
    case Str(s) => EscapeHasNoNewline(s);
    case Bool(_) =>
    case Int(i) => PrintIntShape(i);
    case Strs(ss) => ItemsHaveNoNewline(ss);
  }

  predicate AreLines(lines: seq<string>) {
    forall line <- lines :: IsLine(line)
  }

  lemma EntryIsLine(e: Entry, wide: set<char>)
    requires ValidKey(e.0, wide) && WideOk(wide)
    ensures IsLine(PrintEntry(e))
  {
    KeyShape(e.0, wide);
    ValueIsLine(e.1);
    var line, value := PrintEntry(e), PrintValue(e.1);
    assert line[|line| - 1] == value[|value| - 1] && IsSpace('\r');
  }

  lemma EntriesAreLines(entries: seq<Entry>, wide: set<char>)
    requires EntriesOk(entries, wide) && WideOk(wide)
    ensures AreLines(PrintEntries(entries))
  {
    forall line | line in PrintEntries(entries) ensures IsLine(line) {
      var i :| 0 <= i < |entries| && line == PrintEntry(entries[i]);
      assert entries[i] in entries;
      EntryIsLine(entries[i], wide);
    }
  }

  lemma {:induction false} ElementsAreLines(name: string, list: seq<seq<Entry>>, wide: set<char>)
    requires ValidKey(name, wide) && WideOk(wide) && forall entries <- list :: EntriesOk(entries, wide)
    ensures AreLines(PrintElements(name, list))
  {
    if |list| > 0 {
      KeyShape(name, wide);
      EntriesAreLines(list[0], wide);
      ElementsAreLines(name, list[1..], wide);
    }
  }

  lemma {:induction false} SectionsAreLines(sections: seq<Section>, wide: set<char>)
    requires WideOk(wide) && forall section <- sections :: SectionOk(section, wide)
    ensures AreLines(PrintSections(sections))
  {
    if |sections| > 0 {
      var section := sections[0];
      assert SectionOk(section, wide);
      KeyShape(section.name, wide);
      if section.TableSection? {
        EntriesAreLines(section.entries, wide);
      } else {
        ElementsAreLines(section.name, section.list, wide);
      }
      SectionsAreLines(sections[1..], wide);
    }
  }

  // ----- the round trip

  /** Parsing a canonical printing gives back what was printed, whatever the strings in it contain. */
  lemma ListingReadsBack(l: Listing, wide: set<char>)
    requires WideOk(wide) && ListingOk(l, wide)
    ensures Parse(Print(l), wide).Parsed? && Parse(Print(l), wide).state.doc == Meaning(l)
  {
    EntriesAreLines(l.entries, wide);
    SectionsAreLines(l.sections, wide);
    LinesUndoUnlines(PrintEntries(l.entries) + PrintSections(l.sections));
    LinesReadBack(wide);
    PrintedLines(LineStepper(wide), l, wide);
  }

  /** The documents that the format can express: valid keys, 64-bit integers, no empty arrays of tables. */
  predicate FieldsOk(fields: Fields, wide: set<char>) {
    forall key <- fields :: ValidKey(key, wide) && Printable(fields[key])
  }

  predicate ItemOk(item: Item, wide: set<char>) {
    match item
    case Plain(value) => Printable(value)
    case TableOf(fields) => FieldsOk(fields, wide)
    case TablesOf(list) => |list| > 0 && forall fields <- list :: FieldsOk(fields, wide)
  }

  predicate DocumentOk(doc: Document, wide: set<char>) {
    forall key <- doc :: ValidKey(key, wide) && ItemOk(doc[key], wide)
  }

  // ----- every document has a listing

  lemma {:induction false} AddAllAppends(fields: Fields, entries: seq<Entry>, e: Entry)
    ensures AddAll(fields, entries + [e]) == AddAll(fields, entries)[e.0 := e.1]
    decreases |entries|
  {
    if |entries| > 0 {
      assert (entries + [e])[1..] == entries[1..] + [e];
      AddAllAppends(fields[entries[0].0 := entries[0].1], entries[1..], e);
    } else {
      assert AddAll(fields, [e]) == AddAll(fields[e.0 := e.1], [e][1..]);
    }
  }

  lemma {:induction false} AddPlainAppends(doc: Document, entries: seq<Entry>, e: Entry)
    ensures AddPlain(doc, entries + [e]) == AddPlain(doc, entries)[e.0 := Plain(e.1)]
    decreases |entries|
  {
    if |entries| > 0 {
      assert (entries + [e])[1..] == entries[1..] + [e];
      AddPlainAppends(doc[entries[0].0 := Plain(entries[0].1)], entries[1..], e);
    } else {
      assert AddPlain(doc, [e]) == AddPlain(doc[e.0 := Plain(e.1)], [e][1..]);
    }
  }

  lemma {:induction false} AddSectionsAppends(doc: Document, sections: seq<Section>, section: Section)
    ensures AddSections(doc, sections + [section]) == AddSections(doc, sections)[section.name := ItemOf(section)]
    decreases |sections|
  {
    if |sections| > 0 {
      assert (sections + [section])[1..] == sections[1..] + [section];
      AddSectionsAppends(doc[sections[0].name := ItemOf(sections[0])], sections[1..], section);
    } else {
      assert AddSections(doc, [section]) == AddSections(doc[section.name := ItemOf(section)], [section][1..]);
    }
  }

  lemma {:induction false} ListFields(fields: Fields, wide: set<char>) returns (entries: seq<Entry>)
    requires FieldsOk(fields, wide)
    ensures EntriesOk(entries, wide) && AddAll(map[], entries) == fields && forall e <- entries :: e.0 in fields
    decreases |fields|
  {
    entries := [];
    if fields != map[] {
      var key :| key in fields;
      var rest := fields - {key};
      assert fields.Keys == rest.Keys + {key};
      var front := ListFields(rest, wide);
      entries := front + [(key, fields[key])];
      AddAllAppends(map[], front, (key, fields[key]));
      assert forall i :: 0 <= i < |front| ==> front[i] in front;
      assert rest[key := fields[key]] == fields;
    }
  }

  lemma {:induction false} ListPlain(doc: Document, wide: set<char>) returns (entries: seq<Entry>)
    requires DocumentOk(doc, wide) && forall key <- doc :: doc[key].Plain?
    ensures EntriesOk(entries, wide) && AddPlain(map[], entries) == doc && forall e <- entries :: e.0 in doc
    decreases |doc|
  {
    entries := [];
    if doc != map[] {
      var key :| key in doc;
      var rest := doc - {key};
      assert doc.Keys == rest.Keys + {key};
      var front := ListPlain(rest, wide);
      entries := front + [(key, doc[key].value)];
      AddPlainAppends(map[], front, (key, doc[key].value));
      assert forall i :: 0 <= i < |front| ==> front[i] in front;
      assert rest[key := doc[key]] == doc;
    }
  }

  lemma {:induction false} ListElements(list: seq<Fields>, wide: set<char>) returns (elements: seq<seq<Entry>>)
    requires forall fields <- list :: FieldsOk(fields, wide)
    ensures AllOk(elements, wide) && Elements(elements) == list
  {
    elements := [];
    if |list| > 0 {
      var front := ListElements(list[..|list| - 1], wide);
      assert list[|list| - 1] in list;
      var last := ListFields(list[|list| - 1], wide);
      elements := front + [last];
      assert Elements(elements) == Elements(front) + [AddAll(map[], last)];
    }
  }

  lemma ListItem(name: string, item: Item, wide: set<char>) returns (section: Section)
    requires ValidKey(name, wide) && ItemOk(item, wide) && !item.Plain?
    ensures SectionOk(section, wide) && section.name == name && ItemOf(section) == item
  {
    if item.TableOf? {
      var entries := ListFields(item.fields, wide);
      section := TableSection(name, entries);
    } else {
      var list := ListElements(item.list, wide);
      assert |Elements(list)| == |list|;
      section := TablesSection(name, list);
    }
  }

  lemma OneMoreSection(front: seq<Section>, last: Section, wide: set<char>)
    requires SectionsOk(front, wide) && SectionOk(last, wide) && forall section <- front :: section.name != last.name
    ensures SectionsOk(front + [last], wide)
  {
    assert forall i :: 0 <= i < |front| ==> front[i] in front;
  }

  lemma PutBack(base: Document, doc: Document, key: string)
    requires key in doc
    ensures (base + (doc - {key}))[key := doc[key]] == base + doc
    ensures |doc - {key}| < |doc|
  {
    assert doc.Keys == (doc - {key}).Keys + {key};
  }

  predicate OnlyTables(doc: Document, wide: set<char>) {
    DocumentOk(doc, wide) && forall key <- doc :: !doc[key].Plain?
  }

  lemma {:induction false} ListSections(doc: Document, base: Document, wide: set<char>) returns (sections: seq<Section>)
    requires OnlyTables(doc, wide)
    ensures SectionsOk(sections, wide) && AddSections(base, sections) == base + doc
    ensures forall section <- sections :: section.name in doc
    decreases |doc|
  {
    if doc == map[] {
      sections := [];
      assert base + doc == base;
    } else {
      var key :| key in doc;
      PutBack(base, doc, key);
      assert OnlyTables(doc - {key}, wide);
      var front := ListSections(doc - {key}, base, wide);
      var last := ListItem(key, doc[key], wide);
      sections := front + [last];
      assert SectionsOk(sections, wide) by { OneMoreSection(front, last, wide); }
      assert AddSections(base, sections) == base + doc by { AddSectionsAppends(base, front, last); }
    }
  }

  lemma DocumentHasListing(doc: Document, wide: set<char>) returns (l: Listing)
    requires DocumentOk(doc, wide)
    ensures ListingOk(l, wide) && Meaning(l) == doc
  {
    var plain := map key | key in doc && doc[key].Plain? :: doc[key];
    var tables := map key | key in doc && !doc[key].Plain? :: doc[key];
    var entries := ListPlain(plain, wide);
    var sections := ListSections(tables, plain, wide);
    l := Listing(entries, sections);
    assert plain + tables == doc;
  }

  /**
    TOML round trip.  Every document that the format can express has canonical printings, and parsing any of them
    gives the document back.
   */
  lemma DocumentRoundTrip(doc: Document, wide: set<char>)
    requires WideOk(wide) && DocumentOk(doc, wide)
    ensures exists l :: ListingOk(l, wide) && Meaning(l) == doc
    ensures forall l :: ListingOk(l, wide) && Meaning(l) == doc ==>
              Parse(Print(l), wide).Parsed? && Parse(Print(l), wide).state.doc == doc
  {
    var l := DocumentHasListing(doc, wide);
    forall l | ListingOk(l, wide) && Meaning(l) == doc
      ensures Parse(Print(l), wide).Parsed? && Parse(Print(l), wide).state.doc == doc
    {
      ListingReadsBack(l, wide);
    }
  }
}
