/**
  What blanks, comments, line ends, repeated names and bad lines do to a configuration file: laws of the parser on all
  texts, good or bad, canonical or not.
 */
module TomlLaws {
  import opened Text
  import opened Toml
  import opened TomlDocuments

  // ----- scanning past blanks and up to comments

  lemma {:induction false} FindNothing(s: string, q: Quote, target: char)
    requires target !in s
    ensures Find(s, q, target) == |s|
    decreases |s|
  {
    if s != "" {
      assert s[0] in s && forall c <- s[1..] :: c in s;
      FindNothing(s[1..], Step(q, s[0]), target);
    }
  }

  /** What is found in a text is found in every longer one. */
  lemma {:induction false} FindStays(s: string, more: string, q: Quote, target: char)
    requires Find(s, q, target) < |s|
    ensures Find(s + more, q, target) == Find(s, q, target)
    decreases |s|
  {
    assert (s + more)[0] == s[0];
    if !(q == Outside && s[0] == target) {
      assert (s + more)[1..] == s[1..] + more;
      FindStays(s[1..], more, Step(q, s[0]), target);
    }
  }

  /** Text without quotes leaves a scanner where it is, unless it follows a backslash. */
  lemma {:induction false} NoQuotesOutside(s: string)
    requires '"' !in s
    ensures Run(Outside, s) == Outside
    decreases |s|
  {
    if s != "" {
      assert s[0] in s && forall c <- s[1..] :: c in s;
      NoQuotesOutside(s[1..]);
    }
  }

  lemma BlankHasNoSigns(s: string)
    requires IsBlank(s)
    ensures '"' !in s && '#' !in s && '=' !in s && '[' !in s && ']' !in s
  {
  }

  lemma StripBlankBefore(lead: string, rest: string)
    requires IsBlank(lead)
    ensures StripComment(lead + rest) == lead + StripComment(rest)
  {
    BlankHasNoSigns(lead);
    PlainText(lead, '#');
    FindSkips(lead, rest, Outside, '#');
    var i := Find(rest, Outside, '#');
    assert (lead + rest)[..|lead| + i] == lead + rest[..i];
  }

  /** The line ends outside quotes. */
  predicate Closed(line: string) {
    Run(Outside, line) == Outside
  }

  predicate HasComment(line: string) {
    Find(line, Outside, '#') < |line|
  }

  lemma NoCommentStaysWhole(line: string)
    requires !HasComment(line)
    ensures StripComment(line) == line
  {
    assert line[..|line|] == line;
  }

  /** A comment behind a line that is closed, or that has a comment already, is stripped. */
  lemma StripCommentBehind(line: string, rest: string)
    requires Closed(line) || HasComment(line)
    ensures StripComment(line + "#" + rest) == StripComment(line)
  {
    var more := "#" + rest;
    assert line + "#" + rest == line + more;
    if HasComment(line) {
      FindStays(line, more, Outside, '#');
      assert (line + more)[..Find(line, Outside, '#')] == line[..Find(line, Outside, '#')];
    } else {
      FindSkips(line, more, Outside, '#');
      assert more[0] == '#' && (line + more)[..|line|] == line[..|line|];
    }
  }

  lemma StripBlankBehind(line: string, trail: string)
    requires IsBlank(trail)
    ensures StripComment(line + trail) == StripComment(line) + if HasComment(line) then "" else trail
  {
    BlankHasNoSigns(trail);
    if HasComment(line) {
      FindStays(line, trail, Outside, '#');
      assert (line + trail)[..Find(line, Outside, '#')] == line[..Find(line, Outside, '#')];
    } else {
      FindSkips(line, trail, Outside, '#');
      FindNothing(trail, Run(Outside, line), '#');
      NoCommentStaysWhole(line);
      assert (line + trail)[..|line + trail|] == line + trail;
    }
  }

  // ----- trimming

  lemma {:induction false} TrimLeftSkips(lead: string, s: string)
    requires IsBlank(lead)
    ensures TrimLeft(lead + s) == TrimLeft(s)
    decreases |lead|
  {
    if lead == "" {
      assert lead + s == s;
    } else {
      assert lead[0] in lead && forall c <- lead[1..] :: c in lead;
      assert (lead + s)[1..] == lead[1..] + s;
      TrimLeftSkips(lead[1..], s);
    }
  }

  lemma {:induction false} TrimRightSkips(s: string, trail: string)
    requires IsBlank(trail)
    ensures TrimRight(s + trail) == TrimRight(s)
    decreases |trail|
  {
    if trail == "" {
      assert s + trail == s;
    } else {
      var front := trail[..|trail| - 1];
      assert trail[|trail| - 1] in trail && forall c <- front :: c in trail;
      assert (s + trail)[..|s + trail| - 1] == s + front;
      TrimRightSkips(s, front);
    }
  }

  lemma {:induction false} TrimLeftOfBlank(s: string)
    requires IsBlank(s)
    ensures TrimLeft(s) == ""
    decreases |s|
  {
    if s != "" {
      assert s[0] in s && forall c <- s[1..] :: c in s;
      TrimLeftOfBlank(s[1..]);
    }
  }

  lemma OneMoreBlank(c: char, blanks: string)
    requires IsSpace(c) && IsBlank(blanks)
    ensures IsBlank([c] + blanks)
  {
  }

  /** Every text is blanks, what is left of it when it is trimmed on the left, and nothing else. */
  lemma {:induction false} LeftPart(s: string) returns (lead: string)
    ensures IsBlank(lead) && s == lead + TrimLeft(s)
    ensures TrimLeft(s) == "" || !IsSpace(TrimLeft(s)[0])
    decreases |s|
  {
    if s == "" || !IsSpace(s[0]) {
      lead := "";
    } else {
      var rest := LeftPart(s[1..]);
      lead := [s[0]] + rest;
      Reassociate([s[0]], rest, TrimLeft(s[1..]));
      assert s == [s[0]] + s[1..];
      OneMoreBlank(s[0], rest);
    }
  }

  lemma {:induction false} RightPart(s: string) returns (trail: string)
    ensures IsBlank(trail) && s == TrimRight(s) + trail
    decreases |s|
  {
    if s == "" || !IsSpace(s[|s| - 1]) {
      trail := "";
    } else {
      var rest := RightPart(s[..|s| - 1]);
      trail := rest + [s[|s| - 1]];
      Reassociate(TrimRight(s[..|s| - 1]), rest, [s[|s| - 1]]);
      assert s == s[..|s| - 1] + [s[|s| - 1]];
    }
  }

  /** Trimming takes blanks from both ends and nothing else. */
  lemma TrimParts(s: string) returns (lead: string, trail: string)
    ensures IsBlank(lead) && IsBlank(trail) && s == lead + Trim(s) + trail
  {
    lead := LeftPart(s);
    trail := RightPart(TrimLeft(s));
    assert lead + (Trim(s) + trail) == lead + Trim(s) + trail;
  }

  lemma TrimSkipsBefore(lead: string, s: string)
    requires IsBlank(lead)
    ensures Trim(lead + s) == Trim(s)
  {
    TrimLeftSkips(lead, s);
  }

  lemma TrimOfBlank(s: string)
    requires IsBlank(s)
    ensures Trim(s) == ""
  {
    TrimLeftOfBlank(s);
  }

  lemma TrimSkipsBehind(s: string, trail: string)
    requires IsBlank(trail)
    ensures Trim(s + trail) == Trim(s)
  {
    var lead := LeftPart(s);
    var rest := TrimLeft(s);
    assert s + trail == lead + (rest + trail);
    TrimLeftSkips(lead, rest + trail);
    if rest == "" {
      assert rest + trail == trail;
      TrimLeftOfBlank(trail);
    } else {
      assert (rest + trail)[0] == rest[0];
      assert TrimLeft(rest + trail) == rest + trail;
      TrimRightSkips(rest, trail);
    }
  }

  // ----- lines that say nothing

  /** White space, or a comment with or without white space before it. */
  predicate Ignorable(line: string) {
    exists i: nat :: i <= |line| && IsBlank(line[..i]) && (i < |line| ==> line[i] == '#')
  }

  /** Such a line changes nothing, wherever it stands. */
  lemma IgnorableLine(s: GoodState, line: string, wide: set<char>)
    requires Ignorable(line)
    ensures StepLine(s, line, wide) == Ok(s)
  {
    var i: nat :| i <= |line| && IsBlank(line[..i]) && (i < |line| ==> line[i] == '#');
    assert line == line[..i] + line[i..];
    StripBlankBefore(line[..i], line[i..]);
    assert StripComment(line[i..]) == "";
    TrimOfBlank(line[..i]);
    assert line[..i] + "" == line[..i];
  }

  /** Indenting a line, or leaving blanks behind it, changes nothing. */
  lemma IndentedLine(s: GoodState, lead: string, line: string, trail: string, wide: set<char>)
    requires IsBlank(lead) && IsBlank(trail)
    ensures StepLine(s, lead + line + trail, wide) == StepLine(s, line, wide)
  {
    Reassociate(lead, line, trail);
    StripBlankBefore(lead, line + trail);
    TrimSkipsBefore(lead, StripComment(line + trail));
    StripBlankBehind(line, trail);
    if HasComment(line) {
      assert StripComment(line) + "" == StripComment(line);
    } else {
      TrimSkipsBehind(StripComment(line), trail);
    }
  }

  /** A comment behind a closed line changes nothing. */
  lemma CommentedLine(s: GoodState, line: string, comment: string, wide: set<char>)
    requires Closed(line) || HasComment(line)
    ensures StepLine(s, line + "#" + comment, wide) == StepLine(s, line, wide)
  {
    StripCommentBehind(line, comment);
  }

  // ----- blanks around the equals sign and inside headers

  lemma StripPlainBefore(left: string, rest: string)
    requires '"' !in left && '#' !in left
    ensures StripComment(left + rest) == left + StripComment(rest)
  {
    PlainText(left, '#');
    FindSkips(left, rest, Outside, '#');
    var i := Find(rest, Outside, '#');
    assert (left + rest)[..|left| + i] == left + rest[..i];
  }

  lemma SplitsAtSign(left: string, right: string)
    requires '"' !in left && '=' !in left
    ensures SplitAssignment(left + "=" + right) == Pair(Trim(left), Trim(right))
  {
    var line := left + "=" + right;
    assert line == left + ("=" + right);
    PlainText(left, '=');
    FindSkips(left, "=" + right, Outside, '=');
    assert line[..|left|] == left && line[|left| + 1..] == right;
  }

  /** What an assignment amounts to. */
  function Assigned(s: GoodState, key: string, raw: string): Result<GoodState, LineError> {
    if HasKey(s, key) then Err(DuplicateKey)
    else
      var value := ParseValue(raw);
      if value.Err? then Err(BadValue(value.error)) else Ok(Put(s, key, value.value))
  }

  lemma TrimmedAssignment(key: string, before: string, after: string) returns (trail: string)
    requires Tight(key) && IsBlank(before)
    ensures IsBlank(trail) && Trim(key + before + "=" + after) + trail == key + before + "=" + after
    ensures Trim(key + before + "=" + after) == key + before + "=" + TrimRight(after)
  {
    var line := key + before + "=" + after;
    assert line[0] == key[0];
    assert TrimLeft(line) == line;
    trail := RightPart(after);
    assert line == key + before + "=" + TrimRight(after) + trail;
    var front := key + before + "=" + TrimRight(after);
    TrimRightSkips(front, trail);
    SignOrTight(key + before, after);
    assert front[|front| - 1] == (if TrimRight(after) == "" then '=' else TrimRight(after)[|TrimRight(after)| - 1]);
  }

  lemma {:induction false} TrimRightEnd(s: string)
    ensures TrimRight(s) != "" ==> !IsSpace(TrimRight(s)[|TrimRight(s)| - 1])
    decreases |s|
  {
    if s != "" && IsSpace(s[|s| - 1]) { TrimRightEnd(s[..|s| - 1]); }
  }

  lemma SignOrTight(left: string, after: string)
    ensures var front := left + "=" + TrimRight(after); !IsSpace(front[|front| - 1])
  {
    TrimRightEnd(after);
    var front, rest := left + "=" + TrimRight(after), TrimRight(after);
    if rest != "" {
      assert front[|front| - 1] == rest[|rest| - 1];
    } else {
      assert front[|front| - 1] == '=';
    }
  }

  lemma {:induction false} TrimRightTwice(s: string)
    ensures TrimRight(TrimRight(s)) == TrimRight(s)
    decreases |s|
  {
    if s != "" && IsSpace(s[|s| - 1]) { TrimRightTwice(s[..|s| - 1]); }
  }

  lemma TrimAfterTrimRight(s: string)
    ensures Trim(TrimRight(s)) == Trim(s)
  {
    var trail := RightPart(s);
    TrimSkipsBehind(TrimRight(s), trail);
  }

  /**
    An assignment is its key and its value, whatever blanks stand around the equals sign: a valid key assigns the
    trimmed value, comment stripped, unless the table has the key or the value is none.
   */
  lemma AssignmentLine(s: GoodState, key: string, before: string, after: string, wide: set<char>)
    requires ValidKey(key, wide) && WideOk(wide) && IsBlank(before)
    ensures StepLine(s, key + before + "=" + after, wide) == Assigned(s, key, Trim(StripComment(after)))
  {
    KeyShape(key, wide);
    BlankHasNoSigns(before);
    var left := key + before + "=";
    var rest := StripComment(after);
    StripPlainBefore(left, after);
    var trail := TrimmedAssignment(key, before, rest);
    var line := key + before + "=" + TrimRight(rest);
    assert line[0] == key[0];
    assert !IsArrayHeader(line) by { assert |line| >= 4 ==> line[..2][0] == line[0]; }
    SplitsAtSign(key + before, TrimRight(rest));
    TrimTight(key);
    TrimSkipsBehind(key, before);
    TrimAfterTrimRight(rest);
  }

  lemma HeaderWithin(name: string, before: string, after: string, wide: set<char>)
    requires ValidKey(name, wide) && WideOk(wide) && IsBlank(before) && IsBlank(after)
    ensures Trim(before + name + after) == name
    ensures '"' !in before + name + after && '#' !in before + name + after
  {
    KeyShape(name, wide);
    BlankHasNoSigns(before);
    BlankHasNoSigns(after);
    TrimTight(name);
    TrimSkipsBehind(name, after);
    TrimSkipsBefore(before, name + after);
    assert before + name + after == before + (name + after);
  }

  lemma Bracketed(left: string, a: string, b: string, c: string, right: string)
    ensures left + a + b + c + right == left + (a + b + c) + right
  {
  }

  lemma WholeHeader(left: string, inner: string, right: string)
    requires '"' !in inner && '#' !in inner && '"' !in left && '#' !in left && '"' !in right && '#' !in right
    requires left != "" && right != "" && !IsSpace(left[0]) && !IsSpace(right[|right| - 1])
    ensures Trim(StripComment(left + inner + right)) == left + inner + right
  {
    var line := left + inner + right;
    PlainText(line, '#');
    assert line[..|line|] == line;
    assert line[0] == left[0] && line[|line| - 1] == right[|right| - 1];
    TrimTight(line);
  }

  /** Blanks within a table header do not matter; the table must be new. */
  lemma TableLine(s: GoodState, name: string, before: string, after: string, wide: set<char>)
    requires ValidKey(name, wide) && WideOk(wide) && IsBlank(before) && IsBlank(after)
    ensures StepLine(s, "[" + before + name + after + "]", wide) == TableBegun(s, name)
  {
    Bracketed("[", before, name, after, "]");
    HeaderWithin(name, before, after, wide);
    NotDoubled(name, before, after, wide);
    TableWithin(s, before + name + after, name, wide);
  }

  function TableBegun(s: GoodState, name: string): Result<GoodState, LineError> {
    if name in s.doc then Err(DuplicateTable) else Ok(State(s.doc[name := TableOf(map[])], InTable(name)))
  }

  lemma TableWithin(s: GoodState, inner: string, name: string, wide: set<char>)
    requires ValidKey(name, wide) && Trim(inner) == name && '"' !in inner && '#' !in inner
    requires !IsArrayHeader("[" + inner + "]")
    ensures StepLine(s, "[" + inner + "]", wide) == TableBegun(s, name)
  {
    SingleBrackets("[" + inner + "]", inner);
    WholeHeader("[", inner, "]");
    TableStep(s, "[" + inner + "]", name, wide);
  }

  lemma SingleBrackets(line: string, inner: string)
    requires line == "[" + inner + "]"
    ensures IsHeader(line) && line[1..|line| - 1] == inner
  {
    assert line[0] == '[' && line[|line| - 1] == ']';
  }

  lemma TableStep(s: GoodState, line: string, name: string, wide: set<char>)
    requires Trim(StripComment(line)) == line && IsHeader(line) && !IsArrayHeader(line) && ValidKey(name, wide)
    requires Trim(line[1..|line| - 1]) == name
    ensures StepLine(s, line, wide) == TableBegun(s, name)
  {
  }

  lemma NotDoubled(name: string, before: string, after: string, wide: set<char>)
    requires ValidKey(name, wide) && WideOk(wide) && IsBlank(before) && IsBlank(after)
    ensures !IsArrayHeader("[" + before + name + after + "]")
  {
    var line := "[" + before + name + after + "]";
    KeyShape(name, wide);
    BlankHasNoSigns(before);
    if before == "" {
      assert line[1] == name[0];
    } else {
      assert line[1] == before[0] && before[0] in before;
    }
    assert |line| >= 2 ==> line[..2][1] == line[1];
  }

  /** Nor do those within the header of an array of tables, which adds an element to an array or begins one. */
  lemma ArrayLine(s: GoodState, name: string, before: string, after: string, wide: set<char>)
    requires ValidKey(name, wide) && WideOk(wide) && IsBlank(before) && IsBlank(after)
    ensures StepLine(s, "[[" + before + name + after + "]]", wide) == ElementBegun(s, name)
  {
    Bracketed("[[", before, name, after, "]]");
    HeaderWithin(name, before, after, wide);
    ArrayWithin(s, before + name + after, name, wide);
  }

  function ElementBegun(s: GoodState, name: string): Result<GoodState, LineError> {
    if name !in s.doc then Ok(State(s.doc[name := TablesOf([map[]])], InLast(name)))
    else if !s.doc[name].TablesOf? then Err(OtherType)
    else Ok(State(s.doc[name := TablesOf(s.doc[name].list + [map[]])], InLast(name)))
  }

  lemma ArrayWithin(s: GoodState, inner: string, name: string, wide: set<char>)
    requires ValidKey(name, wide) && Trim(inner) == name && '"' !in inner && '#' !in inner
    ensures StepLine(s, "[[" + inner + "]]", wide) == ElementBegun(s, name)
  {
    DoubleBrackets("[[" + inner + "]]", inner);
    WholeHeader("[[", inner, "]]");
    ArrayStep(s, "[[" + inner + "]]", name, wide);
  }

  lemma DoubleBrackets(line: string, inner: string)
    requires line == "[[" + inner + "]]"
    ensures IsArrayHeader(line) && line[2..|line| - 2] == inner
  {
    assert line[..2] == "[[" && line[|line| - 2..] == "]]";
  }

  lemma ArrayStep(s: GoodState, line: string, name: string, wide: set<char>)
    requires Trim(StripComment(line)) == line && IsArrayHeader(line) && ValidKey(name, wide)
    requires Trim(line[2..|line| - 2]) == name
    ensures StepLine(s, line, wide) == ElementBegun(s, name)
  {
  }

  /** Names that are none make headers bad. */
  lemma BadTableLine(s: GoodState, inner: string, wide: set<char>)
    requires !ValidKey(Trim(inner), wide) && '"' !in inner && '#' !in inner && !IsArrayHeader("[" + inner + "]")
    ensures StepLine(s, "[" + inner + "]", wide) == Err(BadTable)
  {
    SingleBrackets("[" + inner + "]", inner);
    WholeHeader("[", inner, "]");
    BadTableStep(s, "[" + inner + "]", wide);
  }

  lemma BadTableStep(s: GoodState, line: string, wide: set<char>)
    requires Trim(StripComment(line)) == line && IsHeader(line) && !IsArrayHeader(line)
    requires !ValidKey(Trim(line[1..|line| - 1]), wide)
    ensures StepLine(s, line, wide) == Err(BadTable)
  {
  }

  lemma BadArrayLine(s: GoodState, inner: string, wide: set<char>)
    requires !ValidKey(Trim(inner), wide) && '"' !in inner && '#' !in inner
    ensures StepLine(s, "[[" + inner + "]]", wide) == Err(BadArrayTable)
  {
    DoubleBrackets("[[" + inner + "]]", inner);
    WholeHeader("[[", inner, "]]");
    BadArrayStep(s, "[[" + inner + "]]", wide);
  }

  lemma BadArrayStep(s: GoodState, line: string, wide: set<char>)
    requires Trim(StripComment(line)) == line && IsArrayHeader(line) && !ValidKey(Trim(line[2..|line| - 2]), wide)
    ensures StepLine(s, line, wide) == Err(BadArrayTable)
  {
  }

  /** A line that is neither a header nor a key, an equals sign and a value is bad. */
  lemma NoAssignmentLine(s: GoodState, line: string, wide: set<char>)
    requires Trim(StripComment(line)) == line && line != "" && line[0] != '['
    requires SplitAssignment(line).NoPair? || !ValidKey(SplitAssignment(line).key, wide)
    ensures StepLine(s, line, wide) == Err(NoAssignment)
  {
    assert !IsArrayHeader(line) by { assert |line| >= 4 ==> line[..2][0] == line[0]; }
  }

  lemma LineWithoutSign(s: GoodState, line: string, wide: set<char>)
    requires Tight(line) && line[0] != '[' && '"' !in line && '#' !in line && '=' !in line
    ensures StepLine(s, line, wide) == Err(NoAssignment)
  {
    PlainText(line, '#');
    PlainText(line, '=');
    assert line[..|line|] == line;
    TrimTight(line);
    NoAssignmentLine(s, line, wide);
  }

  // ----- good lines are closed

  lemma {:induction false} UnescapedCloses(s: string)
    requires Unescape(s).Ok?
    ensures Run(Inside, s) == Inside
    decreases |s|
  {
    if s != "" {
      if s[0] == '\\' {
        assert s[1..][0] == s[1] && s[1..][1..] == s[2..];
        assert Run(Inside, s) == Run(Escaped, s[1..]);
        UnescapedCloses(s[2..]);
      } else {
        UnescapedCloses(s[1..]);
      }
    }
  }

  lemma UnquotedCloses(text: string)
    requires Unquote(text).Ok?
    ensures Closed(text)
  {
    var inner := text[1..|text| - 1];
    UnescapedCloses(inner);
    assert text == ['"'] + inner + ['"'];
    RunSplits(Outside, ['"'] + inner, ['"']);
    RunSplits(Outside, ['"'], inner);
    assert Run(Outside, ['"']) == Inside && Run(Inside, ['"']) == Outside;
  }

  lemma ClosedWithBlanks(s: string)
    requires Closed(Trim(s))
    ensures Closed(s)
  {
    var lead, trail := TrimParts(s);
    BlankHasNoSigns(lead);
    BlankHasNoSigns(trail);
    NoQuotesOutside(lead);
    NoQuotesOutside(trail);
    RunSplits(Outside, lead, Trim(s));
    RunSplits(Outside, lead + Trim(s), trail);
  }

  lemma ClosedTogether(a: string, b: string)
    requires Closed(a) && Closed(b)
    ensures Closed(a + b)
  {
    RunSplits(Outside, a, b);
  }

  lemma {:induction false} ItemsClose(text: string)
    requires ParseTrimmed(text).Ok?
    ensures Closed(text)
    decreases |text|
  {
    var end := QuotedEnd(text).value;
    var first, behind := text[..end + 1], text[end + 1..];
    UnquotedCloses(first);
    var rest := Trim(behind);
    if rest != "" {
      if rest[1..] != "" {
        ItemsClose(Trim(rest[1..]));
        ClosedWithBlanks(rest[1..]);
      }
      NoQuotesOutside(",");
      ClosedTogether(",", rest[1..]);
      assert rest == "," + rest[1..];
    }
    ClosedWithBlanks(behind);
    ClosedTogether(first, behind);
    assert text == first + behind;
  }

  lemma ArrayCloses(raw: string)
    requires raw != "" && raw[0] == '[' && ParseStringArray(raw).Ok?
    ensures Closed(raw)
  {
    var inner := raw[1..|raw| - 1];
    if Trim(inner) != "" {
      TrimTwice(inner);
      ItemsClose(Trim(inner));
    }
    ClosedWithBlanks(inner);
    NoQuotesOutside("[");
    NoQuotesOutside("]");
    ClosedTogether("[", inner);
    ClosedTogether("[" + inner, "]");
    assert raw == "[" + inner + "]";
  }

  /** A trimmed text is tight, so trimming it again changes nothing. */
  lemma TrimTwice(s: string)
    ensures Trim(Trim(s)) == Trim(s)
  {
    var lead := LeftPart(s);
    var t := TrimLeft(s);
    TrimRightTwice(t);
    if TrimRight(t) != "" {
      var trail := RightPart(t);
      assert TrimRight(t)[0] == t[0];
    }
  }

  lemma {:induction false} DigitsHaveNoQuotes(s: string)
    requires Digits(s).Ok?
    ensures '"' !in s
    decreases |s|
  {
    var front, last := s[..|s| - 1], s[|s| - 1];
    assert s == front + [last];
    if |s| > 1 { DigitsHaveNoQuotes(front); }
  }

  lemma NumberCloses(raw: string)
    requires Atoi(raw).Ok?
    ensures Closed(raw)
  {
    var signed := raw != "" && (raw[0] == '-' || raw[0] == '+');
    if signed {
      DigitsHaveNoQuotes(raw[1..]);
      assert raw == [raw[0]] + raw[1..];
    } else {
      DigitsHaveNoQuotes(raw);
    }
    NoQuotesOutside(raw);
  }

  lemma ValueCloses(raw: string)
    requires ParseValue(raw).Ok?
    ensures Closed(raw)
  {
    if raw[0] == '"' {
      UnquotedCloses(raw);
    } else if raw == "true" || raw == "false" {
      NoQuotesOutside(raw);
    } else if raw[0] == '[' {
      ArrayCloses(raw);
    } else {
      NumberCloses(raw);
    }
  }

  lemma TrimmedHasNoQuotes(s: string)
    requires '"' !in Trim(s)
    ensures '"' !in s
  {
    var lead, trail := TrimParts(s);
    BlankHasNoSigns(lead);
    BlankHasNoSigns(trail);
  }

  lemma SplitAtSign(line: string, i: nat)
    requires i < |line| && line[i] == '='
    ensures line == line[..i] + "=" + line[i + 1..]
  {
  }

  lemma KeyCloses(text: string, wide: set<char>)
    requires WideOk(wide) && ValidKey(Trim(text), wide)
    ensures Closed(text)
  {
    KeyShape(Trim(text), wide);
    TrimmedHasNoQuotes(text);
    NoQuotesOutside(text);
  }

  lemma PairCloses(left: string, right: string, wide: set<char>)
    requires WideOk(wide) && ValidKey(Trim(left), wide) && ParseValue(Trim(right)).Ok?
    ensures Closed(left + "=" + right)
  {
    KeyCloses(left, wide);
    ValueCloses(Trim(right));
    ClosedWithBlanks(right);
    NoQuotesOutside("=");
    ClosedTogether(left, "=");
    ClosedTogether(left + "=", right);
  }

  lemma AssignmentCloses(s: GoodState, line: string, wide: set<char>)
    requires WideOk(wide) && StepAssignment(s, line, wide).Ok?
    ensures Closed(line)
  {
    var i := Find(line, Outside, '=');
    SignFound(line, Outside, '=');
    SplitAtSign(line, i);
    PairCloses(line[..i], line[i + 1..], wide);
  }

  lemma {:induction false} SignFound(s: string, q: Quote, target: char)
    ensures Find(s, q, target) < |s| ==> s[Find(s, q, target)] == target
    decreases |s|
  {
    if s != "" && !(q == Outside && s[0] == target) {
      SignFound(s[1..], Step(q, s[0]), target);
    }
  }

  lemma HeaderCloses(left: string, inner: string, right: string, wide: set<char>)
    requires WideOk(wide) && ValidKey(Trim(inner), wide) && '"' !in left && '"' !in right
    ensures Closed(left + inner + right)
  {
    KeyShape(Trim(inner), wide);
    TrimmedHasNoQuotes(inner);
    NoQuotesOutside(left + inner + right);
  }

  lemma ArrayHeaderCloses(s: GoodState, line: string, wide: set<char>)
    requires WideOk(wide) && IsArrayHeader(line) && StepArrayHeader(s, Trim(line[2..|line| - 2]), wide).Ok?
    ensures Closed(line)
  {
    HeaderCloses("[[", line[2..|line| - 2], "]]", wide);
    assert line == line[..2] + line[2..|line| - 2] + line[|line| - 2..];
  }

  lemma TableHeaderCloses(s: GoodState, line: string, wide: set<char>)
    requires WideOk(wide) && IsHeader(line) && StepHeader(s, Trim(line[1..|line| - 1]), wide).Ok?
    ensures Closed(line)
  {
    HeaderCloses("[", line[1..|line| - 1], "]", wide);
    assert line == "[" + line[1..|line| - 1] + "]";
  }

  /** Whatever a good line is, it closes its quotes before its comment, if it has one. */
  lemma GoodLinesAreClosed(s: GoodState, raw: string, wide: set<char>)
    requires WideOk(wide) && StepLine(s, raw, wide).Ok?
    ensures Closed(raw) || HasComment(raw)
  {
    var line := Trim(StripComment(raw));
    if !HasComment(raw) {
      NoCommentStaysWhole(raw);
      if line != "" {
        if IsArrayHeader(line) {
          ArrayHeaderCloses(s, line, wide);
        } else if IsHeader(line) {
          TableHeaderCloses(s, line, wide);
        } else {
          AssignmentCloses(s, line, wide);
        }
      }
      ClosedWithBlanks(raw);
    }
  }

  // ----- lines in a file

  /** The same outcome some lines further down. */
  function Shifted(parsed: Parsed, down: nat): Parsed {
    if parsed.Failed? then Failed(parsed.line + down, parsed.error) else parsed
  }

  lemma {:induction false} NumbersShift(step: Stepper, s: GoodState, lines: seq<string>, n: nat, down: nat)
    ensures ParseWith(step, s, lines, n + down) == Shifted(ParseWith(step, s, lines, n), down)
    decreases |lines|
  {
    if |lines| > 0 && step(s, lines[0]).Ok? {
      NumbersShift(step, step(s, lines[0]).value, lines[1..], n + 1, down);
    }
  }

  /** A line that changes nothing shifts the number of a bad line behind it, and nothing else. */
  lemma {:induction false} InsertedLine(step: Stepper, s: GoodState, a: seq<string>, line: string, b: seq<string>, n: nat)
    requires forall t: GoodState :: step(t, line) == Ok(t)
    ensures var without := ParseWith(step, s, a + b, n);
            ParseWith(step, s, a + [line] + b, n)
            == if without.Failed? && without.line >= n + |a| then Shifted(without, 1) else without
    decreases |a|
  {
    if |a| == 0 {
      assert a + [line] + b == [line] + b && a + b == b && ([line] + b)[1..] == b;
      NumbersShift(step, s, b, n, 1);
      BadLineIsBehind(step, s, b, n);
    } else {
      assert (a + [line] + b)[0] == a[0] && (a + [line] + b)[1..] == a[1..] + [line] + b;
      assert (a + b)[0] == a[0] && (a + b)[1..] == a[1..] + b;
      if step(s, a[0]).Ok? {
        InsertedLine(step, step(s, a[0]).value, a[1..], line, b, n + 1);
      }
    }
  }

  lemma {:induction false} BadLineIsBehind(step: Stepper, s: GoodState, lines: seq<string>, n: nat)
    ensures ParseWith(step, s, lines, n).Failed? ==> n <= ParseWith(step, s, lines, n).line < n + |lines|
    decreases |lines|
  {
    if |lines| > 0 && step(s, lines[0]).Ok? {
      BadLineIsBehind(step, step(s, lines[0]).value, lines[1..], n + 1);
    }
  }

  /** The number and the error are those of the first bad line: all lines before it are good. */
  lemma {:induction false} FirstBadLine(step: Stepper, s: GoodState, lines: seq<string>, n: nat, k: nat, e: LineError)
    ensures ParseWith(step, s, lines, n) == Failed(n + k, e)
            <==> k < |lines| && ParseWith(step, s, lines[..k], n).Parsed?
                 && step(ParseWith(step, s, lines[..k], n).state, lines[k]) == Err(e)
    decreases |lines|
  {
    if |lines| == 0 {
    } else if k == 0 {
      assert lines[..0] == [];
      if step(s, lines[0]).Ok? { BadLineIsBehind(step, step(s, lines[0]).value, lines[1..], n + 1); }
    } else if step(s, lines[0]).Ok? {
      FirstBadLine(step, step(s, lines[0]).value, lines[1..], n + 1, k - 1, e);
      if k <= |lines| {
        assert lines[..k][0] == lines[0] && lines[..k][1..] == lines[1..][..k - 1];
      }
    } else if k <= |lines| {
      assert lines[..k][0] == lines[0];
    }
  }

  // ----- texts

  predicate EndsLine(text: string) {
    text == "" || text[|text| - 1] == '\n'
  }

  lemma {:induction false} FirstNewlineFound(text: string)
    ensures FirstNewline(text) < |text| ==> text[FirstNewline(text)] == '\n'
    ensures '\n' !in text[..FirstNewline(text)]
    ensures EndsLine(text) && text != "" ==> FirstNewline(text) < |text|
    decreases |text|
  {
    if text != "" && text[0] != '\n' {
      FirstNewlineFound(text[1..]);
      assert text[..FirstNewline(text)] == [text[0]] + text[1..][..FirstNewline(text[1..])];
    }
  }

  lemma LineAlone(line: string, rest: string)
    requires '\n' !in line
    ensures Lines(line + "\n" + rest) == [DropReturn(line)] + Lines(rest)
  {
    var text := line + "\n" + rest;
    FirstNewlineIs(line, rest);
    assert text[..|line|] == line && text[|line| + 1..] == rest;
    if rest == "" { assert |text| == |line| + 1; }
  }

  lemma {:induction false} LinesOfTwo(a: string, b: string)
    requires EndsLine(a)
    ensures Lines(a + b) == Lines(a) + Lines(b)
    decreases |a|
  {
    if a == "" {
      assert a + b == b;
    } else {
      var line, rest := FirstLine(a);
      Reassociate(line + "\n", rest, b);
      LineAlone(line, rest);
      LineAlone(line, rest + b);
      LinesOfTwo(rest, b);
      Prefixed(DropReturn(line), Lines(rest), Lines(b));
    }
  }

  lemma Prefixed(line: string, a: seq<string>, b: seq<string>)
    ensures [line] + (a + b) == [line] + a + b
  {
  }

  /** A text that ends its lines is its first line and the rest. */
  lemma FirstLine(a: string) returns (line: string, rest: string)
    requires EndsLine(a) && a != ""
    ensures '\n' !in line && EndsLine(rest) && a == line + "\n" + rest && |rest| < |a|
  {
    FirstNewlineFound(a);
    var i := FirstNewline(a);
    line, rest := a[..i], a[i + 1..];
    assert rest != "" ==> rest[|rest| - 1] == a[|a| - 1];
  }

  lemma DroppingKeepsIgnorable(line: string)
    requires Ignorable(line)
    ensures Ignorable(DropReturn(line))
  {
    if line != "" && line[|line| - 1] == '\r' {
      var i: nat :| i <= |line| && IsBlank(line[..i]) && (i < |line| ==> line[i] == '#');
      var short := line[..|line| - 1];
      var k := if i == |line| then i - 1 else i;
      assert IsBlank(short[..k]) by { assert forall c <- short[..k] :: c in line[..i]; }
    }
  }

  /**
    Lines of white space and comments mean nothing.  Wherever such a line is put into a text, the parser finds the same
    document, or the same error in the same place, one line further down if that is behind.
   */
  lemma BlankLinesDoNotMatter(before: string, line: string, after: string, wide: set<char>)
    requires EndsLine(before) && '\n' !in line && Ignorable(line)
    ensures var without := Parse(before + after, wide);
            Parse(before + line + "\n" + after, wide)
            == if without.Failed? && without.line > |Lines(before)| then Failed(without.line + 1, without.error) else without
  {
    var step := LineStepper(wide);
    var dropped := DropReturn(line);
    DroppingKeepsIgnorable(line);
    forall t: GoodState ensures step(t, dropped) == Ok(t) {
      IgnorableLine(t, dropped, wide);
    }
    LinesAround(before, line, after);
    InsertedLine(step, START, Lines(before), dropped, Lines(after), 1);
  }

  lemma LinesAround(before: string, line: string, after: string)
    requires EndsLine(before) && '\n' !in line
    ensures Lines(before + after) == Lines(before) + Lines(after)
    ensures Lines(before + line + "\n" + after) == Lines(before) + [DropReturn(line)] + Lines(after)
  {
    LinesOfTwo(before, after);
    LinesOfTwo(before, line + "\n" + after);
    LineAlone(line, after);
    FourParts(before, line, "\n", after);
    Between(Lines(before), DropReturn(line), Lines(after));
  }

  lemma FourParts(a: string, b: string, c: string, d: string)
    ensures a + b + c + d == a + (b + c + d)
  {
  }

  lemma Between(a: seq<string>, line: string, b: seq<string>)
    ensures a + ([line] + b) == a + [line] + b
  {
  }

  function UnlinesWithReturns(lines: seq<string>): string {
    if |lines| == 0 then "" else lines[0] + "\r" + "\n" + UnlinesWithReturns(lines[1..])
  }

  /** Lines may end with a carriage return and a newline. */
  lemma {:induction false} ReturnsDoNotMatter(lines: seq<string>)
    requires forall line <- lines :: '\n' !in line
    ensures Lines(UnlinesWithReturns(lines)) == lines
  {
    if |lines| > 0 {
      var line := lines[0];
      assert line in lines;
      LineAlone(line + "\r", UnlinesWithReturns(lines[1..]));
      assert DropReturn(line + "\r") == line;
      ReturnsDoNotMatter(lines[1..]);
      assert lines == [line] + lines[1..];
    }
  }

  /** The last line may do without a newline. */
  lemma LastNewlineDoesNotMatter(before: string, line: string)
    requires EndsLine(before) && '\n' !in line && line != ""
    ensures Lines(before + line) == Lines(before + line + "\n")
  {
    LinesOfTwo(before, line);
    LastLine(line);
    LinesAround(before, line, "");
    assert before + line + "\n" + "" == before + line + "\n";
    assert Lines(before) + [DropReturn(line)] + [] == Lines(before) + [DropReturn(line)];
  }

  lemma LastLine(line: string)
    requires '\n' !in line && line != ""
    ensures Lines(line) == [DropReturn(line)]
  {
    NoNewline(line);
    assert line[..|line|] == line;
  }

  lemma {:induction false} NoNewline(line: string)
    requires '\n' !in line
    ensures FirstNewline(line) == |line|
  {
    if line != "" {
      assert line[0] in line && forall c <- line[1..] :: c in line;
      NoNewline(line[1..]);
    }
  }

  // ----- repeated names

  predicate NamesStay(s: State, t: State) {
    forall name <- s.doc :: name in t.doc
  }

  lemma StepKeepsNames(s: GoodState, t: GoodState, raw: string, wide: set<char>)
    requires StepLine(s, raw, wide) == Ok(t)
    ensures NamesStay(s, t)
  {
  }

  lemma {:induction false} ParsingKeepsNames(s: GoodState, lines: seq<string>, n: nat, wide: set<char>)
    requires ParseWith(LineStepper(wide), s, lines, n).Parsed?
    ensures NamesStay(s, ParseWith(LineStepper(wide), s, lines, n).state)
    decreases |lines|
  {
    if |lines| > 0 {
      var t := StepLine(s, lines[0], wide).value;
      StepKeepsNames(s, t, lines[0], wide);
      ParsingKeepsNames(t, lines[1..], n + 1, wide);
    }
  }

  /** Parsing up to a line and parsing that line. */
  lemma {:induction false} OneLineMore(step: Stepper, s: GoodState, lines: seq<string>, n: nat, i: nat)
    requires i < |lines| && ParseWith(step, s, lines[..i], n).Parsed?
    ensures var t := ParseWith(step, s, lines[..i], n).state;
            ParseWith(step, s, lines[..i + 1], n)
            == if step(t, lines[i]).Ok? then Parsed(step(t, lines[i]).value) else Failed(n + i, step(t, lines[i]).error)
  {
    var t := ParseWith(step, s, lines[..i], n).state;
    assert lines[..i + 1] == lines[..i] + [lines[i]];
    ParseInTwo(step, s, t, lines[..i], [lines[i]], n);
    if step(t, lines[i]).Ok? { ParseFirst(step, t, step(t, lines[i]).value, lines[i], [], n + i); }
  }

  lemma PrefixParses(step: Stepper, s: GoodState, lines: seq<string>, n: nat, i: nat)
    requires i <= |lines| && ParseWith(step, s, lines, n).Parsed?
    ensures ParseWith(step, s, lines[..i], n).Parsed?
  {
    PrefixFails(step, s, lines, n, i);
  }

  lemma {:induction false} PrefixFails(step: Stepper, s: GoodState, lines: seq<string>, n: nat, i: nat)
    requires i <= |lines|
    ensures ParseWith(step, s, lines[..i], n).Failed? ==> ParseWith(step, s, lines, n) == ParseWith(step, s, lines[..i], n)
    decreases i
  {
    if i > 0 && step(s, lines[0]).Ok? {
      assert lines[..i][0] == lines[0] && lines[..i][1..] == lines[1..][..i - 1];
      PrefixFails(step, step(s, lines[0]).value, lines[1..], n + 1, i - 1);
    }
  }

  /** A header of a table, with whatever blanks. */
  ghost predicate IsTableLine(line: string, name: string) {
    exists before, after :: IsBlank(before) && IsBlank(after) && line == "[" + before + name + after + "]"
  }

  lemma AfterTableLine(s: GoodState, line: string, name: string, wide: set<char>)
    requires ValidKey(name, wide) && WideOk(wide) && IsTableLine(line, name)
    ensures StepLine(s, line, wide).Ok? ==> name in StepLine(s, line, wide).value.doc
    ensures name in s.doc ==> StepLine(s, line, wide) == Err(DuplicateTable)
  {
    var before, after :| IsBlank(before) && IsBlank(after) && line == "[" + before + name + after + "]";
    TableLine(s, name, before, after, wide);
  }

  lemma {:induction false} NameIsThere(s: GoodState, lines: seq<string>, n: nat, i: nat, j: nat, name: string, wide: set<char>)
    requires i < j <= |lines| && IsTableLine(lines[i], name) && ValidKey(name, wide) && WideOk(wide)
    requires ParseWith(LineStepper(wide), s, lines[..j], n).Parsed?
    ensures name in ParseWith(LineStepper(wide), s, lines[..j], n).state.doc
    decreases j
  {
    var step := LineStepper(wide);
    PrefixParses(step, s, lines[..j], n, j - 1);
    assert lines[..j][..j - 1] == lines[..j - 1];
    OneLineMore(step, s, lines, n, j - 1);
    var t := ParseWith(step, s, lines[..j - 1], n).state;
    if i == j - 1 {
      AfterTableLine(t, lines[i], name, wide);
    } else {
      NameIsThere(s, lines, n, i, j - 1, name, wide);
      StepKeepsNames(t, step(t, lines[j - 1]).value, lines[j - 1], wide);
    }
  }

  /** A line that is bad after all lines before it makes the text bad, there at the latest. */
  lemma FailsThere(step: Stepper, lines: seq<string>, j: nat, e: LineError)
    requires j < |lines|
    requires ParseWith(step, START, lines[..j], 1).Parsed? ==>
               step(ParseWith(step, START, lines[..j], 1).state, lines[j]) == Err(e)
    ensures var parsed := ParseWith(step, START, lines, 1);
            parsed.Failed? && parsed.line <= j + 1 && (parsed.line == j + 1 ==> parsed.error == e)
  {
    PrefixFails(step, START, lines, 1, j);
    PrefixFails(step, START, lines, 1, j + 1);
    BadLineIsBehind(step, START, lines[..j], 1);
    if ParseWith(step, START, lines[..j], 1).Parsed? {
      OneLineMore(step, START, lines, 1, j);
    }
  }

  lemma RepeatedTableFails(lines: seq<string>, i: nat, j: nat, name: string, wide: set<char>)
    requires ValidKey(name, wide) && WideOk(wide) && i < j < |lines|
    requires IsTableLine(lines[i], name) && IsTableLine(lines[j], name)
    ensures var parsed := ParseWith(LineStepper(wide), START, lines, 1);
            parsed.Failed? && parsed.line <= j + 1 && (parsed.line == j + 1 ==> parsed.error == DuplicateTable)
  {
    var step := LineStepper(wide);
    if ParseWith(step, START, lines[..j], 1).Parsed? {
      NameIsThere(START, lines, 1, i, j, name, wide);
      AfterTableLine(ParseWith(step, START, lines[..j], 1).state, lines[j], name, wide);
    }
    FailsThere(step, lines, j, DuplicateTable);
  }

  /** A table that is there twice makes the text bad, at the second header at the latest. */
  lemma RepeatedTable(text: string, i: nat, j: nat, name: string, wide: set<char>)
    requires ValidKey(name, wide) && WideOk(wide) && i < j < |Lines(text)|
    requires IsTableLine(Lines(text)[i], name) && IsTableLine(Lines(text)[j], name)
    ensures Parse(text, wide).Failed? && Parse(text, wide).line <= j + 1
    ensures Parse(text, wide).line == j + 1 ==> Parse(text, wide).error == DuplicateTable
  {
    RepeatedTableFails(Lines(text), i, j, name, wide);
  }

  /** An assignment to a key, with whatever blanks around the equals sign. */
  ghost predicate IsAssignmentLine(line: string, key: string) {
    exists before, after :: IsBlank(before) && line == key + before + "=" + after
  }

  /** The line does not begin with a bracket. */
  predicate NoHeader(line: string) {
    Trim(StripComment(line)) == "" || Trim(StripComment(line))[0] != '['
  }

  lemma NoHeaderKeepsKeys(s: GoodState, t: GoodState, raw: string, key: string, wide: set<char>)
    requires NoHeader(raw) && StepLine(s, raw, wide) == Ok(t) && HasKey(s, key)
    ensures HasKey(t, key)
  {
    var line := Trim(StripComment(raw));
    assert !IsArrayHeader(line) by { assert |line| >= 4 ==> line[..2][0] == line[0]; }
  }

  lemma AfterAssignmentLine(s: GoodState, line: string, key: string, wide: set<char>)
    requires ValidKey(key, wide) && WideOk(wide) && IsAssignmentLine(line, key)
    ensures StepLine(s, line, wide).Ok? ==> HasKey(StepLine(s, line, wide).value, key)
    ensures HasKey(s, key) ==> StepLine(s, line, wide) == Err(DuplicateKey)
  {
    var before, after :| IsBlank(before) && line == key + before + "=" + after;
    AssignmentLine(s, key, before, after, wide);
  }

  lemma {:induction false} KeyIsThere(s: GoodState, lines: seq<string>, n: nat, i: nat, j: nat, key: string, wide: set<char>)
    requires i < j <= |lines| && IsAssignmentLine(lines[i], key) && ValidKey(key, wide) && WideOk(wide)
    requires forall k :: i < k < j ==> NoHeader(lines[k])
    requires ParseWith(LineStepper(wide), s, lines[..j], n).Parsed?
    ensures HasKey(ParseWith(LineStepper(wide), s, lines[..j], n).state, key)
    decreases j
  {
    var step := LineStepper(wide);
    PrefixParses(step, s, lines[..j], n, j - 1);
    assert lines[..j][..j - 1] == lines[..j - 1];
    OneLineMore(step, s, lines, n, j - 1);
    var t := ParseWith(step, s, lines[..j - 1], n).state;
    if i == j - 1 {
      AfterAssignmentLine(t, lines[i], key, wide);
    } else {
      KeyIsThere(s, lines, n, i, j - 1, key, wide);
      NoHeaderKeepsKeys(t, step(t, lines[j - 1]).value, lines[j - 1], key, wide);
    }
  }

  lemma RepeatedKeyFails(lines: seq<string>, i: nat, j: nat, key: string, wide: set<char>)
    requires ValidKey(key, wide) && WideOk(wide) && i < j < |lines|
    requires IsAssignmentLine(lines[i], key) && IsAssignmentLine(lines[j], key)
    requires forall k :: i < k < j ==> NoHeader(lines[k])
    ensures var parsed := ParseWith(LineStepper(wide), START, lines, 1);
            parsed.Failed? && parsed.line <= j + 1 && (parsed.line == j + 1 ==> parsed.error == DuplicateKey)
  {
    var step := LineStepper(wide);
    if ParseWith(step, START, lines[..j], 1).Parsed? {
      KeyIsThere(START, lines, 1, i, j, key, wide);
      AfterAssignmentLine(ParseWith(step, START, lines[..j], 1).state, lines[j], key, wide);
    }
    FailsThere(step, lines, j, DuplicateKey);
  }

  /** A key that is there twice, with no header between, makes the text bad, at its second line at the latest. */
  lemma RepeatedKey(text: string, i: nat, j: nat, key: string, wide: set<char>)
    requires ValidKey(key, wide) && WideOk(wide) && i < j < |Lines(text)|
    requires IsAssignmentLine(Lines(text)[i], key) && IsAssignmentLine(Lines(text)[j], key)
    requires forall k :: i < k < j ==> NoHeader(Lines(text)[k])
    ensures Parse(text, wide).Failed? && Parse(text, wide).line <= j + 1
    ensures Parse(text, wide).line == j + 1 ==> Parse(text, wide).error == DuplicateKey
  {
    RepeatedKeyFails(Lines(text), i, j, key, wide);
  }
}
