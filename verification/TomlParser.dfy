/** The loops of internal/tomlx/tomlx.go, against the functions of modules Toml and TomlDocuments. */
module TomlParser {
  import opened Toml
  import opened TomlDocuments

  /** The two flags of a scanner. */
  function QuoteOf(inString: bool, escaped: bool): Quote {
    if escaped then Escaped else if inString then Inside else Outside
  }

  method ScanComment(line: string) returns (stripped: string)
    ensures stripped == Toml.StripComment(line)
  {
    var inString, escaped := false, false;
    for index := 0 to |line|
      invariant escaped ==> inString
      invariant Find(line, Outside, '#') == index + Find(line[index..], QuoteOf(inString, escaped), '#')
    {
      var c := line[index];
      assert line[index..][0] == c && line[index..][1..] == line[index + 1..];
      if escaped {
        escaped := false;
        continue;
      }
      if c == '\\' && inString {
        escaped := true;
        continue;
      }
      if c == '"' {
        inString := !inString;
        continue;
      }
      if c == '#' && !inString {
        return line[..index];
      }
    }
    assert line[..|line|] == line;
    stripped := line;
  }

  method ScanAssignment(line: string) returns (pair: Assignment)
    ensures pair == Toml.SplitAssignment(line)
  {
    var inString, escaped := false, false;
    for index := 0 to |line|
      invariant escaped ==> inString
      invariant Find(line, Outside, '=') == index + Find(line[index..], QuoteOf(inString, escaped), '=')
    {
      var c := line[index];
      assert line[index..][0] == c && line[index..][1..] == line[index + 1..];
      if escaped {
        escaped := false;
        continue;
      }
      if c == '\\' && inString {
        escaped := true;
        continue;
      }
      if c == '"' {
        inString := !inString;
        continue;
      }
      if c == '=' && !inString {
        return Pair(Trim(line[..index]), Trim(line[index + 1..]));
      }
    }
    pair := NoPair;
  }

  method ScanQuoted(value: string) returns (end: Result<nat, ValueError>)
    requires value != ""
    ensures end == Toml.QuotedEnd(value)
  {
    var escaped := false;
    for index := 1 to |value|
      invariant FindQuote(value[1..], Inside) == index - 1 + FindQuote(value[index..], QuoteOf(true, escaped))
    {
      assert value[index..][0] == value[index] && value[index..][1..] == value[index + 1..];
      if escaped {
        escaped := false;
        continue;
      }
      if value[index] == '\\' {
        escaped := true;
        continue;
      }
      if value[index] == '"' {
        return Ok(index);
      }
    }
    end := Err(UnterminatedString);
  }

  /** What the items found so far and the rest of the body amount to. */
  function Continued(values: seq<string>, rest: Result<seq<string>, ValueError>): Result<seq<string>, ValueError> {
    if rest.Err? then rest else Ok(values + rest.value)
  }

  lemma OneMoreItem(values: seq<string>, value: string, rest: Result<seq<string>, ValueError>)
    ensures Continued(values, if rest.Err? then rest else Ok([value] + rest.value)) == Continued(values + [value], rest)
  {
    if rest.Ok? {
      assert values + ([value] + rest.value) == values + [value] + rest.value;
    }
  }

  method ReadStringArray(raw: string) returns (result: Result<seq<string>, ValueError>)
    requires raw != "" && raw[0] == '['
    ensures result == Toml.ParseStringArray(raw)
  {
    if raw[|raw| - 1] != ']' {
      return Err(UnterminatedArray);
    }
    assert |raw| >= 2;
    var body := Trim(raw[1..|raw| - 1]);
    if body == "" {
      return Ok([]);
    }
    var values: seq<string> := [];
    ghost var all := ParseItems(body);
    assert all.Ok? ==> values + all.value == all.value;
    while |body| > 0
      invariant all == Toml.ParseStringArray(raw)
      invariant all == Continued(values, ParseItems(body))
      decreases |body|
    {
      body := Trim(body);
      if body == "" || body[0] != '"' {
        return Err(NotQuoted);
      }
      var end := ScanQuoted(body);
      if end.Err? {
        return Err(end.error);
      }
      var value := Unquote(body[..end.value + 1]);
      if value.Err? {
        return Err(value.error);
      }
      ghost var before := values;
      values := values + [value.value];
      body := Trim(body[end.value + 1..]);
      if body == "" {
        break;
      }
      if body[0] != ',' {
        return Err(NoComma);
      }
      body := body[1..];
      OneMoreItem(before, value.value, ParseItems(body));
    }
    assert values + [] == values;
    result := Ok(values);
  }

  method ReadValue(raw: string) returns (result: Result<Value, ValueError>)
    ensures result == Toml.ParseValue(raw)
    ensures raw == "" ==> result == Err(Empty)
    ensures raw == "true" ==> result == Ok(Bool(true))
    ensures raw == "false" ==> result == Ok(Bool(false))
    ensures raw != "" && raw[0] == '"' ==> result == Err(BadString) || (result.Ok? && result.value.Str?)
    ensures raw != "" && raw[0] == '[' ==> result.Ok? ==> result.value.Strs? && raw[|raw| - 1] == ']'
    ensures raw !in {"", "true", "false"} && raw[0] !in "\"[" ==>
              result == Err(Unsupported) || (result.Ok? && result.value.Int? && MIN_INT <= result.value.i <= MAX_INT)
  {
    if raw == "" {
      return Err(Empty);
    }
    if raw[0] == '"' {
      var value := Unquote(raw);
      if value.Err? {
        return Err(BadString);
      }
      return Ok(Str(value.value));
    }
    if raw == "true" {
      return Ok(Bool(true));
    }
    if raw == "false" {
      return Ok(Bool(false));
    }
    if raw[0] == '[' {
      var values := ReadStringArray(raw);
      if values.Err? {
        return Err(values.error);
      }
      return Ok(Strs(values.value));
    }
    var value := Atoi(raw);
    if value.Err? {
      return Err(Unsupported);
    }
    result := Ok(Int(value.value));
  }

  method CheckKey(key: string, wide: set<char>) returns (valid: bool)
    ensures valid == Toml.ValidKey(key, wide)
    ensures valid <==>
              key != "" && forall i :: 0 <= i < |key| ==>
                var c := key[i];
                c == '_' || c == '-' || 'a' <= c <= 'z' || 'A' <= c <= 'Z' || '0' <= c <= '9' || c in wide
  {
    if key == "" {
      return false;
    }
    for i := 0 to |key|
      invariant forall j :: 0 <= j < i ==> IsKeyChar(key[j], wide)
    {
      if !IsKeyChar(key[i], wide) {
        assert key[i] in key;
        return false;
      }
    }
    valid := true;
  }

  /** ParseFile: a document that grows line by line, and the map in it that assignments go to. */
  class Parser {
    const wide: set<char>
    var doc: Document
    var current: Cursor

    constructor (wide: set<char>)
      ensures this.wide == wide && Now() == START
    {
      this.wide := wide;
      doc, current := map[], Root;
    }

    ghost function Now(): TomlDocuments.State
      reads this
    {
      TomlDocuments.State(doc, current)
    }

    method BeginArrayTable(name: string) returns (error: Result<(), LineError>)
      requires StateOk(Now())
      modifies this
      ensures var next := StepArrayHeader(old(Now()), name, wide);
              if next.Ok? then error.Ok? && Now() == next.value else error == Err(next.error) && Now() == old(Now())
    {
      var valid := CheckKey(name, wide);
      if !valid {
        return Err(BadArrayTable);
      }
      if name !in doc {
        doc := doc[name := TablesOf([map[]])];
      } else {
        if !doc[name].TablesOf? {
          return Err(OtherType);
        }
        doc := doc[name := TablesOf(doc[name].list + [map[]])];
      }
      current := InLast(name);
      error := Ok(());
    }

    method BeginTable(name: string) returns (error: Result<(), LineError>)
      requires StateOk(Now())
      modifies this
      ensures var next := StepHeader(old(Now()), name, wide);
              if next.Ok? then error.Ok? && Now() == next.value else error == Err(next.error) && Now() == old(Now())
    {
      var valid := CheckKey(name, wide);
      if !valid {
        return Err(BadTable);
      }
      if name in doc {
        return Err(DuplicateTable);
      }
      doc := doc[name := TableOf(map[])];
      current := InTable(name);
      error := Ok(());
    }

    method Assign(line: string) returns (error: Result<(), LineError>)
      requires StateOk(Now())
      modifies this
      ensures var next := StepAssignment(old(Now()), line, wide);
              if next.Ok? then error.Ok? && Now() == next.value else error == Err(next.error) && Now() == old(Now())
    {
      var pair := ScanAssignment(line);
      if pair.NoPair? {
        return Err(NoAssignment);
      }
      var valid := CheckKey(pair.key, wide);
      if !valid {
        return Err(NoAssignment);
      }
      if HasKey(TomlDocuments.State(doc, current), pair.key) {
        return Err(DuplicateKey);
      }
      var value := ReadValue(pair.raw);
      if value.Err? {
        return Err(BadValue(value.error));
      }
      Store(pair.key, value.value);
      error := Ok(());
    }

    /** current[key] = value */
    method Store(key: string, value: Value)
      requires StateOk(Now())
      modifies this
      ensures Now() == Put(old(Now()), key, value)
    {
      match current
      case Root =>
        doc := doc[key := Plain(value)];
      case InTable(name) =>
        doc := doc[name := TableOf(doc[name].fields[key := value])];
      case InLast(name) =>
        var list := doc[name].list;
        doc := doc[name := TablesOf(list[|list| - 1 := list[|list| - 1][key := value]])];
    }

    method ParseLine(raw: string) returns (error: Result<(), LineError>)
      requires StateOk(Now())
      modifies this
      ensures var next := StepLine(old(Now()), raw, wide);
              if next.Ok? then error.Ok? && Now() == next.value else error == Err(next.error) && Now() == old(Now())
    {
      var stripped := ScanComment(raw);
      var line := Trim(stripped);
      if line == "" {
        return Ok(());
      }
      if IsArrayHeader(line) {
        error := BeginArrayTable(Trim(line[2..|line| - 2]));
      } else if IsHeader(line) {
        error := BeginTable(Trim(line[1..|line| - 1]));
      } else {
        error := Assign(line);
      }
    }

    /** The loop over the lines of the file. */
    method ParseFile(text: string) returns (parsed: Parsed)
      requires Now() == START
      modifies this
      ensures parsed == Parse(text, wide)
      ensures parsed.Parsed? ==> parsed.state == Now()
    {
      var lines := Lines(text);
      var lineNumber := 1;
      ghost var step := LineStepper(wide);
      while lineNumber <= |lines|
        invariant 1 <= lineNumber <= |lines| + 1
        invariant StateOk(Now())
        invariant Parse(text, wide) == ParseWith(step, Now(), lines[lineNumber - 1..], lineNumber)
      {
        ghost var rest := lines[lineNumber - 1..];
        assert rest[0] == lines[lineNumber - 1] && rest[1..] == lines[lineNumber..];
        var error := ParseLine(lines[lineNumber - 1]);
        if error.Err? {
          return Failed(lineNumber, error.error);
        }
        lineNumber := lineNumber + 1;
      }
      parsed := Parsed(TomlDocuments.State(doc, current));
    }
  }
}
