/** Text as the program compares and prints it. */
module Text {
  import opened Prelude

  predicate OccursAt(text: string, part: string, i: int) {
    0 <= i <= |text| - |part| && text[i..i + |part|] == part
  }

  /** strings.Contains */
  predicate Contains(text: string, part: string) {
    exists i :: 0 <= i <= |text| && OccursAt(text, part, i)
  }

  /** strings.HasPrefix */
  predicate HasPrefix(text: string, start: string) {
    start <= text
  }

  /** unicode.IsSpace */
  predicate IsSpace(c: char) {
    || c in " \t\n\r" || (c as int) in {0x0b, 0x0c, 0x85, 0xa0, 0x1680, 0x2028, 0x2029, 0x202f, 0x205f, 0x3000}
    || 0x2000 <= c as int <= 0x200a
  }

  /** strings.TrimSpace leaves nothing. */
  predicate IsBlank(text: string) {
    forall c <- text :: IsSpace(c)
  }

  lemma MiddleIsContained(left: string, part: string, right: string)
    ensures Contains(left + part + right, part)
  {
    assert OccursAt(left + part + right, part, |left|);
  }

  lemma ContainsTransitive(text: string, part: string, piece: string)
    requires Contains(text, part) && Contains(part, piece)
    ensures Contains(text, piece)
  {
    var i :| 0 <= i <= |text| && OccursAt(text, part, i);
    var j :| 0 <= j <= |part| && OccursAt(part, piece, j);
    var left, right := text[..i] + part[..j], part[j + |piece|..] + text[i + |part|..];
    assert part == part[..j] + piece + part[j + |piece|..];
    assert text == text[..i] + part + text[i + |part|..] == left + piece + right;
    MiddleIsContained(left, piece, right);
  }

  lemma ContainsMore(text: string, more: string, part: string)
    requires Contains(text, part)
    ensures Contains(text + more, part)
  {
    var i :| 0 <= i <= |text| && OccursAt(text, part, i);
    assert (text + more)[i..i + |part|] == text[i..i + |part|];
    assert OccursAt(text + more, part, i);
  }

  /** A text that begins with `a` and goes on with a word, and comes back to the word, contains what either contains. */
  lemma PiecesAreContained(a: string, word: string, b: string, c: string, part: string)
    requires Contains(a, part) || Contains(word, part)
    ensures Contains(a + " " + word + " " + b + " " + word + " " + c, part)
  {
    if Contains(a, part) {
      ContainsMore(a, " ", part);
      ContainsMore(a + " ", word, part);
    } else {
      MiddleIsContained(a + " ", word, "");
      assert a + " " + word + "" == a + " " + word;
      ContainsTransitive(a + " " + word, word, part);
    }
    ContainsMore(a + " " + word, " ", part);
    ContainsMore(a + " " + word + " ", b, part);
    ContainsMore(a + " " + word + " " + b, " ", part);
    ContainsMore(a + " " + word + " " + b + " ", word, part);
    ContainsMore(a + " " + word + " " + b + " " + word, " ", part);
    ContainsMore(a + " " + word + " " + b + " " + word + " ", c, part);
  }

  function Decimal(n: nat): (s: string)
    ensures |s| > 0
  {
    var digit := [('0' as int + n % 10) as char];
    if n < 10 then digit else Decimal(n / 10) + digit
  }

  /** The dotted text of an IPv4 address. */
  function IpText(ip: Ip): string {
    Decimal(ip / 0x100_0000) + "." + Decimal(ip / 0x1_0000 % 0x100) + "." + Decimal(ip / 0x100 % 0x100)
    + "." + Decimal(ip % 0x100)
  }

  // ----- a text that can only occur in certain places

  predicate Lacks(text: string, c: char) {
    forall i :: 0 <= i < |text| ==> text[i] != c
  }

  lemma LacksBoth(a: string, b: string, c: char)
    requires Lacks(a, c) && Lacks(b, c)
    ensures Lacks(a + b, c)
  {
  }

  lemma DecimalLacks(n: nat, c: char)
    requires !('0' <= c <= '9')
    ensures Lacks(Decimal(n), c)
  {
    if n >= 10 {
      DecimalLacks(n / 10, c);
      LacksBoth(Decimal(n / 10), [('0' as int + n % 10) as char], c);
    }
  }

  /** The text of an address is digits and dots, and has a dot. */
  lemma IpTextShape(ip: Ip)
    ensures Lacks(IpText(ip), ' ') && !Lacks(IpText(ip), '.')
  {
    var a, b := Decimal(ip / 0x100_0000), Decimal(ip / 0x1_0000 % 0x100);
    var c, d := Decimal(ip / 0x100 % 0x100), Decimal(ip % 0x100);
    DecimalLacks(ip / 0x100_0000, ' ');
    DecimalLacks(ip / 0x1_0000 % 0x100, ' ');
    DecimalLacks(ip / 0x100 % 0x100, ' ');
    DecimalLacks(ip % 0x100, ' ');
    LacksBoth(a, ".", ' ');
    LacksBoth(a + ".", b, ' ');
    LacksBoth(a + "." + b, ".", ' ');
    LacksBoth(a + "." + b + ".", c, ' ');
    LacksBoth(a + "." + b + "." + c, ".", ' ');
    LacksBoth(a + "." + b + "." + c + ".", d, ' ');
    assert IpText(ip)[|a|] == '.';
  }

  lemma OccurrenceLacks(text: string, part: string, i: int, c: char)
    requires OccursAt(text, part, i) && Lacks(part, c)
    ensures forall k :: i <= k < i + |part| ==> text[k] != c
  {
    forall k | i <= k < i + |part| ensures text[k] != c {
      assert text[k] == part[k - i];
    }
  }

  /** A part without blanks that touches a word, blanks on both sides of it, lies within the word. */
  lemma OccursWithinWord(left: string, word: string, right: string, part: string, i: int, k: int)
    requires Lacks(part, ' ') && OccursAt(left + " " + word + " " + right, part, i)
    requires i <= k < i + |part| && |left| < k <= |left| + |word|
    ensures OccursAt(word, part, i - |left| - 1)
  {
    var text := left + " " + word + " " + right;
    var before, behind := |left|, |left| + 1 + |word|;
    assert text[before] == ' ' && text[behind] == ' ';
    OccurrenceLacks(text, part, i, ' ');
    assert word == text[before + 1..behind];
    assert text[i..i + |part|] == word[i - before - 1..i - before - 1 + |part|];
  }

  lemma OccursInOneWord(a: string, word: string, b: string, c: string, part: string, i: int)
    requires Lacks(a, '.') && Lacks(b, '.') && Lacks(c, '.') && Lacks(part, ' ') && !Lacks(part, '.')
    requires OccursAt(a + " " + word + " " + b + " " + word + " " + c, part, i)
    ensures Contains(word, part)
  {
    var text := a + " " + word + " " + b + " " + word + " " + c;
    var tail, front := b + " " + word + " " + c, a + " " + word + " " + b;
    assert text == a + " " + word + " " + tail;
    assert text == front + " " + word + " " + c;
    var j :| 0 <= j < |part| && part[j] == '.';
    assert text[i + j] == text[i..i + |part|][j] == '.';
    DotIsInWord(a, word, b, c, i + j);
    if |a| < i + j <= |a| + |word| {
      OccursWithinWord(a, word, tail, part, i, i + j);
    } else {
      OccursWithinWord(front, word, c, part, i, i + j);
    }
  }

  /** In a text that has dots only in two equal words, a part with a dot and no blank occurs just when a word contains it. */
  lemma OccursInWords(a: string, word: string, b: string, c: string, part: string)
    requires Lacks(a, '.') && Lacks(b, '.') && Lacks(c, '.') && Lacks(part, ' ') && !Lacks(part, '.')
    ensures Contains(a + " " + word + " " + b + " " + word + " " + c, part) <==> Contains(word, part)
  {
    var text := a + " " + word + " " + b + " " + word + " " + c;
    if Contains(word, part) {
      PiecesAreContained(a, word, b, c, part);
    }
    if Contains(text, part) {
      var i :| 0 <= i <= |text| && OccursAt(text, part, i);
      OccursInOneWord(a, word, b, c, part, i);
    }
  }

  lemma DotIsInWord(a: string, word: string, b: string, c: string, k: int)
    requires Lacks(a, '.') && Lacks(b, '.') && Lacks(c, '.')
    requires var text := a + " " + word + " " + b + " " + word + " " + c; 0 <= k < |text| && text[k] == '.'
    ensures |a| < k <= |a| + |word|
            || |a + " " + word + " " + b| < k <= |a + " " + word + " " + b| + |word|
  {
    var text := a + " " + word + " " + b + " " + word + " " + c;
    var second := |a + " " + word + " " + b|;
    assert forall j :: 0 <= j < |a| ==> text[j] == a[j];
    forall j | |a| + |word| + 1 < j < second ensures text[j] != '.' {
      assert text[j] == b[j - |a| - |word| - 2];
    }
    forall j | second + |word| + 1 < j < |text| ensures text[j] != '.' {
      assert text[j] == c[j - second - |word| - 2];
    }
  }
}
