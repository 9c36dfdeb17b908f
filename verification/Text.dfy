/** The JavaScript string operations the scripts rely on: the white space class
    `\s`, trim, and splitting a file into physical lines. */
module Text {
  import opened Collections

  /** The ECMAScript WhiteSpace and LineTerminator characters. */
  predicate IsSpace(c: char) {
    c in {' ', '\t', '\n', '\r', '\U{0B}', '\U{0C}', '\U{A0}', '\U{1680}', '\U{2028}', '\U{2029}',
          '\U{202F}', '\U{205F}', '\U{3000}', '\U{FEFF}'} || '\U{2000}' <= c <= '\U{200A}'
  }

  function TrimStart(s: string): string {
    if s != [] && IsSpace(s[0]) then TrimStart(s[1..]) else s
  }

  function TrimEnd(s: string): (t: string)
    ensures t <= s
    ensures t == [] || !IsSpace(t[|t| - 1])
    ensures forall i :: |t| <= i < |s| ==> IsSpace(s[i])
  {
    if s != [] && IsSpace(s[|s| - 1]) then TrimEnd(s[..|s| - 1]) else s
  }

  function Trim(s: string): string {
    TrimEnd(TrimStart(s))
  }

  predicate IsBlank(line: string) {
    forall c :: c in line ==> IsSpace(c)
  }

  function IndexOf(s: string, c: char): (i: nat)
    ensures i <= |s|
    ensures forall j :: 0 <= j < i ==> s[j] != c
    ensures i < |s| ==> s[i] == c
  {
    if s == [] || s[0] == c then 0 else 1 + IndexOf(s[1..], c)
  }

  function LastIndexOf(s: string, c: char): (i: int)
    ensures -1 <= i < |s|
    ensures forall j :: i < j < |s| ==> s[j] != c
    ensures 0 <= i ==> s[i] == c
  {
    if s == [] then -1
    else if s[|s| - 1] == c then |s| - 1
    else LastIndexOf(s[..|s| - 1], c)
  }

  function DropCarriageReturn(line: string): string {
    if line != [] && line[|line| - 1] == '\r' then line[..|line| - 1] else line
  }

  /** split(/\r?\n/) */
  function SplitLines(text: string): (lines: seq<string>)
    ensures |lines| >= 1
  {
    var k := IndexOf(text, '\n');
    if k == |text| then [text]
    else [DropCarriageReturn(text[..k])] + SplitLines(text[k + 1..])
  }

  lemma IndexOfAppend(a: string, b: string, c: char)
    ensures IndexOf(a + b, c) == if IndexOf(a, c) < |a| then IndexOf(a, c) else |a| + IndexOf(b, c)
  {
    if a == [] {
      assert a + b == b;
    } else if a[0] != c {
      assert (a + b)[1..] == a[1..] + b;
      IndexOfAppend(a[1..], b, c);
    }
  }

  /** The lines of two texts joined by a line feed. */
  function JoinedLines(before: seq<string>, after: seq<string>): seq<string>
    requires before != []
  {
    before[..|before| - 1] + [DropCarriageReturn(before[|before| - 1])] + after
  }

  /** One step of the split: the line before the first line feed, then the rest. */
  lemma SplitStep(line: string, rest: string)
    requires '\n' !in line
    ensures SplitLines(line + "\n" + rest) == [DropCarriageReturn(line)] + SplitLines(rest)
  {
    var text := line + "\n" + rest;
    assert text == line + ("\n" + rest);
    IndexOfAppend(line, "\n" + rest, '\n');
    NotFound(line, '\n');
    assert IndexOf("\n" + rest, '\n') == 0;
    assert text[..|line|] == line && text[|line| + 1..] == rest;
  }

  lemma NotFound(s: string, c: char)
    requires c !in s
    ensures IndexOf(s, c) == |s|
  {
  }

  /** A line feed cuts a text into two texts whose lines follow each other. */
  lemma {:induction false} SplitAtLineFeed(a: string, b: string)
    ensures SplitLines(a + "\n" + b) == JoinedLines(SplitLines(a), SplitLines(b))
    decreases |a|
  {
    var k := IndexOf(a, '\n');
    var head := a[..k];
    if k == |a| {
      assert head == a;
      SplitStep(a, b);
    } else {
      var rest := a[k + 1..];
      assert a == head + "\n" + rest;
      SplitAtLineFeed(rest, b);
      SplitFirstLineOff(head, rest, b);
    }
  }

  lemma SplitFirstLineOff(head: string, rest: string, b: string)
    requires '\n' !in head
    requires SplitLines(rest + "\n" + b) == JoinedLines(SplitLines(rest), SplitLines(b))
    ensures SplitLines(head + "\n" + rest + "\n" + b) == JoinedLines(SplitLines(head + "\n" + rest), SplitLines(b))
  {
    var first := DropCarriageReturn(head);
    var text := rest + "\n" + b;
    assert head + "\n" + rest + "\n" + b == head + "\n" + text;
    calc {
      SplitLines(head + "\n" + text);
      { SplitStep(head, text); }
      [first] + SplitLines(text);
      [first] + JoinedLines(SplitLines(rest), SplitLines(b));
      { JoinedLinesCons(first, SplitLines(rest), SplitLines(b)); }
      JoinedLines([first] + SplitLines(rest), SplitLines(b));
      { SplitStep(head, rest); }
      JoinedLines(SplitLines(head + "\n" + rest), SplitLines(b));
    }
  }

  lemma JoinedLinesCons(head: string, before: seq<string>, after: seq<string>)
    requires before != []
    ensures JoinedLines([head] + before, after) == [head] + JoinedLines(before, after)
  {
    assert ([head] + before)[..|before|] == [head] + before[..|before| - 1];
  }

  lemma SplitWithoutLineFeed(line: string)
    requires '\n' !in line
    ensures SplitLines(line) == [line]
  {
    NotFound(line, '\n');
  }

  // ----- substrings -----

  predicate OccursAt(text: string, word: string, i: nat) {
    i + |word| <= |text| && text[i..i + |word|] == word
  }

  /** text.includes(word) */
  predicate Contains(text: string, word: string) {
    exists i: nat | i <= |text| :: OccursAt(text, word, i)
  }

  predicate StartsWith(text: string, prefix: string) {
    prefix <= text
  }

  predicate EndsWith(text: string, suffix: string) {
    |suffix| <= |text| && text[|text| - |suffix|..] == suffix
  }

  predicate ContainsAny(text: string, words: seq<string>) {
    exists w :: w in words && Contains(text, w)
  }

  /** The two characters never follow each other. */
  predicate NeverAdjacent(text: string, c: char, d: char) {
    forall i, j :: 0 <= i < |text| && j == i + 1 < |text| ==> !(text[i] == c && text[j] == d)
  }

  /** A text that never holds the word's two opening characters does not hold the word. */
  lemma NotContained(text: string, word: string)
    requires |word| >= 2 && NeverAdjacent(text, word[0], word[1])
    ensures !Contains(text, word)
  {
    forall i: nat ensures !OccursAt(text, word, i) {
      if i + |word| <= |text| {
        var found := text[i..i + |word|];
        assert found[0] == text[i] && found[1] == text[i + 1];
      }
    }
  }

  function LowerChar(c: char): char {
    if 'A' <= c <= 'Z' then c - 'A' + 'a' else c
  }

  function Lower(s: string): (t: string)
    ensures |t| == |s|
    ensures forall i :: 0 <= i < |s| ==> t[i] == LowerChar(s[i])
  {
    seq(|s|, i requires 0 <= i < |s| => LowerChar(s[i]))
  }
}
