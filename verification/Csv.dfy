/** The CSV codec of the owner/Git scripts: one printer, two hand-written line
    readers, and a regular expression used as a third. */
module Csv {
  import opened Collections
  import opened Text

  // ----- printing -----

  /** text.replace(/"/g, '""') */
  function Doubled(text: string): string {
    if text == [] then []
    else (if text[0] == '"' then "\"\"" else [text[0]]) + Doubled(text[1..])
  }

  function Escaped(text: string): string {
    "\"" + Doubled(text) + "\""
  }

  /** cells.map(csvEscape).join(',') */
  function PrintLine(cells: seq<string>): string {
    if cells == [] then ""
    else if |cells| == 1 then Escaped(cells[0])
    else Escaped(cells[0]) + "," + PrintLine(cells[1..])
  }

  // ----- the two hand-written readers -----

  /** The cells of a line whose unread rest is given. */
  function ReadCells(rest: string, cells: seq<string>, current: string, inQuotes: bool): seq<string>
    decreases |rest|
  {
    if rest == [] then cells + [current]
    else if rest[0] == '"' && inQuotes && |rest| > 1 && rest[1] == '"'
    then ReadCells(rest[2..], cells, current + "\"", inQuotes)
    else if rest[0] == '"' then ReadCells(rest[1..], cells, current, !inQuotes)
    else if rest[0] == ',' && !inQuotes then ReadCells(rest[1..], cells + [current], "", inQuotes)
    else ReadCells(rest[1..], cells, current + [rest[0]], inQuotes)
  }

  function Cells(line: string): seq<string> {
    ReadCells(line, [], "", false)
  }

  /** parseCsvLine of the preflight and of the two stage plans: a chain of guarded continues. */
  method ParseCsvLine(line: string) returns (cells: seq<string>)
    ensures cells == Cells(line)
  {
    cells := [];
    var current, inQuotes, index := "", false, 0;
    while index < |line|
      invariant index <= |line|
      invariant ReadCells(line[index..], cells, current, inQuotes) == Cells(line)
    {
      var c := line[index];
      assert line[index..][0] == c && line[index..][1..] == line[index + 1..];
      if c == '"' && inQuotes && index + 1 < |line| && line[index + 1] == '"' {
        assert line[index..][2..] == line[index + 2..];
        current, index := current + "\"", index + 2;
        continue;
      }
      if c == '"' {
        inQuotes, index := !inQuotes, index + 1;
        continue;
      }
      if c == ',' && !inQuotes {
        cells, current, index := cells + [current], "", index + 1;
        continue;
      }
      current, index := current + [c], index + 1;
    }
    cells := cells + [current];
  }

  /** parseCsvLine of the blocked-claim corpus: nested branches. It reads the same
      cells from every string. */
  method ParseCsvLineNested(line: string) returns (values: seq<string>)
    ensures values == Cells(line)
  {
    values := [];
    var current, quoted, index := "", false, 0;
    while index < |line|
      invariant index <= |line|
      invariant ReadCells(line[index..], values, current, quoted) == Cells(line)
    {
      var c := line[index];
      assert line[index..][0] == c && line[index..][1..] == line[index + 1..];
      if c == '"' {
        if quoted && index + 1 < |line| && line[index + 1] == '"' {
          assert line[index..][2..] == line[index + 2..];
          current := current + "\"";
          index := index + 1;
        } else {
          quoted := !quoted;
        }
      } else if c == ',' && !quoted {
        values := values + [current];
        current := "";
      } else {
        current := current + [c];
      }
      index := index + 1;
    }
    values := values + [current];
  }

  predicate CellEnd(rest: string) {
    rest == [] || rest[0] == ','
  }

  lemma {:induction false} ReadQuoted(text: string, rest: string, cells: seq<string>, current: string)
    requires CellEnd(rest)
    ensures ReadCells(Doubled(text) + "\"" + rest, cells, current, true)
            == ReadCells(rest, cells, current + text, false)
    decreases |text|
  {
    var s := Doubled(text) + "\"" + rest;
    if text == [] {
      assert s == "\"" + rest;
      assert s[1..] == rest && current + text == current;
    } else {
      var tail := Doubled(text[1..]) + "\"" + rest;
      ReadQuoted(text[1..], rest, cells, current + [text[0]]);
      assert current + [text[0]] + text[1..] == current + text;
      if text[0] == '"' {
        assert s == "\"\"" + tail && s[2..] == tail;
      } else {
        assert s == [text[0]] + tail && s[1..] == tail;
      }
    }
  }

  /** Both readers give back the cells of a printed line. */
  lemma {:induction false} ReadPrinted(cells: seq<string>, before: seq<string>)
    requires cells != []
    ensures ReadCells(PrintLine(cells), before, "", false) == before + cells
    decreases |cells|
  {
    var first, line := cells[0], PrintLine(cells);
    var rest := if |cells| == 1 then "" else "," + PrintLine(cells[1..]);
    assert line == "\"" + (Doubled(first) + "\"" + rest);
    assert line[1..] == Doubled(first) + "\"" + rest;
    ReadQuoted(first, rest, before, "");
    assert "" + first == first;
    if |cells| == 1 {
      assert cells == [first];
    } else {
      assert rest[1..] == PrintLine(cells[1..]);
      ReadPrinted(cells[1..], before + [first]);
      assert before + [first] + cells[1..] == before + cells;
    }
  }

  // ----- the regular expression  ("(?:""|[^"])*"|[^,]*)  with the global flag -----

  /** Length of a match of (?:""|[^"])*" at the start: the alternatives in order, the
      star greedy, with backtracking into a shorter repetition. */
  function QuotedRest(s: string): Option<nat>
    decreases |s|
  {
    if |s| >= 2 && s[0] == '"' && s[1] == '"' then
      match QuotedRest(s[2..])
      case Some(n) => Some(n + 2)
      case None => Some(1)
    else if s == [] then None
    else if s[0] == '"' then Some(1)
    else match QuotedRest(s[1..])
      case Some(n) => Some(n + 1)
      case None => None
  }

  function MatchLength(s: string): nat {
    if s != [] && s[0] == '"' && QuotedRest(s[1..]).Some? then 1 + QuotedRest(s[1..]).value
    else IndexOf(s, ',')
  }

  lemma {:induction false} QuotedRestFits(s: string)
    ensures QuotedRest(s).Some? ==> 1 <= QuotedRest(s).value <= |s|
    decreases |s|
  {
    if |s| >= 2 && s[0] == '"' && s[1] == '"' {
      QuotedRestFits(s[2..]);
    } else if s != [] && s[0] != '"' {
      QuotedRestFits(s[1..]);
    }
  }

  /** All matches from here on; after an empty match the search moves one character. */
  function Matches(s: string): seq<string>
    decreases |s|
  {
    QuotedRestFits(if s != [] then s[1..] else s);
    var n := MatchLength(s);
    if n > 0 then [s[..n]] + Matches(s[n..])
    else if s == [] then [""]
    else [""] + Matches(s[1..])
  }

  /** filter((_, index) => index % 2 === 0) */
  function EvenIndexed(xs: seq<string>): seq<string> {
    if xs == [] then []
    else [xs[0]] + (if |xs| > 1 then EvenIndexed(xs[2..]) else [])
  }

  /** replace(/^"|"$/g, '') */
  function StripQuotes(cell: string): string {
    var s := if cell != [] && cell[0] == '"' then cell[1..] else cell;
    if s != [] && s[|s| - 1] == '"' then s[..|s| - 1] else s
  }

  /** replace(/""/g, '"') */
  function Undoubled(s: string): string
    decreases |s|
  {
    if |s| >= 2 && s[0] == '"' && s[1] == '"' then "\"" + Undoubled(s[2..])
    else if s == [] then []
    else [s[0]] + Undoubled(s[1..])
  }

  function Unquoted(): string -> string {
    (cell: string) => Undoubled(StripQuotes(cell))
  }

  function RegexCells(line: string): seq<string> {
    MapSeq(EvenIndexed(Matches(line)), Unquoted())
  }

  lemma {:induction false} QuotedRestOfDoubled(text: string, rest: string)
    requires CellEnd(rest)
    ensures QuotedRest(Doubled(text) + "\"" + rest) == Some(|Doubled(text)| + 1)
    decreases |text|
  {
    var s := Doubled(text) + "\"" + rest;
    if text == [] {
      assert s == "\"" + rest;
    } else {
      var tail := Doubled(text[1..]) + "\"" + rest;
      QuotedRestOfDoubled(text[1..], rest);
      if text[0] == '"' {
        assert s == "\"\"" + tail && s[2..] == tail;
      } else {
        assert s == [text[0]] + tail && s[1..] == tail;
      }
    }
  }

  lemma {:induction false} UndoubledDoubled(text: string)
    ensures Undoubled(Doubled(text)) == text
  {
    if text != [] {
      UndoubledDoubled(text[1..]);
      if text[0] == '"' {
        assert Doubled(text)[2..] == Doubled(text[1..]);
      } else {
        assert Doubled(text)[1..] == Doubled(text[1..]);
      }
    }
  }

  lemma StripEscaped(text: string)
    ensures StripQuotes(Escaped(text)) == Doubled(text)
  {
    var e := Escaped(text);
    var s := e[1..];
    assert s == Doubled(text) + "\"";
    assert s[..|s| - 1] == Doubled(text);
  }

  lemma UnquotedEscaped(text: string)
    ensures Unquoted()(Escaped(text)) == text
  {
    StripEscaped(text);
    UndoubledDoubled(text);
  }

  /** A printed cell is one match, whatever follows it. */
  lemma MatchesOfCell(text: string, rest: string)
    requires CellEnd(rest)
    ensures Matches(Escaped(text) + rest) == [Escaped(text)] + Matches(rest)
  {
    var s := Escaped(text) + rest;
    assert s[1..] == Doubled(text) + "\"" + rest;
    QuotedRestOfDoubled(text, rest);
    assert MatchLength(s) == |Escaped(text)|;
    assert s[..|Escaped(text)|] == Escaped(text) && s[|Escaped(text)|..] == rest;
  }

  /** A printed cell and its comma are two matches, the second one empty. */
  lemma MatchesOfCellAndComma(text: string, rest: string)
    ensures Matches(Escaped(text) + "," + rest) == [Escaped(text), ""] + Matches(rest)
  {
    var tail := "," + rest;
    assert Escaped(text) + "," + rest == Escaped(text) + tail;
    MatchesOfCell(text, tail);
    assert tail[1..] == rest;
    assert Matches(tail) == [""] + Matches(rest);
  }

  lemma EvenStep(a: string, b: string, xs: seq<string>)
    ensures EvenIndexed([a, b] + xs) == [a] + EvenIndexed(xs)
  {
    assert ([a, b] + xs)[2..] == xs;
  }

  lemma MatchesOfLastCell(text: string)
    ensures EvenIndexed(Matches(Escaped(text))) == [Escaped(text)]
  {
    MatchesOfCell(text, "");
    assert Escaped(text) + "" == Escaped(text);
    assert Matches("") == [""];
    EvenStep(Escaped(text), "", []);
    assert [Escaped(text), ""] + [] == [Escaped(text)] + [""];
  }

  function EscapedAll(cells: seq<string>): seq<string> {
    MapSeq(cells, Escaped)
  }

  lemma {:induction false} EvenMatchesOfLine(cells: seq<string>)
    requires cells != []
    ensures EvenIndexed(Matches(PrintLine(cells))) == EscapedAll(cells)
    decreases |cells|
  {
    if |cells| == 1 {
      MatchesOfLastCell(cells[0]);
    } else {
      var rest := PrintLine(cells[1..]);
      EvenMatchesOfLine(cells[1..]);
      MatchesOfCellAndComma(cells[0], rest);
      EvenStep(Escaped(cells[0]), "", Matches(rest));
    }
  }

  lemma CellsOfPrinted(cells: seq<string>)
    requires cells != []
    ensures Cells(PrintLine(cells)) == cells
  {
    ReadPrinted(cells, []);
    assert [] + cells == cells;
  }

  lemma UnquotedAll(cells: seq<string>)
    ensures MapSeq(EscapedAll(cells), Unquoted()) == cells
  {
    var read := MapSeq(EscapedAll(cells), Unquoted());
    forall i | 0 <= i < |cells| ensures read[i] == cells[i] {
      UnquotedEscaped(cells[i]);
    }
  }

  /** The third reader gives back the cells of every printed line, like the others. */
  lemma RegexReadsPrinted(cells: seq<string>)
    requires cells != []
    ensures RegexCells(PrintLine(cells)) == cells
    ensures RegexCells(PrintLine(cells)) == Cells(PrintLine(cells))
  {
    EvenMatchesOfLine(cells);
    UnquotedAll(cells);
    CellsOfPrinted(cells);
  }

  // ----- whole tables -----

  type Row = map<string, string>

  /** Object.fromEntries(headers.map((header, index) => [header, cells[index] ?? ''])) */
  function RowOf(headers: seq<string>, cells: seq<string>): Row {
    if headers == [] then map[]
    else
      var i := |headers| - 1;
      RowOf(headers[..i], cells)[headers[i] := if i < |cells| then cells[i] else ""]
  }

  function NonEmpty(): string -> bool {
    (line: string) => line != ""
  }

  function PhysicalLines(text: string): seq<string> {
    Filter(SplitLines(Trim(text)), NonEmpty())
  }

  function ParseRow(headers: seq<string>): string -> Row {
    (line: string) => RowOf(headers, Cells(line))
  }

  function ParseCsv(text: string): seq<Row> {
    var lines := PhysicalLines(text);
    if lines == [] then [] else MapSeq(lines[1..], ParseRow(Cells(lines[0])))
  }

  function CellOf(row: Row, header: string): string {
    if header in row then row[header] else ""
  }

  function CellsOf(headers: seq<string>, row: Row): seq<string> {
    if headers == [] then [] else [CellOf(row, headers[0])] + CellsOf(headers[1..], row)
  }

  function PrintRow(headers: seq<string>): Row -> string {
    (row: Row) => PrintLine(CellsOf(headers, row))
  }

  function TableLines(headers: seq<string>, rows: seq<Row>): seq<string> {
    [PrintLine(headers)] + MapSeq(rows, PrintRow(headers))
  }

  /** lines.join('\n') */
  function JoinLines(lines: seq<string>): string
    requires lines != []
  {
    if |lines| == 1 then lines[0] else lines[0] + "\n" + JoinLines(lines[1..])
  }

  function ToCsv(headers: seq<string>, rows: seq<Row>): string {
    JoinLines(TableLines(headers, rows)) + "\n"
  }

  // ----- physical lines of a printed table -----

  /** A printed line begins and ends with a quote. */
  predicate QuoteFramed(line: string) {
    |line| >= 2 && line[0] == '"' && line[|line| - 1] == '"'
  }

  lemma {:induction false} PrintedIsFramed(cells: seq<string>)
    requires cells != []
    ensures QuoteFramed(PrintLine(cells))
    decreases |cells|
  {
    if |cells| > 1 {
      PrintedIsFramed(cells[1..]);
    }
  }

  lemma {:induction false} JoinedIsFramed(lines: seq<string>)
    requires lines != [] && forall line :: line in lines ==> QuoteFramed(line)
    ensures QuoteFramed(JoinLines(lines))
    decreases |lines|
  {
    assert lines[0] in lines;
    if |lines| > 1 {
      JoinedIsFramed(lines[1..]);
    }
  }

  lemma TrimPrinted(text: string)
    requires QuoteFramed(text)
    ensures Trim(text + "\n") == text
  {
    var t := text + "\n";
    assert !IsSpace('"');
    assert TrimStart(t) == t;
    assert t[..|t| - 1] == text;
    assert TrimEnd(text) == text;
  }

  /** The last physical line of a text keeps its last character. */
  lemma {:induction false} LastLineEnds(text: string, c: char)
    requires text != [] && text[|text| - 1] == c && c != '\n'
    ensures var lines := SplitLines(text); lines[|lines| - 1] != "" && lines[|lines| - 1][|lines[|lines| - 1]| - 1] == c
    decreases |text|
  {
    var k := IndexOf(text, '\n');
    if k < |text| {
      LastLineEnds(text[k + 1..], c);
    }
  }

  function LineCount(text: string): nat {
    |Filter(SplitLines(text), NonEmpty())|
  }

  lemma {:induction false} EndsWithQuoteCounts(text: string)
    requires text != [] && text[|text| - 1] == '"'
    ensures LineCount(text) >= 1
  {
    LastLineEnds(text, '"');
    var lines := SplitLines(text);
    FilterMembers(lines, NonEmpty());
    assert lines[|lines| - 1] in Filter(lines, NonEmpty());
  }

  /** A framed line is one physical line exactly when it holds no line feed. */
  lemma FramedLineCount(line: string)
    requires QuoteFramed(line)
    ensures LineCount(line) >= 1
    ensures LineCount(line) == 1 <==> '\n' !in line
  {
    EndsWithQuoteCounts(line);
    if '\n' !in line {
      SplitWithoutLineFeed(line);
      assert Filter([line], NonEmpty()) == [line];
    } else {
      FramedWithLineFeed(line);
    }
  }

  lemma FramedWithLineFeed(line: string)
    requires QuoteFramed(line) && '\n' in line
    ensures LineCount(line) >= 2
  {
    var k := IndexOf(line, '\n');
    var head := line[..k];
    assert head[0] == '"';
    var first, rest := DropCarriageReturn(head), line[k + 1..];
    assert first[0] == '"';
    EndsWithQuoteCounts(rest);
    assert SplitLines(line) == [first] + SplitLines(rest);
    FilterAppend([first], SplitLines(rest), NonEmpty());
    assert Filter([first], NonEmpty()) == [first];
  }

  /** Joining framed lines adds up their physical lines. */
  lemma JoinFramed(line: string, rest: string)
    requires QuoteFramed(line)
    ensures SplitLines(line + "\n" + rest) == SplitLines(line) + SplitLines(rest)
  {
    SplitAtLineFeed(line, rest);
    LastLineEnds(line, '"');
    var lines := SplitLines(line);
    assert DropCarriageReturn(lines[|lines| - 1]) == lines[|lines| - 1];
    assert lines[..|lines| - 1] + [lines[|lines| - 1]] == lines;
  }

  ghost predicate NoLineFeeds(lines: seq<string>) {
    forall i :: 0 <= i < |lines| ==> '\n' !in lines[i]
  }

  lemma NoLineFeedsCons(lines: seq<string>)
    requires lines != []
    ensures NoLineFeeds(lines) <==> '\n' !in lines[0] && NoLineFeeds(lines[1..])
  {
    if '\n' !in lines[0] && NoLineFeeds(lines[1..]) {
      forall i | 0 <= i < |lines| ensures '\n' !in lines[i] {
        if i > 0 { assert lines[i] == lines[1..][i - 1]; }
      }
    }
    if NoLineFeeds(lines) {
      forall i | 0 <= i < |lines[1..]| ensures '\n' !in lines[1..][i] { assert lines[1..][i] == lines[i + 1]; }
    }
  }

  /** The non-empty physical lines of two joined texts. */
  lemma JoinedFilter(line: string, rest: string)
    requires QuoteFramed(line)
    ensures Filter(SplitLines(line + "\n" + rest), NonEmpty())
         == Filter(SplitLines(line), NonEmpty()) + Filter(SplitLines(rest), NonEmpty())
  {
    JoinFramed(line, rest);
    FilterAppend(SplitLines(line), SplitLines(rest), NonEmpty());
  }

  lemma OneLine(line: string)
    requires QuoteFramed(line) && '\n' !in line
    ensures Filter(SplitLines(line), NonEmpty()) == [line]
  {
    SplitWithoutLineFeed(line);
    assert [line][1..] == [];
  }

  /** A table is as many physical lines as it has lines exactly when no line holds a
      line feed, and then they are these lines. */
  lemma {:induction false} JoinedLineCount(lines: seq<string>)
    requires lines != [] && forall i :: 0 <= i < |lines| ==> QuoteFramed(lines[i])
    ensures LineCount(JoinLines(lines)) >= |lines|
    ensures LineCount(JoinLines(lines)) == |lines| <==> NoLineFeeds(lines)
    ensures NoLineFeeds(lines) ==> Filter(SplitLines(JoinLines(lines)), NonEmpty()) == lines
    decreases |lines|
  {
    if |lines| == 1 {
      assert lines == [lines[0]];
      OneJoinedLine(lines[0]);
    } else {
      JoinedLineCount(lines[1..]);
      OneMoreJoinedLine(lines);
    }
  }

  lemma OneJoinedLine(line: string)
    requires QuoteFramed(line)
    ensures LineCount(JoinLines([line])) >= 1
    ensures LineCount(JoinLines([line])) == 1 <==> NoLineFeeds([line])
    ensures NoLineFeeds([line]) ==> Filter(SplitLines(JoinLines([line])), NonEmpty()) == [line]
  {
    FramedLineCount(line);
    NoLineFeedsCons([line]);
    if '\n' !in line {
      OneLine(line);
    }
  }

  lemma OneMoreJoinedLine(lines: seq<string>)
    requires |lines| > 1 && QuoteFramed(lines[0])
    requires LineCount(JoinLines(lines[1..])) >= |lines| - 1
    requires LineCount(JoinLines(lines[1..])) == |lines| - 1 <==> NoLineFeeds(lines[1..])
    requires NoLineFeeds(lines[1..]) ==> Filter(SplitLines(JoinLines(lines[1..])), NonEmpty()) == lines[1..]
    ensures LineCount(JoinLines(lines)) >= |lines|
    ensures LineCount(JoinLines(lines)) == |lines| <==> NoLineFeeds(lines)
    ensures NoLineFeeds(lines) ==> Filter(SplitLines(JoinLines(lines)), NonEmpty()) == lines
  {
    var line, rest := lines[0], JoinLines(lines[1..]);
    FramedLineCount(line);
    JoinedFilter(line, rest);
    if '\n' !in line {
      OneLine(line);
    }
    AppendedLines(lines, Filter(SplitLines(line), NonEmpty()), Filter(SplitLines(rest), NonEmpty()));
  }

  /** The count, given what the first line and the rest contribute. */
  lemma AppendedLines(lines: seq<string>, first: seq<string>, rest: seq<string>)
    requires lines != [] && |first| >= 1 && |rest| >= |lines| - 1
    requires |first| == 1 <==> '\n' !in lines[0]
    requires '\n' !in lines[0] ==> first == [lines[0]]
    requires |rest| == |lines| - 1 <==> NoLineFeeds(lines[1..])
    requires NoLineFeeds(lines[1..]) ==> rest == lines[1..]
    ensures |first + rest| == |lines| <==> NoLineFeeds(lines)
    ensures NoLineFeeds(lines) ==> first + rest == lines
  {
    NoLineFeedsCons(lines);
  }

  // ----- the round trip -----

  lemma {:induction false} CellsOfAt(headers: seq<string>, row: Row)
    ensures |CellsOf(headers, row)| == |headers|
    ensures forall i :: 0 <= i < |headers| ==> CellsOf(headers, row)[i] == CellOf(row, headers[i])
  {
    if headers != [] {
      CellsOfAt(headers[1..], row);
    }
  }

  /** What a table with these headers shows of a row. */
  function Shown(headers: seq<string>, row: Row): Row {
    map h | h in headers :: CellOf(row, h)
  }

  lemma ShownSnoc(headers: seq<string>, last: string, row: Row)
    ensures Shown(headers + [last], row) == Shown(headers, row)[last := CellOf(row, last)]
  {
  }

  lemma {:induction false} RowOfShown(headers: seq<string>, cells: seq<string>, row: Row)
    requires |headers| <= |cells| && forall i :: 0 <= i < |headers| ==> cells[i] == CellOf(row, headers[i])
    ensures RowOf(headers, cells) == Shown(headers, row)
  {
    if headers != [] {
      var i := |headers| - 1;
      RowOfShown(headers[..i], cells, row);
      ShownSnoc(headers[..i], headers[i], row);
      assert headers == headers[..i] + [headers[i]];
    }
  }

  lemma ParsePrintedRow(headers: seq<string>, row: Row)
    requires headers != []
    ensures ParseRow(headers)(PrintRow(headers)(row)) == Shown(headers, row)
  {
    CellsOfAt(headers, row);
    CellsOfPrinted(CellsOf(headers, row));
    RowOfShown(headers, CellsOf(headers, row), row);
  }

  function ShownRows(headers: seq<string>): Row -> Row {
    (row: Row) => Shown(headers, row)
  }

  lemma TableLinesFramed(headers: seq<string>, rows: seq<Row>)
    requires headers != []
    ensures forall i :: 0 <= i < |TableLines(headers, rows)| ==> QuoteFramed(TableLines(headers, rows)[i])
  {
    PrintedIsFramed(headers);
    var lines := TableLines(headers, rows);
    forall i | 0 <= i < |lines| ensures QuoteFramed(lines[i]) {
      if i > 0 {
        CellsOfAt(headers, rows[i - 1]);
        PrintedIsFramed(CellsOf(headers, rows[i - 1]));
      }
    }
  }

  lemma PrintedTableLines(headers: seq<string>, rows: seq<Row>)
    requires headers != []
    ensures Trim(ToCsv(headers, rows)) == JoinLines(TableLines(headers, rows))
    ensures |PhysicalLines(ToCsv(headers, rows))| == LineCount(JoinLines(TableLines(headers, rows)))
  {
    TableLinesFramed(headers, rows);
    JoinedIsFramed(TableLines(headers, rows));
    TrimPrinted(JoinLines(TableLines(headers, rows)));
  }

  lemma ParsePrintedRows(headers: seq<string>, rows: seq<Row>)
    requires headers != []
    ensures MapSeq(MapSeq(rows, PrintRow(headers)), ParseRow(headers)) == MapSeq(rows, ShownRows(headers))
  {
    var parsed := MapSeq(MapSeq(rows, PrintRow(headers)), ParseRow(headers));
    forall i | 0 <= i < |rows| ensures parsed[i] == Shown(headers, rows[i]) {
      ParsePrintedRow(headers, rows[i]);
    }
  }

  lemma FullRowShown(headers: seq<string>, row: Row)
    requires row.Keys == ToSet(headers)
    ensures Shown(headers, row) == row
  {
    assert Shown(headers, row).Keys == row.Keys;
  }

  /** A row that has exactly the header fields is shown as it is. */
  lemma FullRowsShown(headers: seq<string>, rows: seq<Row>)
    requires forall i :: 0 <= i < |rows| ==> rows[i].Keys == ToSet(headers)
    ensures MapSeq(rows, ShownRows(headers)) == rows
  {
    forall i | 0 <= i < |rows| ensures Shown(headers, rows[i]) == rows[i] {
      FullRowShown(headers, rows[i]);
    }
  }

  lemma {:induction false} DoubledLineFeed(text: string)
    ensures '\n' in Doubled(text) <==> '\n' in text
  {
    if text != [] {
      DoubledLineFeed(text[1..]);
      assert text == [text[0]] + text[1..];
    }
  }

  /** A printed line holds a line feed exactly when one of its cells does. */
  lemma {:induction false} PrintedLineFeed(cells: seq<string>)
    ensures '\n' in PrintLine(cells) <==> exists i :: 0 <= i < |cells| && '\n' in cells[i]
    decreases |cells|
  {
    if cells != [] {
      DoubledLineFeed(cells[0]);
      if |cells| > 1 {
        PrintedLineFeed(cells[1..]);
        assert forall i :: 0 <= i < |cells| - 1 ==> cells[1..][i] == cells[i + 1];
        assert '\n' in PrintLine(cells) <==> '\n' in cells[0] || '\n' in PrintLine(cells[1..]);
        if exists i :: 0 <= i < |cells[1..]| && '\n' in cells[1..][i] {
          var i :| 0 <= i < |cells[1..]| && '\n' in cells[1..][i];
          assert '\n' in cells[i + 1];
        }
        if exists i :: 0 <= i < |cells| && '\n' in cells[i] {
          var i :| 0 <= i < |cells| && '\n' in cells[i];
          if i > 0 { assert '\n' in cells[1..][i - 1]; }
        }
      }
    }
  }

  /** No header and no cell shown holds a line feed. */
  ghost predicate LineFeedFree(headers: seq<string>, rows: seq<Row>) {
    && NoLineFeeds(headers)
    && forall i :: 0 <= i < |rows| ==> NoLineFeeds(CellsOf(headers, rows[i]))
  }

  lemma LineFeedFreeLines(headers: seq<string>, rows: seq<Row>)
    ensures NoLineFeeds(TableLines(headers, rows)) <==> LineFeedFree(headers, rows)
  {
    var lines := TableLines(headers, rows);
    PrintedLineFeed(headers);
    assert NoLineFeeds(headers) <==> '\n' !in lines[0];
    forall i | 0 <= i < |rows| ensures NoLineFeeds(CellsOf(headers, rows[i])) <==> '\n' !in lines[1..][i] {
      PrintedLineFeed(CellsOf(headers, rows[i]));
    }
    NoLineFeedsCons(lines);
  }

  /** CSV round trip: for every table with at least one header, reading the printed
      table gives its rows back exactly when no header and no cell holds a line feed. */
  lemma TableRoundTrip(headers: seq<string>, rows: seq<Row>)
    requires headers != []
    ensures ParseCsv(ToCsv(headers, rows)) == MapSeq(rows, ShownRows(headers)) <==> LineFeedFree(headers, rows)
  {
    var lines := TableLines(headers, rows);
    TableLinesFramed(headers, rows);
    PrintedTableLines(headers, rows);
    JoinedLineCount(lines);
    LineFeedFreeLines(headers, rows);
    if LineFeedFree(headers, rows) {
      assert PhysicalLines(ToCsv(headers, rows)) == lines;
      CellsOfPrinted(headers);
      ParsePrintedRows(headers, rows);
      assert lines[1..] == MapSeq(rows, PrintRow(headers));
    }
  }
}
