/** The CSV reader of the import screen, against every text an RFC 4180 printer may produce. */
module Csv {
  import opened Common
  import opened MoneyText

  /** U+FEFF */
  const BYTE_ORDER_MARK: char := '\U{FEFF}'

  datatype Table = Table(headers: seq<string>, rows: seq<seq<string>>)

  // ── The reader as a function ───────────────────────────────────────────────

  /** `trim`: white space and line ends at both ends. */
  function Trim(s: string): string
    decreases |s|
  {
    if s == "" then ""
    else if IsSpace(s[0]) then Trim(s[1..])
    else if IsSpace(s[|s| - 1]) then Trim(s[..|s| - 1])
    else s
  }

  datatype State = State(rows: seq<seq<string>>, row: seq<string>, field: string, quoted: bool)

  const START := State([], [], "", false)

  /** What is read of `text` from `st` on. */
  function Read(text: string, d: char, st: State): State
    decreases |text|
  {
    if text == "" then st
    else if st.quoted then
      if text[0] != '"' then Read(text[1..], d, st.(field := st.field + [text[0]]))
      else if |text| > 1 && text[1] == '"' then Read(text[2..], d, st.(field := st.field + ['"']))
      else Read(text[1..], d, st.(quoted := false))
    else if text[0] == '"' then Read(text[1..], d, st.(quoted := true))
    else if text[0] == d then Read(text[1..], d, st.(row := st.row + [st.field], field := ""))
    else if text[0] == '\n' then Read(text[1..], d, st.(rows := st.rows + [st.row + [st.field]], row := [], field := ""))
    else if text[0] == '\r' then Read(text[1..], d, st)
    else Read(text[1..], d, st.(field := st.field + [text[0]]))
  }

  /** The last row usually has no line end. */
  function Closed(st: State): seq<seq<string>> {
    if st.field != "" || st.row != [] then st.rows + [st.row + [st.field]] else st.rows
  }

  predicate IsBlank(row: seq<string>) { forall i :: 0 <= i < |row| ==> Trim(row[i]) == "" }

  function Trimmed(row: seq<string>): (r: seq<string>)
    ensures |r| == |row| && forall i :: 0 <= i < |r| ==> r[i] == Trim(row[i])
  {
    seq(|row|, i requires 0 <= i < |row| => Trim(row[i]))
  }

  function NonBlank(rows: seq<seq<string>>): seq<seq<string>> {
    if rows == [] then []
    else NonBlank(rows[..|rows| - 1]) + if IsBlank(rows[|rows| - 1]) then [] else [rows[|rows| - 1]]
  }

  function TableOf(rows: seq<seq<string>>): Table {
    if rows == [] then Table([], []) else Table(Trimmed(rows[0]), NonBlank(rows[1..]))
  }

  function WithoutMark(text: string): string {
    if text != "" && text[0] == BYTE_ORDER_MARK then text[1..] else text
  }

  function Parsed(text: string, d: char): Table { TableOf(Closed(Read(WithoutMark(text), d, START))) }

  /** `Trim` takes white space off both ends and nothing else. */
  lemma {:induction false} TrimMeaning(s: string) returns (i: nat, j: nat)
    ensures i <= j <= |s| && Trim(s) == s[i..j]
    ensures forall k :: 0 <= k < i || j <= k < |s| ==> IsSpace(s[k])
    ensures i < j ==> !IsSpace(s[i]) && !IsSpace(s[j - 1])
    decreases |s|
  {
    if s == "" {
      i, j := 0, 0;
    } else if IsSpace(s[0]) {
      var later := s[1..];
      i, j := TrimMeaning(later);
      assert later[i..j] == s[i + 1..j + 1] && forall k :: 0 <= k < |later| ==> later[k] == s[k + 1];
      Shifted(s, later, i, j);
      i, j := i + 1, j + 1;
    } else if IsSpace(s[|s| - 1]) {
      i, j := TrimMeaning(s[..|s| - 1]);
    } else {
      i, j := 0, |s|;
    }
  }

  lemma Shifted(s: string, later: string, i: nat, j: nat)
    requires s != "" && later == s[1..] && i <= j <= |later| && IsSpace(s[0])
    requires forall k :: 0 <= k < i || j <= k < |later| ==> IsSpace(later[k])
    ensures forall k :: 0 <= k < i + 1 || j + 1 <= k < |s| ==> IsSpace(s[k])
  {
    forall k | 0 <= k < i + 1 || j + 1 <= k < |s| ensures IsSpace(s[k]) {
      if k > 0 { assert s[k] == later[k - 1]; }
    }
  }

  // ── The table ──────────────────────────────────────────────────────────────

  /** `t` is `s` without the white space at its ends. */
  ghost predicate IsTrimOf(s: string, t: string) {
    exists i: nat, j: nat :: TrimsAt(s, t, i, j)
  }

  ghost predicate TrimsAt(s: string, t: string, i: nat, j: nat) {
    && i <= j <= |s| && t == s[i..j] && (forall k :: 0 <= k < i || j <= k < |s| ==> IsSpace(s[k]))
    && (i < j ==> !IsSpace(s[i]) && !IsSpace(s[j - 1]))
  }

  /** Some cell of the row shows something. */
  ghost predicate ShowsSomething(row: seq<string>) { exists i, k :: 0 <= i < |row| && 0 <= k < |row[i]| && !IsSpace(row[i][k]) }

  lemma TrimsToNothing(s: string)
    ensures Trim(s) == "" <==> forall k :: 0 <= k < |s| ==> IsSpace(s[k])
  {
    var i, j := TrimMeaning(s);
    if i < j { assert !IsSpace(s[i]); }
  }

  lemma BlankMeaning(row: seq<string>)
    ensures IsBlank(row) <==> !ShowsSomething(row)
  {
    forall i | 0 <= i < |row| ensures Trim(row[i]) == "" <==> forall k :: 0 <= k < |row[i]| ==> IsSpace(row[i][k]) { TrimsToNothing(row[i]); }
  }

  /** `kept` are the rows at these places, in order: all that show something. */
  ghost predicate AreShown(rows: seq<seq<string>>, kept: seq<seq<string>>, at: seq<nat>) {
    && Increasing(at) && |kept| == |at| && (forall i :: 0 <= i < |at| ==> at[i] < |rows| && kept[i] == rows[at[i]] && ShowsSomething(kept[i]))
    && forall k: nat :: k < |rows| && ShowsSomething(rows[k]) ==> k in at
  }

  lemma ShownSnoc(rows: seq<seq<string>>, kept: seq<seq<string>>, at: seq<nat>, row: seq<string>)
    requires AreShown(rows, kept, at)
    ensures !ShowsSomething(row) ==> AreShown(rows + [row], kept, at)
    ensures ShowsSomething(row) ==> AreShown(rows + [row], kept + [row], at + [|rows|])
  {
    assert (rows + [row])[|rows|] == row;
    if ShowsSomething(row) { assert |rows| in at + [|rows|]; }
  }

  lemma {:induction false} NonBlankMeaning(rows: seq<seq<string>>) returns (at: seq<nat>)
    ensures AreShown(rows, NonBlank(rows), at)
  {
    if rows == [] {
      at := [];
    } else {
      var before, row := rows[..|rows| - 1], rows[|rows| - 1];
      at := NonBlankMeaning(before);
      ShownSnoc(before, NonBlank(before), at, row);
      BlankMeaning(row);
      assert rows == before + [row];
      if ShowsSomething(row) { at := at + [|before|]; }
    }
  }

  /** The first row's cells, trimmed, are the headers; behind it every row is kept, in order, that shows something. */
  lemma TableMeaning(rows: seq<seq<string>>) returns (at: seq<nat>)
    ensures rows == [] ==> TableOf(rows) == Table([], [])
    ensures rows != [] ==>
              var table := TableOf(rows);
              && |table.headers| == |rows[0]| && (forall i :: 0 <= i < |rows[0]| ==> IsTrimOf(rows[0][i], table.headers[i]))
              && AreShown(rows[1..], table.rows, at)
  {
    at := [];
    if rows != [] {
      at := NonBlankMeaning(rows[1..]);
      forall i | 0 <= i < |rows[0]| ensures IsTrimOf(rows[0][i], Trim(rows[0][i])) {
        var from, to := TrimMeaning(rows[0][i]);
        assert TrimsAt(rows[0][i], Trim(rows[0][i]), from, to);
      }
    }
  }

  // ── The reader ─────────────────────────────────────────────────────────────

  method ParseCsv(text: string, delimiter: char) returns (table: Table)
    ensures table == Parsed(text, delimiter)
  {
    var input := if |text| > 0 && text[0] == BYTE_ORDER_MARK then text[1..] else text;
    var rows: seq<seq<string>>, row: seq<string>, field, quoted := [], [], "", false;
    var i := 0;
    assert input[0..] == input;
    while i < |input|
      invariant 0 <= i <= |input|
      invariant Read(input[i..], delimiter, State(rows, row, field, quoted)) == Read(input, delimiter, START)
    {
      var c := input[i];
      assert input[i..][1..] == input[i + 1..];
      if quoted {
        if c == '"' {
          if i + 1 < |input| && input[i + 1] == '"' {
            assert input[i..][2..] == input[i + 2..];
            field := field + ['"'];
            i := i + 1;
          } else {
            quoted := false;
          }
        } else {
          field := field + [c];
        }
      } else if c == '"' {
        quoted := true;
      } else if c == delimiter {
        row, field := row + [field], "";
      } else if c == '\n' {
        rows, row, field := rows + [row + [field]], [], "";
      } else if c != '\r' {
        field := field + [c];
      }
      i := i + 1;
    }
    if field != "" || row != [] { rows := rows + [row + [field]]; }
    if rows == [] { return Table([], []); }
    var kept := DropBlank(rows[1..]);
    table := Table(Trimmed(rows[0]), kept);
  }

  method DropBlank(rows: seq<seq<string>>) returns (kept: seq<seq<string>>)
    ensures kept == NonBlank(rows)
  {
    kept := [];
    for k := 0 to |rows|
      invariant kept == NonBlank(rows[..k])
    {
      assert rows[..k + 1][..k] == rows[..k];
      if !IsBlank(rows[k]) { kept := kept + [rows[k]]; }
    }
    assert rows[..|rows|] == rows;
  }

  // ── A printer, with every choice RFC 4180 leaves open ──────────────────────

  /** A field may be quoted; a line may end in LF or CRLF. */
  datatype Cell = Cell(value: string, quoted: bool)
  datatype Line = Line(cells: seq<Cell>, crlf: bool)

  function Doubled(value: string): string {
    if value == "" then ""
    else (if value[0] == '"' then ['"', '"'] else [value[0]]) + Doubled(value[1..])
  }

  function PrintCell(c: Cell): string { if c.quoted then ['"'] + (Doubled(c.value) + ['"']) else c.value }

  function PrintCells(cells: seq<Cell>, d: char): string
    requires cells != []
  {
    if |cells| == 1 then PrintCell(cells[0]) else PrintCell(cells[0]) + ([d] + PrintCells(cells[1..], d))
  }

  function LineEnd(l: Line): string { if l.crlf then ['\r', '\n'] else ['\n'] }

  /** The last line may lack its end. */
  function PrintLines(lines: seq<Line>, d: char, terminated: bool): string
    requires forall i :: 0 <= i < |lines| ==> lines[i].cells != []
  {
    if lines == [] then ""
    else if |lines| == 1 && !terminated then PrintCells(lines[0].cells, d)
    else PrintCells(lines[0].cells, d) + (LineEnd(lines[0]) + PrintLines(lines[1..], d, terminated))
  }

  function Print(lines: seq<Line>, d: char, mark: bool, terminated: bool): string
    requires forall i :: 0 <= i < |lines| ==> lines[i].cells != []
  {
    (if mark then [BYTE_ORDER_MARK] else "") + PrintLines(lines, d, terminated)
  }

  /** Section 2 of RFC 4180: quotes, delimiters and line ends only inside quotes. */
  predicate IsPlain(c: char, d: char) { c != '"' && c != d && c != '\r' && c != '\n' }

  ghost predicate IsCell(c: Cell, d: char) {
    !c.quoted ==> forall i :: 0 <= i < |c.value| ==> IsPlain(c.value[i], d)
  }

  ghost predicate AreCells(cells: seq<Cell>, d: char) {
    cells != [] && forall i :: 0 <= i < |cells| ==> IsCell(cells[i], d)
  }

  ghost predicate AreLines(lines: seq<Line>, d: char) { forall i :: 0 <= i < |lines| ==> AreCells(lines[i].cells, d) }

  predicate IsDelimiter(d: char) { d != '"' && d != '\r' && d != '\n' }

  function Values(cells: seq<Cell>): (r: seq<string>)
    ensures |r| == |cells| && forall i :: 0 <= i < |r| ==> r[i] == cells[i].value
  {
    seq(|cells|, i requires 0 <= i < |cells| => cells[i].value)
  }

  function Rows(lines: seq<Line>): (r: seq<seq<string>>)
    ensures |r| == |lines| && forall i :: 0 <= i < |r| ==> r[i] == Values(lines[i].cells)
  {
    seq(|lines|, i requires 0 <= i < |lines| => Values(lines[i].cells))
  }

  // ── Reading what was printed ───────────────────────────────────────────────

  lemma {:induction false} ReadPlain(value: string, rest: string, d: char, st: State)
    requires !st.quoted && forall i :: 0 <= i < |value| ==> IsPlain(value[i], d)
    ensures Read(value + rest, d, st) == Read(rest, d, st.(field := st.field + value))
    decreases |value|
  {
    if value == "" {
      assert value + rest == rest && st.field + value == st.field;
    } else {
      assert (value + rest)[0] == value[0] && (value + rest)[1..] == value[1..] + rest;
      ReadPlain(value[1..], rest, d, st.(field := st.field + [value[0]]));
      assert st.field + [value[0]] + value[1..] == st.field + value;
    }
  }

  lemma {:induction false} ReadQuoted(value: string, rest: string, d: char, st: State)
    requires st.quoted && (rest == "" || rest[0] != '"')
    ensures Read(Doubled(value) + (['"'] + rest), d, st) == Read(rest, d, st.(field := st.field + value, quoted := false))
    decreases |value|
  {
    var text := Doubled(value) + (['"'] + rest);
    if value == "" {
      assert text == ['"'] + rest && text[1..] == rest && st.field + value == st.field;
    } else {
      var later := Doubled(value[1..]) + (['"'] + rest);
      ReadQuoted(value[1..], rest, d, st.(field := st.field + [value[0]]));
      assert st.field + [value[0]] + value[1..] == st.field + value;
      if value[0] == '"' { assert text[0] == text[1] == '"' && text[2..] == later; } else { assert text[0] == value[0] && text[1..] == later; }
    }
  }

  // ── Fields no printer of RFC 4180 writes ───────────────────────────────────

  /** A stretch of a field: plain characters, or a quoted part. */
  datatype Part = Bare(text: string) | Quoted(value: string)

  /** Outside quotes, a carriage return does not count. */
  function Counting(text: string): string {
    if text == "" then "" else (if text[0] == '\r' then "" else [text[0]]) + Counting(text[1..])
  }

  function PrintPart(p: Part): string { if p.Bare? then p.text else ['"'] + (Doubled(p.value) + ['"']) }

  function PrintParts(parts: seq<Part>): string { if parts == [] then "" else PrintPart(parts[0]) + PrintParts(parts[1..]) }

  function ValueOf(parts: seq<Part>): string {
    if parts == [] then "" else (if parts[0].Bare? then Counting(parts[0].text) else parts[0].value) + ValueOf(parts[1..])
  }

  /** No quote, delimiter or line feed stands outside quotes, and no two quoted parts touch. */
  ghost predicate AreParts(parts: seq<Part>, d: char) {
    && (forall i, k :: 0 <= i < |parts| && parts[i].Bare? && 0 <= k < |parts[i].text| ==> parts[i].text[k] !in {'"', d, '\n'})
    && forall i :: 0 <= i < |parts| - 1 && parts[i].Quoted? ==> parts[i + 1].Bare? && parts[i + 1].text != ""
  }

  lemma {:induction false} ReadBare(text: string, rest: string, d: char, st: State)
    requires !st.quoted && d != '\r' && forall k :: 0 <= k < |text| ==> text[k] !in {'"', d, '\n'}
    ensures Read(text + rest, d, st) == Read(rest, d, st.(field := st.field + Counting(text)))
    decreases |text|
  {
    if text == "" {
      assert text + rest == rest && st.field + "" == st.field;
    } else {
      assert (text + rest)[0] == text[0] && (text + rest)[1..] == text[1..] + rest;
      var first := if text[0] == '\r' then "" else [text[0]];
      assert st.field + first + Counting(text[1..]) == st.field + Counting(text) && st.field + "" == st.field;
      ReadBare(text[1..], rest, d, st.(field := st.field + first));
    }
  }

  lemma ReadQuotes(value: string, rest: string, d: char, st: State)
    requires !st.quoted && (rest == "" || rest[0] != '"')
    ensures Read((['"'] + (Doubled(value) + ['"'])) + rest, d, st) == Read(rest, d, st.(field := st.field + value))
  {
    var inside := Doubled(value) + (['"'] + rest);
    assert ((['"'] + (Doubled(value) + ['"'])) + rest)[1..] == inside;
    ReadQuoted(value, rest, d, st.(quoted := true));
  }

  /** Quotes may open and close anywhere in a field, and carriage returns outside them are lost. */
  lemma {:induction false} ReadParts(parts: seq<Part>, rest: string, d: char, st: State)
    requires AreParts(parts, d) && IsDelimiter(d) && !st.quoted && (rest == "" || rest[0] != '"')
    ensures Read(PrintParts(parts) + rest, d, st) == Read(rest, d, st.(field := st.field + ValueOf(parts)))
    decreases |parts|
  {
    if parts == [] {
      assert PrintParts(parts) + rest == rest && st.field + "" == st.field;
    } else {
      var first, later := parts[0], PrintParts(parts[1..]) + rest;
      var value := if first.Bare? then Counting(first.text) else first.value;
      PartsApart(parts, rest, d);
      Joined(PrintPart(first), PrintParts(parts[1..]), rest);
      if first.Bare? { ReadBare(first.text, later, d, st); } else { ReadQuotes(first.value, later, d, st); }
      ReadParts(parts[1..], rest, d, st.(field := st.field + value));
      Joined(st.field, value, ValueOf(parts[1..]));
    }
  }

  lemma PartsApart(parts: seq<Part>, rest: string, d: char)
    requires parts != [] && AreParts(parts, d) && (rest == "" || rest[0] != '"')
    ensures AreParts(parts[1..], d)
    ensures var later := PrintParts(parts[1..]) + rest; parts[0].Quoted? ==> later == "" || later[0] != '"'
  {
    if |parts| > 1 && parts[0].Quoted? { assert parts[1].text[0] !in {'"', d, '\n'}; }
  }

  /** A quote that is never closed takes the rest of the text: the field is all of it, line ends and delimiters included. */
  lemma {:induction false} ReadUnclosed(value: string, d: char, st: State)
    requires st.quoted
    ensures Read(Doubled(value), d, st) == st.(field := st.field + value)
    decreases |value|
  {
    if value == "" {
      assert st.field + "" == st.field;
    } else {
      var text := Doubled(value);
      ReadUnclosed(value[1..], d, st.(field := st.field + [value[0]]));
      assert st.field + [value[0]] + value[1..] == st.field + value;
      if value[0] == '"' { assert text[2..] == Doubled(value[1..]); } else { assert text[1..] == Doubled(value[1..]); }
    }
  }

  lemma ReadCell(c: Cell, rest: string, d: char, st: State)
    requires IsCell(c, d) && !st.quoted && st.field == "" && (rest == "" || rest[0] != '"')
    ensures Read(PrintCell(c) + rest, d, st) == Read(rest, d, st.(field := c.value))
  {
    if c.quoted {
      var text, inside := PrintCell(c) + rest, Doubled(c.value) + (['"'] + rest);
      assert text[0] == '"' && text[1..] == inside;
      ReadQuoted(c.value, rest, d, st.(quoted := true));
    } else {
      ReadPlain(c.value, rest, d, st);
    }
    assert st.field + c.value == c.value;
  }

  lemma Regrouped(a: string, b: string, c: string, e: string)
    ensures (a + (b + c)) + e == a + (b + (c + e))
  {
  }

  /** What has been read when the last of the cells has. */
  function CellsRead(st: State, values: seq<string>): State
    requires values != []
  {
    st.(row := st.row + values[..|values| - 1], field := values[|values| - 1])
  }

  lemma {:induction false} ReadCells(cells: seq<Cell>, rest: string, d: char, st: State)
    requires AreCells(cells, d) && IsDelimiter(d) && !st.quoted && st.field == "" && (rest == "" || rest[0] != '"')
    ensures Read(PrintCells(cells, d) + rest, d, st) == Read(rest, d, CellsRead(st, Values(cells)))
    decreases |cells|
  {
    var first, later := cells[0], cells[1..];
    if |cells| == 1 {
      ReadCell(first, rest, d, st);
      assert st.row + Values(cells)[..0] == st.row;
    } else {
      var after := PrintCells(later, d) + rest;
      var next := st.(row := st.row + [first.value], field := "");
      Regrouped(PrintCell(first), [d], PrintCells(later, d), rest);
      ReadCell(first, [d] + after, d, st);
      ReadDelimiter(after, d, st.(field := first.value));
      ReadCells(later, rest, d, next);
      CellsStep(cells, st);
    }
  }

  lemma CellsStep(cells: seq<Cell>, st: State)
    requires |cells| > 1
    ensures CellsRead(st, Values(cells)) == CellsRead(st.(row := st.row + [cells[0].value], field := ""), Values(cells[1..]))
  {
    var values, later, n := Values(cells), Values(cells[1..]), |cells|;
    assert values[n - 1] == later[n - 2];
    LaterValues(st.row, values, later);
  }

  lemma LaterValues(row: seq<string>, values: seq<string>, later: seq<string>)
    requires |values| > 1 && later == values[1..]
    ensures row + values[..|values| - 1] == row + [values[0]] + later[..|later| - 1]
  {
  }

  lemma ReadDelimiter(rest: string, d: char, st: State)
    requires IsDelimiter(d) && !st.quoted
    ensures Read([d] + rest, d, st) == Read(rest, d, st.(row := st.row + [st.field], field := ""))
  {
    assert ([d] + rest)[1..] == rest;
  }

  lemma ReadLine(l: Line, rest: string, d: char, rows: seq<seq<string>>)
    requires AreCells(l.cells, d) && IsDelimiter(d)
    ensures Read(PrintCells(l.cells, d) + (LineEnd(l) + rest), d, State(rows, [], "", false))
            == Read(rest, d, State(rows + [Values(l.cells)], [], "", false))
  {
    var values, tail := Values(l.cells), LineEnd(l) + rest;
    ReadCells(l.cells, tail, d, State(rows, [], "", false));
    assert [] + values[..|values| - 1] == values[..|values| - 1];
    assert values[..|values| - 1] + [values[|values| - 1]] == values;
    if l.crlf {
      assert tail[1..] == ['\n'] + rest && tail[1..][1..] == rest;
    } else {
      assert tail[1..] == rest;
    }
  }

  /** The text ends in a line of one empty field and no line end, which cannot be told from no line. */
  predicate EndsInNothing(lines: seq<Line>, terminated: bool) {
    lines != [] && !terminated && Values(lines[|lines| - 1].cells) == [""]
  }

  function Visible(lines: seq<Line>, terminated: bool): seq<Line> {
    if EndsInNothing(lines, terminated) then lines[..|lines| - 1] else lines
  }

  lemma VisibleStep(lines: seq<Line>, terminated: bool, rows: seq<seq<string>>)
    requires lines != [] && (|lines| > 1 || terminated)
    ensures rows + Rows(Visible(lines, terminated)) == rows + [Values(lines[0].cells)] + Rows(Visible(lines[1..], terminated))
  {
    var later := Visible(lines[1..], terminated);
    assert Visible(lines, terminated) == [lines[0]] + later;
    RowsCons(lines[0], later);
    MoveOver(rows, Values(lines[0].cells), Rows(later));
  }

  lemma RowsCons(l: Line, later: seq<Line>)
    ensures Rows([l] + later) == [Values(l.cells)] + Rows(later)
  {
  }

  lemma MoveOver(rows: seq<seq<string>>, row: seq<string>, later: seq<seq<string>>)
    ensures rows + ([row] + later) == rows + [row] + later
  {
  }

  /** Whether the last row is in the rows yet or still being read, closing gives them all. */
  lemma {:induction false} ReadLines(lines: seq<Line>, d: char, terminated: bool, rows: seq<seq<string>>)
    requires AreLines(lines, d) && IsDelimiter(d)
    ensures Closed(Read(PrintLines(lines, d, terminated), d, State(rows, [], "", false))) == rows + Rows(Visible(lines, terminated))
    decreases |lines|
  {
    if lines == [] {
      assert rows + Rows(lines) == rows;
    } else if |lines| == 1 && !terminated {
      ReadLastLine(lines[0], d, rows);
      if EndsInNothing(lines, terminated) {
        assert rows + Rows(Visible(lines, terminated)) == rows;
      } else {
        assert Rows(Visible(lines, terminated)) == [Values(lines[0].cells)];
      }
    } else {
      var first := Values(lines[0].cells);
      ReadLine(lines[0], PrintLines(lines[1..], d, terminated), d, rows);
      ReadLines(lines[1..], d, terminated, rows + [first]);
      VisibleStep(lines, terminated, rows);
    }
  }

  lemma ReadLastLine(l: Line, d: char, rows: seq<seq<string>>)
    requires AreCells(l.cells, d) && IsDelimiter(d)
    ensures Closed(Read(PrintCells(l.cells, d), d, State(rows, [], "", false)))
            == if Values(l.cells) == [""] then rows else rows + [Values(l.cells)]
  {
    var values := Values(l.cells);
    ReadCells(l.cells, "", d, State(rows, [], "", false));
    assert PrintCells(l.cells, d) + "" == PrintCells(l.cells, d);
    assert [] + values[..|values| - 1] == values[..|values| - 1];
    assert values[..|values| - 1] + [values[|values| - 1]] == values;
    if |values| == 1 && values[0] == "" { assert values == [""]; }
  }

  // ── The round trip ─────────────────────────────────────────────────────────

  /** What the screen is to see of the lines: the first one's fields as headers, trimmed, then every line that is not blank. */
  function Meant(lines: seq<Line>): Table { TableOf(Rows(lines)) }

  /** What follows the first cell. */
  function Behind(lines: seq<Line>, d: char, terminated: bool): string
    requires lines != [] && forall i :: 0 <= i < |lines| ==> lines[i].cells != []
  {
    (if |lines[0].cells| > 1 then [d] + PrintCells(lines[0].cells[1..], d) else "")
    + (if |lines| == 1 && !terminated then "" else LineEnd(lines[0]) + PrintLines(lines[1..], d, terminated))
  }

  lemma FirstCell(lines: seq<Line>, d: char, terminated: bool)
    requires lines != [] && AreLines(lines, d)
    ensures PrintLines(lines, d, terminated) == PrintCell(lines[0].cells[0]) + Behind(lines, d, terminated)
  {
    var first := PrintCell(lines[0].cells[0]);
    var more := if |lines[0].cells| > 1 then [d] + PrintCells(lines[0].cells[1..], d) else "";
    assert PrintCells(lines[0].cells, d) == first + more;
    if |lines| > 1 || terminated {
      Joined(first, more, LineEnd(lines[0]) + PrintLines(lines[1..], d, terminated));
    } else {
      assert more + "" == more;
    }
  }

  lemma Joined(a: string, b: string, c: string)
    ensures (a + b) + c == a + (b + c)
  {
  }

  /** The text starts with the character of the mark: its first header does, or it is empty and the delimiter is one. */
  predicate StartsMarked(lines: seq<Line>, d: char)
    requires lines != [] && lines[0].cells != []
  {
    var c := lines[0].cells[0];
    !c.quoted && if c.value != "" then c.value[0] == BYTE_ORDER_MARK else |lines[0].cells| > 1 && d == BYTE_ORDER_MARK
  }

  /** The lines as the reader then sees them: the first header without its first character, or without the first header. */
  function Unmarked(lines: seq<Line>): seq<Line>
    requires lines != [] && lines[0].cells != [] && (lines[0].cells[0].value == "" ==> |lines[0].cells| > 1)
  {
    var cells := lines[0].cells;
    var left := if cells[0].value != "" then [Cell(cells[0].value[1..], false)] + cells[1..] else cells[1..];
    [Line(left, lines[0].crlf)] + lines[1..]
  }

  lemma MarkIsFirst(lines: seq<Line>, d: char, terminated: bool)
    requires lines != [] && AreLines(lines, d) && IsDelimiter(d)
    ensures var text := PrintLines(lines, d, terminated);
            text != "" && text[0] == BYTE_ORDER_MARK <==> StartsMarked(lines, d)
  {
    FirstCell(lines, d, terminated);
  }

  lemma UnmarkedIsPrinted(lines: seq<Line>, d: char, terminated: bool)
    requires lines != [] && AreLines(lines, d) && IsDelimiter(d) && StartsMarked(lines, d)
    ensures AreLines(Unmarked(lines), d)
    ensures PrintLines(Unmarked(lines), d, terminated) == PrintLines(lines, d, terminated)[1..]
  {
    var u, cells := Unmarked(lines), lines[0].cells;
    assert u[1..] == lines[1..];
    FirstCell(lines, d, terminated);
    if cells[0].value != "" {
      assert u[0].cells[1..] == cells[1..];
      FirstCell(u, d, terminated);
      DropFirst(cells[0].value, Behind(lines, d, terminated));
    } else {
      assert u[0].cells == cells[1..];
      DelimiterLeads(lines, u, d, terminated);
    }
  }

  lemma DelimiterLeads(lines: seq<Line>, u: seq<Line>, d: char, terminated: bool)
    requires lines != [] && AreLines(lines, d) && |lines[0].cells| > 1 && u != [] && AreLines(u, d)
    requires u[1..] == lines[1..] && u[0] == Line(lines[0].cells[1..], lines[0].crlf)
    ensures Behind(lines, d, terminated) == [d] + PrintLines(u, d, terminated)
  {
    var rest := if |lines| == 1 && !terminated then "" else LineEnd(lines[0]) + PrintLines(lines[1..], d, terminated);
    Joined([d], PrintCells(u[0].cells, d), rest);
    assert PrintCells(u[0].cells, d) + "" == PrintCells(u[0].cells, d);
  }

  lemma DropFirst(a: string, b: string)
    requires a != ""
    ensures (a + b)[1..] == a[1..] + b
  {
  }

  /** An empty first header without quotes puts the delimiter first, which is then taken for the mark. */
  predicate MistakesDelimiter(lines: seq<Line>, d: char, mark: bool) {
    d == BYTE_ORDER_MARK && !mark && lines != [] && |lines[0].cells| > 1 && lines[0].cells[0] == Cell("", false)
  }

  /** One empty header (or only the character of the mark) and nothing else, without a line end, is no text at all. */
  predicate IsNoText(lines: seq<Line>, mark: bool, terminated: bool) {
    && |lines| == 1 && !terminated && |lines[0].cells| == 1
    && (lines[0].cells[0].value == "" || (!mark && lines[0].cells[0] == Cell([BYTE_ORDER_MARK], false)))
  }

  lemma BlankLastRow(lines: seq<Line>, terminated: bool)
    requires EndsInNothing(lines, terminated) && |lines| > 1
    ensures TableOf(Rows(Visible(lines, terminated))) == Meant(lines)
  {
    var all, n := Rows(lines), |lines| - 1;
    assert Rows(lines[..n]) == all[..n];
    assert all[1..][..n - 1] == all[..n][1..] && all[1..][n - 1] == [""];
    assert IsBlank([""]);
  }

  /** Read without a mark in front, the lines are what was meant, unless there is no text. */
  lemma ReadUnmarked(lines: seq<Line>, d: char, terminated: bool)
    requires AreLines(lines, d) && IsDelimiter(d)
    ensures TableOf(Closed(Read(PrintLines(lines, d, terminated), d, START)))
            == if |lines| == 1 && EndsInNothing(lines, terminated) then Table([], []) else Meant(lines)
  {
    ReadLines(lines, d, terminated, []);
    assert [] + Rows(Visible(lines, terminated)) == Rows(Visible(lines, terminated));
    if EndsInNothing(lines, terminated) {
      if |lines| > 1 { BlankLastRow(lines, terminated); } else { assert Rows(Visible(lines, terminated)) == []; }
    }
  }

  lemma OneValue(l: Line)
    ensures Values(l.cells) == [""] <==> |l.cells| == 1 && l.cells[0].value == ""
  {
    if |l.cells| == 1 && l.cells[0].value == "" { assert Values(l.cells) == [""]; }
  }

  /** A header that starts with the mark's character is trimmed of it anyway. */
  lemma UnmarkedIsMeant(lines: seq<Line>)
    requires lines != [] && lines[0].cells != [] && lines[0].cells[0].value != "" && lines[0].cells[0].value[0] == BYTE_ORDER_MARK
    ensures Meant(Unmarked(lines)) == Meant(lines)
  {
    var u := Unmarked(lines);
    var a, b := Rows(u), Rows(lines);
    assert a[1..] == b[1..];
    forall i | 0 <= i < |a[0]| ensures Trim(a[0][i]) == Trim(b[0][i]) {
      if i > 0 { assert u[0].cells[i] == lines[0].cells[i]; }
    }
    assert Trimmed(a[0]) == Trimmed(b[0]);
  }

  /**
   * Reading undoes printing, whatever is quoted, however the lines end, with or without a mark: exactly unless the
   * delimiter is mistaken for a mark or there is no text at all.
   */
  lemma ParseUndoesPrint(lines: seq<Line>, d: char, mark: bool, terminated: bool)
    requires AreLines(lines, d) && IsDelimiter(d)
    ensures Parsed(Print(lines, d, mark, terminated), d) == Meant(lines)
            <==> !MistakesDelimiter(lines, d, mark) && !IsNoText(lines, mark, terminated)
  {
    var text := PrintLines(lines, d, terminated);
    if lines != [] { OneValue(lines[|lines| - 1]); }
    if mark {
      assert Print(lines, d, mark, terminated)[1..] == text;
      ReadUnmarked(lines, d, terminated);
    } else {
      assert Print(lines, d, mark, terminated) == text;
      if lines == [] {
        ReadUnmarked(lines, d, terminated);
      } else {
        MarkIsFirst(lines, d, terminated);
        if StartsMarked(lines, d) { ReadStartsMarked(lines, d, terminated); } else { ReadUnmarked(lines, d, terminated); }
      }
    }
  }

  lemma ReadStartsMarked(lines: seq<Line>, d: char, terminated: bool)
    requires lines != [] && AreLines(lines, d) && IsDelimiter(d) && StartsMarked(lines, d)
    ensures TableOf(Closed(Read(PrintLines(lines, d, terminated)[1..], d, START))) == Meant(lines)
            <==> !MistakesDelimiter(lines, d, false) && !IsNoText(lines, false, terminated)
  {
    var u := Unmarked(lines);
    UnmarkedIsPrinted(lines, d, terminated);
    ReadUnmarked(u, d, terminated);
    OneValue(u[|u| - 1]);
    if lines[0].cells[0].value != "" {
      UnmarkedIsMeant(lines);
      var value := lines[0].cells[0].value;
      if value[1..] == "" { assert value == [BYTE_ORDER_MARK]; }
    }
    assert |Meant(lines).headers| == |lines[0].cells| && |Meant(u).headers| == |u[0].cells|;
  }

  lemma {:induction false} AllKept(rows: seq<seq<string>>)
    requires forall i :: 0 <= i < |rows| ==> !IsBlank(rows[i])
    ensures NonBlank(rows) == rows
  {
    if rows != [] {
      AllKept(rows[..|rows| - 1]);
      assert rows[..|rows| - 1] + [rows[|rows| - 1]] == rows;
    }
  }

  /** A table of trimmed headers and rows that are not blank is meant as it stands. */
  lemma CleanTableIsMeant(lines: seq<Line>)
    requires lines != [] && forall i :: 0 <= i < |lines[0].cells| ==> Trim(lines[0].cells[i].value) == lines[0].cells[i].value
    requires forall i :: 1 <= i < |lines| ==> !IsBlank(Values(lines[i].cells))
    ensures Meant(lines) == Table(Values(lines[0].cells), Rows(lines[1..]))
  {
    assert Rows(lines)[1..] == Rows(lines[1..]);
    AllKept(Rows(lines[1..]));
    assert Trimmed(Values(lines[0].cells)) == Values(lines[0].cells);
  }
}
