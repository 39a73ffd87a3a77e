/** The reader of account statements: comma separated cells, quoted where they hold commas, quotes or line breaks. */
module Csv {

  const BOM := '\U{FEFF}'

  type Row = seq<string>

  /** What the reader holds between two characters. */
  datatype Reader = Reader(rows: seq<Row>, row: Row, cell: string, quoted: bool)

  const START := Reader([], [], "", false)

  /** Reading the rest of a text. */
  function Scan(text: string, r: Reader): Reader
    decreases |text|
  {
    if text == "" then r
    else if r.quoted then
      if text[0] == '"' && |text| > 1 && text[1] == '"' then Scan(text[2..], r.(cell := r.cell + ['"']))
      else if text[0] == '"' then Scan(text[1..], r.(quoted := false))
      else Scan(text[1..], r.(cell := r.cell + [text[0]]))
    else if text[0] == '"' then Scan(text[1..], r.(quoted := true))
    else if text[0] == ',' then Scan(text[1..], r.(row := r.row + [r.cell], cell := ""))
    else if text[0] == '\n' then Scan(text[1..], Reader(r.rows + [r.row + [r.cell]], [], "", false))
    else if text[0] != '\r' then Scan(text[1..], r.(cell := r.cell + [text[0]]))
    else Scan(text[1..], r)
  }

  /** A last row needs no line break, unless it would be a single empty cell. */
  function Finish(r: Reader): seq<Row> {
    if r.cell != "" || r.row != [] then r.rows + [r.row + [r.cell]] else r.rows
  }

  function WithoutBom(input: string): string {
    if input != "" && input[0] == BOM then input[1..] else input
  }

  function Parsed(input: string): seq<Row> {
    Finish(Scan(WithoutBom(input), START))
  }

  /** `parseCsv`. */
  method ParseCsv(input: string) returns (rows: seq<Row>)
    ensures rows == Parsed(input)
  {
    var text := WithoutBom(input);
    rows := [];
    var row: Row, cell, quoted := [], "", false;
    var index := 0;
    while index < |text|
      invariant 0 <= index <= |text|
      invariant Scan(text[index..], Reader(rows, row, cell, quoted)) == Scan(text, START)
    {
      var c := text[index];
      assert text[index..][0] == c && text[index..][1..] == text[index + 1..];
      if quoted {
        if c == '"' && index + 1 < |text| && text[index + 1] == '"' {
          assert text[index..][1] == '"' && text[index..][2..] == text[index + 2..];
          cell := cell + ['"'];
          index := index + 1;
        } else if c == '"' {
          quoted := false;
        } else {
          cell := cell + [c];
        }
      } else if c == '"' {
        quoted := true;
      } else if c == ',' {
        row, cell := row + [cell], "";
      } else if c == '\n' {
        rows := rows + [row + [cell]];
        row, cell := [], "";
      } else if c != '\r' {
        cell := cell + [c];
      }
      index := index + 1;
    }
    if cell != "" || row != [] {
      rows := rows + [row + [cell]];
    }
  }

  // ---- Writing -----------------------------------------------------------------------------

  /** A cell that may be written without quotes. */
  predicate Plain(cell: string) {
    forall i | 0 <= i < |cell| :: cell[i] != '"' && cell[i] != ',' && cell[i] != '\n' && cell[i] != '\r'
  }

  function Doubled(cell: string): string {
    if cell == "" then "" else (if cell[0] == '"' then "\"\"" else [cell[0]]) + Doubled(cell[1..])
  }

  datatype Style = Quoted | Bare

  /** A cell to write, and whether to quote it. */
  datatype Cell = Cell(text: string, style: Style)

  predicate Writable(c: Cell) {
    c.style == Bare ==> Plain(c.text)
  }

  function WrittenCell(c: Cell): string {
    if c.style == Quoted then "\"" + Doubled(c.text) + "\"" else c.text
  }

  function WrittenRow(row: seq<Cell>): string
    requires row != []
  {
    if |row| == 1 then WrittenCell(row[0]) else WrittenCell(row[0]) + "," + WrittenRow(row[1..])
  }

  datatype Break = LF | CRLF

  function BreakText(b: Break): string {
    if b == LF then "\n" else "\r\n"
  }

  datatype Line = Line(cells: seq<Cell>, ending: Break)

  predicate WritableLine(line: Line) {
    line.cells != [] && forall i | 0 <= i < |line.cells| :: Writable(line.cells[i])
  }

  predicate AllWritable(lines: seq<Line>) {
    forall i | 0 <= i < |lines| :: WritableLine(lines[i])
  }

  function Written(lines: seq<Line>): string
    requires AllWritable(lines)
  {
    if lines == [] then "" else WrittenRow(lines[0].cells) + BreakText(lines[0].ending) + Written(lines[1..])
  }

  function Texts(row: seq<Cell>): Row {
    seq(|row|, i requires 0 <= i < |row| => row[i].text)
  }

  function RowTexts(lines: seq<Line>): seq<Row> {
    seq(|lines|, i requires 0 <= i < |lines| => Texts(lines[i].cells))
  }

  // ---- Reading back ------------------------------------------------------------------------

  predicate StartsQuote(text: string) {
    text != "" && text[0] == '"'
  }

  lemma {:induction false} DoubledReadsBack(cell: string, rest: string, r: Reader)
    requires r.quoted && !StartsQuote(rest)
    ensures Scan(Doubled(cell) + "\"" + rest, r) == Scan(rest, r.(cell := r.cell + cell, quoted := false))
  {
    var text := Doubled(cell) + "\"" + rest;
    if cell == "" {
      assert text[1..] == rest;
      assert r.cell + cell == r.cell;
    } else {
      var more := Doubled(cell[1..]) + "\"" + rest;
      assert text == (if cell[0] == '"' then "\"\"" else [cell[0]]) + more;
      assert if cell[0] == '"' then text[2..] == more else text[1..] == more;
      DoubledReadsBack(cell[1..], rest, r.(cell := r.cell + [cell[0]]));
      assert r.cell + [cell[0]] + cell[1..] == r.cell + cell;
    }
  }

  lemma {:induction false} PlainReadsBack(cell: string, rest: string, r: Reader)
    requires !r.quoted && Plain(cell)
    ensures Scan(cell + rest, r) == Scan(rest, r.(cell := r.cell + cell))
  {
    if cell == "" {
      assert cell + rest == rest && r.cell + cell == r.cell;
    } else {
      assert (cell + rest)[1..] == cell[1..] + rest;
      PlainReadsBack(cell[1..], rest, r.(cell := r.cell + [cell[0]]));
      assert r.cell + [cell[0]] + cell[1..] == r.cell + cell;
    }
  }

  lemma CellReadsBack(c: Cell, rest: string, r: Reader)
    requires !r.quoted && r.cell == "" && Writable(c) && !StartsQuote(rest)
    ensures Scan(WrittenCell(c) + rest, r) == Scan(rest, r.(cell := c.text))
  {
    if c.style == Quoted {
      assert (WrittenCell(c) + rest)[1..] == Doubled(c.text) + "\"" + rest;
      DoubledReadsBack(c.text, rest, r.(quoted := true));
      assert r.cell + c.text == c.text;
    } else {
      PlainReadsBack(c.text, rest, r);
      assert r.cell + c.text == c.text;
    }
  }

  lemma CommaEndsCell(rest: string, r: Reader)
    requires !r.quoted
    ensures Scan("," + rest, r) == Scan(rest, r.(row := r.row + [r.cell], cell := ""))
  {
    assert ("," + rest)[1..] == rest;
  }

  lemma OneCell(row: seq<Cell>)
    requires |row| == 1
    ensures WrittenRow(row) == WrittenCell(row[0])
  {
    hide WrittenCell;
  }

  lemma NoTexts(row: seq<Cell>)
    requires row == []
    ensures Texts(row) == []
  {
  }

  lemma TextsSplit(row: seq<Cell>)
    requires row != []
    ensures Texts(row) == [row[0].text] + Texts(row[1..])
            && Texts(row) == Texts(row[..|row| - 1]) + [row[|row| - 1].text]
  {
  }

  /** After a row's text the reader holds all its cells but the last one in the row, and the last one in the cell. */
  lemma {:induction false} RowReadsBack(row: seq<Cell>, rest: string, r: Reader)
    requires row != [] && !r.quoted && r.cell == "" && !StartsQuote(rest)
    requires forall i | 0 <= i < |row| :: Writable(row[i])
    ensures Scan(WrittenRow(row) + rest, r)
            == Scan(rest, r.(row := r.row + Texts(row[..|row| - 1]), cell := row[|row| - 1].text))
  {
    hide Scan, Writable, WrittenCell, WrittenRow, Texts;
    if |row| == 1 {
      OneCell(row);
      CellReadsBack(row[0], rest, r);
      NoTexts(row[..0]);
      assert r.row + [] == r.row;
    } else {
      CellThenRow(row, rest, r);
      RowReadsBack(row[1..], rest, r.(row := r.row + [row[0].text]));
      FrontTexts(row);
      var first, later := [row[0].text], Texts(row[1..][..|row| - 2]);
      assert r.row + first + later == r.row + (first + later);
    }
  }

  /** The reader is past the first of several cells and its comma. */
  lemma CellThenRow(row: seq<Cell>, rest: string, r: Reader)
    requires |row| > 1 && !r.quoted && r.cell == "" && Writable(row[0])
    ensures Scan(WrittenRow(row) + rest, r) == Scan(WrittenRow(row[1..]) + rest, r.(row := r.row + [row[0].text]))
  {
    hide Scan, Writable, WrittenCell;
    var more := WrittenRow(row[1..]) + rest;
    assert WrittenRow(row) + rest == WrittenCell(row[0]) + ("," + more);
    CellReadsBack(row[0], "," + more, r);
    CommaEndsCell(more, r.(cell := row[0].text));
  }

  lemma FrontTexts(row: seq<Cell>)
    requires |row| > 1
    ensures Texts(row[..|row| - 1]) == [row[0].text] + Texts(row[1..][..|row| - 2])
  {
    var front := row[..|row| - 1];
    TextsSplit(front);
    assert row[1..][..|row| - 2] == front[1..];
  }

  lemma LineFeedEndsRow(rest: string, r: Reader)
    requires !r.quoted
    ensures Scan("\n" + rest, r) == Scan(rest, Reader(r.rows + [r.row + [r.cell]], [], "", false))
  {
    assert ("\n" + rest)[1..] == rest;
  }

  lemma CarriageReturnPassed(rest: string, r: Reader)
    requires !r.quoted
    ensures Scan("\r" + rest, r) == Scan(rest, r)
  {
    assert ("\r" + rest)[1..] == rest;
  }

  lemma BreakEndsRow(b: Break, rest: string, r: Reader)
    requires !r.quoted
    ensures Scan(BreakText(b) + rest, r) == Scan(rest, Reader(r.rows + [r.row + [r.cell]], [], "", false))
  {
    hide Scan;
    LineFeedEndsRow(rest, r);
    CarriageReturnPassed("\n" + rest, r);
    assert "\r\n" + rest == "\r" + ("\n" + rest);
  }

  lemma {:induction false} LinesReadBack(lines: seq<Line>, rest: string, rows: seq<Row>)
    requires AllWritable(lines)
    ensures Scan(Written(lines) + rest, Reader(rows, [], "", false))
            == Scan(rest, Reader(rows + RowTexts(lines), [], "", false))
  {
    hide Scan, Texts, WrittenRow, Writable, BreakText;
    if lines == [] {
      assert Written(lines) + rest == rest && rows + RowTexts(lines) == rows;
    } else {
      LineReadsBack(lines[0], Written(lines[1..]) + rest, rows);
      assert Written(lines) + rest
             == WrittenRow(lines[0].cells) + (BreakText(lines[0].ending) + (Written(lines[1..]) + rest));
      LinesReadBack(lines[1..], rest, rows + [Texts(lines[0].cells)]);
      assert rows + [Texts(lines[0].cells)] + RowTexts(lines[1..]) == rows + RowTexts(lines);
    }
  }

  lemma LineReadsBack(line: Line, rest: string, rows: seq<Row>)
    requires WritableLine(line)
    ensures Scan(WrittenRow(line.cells) + (BreakText(line.ending) + rest), Reader(rows, [], "", false))
         == Scan(rest, Reader(rows + [Texts(line.cells)], [], "", false))
  {
    var cells := line.cells;
    var front, last := Texts(cells[..|cells| - 1]), cells[|cells| - 1].text;
    assert !StartsQuote(BreakText(line.ending) + rest);
    RowReadsBack(cells, BreakText(line.ending) + rest, Reader(rows, [], "", false));
    assert [] + front == front;
    BreakEndsRow(line.ending, rest, Reader(rows, front, last, false));
    TextsSplit(cells);
  }

  /** A text is read from its start, with or without a byte order mark in front of it. */
  predicate Prefixed(input: string, text: string) {
    input == [BOM] + text || (input == text && !(text != "" && text[0] == BOM))
  }

  /** The written rows open with the very character of a byte order mark: a bare first cell begins with it. */
  predicate OpensWithMark(lines: seq<Line>) {
    && lines != [] && lines[0].cells != [] && lines[0].cells[0].style == Bare
    && lines[0].cells[0].text != "" && lines[0].cells[0].text[0] == BOM
  }

  /** That character taken for a byte order mark. */
  function MarkTaken(lines: seq<Line>): (taken: seq<Line>)
    requires OpensWithMark(lines)
    ensures |taken| == |lines| && (AllWritable(lines) ==> AllWritable(taken))
  {
    var first := lines[0].cells;
    [lines[0].(cells := [first[0].(text := first[0].text[1..])] + first[1..])] + lines[1..]
  }

  /** The other cells of a row, each with its comma. */
  function OtherCells(cells: seq<Cell>): string {
    if cells == [] then "" else "," + WrittenRow(cells)
  }

  /** What is written behind the first cell. */
  function AfterFirst(cells: seq<Cell>, ending: Break, later: seq<Line>): (tail: string)
    requires AllWritable(later)
    ensures tail != "" && (tail[0] == ',' || tail[0] == '\n' || tail[0] == '\r')
  {
    OtherCells(cells) + (BreakText(ending) + Written(later))
  }

  lemma FirstCellApart(cells: seq<Cell>)
    requires cells != []
    ensures WrittenRow(cells) == WrittenCell(cells[0]) + OtherCells(cells[1..])
  {
    hide WrittenCell;
  }

  lemma Regrouped(cell: string, others: string, ending: string, later: string)
    ensures cell + others + ending + later == cell + (others + (ending + later))
  {
  }

  lemma FirstApart(lines: seq<Line>)
    requires AllWritable(lines) && lines != []
    ensures lines[0].cells != []
    ensures Written(lines)
            == WrittenCell(lines[0].cells[0]) + AfterFirst(lines[0].cells[1..], lines[0].ending, lines[1..])
  {
    hide WrittenCell, BreakText, Written, WrittenRow, OtherCells;
    assert WritableLine(lines[0]);
    FirstLine(lines);
    FirstCellApart(lines[0].cells);
    Regrouped(WrittenCell(lines[0].cells[0]), OtherCells(lines[0].cells[1..]), BreakText(lines[0].ending),
              Written(lines[1..]));
  }

  lemma FirstLine(lines: seq<Line>)
    requires AllWritable(lines) && lines != [] && lines[0].cells != []
    ensures Written(lines) == WrittenRow(lines[0].cells) + BreakText(lines[0].ending) + Written(lines[1..])
  {
    hide WrittenRow, BreakText;
  }

  lemma OpeningCharacter(lines: seq<Line>)
    requires AllWritable(lines)
    ensures OpensWithMark(lines) <==> Written(lines) != "" && Written(lines)[0] == BOM
  {
    hide AfterFirst, AllWritable, WrittenRow, WritableLine;
    if lines != [] { FirstApart(lines); }
  }

  lemma WrittenWithMarkTaken(lines: seq<Line>)
    requires AllWritable(lines) && OpensWithMark(lines)
    ensures Written(lines)[1..] == Written(MarkTaken(lines))
  {
    hide AfterFirst, AllWritable, Written, WrittenRow, WritableLine;
    FirstApart(lines);
    FirstApart(MarkTaken(lines));
    assert MarkTaken(lines)[0].cells[1..] == lines[0].cells[1..] && MarkTaken(lines)[1..] == lines[1..];
  }

  /**
   Writing any rows, each cell quoted or bare and each row ended by either line break, and reading them gives the rows
   back: behind a byte order mark always, without one except for a bare first cell that begins with that character.
   */
  lemma RoundTrip(lines: seq<Line>)
    requires AllWritable(lines)
    ensures Parsed([BOM] + Written(lines)) == RowTexts(lines)
    ensures Parsed(Written(lines)) == RowTexts(if OpensWithMark(lines) then MarkTaken(lines) else lines)
  {
    ReadsBack(lines, [BOM] + Written(lines));
    OpeningCharacter(lines);
    if OpensWithMark(lines) {
      WrittenWithMarkTaken(lines);
      var taken := MarkTaken(lines);
      assert WithoutBom(Written(lines)) == Written(taken) == WithoutBom([BOM] + Written(taken));
      ReadsBack(taken, [BOM] + Written(taken));
    } else {
      ReadsBack(lines, Written(lines));
    }
  }

  /** So rows written without a mark come back exactly if they do not open with its character. */
  lemma UnmarkedExactly(lines: seq<Line>)
    requires AllWritable(lines)
    ensures Parsed(Written(lines)) == RowTexts(lines) <==> !OpensWithMark(lines)
  {
    hide Parsed, Written;
    RoundTrip(lines);
    if OpensWithMark(lines) {
      assert RowTexts(lines)[0][0] == lines[0].cells[0].text;
      assert RowTexts(MarkTaken(lines))[0][0] == lines[0].cells[0].text[1..];
    }
  }

  lemma ReadsBack(lines: seq<Line>, input: string)
    requires AllWritable(lines) && Prefixed(input, Written(lines))
    ensures Parsed(input) == RowTexts(lines)
  {
    assert WithoutBom(input) == Written(lines) + "";
    LinesReadBack(lines, "", []);
    assert [] + RowTexts(lines) == RowTexts(lines);
  }

  /** A last row without a line break is read as well, except a single empty cell, which is lost. */
  lemma LastRowWithoutBreak(lines: seq<Line>, last: seq<Cell>, input: string)
    requires AllWritable(lines) && last != [] && forall i | 0 <= i < |last| :: Writable(last[i])
    requires Prefixed(input, Written(lines) + WrittenRow(last))
    ensures Parsed(input) == RowTexts(lines) + (if Texts(last) == [""] then [] else [Texts(last)])
  {
    hide Scan, Written, WrittenRow, AllWritable, Writable, Texts, RowTexts;
    assert WithoutBom(input) == Written(lines) + WrittenRow(last);
    LinesReadBack(lines, WrittenRow(last), []);
    assert [] + RowTexts(lines) == RowTexts(lines);
    RowReadsBack(last, "", Reader(RowTexts(lines), [], "", false));
    assert WrittenRow(last) + "" == WrittenRow(last);
    var front, cell := Texts(last[..|last| - 1]), last[|last| - 1].text;
    assert [] + front == front;
    TextsSplit(last);
    EndOfText(Reader(RowTexts(lines), front, cell, false));
    assert Texts(last) == front + [cell];
    if front == [] { assert Texts(last)[0] == cell; } else { assert |Texts(last)| > 1; }
  }

  lemma EndOfText(r: Reader)
    ensures Scan("", r) == r
  {
  }
}
