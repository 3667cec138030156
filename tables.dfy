/**
 * Table rendering (tables.py): a datasheet is a sequence of rows of cell
 * texts whose first row is the header. It renders as one `<table>` holding
 * a `<tr>` of `<th>` cells for the header, then a `<tr>` of `<td>` cells for
 * each further row. The `Table` component renders its class-level
 * `table_data` when it is constructed.
 *
 * A one-slot template such as `'<td>{}</td>'` is the text before and the
 * text after its `{}`; `format` puts its argument verbatim in between.
 * The partner of the renderer is a decoder, which reads the datasheet back
 * out of the markup when no cell contains `<`.
 */
module Tables {
  import opened Common
  import Text
  import Apps

  type Row = seq<string>
  type Datasheet = seq<Row>

  /** A template with one `{}` slot: the text before the slot and the text after it. */
  datatype Template = Template(open: string, close: string)

  const TABLE := Template("<table>", "</table>")
  const TH := Template("<th>", "</th>")
  const TD := Template("<td>", "</td>")
  const TR := Template("<tr>", "</tr>")

  /** The text Python gives when `headers, *rows = data` finds no header row. */
  const UnpackMessage := "not enough values to unpack (expected at least 1, got 0)"
  /** The text of the ValueError a Table without `table_data` raises. */
  const MissingDataMessage := "`table_data` param is missing"

  /** `template.format(x)`. */
  function Fill(t: Template, x: string): string
  {
    t.open + x + t.close
  }

  /** `tr(items)`: the concatenation of the items, in order, inside one `<tr>`. */
  function Tr(items: seq<string>): string
  {
    Fill(TR, Text.Concat(items))
  }

  /** One cell per item of the row, in order, each filled into the cell template. */
  function Cells(t: Template, row: Row): seq<string>
  {
    seq(|row|, k requires 0 <= k < |row| => Fill(t, row[k]))
  }

  /** A row as one `<tr>` of cells. */
  function RowHtml(t: Template, row: Row): string
  {
    Tr(Cells(t, row))
  }

  /** The `<td>` rows, in order. */
  function BodyRows(rows: seq<Row>): seq<string>
  {
    seq(|rows|, k requires 0 <= k < |rows| => RowHtml(TD, rows[k]))
  }

  /** What `render_table` returns for a datasheet with a header row. */
  function TableHtml(data: Datasheet): string
    requires |data| > 0
  {
    Fill(TABLE, RowHtml(TH, data[0]) + Text.Concat(BodyRows(data[1..])))
  }

  /**
   * `render_table`: ValueError when there is no header row to unpack;
   * otherwise the header row, then each further row appended in a loop,
   * all inside one table.
   */
  method RenderTable(data: Datasheet) returns (r: Result<string, Exception>)
    ensures r.Failure? <==> |data| == 0
    ensures r.Failure? ==> r.error == ValueError(UnpackMessage)
    ensures r.Success? ==> r.value == TableHtml(data)
  {
    if |data| == 0 {
      return Failure(ValueError(UnpackMessage));
    }
    var headers, rows := data[0], data[1..];
    var htmlHeaders := Tr(Cells(TH, headers));
    var htmlItems := "";
    var i := 0;
    while i < |rows|
      invariant 0 <= i <= |rows|
      invariant htmlItems == Text.Concat(BodyRows(rows[..i]))
    {
      Text.ConcatSnoc(BodyRows(rows[..i]), RowHtml(TD, rows[i]));
      assert BodyRows(rows[..i + 1]) == BodyRows(rows[..i]) + [RowHtml(TD, rows[i])];
      htmlItems := htmlItems + Tr(Cells(TD, rows[i]));
      i := i + 1;
    }
    assert rows[..i] == rows;
    r := Success(Fill(TABLE, htmlHeaders + htmlItems));
  }

  /**
   * `Table.__init__` for a component class with the given `table_data`:
   * ValueError when it is missing, the rendering error when it is empty,
   * otherwise an instance whose html is the rendered table.
   */
  method NewTable(cls: Apps.ComponentClass, tableData: Option<Datasheet>) returns (r: Result<Apps.Component, Exception>)
    ensures tableData.None? ==> r == Failure(ValueError(MissingDataMessage))
    ensures tableData == Some([]) ==> r == Failure(ValueError(UnpackMessage))
    ensures tableData.Some? && |tableData.value| > 0 ==>
              r == Success(Apps.Component(cls.name, TableHtml(tableData.value), cls.defaults))
  {
    // `super().__init__()` builds the variables from the class defaults.
    var vars := cls.defaults;
    if tableData.None? {
      return Failure(ValueError(MissingDataMessage));
    }
    var html := RenderTable(tableData.value);
    match html
    case Failure(e) => r := Failure(e);
    case Success(h) => r := Success(Apps.Component(cls.name, h, vars));
  }

  // ---------------------------------------------------------------------
  // Reading a datasheet back out of the markup

  predicate StartsWith(s: string, p: string)
  {
    |p| <= |s| && s[..|p|] == p
  }

  /**
   * An opening and a closing tag as the templates have them: both start
   * with `<`, and only the closing one has `/` next.
   */
  predicate TagPair(t: Template)
  {
    && |t.open| >= 2 && t.open[0] == '<' && t.open[1] != '/'
    && |t.close| >= 2 && t.close[0] == '<' && t.close[1] == '/'
  }

  /** No cell text of the row holds a `<`, so the next `<` after a cell's opening tag starts its closing tag. */
  predicate PlainRow(row: Row)
  {
    |row| == 0 || ('<' !in row[0] && PlainRow(row[1..]))
  }

  /** Every row of the datasheet is plain. */
  predicate PlainCells(data: Datasheet)
  {
    forall r :: 0 <= r < |data| ==> PlainRow(data[r])
  }

  /** The cells of template `t` at the front of `s`, and the text after them. */
  function DecodeCells(t: Template, s: string): (r: (seq<string>, string))
    requires TagPair(t)
    ensures |r.1| <= |s|
    decreases |s|
  {
    if !StartsWith(s, t.open) then ([], s)
    else
      var body := s[|t.open|..];
      match Text.FirstIndex(body, '<')
      case None => ([], s)
      case Some(i) =>
        if !StartsWith(body[i..], t.close) then ([], s)
        else
          var next := DecodeCells(t, body[i..][|t.close|..]);
          ([body[..i]] + next.0, next.1)
  }

  /** A `<tr>` of `t` cells at the front of `s`, and the text after it. */
  function DecodeRow(t: Template, s: string): (r: Option<(Row, string)>)
    requires TagPair(t)
    ensures r.Some? ==> |r.value.1| < |s|
  {
    if !StartsWith(s, TR.open) then None
    else
      var cells := DecodeCells(t, s[|TR.open|..]);
      if StartsWith(cells.1, TR.close) then Some((cells.0, cells.1[|TR.close|..])) else None
  }

  /** The `<td>` rows making up all of `s`. */
  function DecodeRows(s: string): Option<seq<Row>>
    decreases |s|
  {
    if s == "" then Some([])
    else
      match DecodeRow(TD, s)
      case None => None
      case Some((row, rest)) =>
        match DecodeRows(rest)
        case None => None
        case Some(rows) => Some([row] + rows)
  }

  /** The datasheet a rendered table holds: a header row of `<th>` cells, then `<td>` rows. */
  function DecodeTable(s: string): Option<Datasheet>
  {
    if !StartsWith(s, TABLE.open) || |s| < |TABLE.open| + |TABLE.close| || s[|s| - |TABLE.close|..] != TABLE.close then None
    else
      match DecodeRow(TH, s[|TABLE.open|..|s| - |TABLE.close|])
      case None => None
      case Some((headers, rest)) =>
        match DecodeRows(rest)
        case None => None
        case Some(rows) => Some([headers] + rows)
  }

  lemma {:induction false} TemplatesAreTagPairs()
    ensures TagPair(TH) && TagPair(TD) && TagPair(TR) && TagPair(TABLE)
  {
  }

  /** Text that starts with a closing tag does not start with an opening one. */
  lemma {:induction false} CloseIsNotOpen(open: Template, close: Template, rest: string)
    requires TagPair(open) && TagPair(close)
    ensures !StartsWith(close.close + rest, open.open)
  {
    assert (close.close + rest)[1] == '/';
  }

  /** A text starts with any prefix it was built from, and what follows the prefix is the rest. */
  lemma {:induction false} PrefixSplit(p: string, rest: string)
    ensures StartsWith(p + rest, p) && (p + rest)[|p|..] == rest
  {
    assert (p + rest)[..|p|] == p;
  }

  /** In a cell's text followed by a closing tag, the first `<` is where the tag starts. */
  lemma {:induction false} CellEnd(t: Template, cell: string, tail: string)
    requires TagPair(t) && '<' !in cell
    ensures Text.FirstIndex(cell + t.close + tail, '<') == Some(|cell|)
    ensures (cell + t.close + tail)[..|cell|] == cell
    ensures (cell + t.close + tail)[|cell|..] == t.close + tail
  {
    var body := cell + t.close + tail;
    assert body == cell + ['<'] + (t.close[1..] + tail) by {
      assert t.close == ['<'] + t.close[1..];
    }
    Text.FirstIndexOfConcat(cell, '<', t.close[1..] + tail);
  }

  /** One cell at the front: its text is read up to the closing tag, and decoding goes on after it. */
  lemma {:induction false} DecodeCellsStep(t: Template, cell: string, tail: string)
    requires TagPair(t) && '<' !in cell
    ensures DecodeCells(t, Fill(t, cell) + tail) == ([cell] + DecodeCells(t, tail).0, DecodeCells(t, tail).1)
  {
    var body := cell + t.close + tail;
    var s := Fill(t, cell) + tail;
    assert s == t.open + body;
    PrefixSplit(t.open, body);
    assert StartsWith(s, t.open) && s[|t.open|..] == body;
    CellEnd(t, cell, tail);
    PrefixSplit(t.close, tail);
    assert StartsWith(body[|cell|..], t.close);
    assert body[|cell|..][|t.close|..] == tail;
  }

  /** The cells of a row taken apart at the first one. */
  lemma {:induction false} CellsFront(t: Template, row: Row)
    requires |row| > 0
    ensures Text.Concat(Cells(t, row)) == Fill(t, row[0]) + Text.Concat(Cells(t, row[1..]))
  {
    var cells := Cells(t, row);
    Text.ConcatFront(cells);
    assert cells[1..] == Cells(t, row[1..]);
  }

  /** Four texts joined in order, grouped from the right. */
  lemma {:induction false} GroupRight(a: string, b: string, c: string, d: string)
    ensures a + b + c + d == a + (b + (c + d))
  {
  }

  /** The cells' text built from the front, as the decoder reads it, in front of `rest`. */
  function CellsOn(t: Template, row: Row, rest: string): string
  {
    if |row| == 0 then rest else Fill(t, row[0]) + CellsOn(t, row[1..], rest)
  }

  lemma {:induction false} CellsOnIsConcat(t: Template, row: Row, rest: string)
    ensures CellsOn(t, row, rest) == Text.Concat(Cells(t, row)) + rest
    decreases |row|
  {
    if |row| == 0 {
      assert Cells(t, row) == [];
    } else {
      var text := Text.Concat(Cells(t, row[1..]));
      CellsFront(t, row);
      CellsOnIsConcat(t, row[1..], rest);
      GroupRight(Fill(t, row[0]), text, rest, "");
    }
  }

  lemma {:induction false} DecodeCellsOfCells(t: Template, row: Row, rest: string)
    requires TagPair(t) && PlainRow(row)
    requires !StartsWith(rest, t.open)
    ensures DecodeCells(t, CellsOn(t, row, rest)) == (row, rest)
    decreases |row|
  {
    if |row| > 0 {
      DecodeCellsOfCells(t, row[1..], rest);
      DecodeCellsStep(t, row[0], CellsOn(t, row[1..], rest));
      assert [row[0]] + row[1..] == row;
    }
  }

  /** A `<tr>` whose content decodes to the row, up to its closing tag, decodes to that row. */
  lemma {:induction false} DecodeRowOfText(t: Template, text: string, row: Row, rest: string)
    requires TagPair(t)
    requires DecodeCells(t, text + (TR.close + rest)) == (row, TR.close + rest)
    ensures DecodeRow(t, TR.open + (text + (TR.close + rest))) == Some((row, rest))
  {
    PrefixSplit(TR.open, text + (TR.close + rest));
    PrefixSplit(TR.close, rest);
  }

  lemma {:induction false} DecodeRowOfRow(t: Template, row: Row, rest: string)
    requires TagPair(t) && PlainRow(row)
    ensures DecodeRow(t, RowHtml(t, row) + rest) == Some((row, rest))
  {
    TemplatesAreTagPairs();
    var text := Text.Concat(Cells(t, row));
    CellsOnIsConcat(t, row, TR.close + rest);
    CloseIsNotOpen(t, TR, rest);
    DecodeCellsOfCells(t, row, TR.close + rest);
    DecodeRowOfText(t, text, row, rest);
    GroupRight(TR.open, text, TR.close, rest);
  }

  /** Dropping the first row keeps the cells free of `<`. */
  lemma {:induction false} PlainCellsTail(data: Datasheet)
    requires |data| > 0 && PlainCells(data)
    ensures PlainCells(data[1..])
  {
    forall r | 0 <= r < |data[1..]| ensures PlainRow(data[1..][r]) {
      assert data[1..][r] == data[r + 1];
    }
  }

  /** The body rows' text built from the front, as the decoder reads it. */
  function BodyText(rows: seq<Row>): string
  {
    if |rows| == 0 then "" else RowHtml(TD, rows[0]) + BodyText(rows[1..])
  }

  lemma {:induction false} BodyTextIsConcat(rows: seq<Row>)
    ensures BodyText(rows) == Text.Concat(BodyRows(rows))
    decreases |rows|
  {
    if |rows| == 0 {
      assert BodyRows(rows) == [];
    } else {
      var html := BodyRows(rows);
      Text.ConcatFront(html);
      assert html[1..] == BodyRows(rows[1..]);
      BodyTextIsConcat(rows[1..]);
    }
  }

  lemma {:induction false} DecodeRowsOfRows(rows: seq<Row>)
    requires PlainCells(rows)
    ensures DecodeRows(BodyText(rows)) == Some(rows)
    decreases |rows|
  {
    if |rows| > 0 {
      TemplatesAreTagPairs();
      var rest := BodyText(rows[1..]);
      DecodeRowOfRow(TD, rows[0], rest);
      assert BodyText(rows) != "" by {
        assert |RowHtml(TD, rows[0])| >= |TR.open|;
      }
      PlainCellsTail(rows);
      DecodeRowsOfRows(rows[1..]);
      assert [rows[0]] + rows[1..] == rows;
    }
  }

  /** Text wrapped between an opening and a closing tag, taken apart again. */
  lemma {:induction false} Unwrap(open: string, inner: string, close: string)
    ensures var s := open + inner + close;
            && StartsWith(s, open) && |s| >= |open| + |close|
            && s[|s| - |close|..] == close && s[|open|..|s| - |close|] == inner
  {
    var s := open + inner + close;
    assert s[..|open|] == open;
  }

  /**
   * The rendering is lossless: the table holds the header row as `<th>`
   * cells and every further row as `<td>` cells, all in order, and reading
   * it back gives the datasheet, provided no cell text contains `<`.
   */
  /** A table whose inner text is a decodable header row followed by decodable body rows. */
  lemma {:induction false} DecodeTableOfInner(inner: string, headers: Row, rest: string, rows: seq<Row>)
    requires DecodeRow(TH, inner) == Some((headers, rest))
    requires DecodeRows(rest) == Some(rows)
    ensures DecodeTable(Fill(TABLE, inner)) == Some([headers] + rows)
  {
    Unwrap(TABLE.open, inner, TABLE.close);
  }

  lemma {:induction false} DecodeTableOfTable(data: Datasheet)
    requires |data| > 0 && PlainCells(data)
    ensures DecodeTable(TableHtml(data)) == Some(data)
  {
    TemplatesAreTagPairs();
    var body := Text.Concat(BodyRows(data[1..]));
    DecodeRowOfRow(TH, data[0], body);
    PlainCellsTail(data);
    BodyTextIsConcat(data[1..]);
    DecodeRowsOfRows(data[1..]);
    DecodeTableOfInner(RowHtml(TH, data[0]) + body, data[0], body, data[1..]);
    assert [data[0]] + data[1..] == data;
  }

  /** A datasheet holding only a header row renders as that row alone inside the table. */
  lemma {:induction false} HeaderOnly(headers: Row)
    ensures TableHtml([headers]) == TABLE.open + RowHtml(TH, headers) + TABLE.close
  {
    assert [headers][1..] == [];
    assert BodyRows([]) == [];
  }
}
