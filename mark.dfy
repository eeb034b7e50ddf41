/**
  The lyrics markup renderer (db/mark.go).  Raw lyrics are split into
  lines; each line is tokenized and run through a small tag state machine
  (`|color|` opens a coloured span, `{note}` collects a side note), giving
  one table row per line; rows are laid out in columns and written as an
  HTML table.
*/
module Mark {

  /**
    A token of one lyrics line as the scanner delivers it: a word with a flag
    saying whether the next character is a space, or one of the tag
    characters `|`, `{`, `}`.
  */
  datatype Token = Word(text: string, spaceAfter: bool) | Bar | LBrace | RBrace

  datatype MarkText = MarkText(textLines: seq<string>)

  // ---------------------------------------------------------------------
  // Line splitting
  // ---------------------------------------------------------------------

  /** End of the line starting at `start`: just past its newline, or the end of `raw`. */
  function LineEnd(raw: string, start: nat): (e: nat)
    requires start < |raw|
    ensures start < e <= |raw|
    decreases |raw| - start
  {
    if raw[start] == '\n' || start == |raw| - 1 then start + 1 else LineEnd(raw, start + 1)
  }

  /** The line holds no newline before its last character, and that one is a newline unless the text ends there. */
  lemma {:induction false} LineEndShape(raw: string, start: nat)
    requires start < |raw|
    ensures NoNewline(raw, start, LineEnd(raw, start) - 1)
    ensures raw[LineEnd(raw, start) - 1] == '\n' || LineEnd(raw, start) == |raw|
    decreases |raw| - start
  {
    if !(raw[start] == '\n' || start == |raw| - 1) {
      LineEndShape(raw, start + 1);
    }
  }

  /** The lines of `raw` from position `start` on. */
  function LinesFrom(raw: string, start: nat): seq<string>
    requires start <= |raw|
    decreases |raw| - start
  {
    if start == |raw| then [] else var e := LineEnd(raw, start); [raw[start..e]] + LinesFrom(raw, e)
  }

  /** The newline-terminated lines of `raw`; the last one may lack its newline. */
  function Lines(raw: string): seq<string>
  {
    LinesFrom(raw, 0)
  }

  function Join(ls: seq<string>): string
  {
    if ls == [] then [] else ls[0] + Join(ls[1..])
  }

  lemma {:induction false} LinesFromJoin(raw: string, start: nat)
    requires start <= |raw|
    ensures Join(LinesFrom(raw, start)) == raw[start..]
    decreases |raw| - start
  {
    if start < |raw| {
      var e := LineEnd(raw, start);
      LinesFromJoin(raw, e);
      assert raw[start..e] + raw[e..] == raw[start..];
    }
  }

  /** Splitting loses nothing: the lines put back together are the raw text, in order. */
  lemma LinesJoin(raw: string)
    ensures Join(Lines(raw)) == raw
  {
    LinesFromJoin(raw, 0);
  }

  lemma {:induction false} LinesFromShape(raw: string, start: nat)
    requires start <= |raw|
    ensures forall i :: 0 <= i < |LinesFrom(raw, start)| ==> LinesFrom(raw, start)[i] != []
    ensures forall i, j :: 0 <= i < |LinesFrom(raw, start)| && 0 <= j < |LinesFrom(raw, start)[i]| - 1 ==>
      LinesFrom(raw, start)[i][j] != '\n'
    ensures forall i :: 0 <= i < |LinesFrom(raw, start)| - 1 ==>
      LinesFrom(raw, start)[i][|LinesFrom(raw, start)[i]| - 1] == '\n'
    decreases |raw| - start
  {
    if start < |raw| {
      var e := LineEnd(raw, start);
      LinesFromShape(raw, e);
      LineEndShape(raw, start);
      var ls := LinesFrom(raw, start);
      var tail := LinesFrom(raw, e);
      assert ls == [raw[start..e]] + tail;
      if |ls| > 1 {
        assert e < |raw|;
      }
      forall i | 0 <= i < |ls|
        ensures ls[i] != []
        ensures forall j :: 0 <= j < |ls[i]| - 1 ==> ls[i][j] != '\n'
        ensures i < |ls| - 1 ==> ls[i][|ls[i]| - 1] == '\n'
      {
        if i > 0 {
          assert ls[i] == tail[i - 1];
        } else {
          assert ls[0] == raw[start..e];
          assert forall j :: 0 <= j < e - start - 1 ==> ls[0][j] == raw[start + j];
        }
      }
    }
  }

  /**
    Every line is non-empty, holds a newline only as its last character,
    and every line but the last ends with one.
  */
  lemma LinesShape(raw: string)
    ensures forall i :: 0 <= i < |Lines(raw)| ==> Lines(raw)[i] != []
    ensures forall i, j :: 0 <= i < |Lines(raw)| && 0 <= j < |Lines(raw)[i]| - 1 ==> Lines(raw)[i][j] != '\n'
    ensures forall i :: 0 <= i < |Lines(raw)| - 1 ==> Lines(raw)[i][|Lines(raw)[i]| - 1] == '\n'
  {
    LinesFromShape(raw, 0);
  }

  /** The line starting at `start` ends just after position `i` when no newline comes earlier and `i` closes it. */
  lemma {:induction false} LineEndAt(raw: string, start: nat, i: nat)
    requires start <= i < |raw|
    requires forall j :: start <= j < i ==> raw[j] != '\n'
    requires raw[i] == '\n' || i == |raw| - 1
    ensures LineEnd(raw, start) == i + 1
    decreases i - start
  {
    if start < i {
      LineEndAt(raw, start + 1, i);
    }
  }

  /** A newline at `i` closes the line begun at `start`. */
  lemma CloseLine(raw: string, tl: seq<string>, start: nat, i: nat)
    requires start <= i < |raw| && raw[i] == '\n' && NoNewline(raw, start, i)
    requires tl + LinesFrom(raw, start) == Lines(raw)
    ensures (tl + [raw[start..i + 1]]) + LinesFrom(raw, i + 1) == Lines(raw)
  {
    LinesFromStep(raw, start, i);
    assert tl + ([raw[start..i + 1]] + LinesFrom(raw, i + 1)) == (tl + [raw[start..i + 1]]) + LinesFrom(raw, i + 1);
  }

  /** At the end of the text the rest, if any, is the last line. */
  lemma CloseLast(raw: string, tl: seq<string>, start: nat)
    requires start <= |raw| && NoNewline(raw, start, |raw|)
    requires tl + LinesFrom(raw, start) == Lines(raw)
    ensures start < |raw| ==> tl + [raw[start..]] == Lines(raw)
    ensures start == |raw| ==> tl == Lines(raw)
  {
    if start < |raw| {
      LinesFromStep(raw, start, |raw| - 1);
      assert raw[start..|raw|] == raw[start..];
    } else {
      assert tl + [] == tl;
    }
  }

  /** No newline in `raw[start..i]`. */
  predicate NoNewline(raw: string, start: nat, i: nat)
    requires start <= i <= |raw|
  {
    forall j :: start <= j < i ==> raw[j] != '\n'
  }

  /** One line closed at `i`: the lines from `start` are that line followed by the lines after it. */
  lemma LinesFromStep(raw: string, start: nat, i: nat)
    requires start <= i < |raw|
    requires NoNewline(raw, start, i)
    requires raw[i] == '\n' || i == |raw| - 1
    ensures LinesFrom(raw, start) == [raw[start..i + 1]] + LinesFrom(raw, i + 1)
  {
    LineEndAt(raw, start, i);
  }

  /** Splits raw lyrics into lines, scanning for newlines. */
  method NewMarkText(raw: string) returns (m: MarkText)
    ensures m.textLines == Lines(raw)
  {
    var tl: seq<string> := [];
    var start := 0;
    var i := 0;
    while i < |raw|
      invariant 0 <= start <= i <= |raw|
      invariant NoNewline(raw, start, i)
      invariant tl + LinesFrom(raw, start) == Lines(raw)
    {
      if raw[i] == '\n' {
        CloseLine(raw, tl, start, i);
        tl := tl + [raw[start..i + 1]];
        start := i + 1;
      }
      i := i + 1;
    }
    CloseLast(raw, tl, start);
    if start < |raw| {
      tl := tl + [raw[start..]];
    }
    m := MarkText(tl);
  }

  // ---------------------------------------------------------------------
  // The tag state machine for one line
  // ---------------------------------------------------------------------

  datatype TagState = Text | Color | Note | ColorText

  /** What the renderer accumulates while it reads the tokens of one line. */
  datatype LineAcc = LineAcc(state: TagState, openSpan: bool, rowText: string, note: string)

  datatype Row = Row(text: string, notes: string)

  function Space(sp: bool): string
  {
    if sp then " " else ""
  }

  function SpanOpen(cls: string): string
  {
    "<span class='" + cls + "'>"
  }

  const RowStart := "<td class='lyrics'>"

  /** One token: tags move the state, words go to the row, the note or a span's class. */
  function Step(a: LineAcc, t: Token): LineAcc
  {
    match t
    case Bar =>
      (match a.state
       case ColorText =>
         LineAcc(Color, false, if a.openSpan then a.rowText + "</span>" else a.rowText, a.note)
       case Text => a.(state := Color)
       case Color => a.(state := ColorText)
       case Note => a)
    case LBrace => a.(state := Note)
    case RBrace => a.(state := Text)
    case Word(w, sp) =>
      (match a.state
       case Text => a.(rowText := a.rowText + w + Space(sp))
       case ColorText => a.(rowText := a.rowText + w + Space(sp))
       case Note => a.(note := a.note + w + Space(sp))
       case Color => a.(rowText := a.rowText + SpanOpen(w), openSpan := true))
  }

  function Scan(a: LineAcc, toks: seq<Token>): LineAcc
  {
    if toks == [] then a else Step(Scan(a, toks[..|toks| - 1]), toks[|toks| - 1])
  }

  /** The row a line becomes, and the tag state it leaves for the next line. */
  function RenderLine(st: TagState, toks: seq<Token>): (Row, TagState)
  {
    var a := Scan(LineAcc(st, false, RowStart, ""), toks);
    (Row((if a.openSpan then a.rowText + "<span>" else a.rowText) + "&nbsp;</td>\n",
         "<td class='note'>" + a.note + "</td>\n"),
     a.state)
  }

  /** Rows of all lines, the tag state carried from each line to the next. */
  function RenderAll(st: TagState, lines: seq<seq<Token>>): (r: (seq<Row>, TagState))
    ensures |r.0| == |lines|
  {
    if lines == [] then ([], st)
    else
      var prev := RenderAll(st, lines[..|lines| - 1]);
      var line := RenderLine(prev.1, lines[|lines| - 1]);
      (prev.0 + [line.0], line.1)
  }

  // ---------------------------------------------------------------------
  // Column layout and table output
  // ---------------------------------------------------------------------

  /** A row count of zero means "split the lines over two columns". */
  function RowsPerCol(requested: int, lineCount: nat): int
  {
    if requested == 0 then (lineCount + 1) / 2 else requested
  }

  /**
    Rows placed in columns as the renderer does: each row joins the last
    column, and after every `rpc`-th row a new, empty column is opened.
  */
  function Columns(rows: seq<Row>, rpc: int): (cols: seq<seq<Row>>)
    requires rows == [] || rpc != 0
    ensures |cols| >= 1
  {
    if rows == [] then [[]]
    else
      var i := |rows| - 1;
      var cols := Columns(rows[..i], rpc);
      var last := |cols| - 1;
      var placed := cols[last := cols[last] + [rows[i]]];
      if i % rpc == rpc - 1 then placed + [[]] else placed
  }

  /** The cells of table row `r`: each column that has a row `r`, left to right. */
  function Cells(cols: seq<seq<Row>>, r: nat): string
  {
    if cols == [] then ""
    else
      var c := cols[|cols| - 1];
      Cells(cols[..|cols| - 1], r) + (if r < |c| then c[r].text + c[r].notes else "")
  }

  function RowHtml(cols: seq<seq<Row>>, r: nat): string
  {
    "<tr>" + Cells(cols, r) + "</tr>\n"
  }

  function Body(cols: seq<seq<Row>>, n: nat): string
  {
    if n == 0 then "" else Body(cols, n - 1) + RowHtml(cols, n - 1)
  }

  const TableOpen := "<table class='lyrics'>"
  const TableClose := "</table>"

  /** As many table rows as the first column has rows. */
  function Table(cols: seq<seq<Row>>): string
    requires cols != []
  {
    TableOpen + Body(cols, |cols[0]|) + TableClose
  }

  function Tokenized(lines: seq<string>, scan: string -> seq<Token>): (toks: seq<seq<Token>>)
    ensures |toks| == |lines|
  {
    seq(|lines|, i requires 0 <= i < |lines| => scan(lines[i]))
  }

  /** The rendering of a whole text, as a function of its lines. */
  function Pretty(lines: seq<string>, rowsPerCol: int, scan: string -> seq<Token>): string
  {
    var rows := RenderAll(Text, Tokenized(lines, scan)).0;
    Table(Columns(rows, RowsPerCol(rowsPerCol, |lines|)))
  }

  /** The token loop of one line: the tag state machine run imperatively. */
  method ScanLine(state: TagState, lineToks: seq<Token>) returns (row: Row, next: TagState)
    ensures (row, next) == RenderLine(state, lineToks)
  {
    ghost var start := LineAcc(state, false, RowStart, "");
    var st := state;
    var openSpan := false;
    var rowText := RowStart;
    var note := "";
    var k := 0;
    while k < |lineToks|
      invariant 0 <= k <= |lineToks|
      invariant LineAcc(st, openSpan, rowText, note) == Scan(start, lineToks[..k])
      decreases |lineToks| - k
    {
      assert lineToks[..k + 1][..k] == lineToks[..k];
      match lineToks[k] {
        case Bar =>
          if st == ColorText {
            if openSpan {
              rowText := rowText + "</span>";
              openSpan := false;
            }
            st := Color;
          } else if st == Text {
            st := Color;
          } else if st == Color {
            st := ColorText;
          }
        case LBrace =>
          st := Note;
        case RBrace =>
          st := Text;
        case Word(w, sp) =>
          if st == Text || st == ColorText {
            rowText := rowText + w;
            if sp {
              rowText := rowText + " ";
            }
          } else if st == Note {
            note := note + w;
            if sp {
              note := note + " ";
            }
          } else {
            rowText := rowText + SpanOpen(w);
            openSpan := true;
          }
      }
      k := k + 1;
    }
    assert lineToks[..k] == lineToks;
    if openSpan {
      rowText := rowText + "<span>";
      openSpan := false;
    }
    rowText := rowText + "&nbsp;</td>\n";
    note := "<td class='note'>" + note + "</td>\n";
    row := Row(rowText, note);
    next := st;
  }

  /** The inner output loop: the cells of row `r`, column by column. */
  method WriteCells(cols: seq<seq<Row>>, r: nat) returns (cells: string)
    ensures cells == Cells(cols, r)
  {
    cells := "";
    var c := 0;
    while c < |cols|
      invariant 0 <= c <= |cols|
      invariant cells == Cells(cols[..c], r)
    {
      assert cols[..c + 1][..c] == cols[..c];
      if r < |cols[c]| {
        cells := cells + cols[c][r].text + cols[c][r].notes;
      }
      c := c + 1;
    }
    assert cols[..c] == cols;
  }

  /** The outer output loop: one `<tr>` per row of the first column. */
  method WriteTable(cols: seq<seq<Row>>) returns (html: string)
    requires cols != []
    ensures html == Table(cols)
  {
    var body := "";
    var maxRows := |cols[0]|;
    var r := 0;
    while r < maxRows
      invariant 0 <= r <= maxRows
      invariant body == Body(cols, r)
    {
      var cells := WriteCells(cols, r);
      body := body + ("<tr>" + cells + "</tr>\n");
      r := r + 1;
    }
    html := TableOpen + body + TableClose;
  }

  /** Rendering one more line continues from the state the earlier lines left. */
  lemma RenderAllSnoc(st: TagState, lines: seq<seq<Token>>, line: seq<Token>)
    ensures RenderAll(st, lines + [line]) ==
      (RenderAll(st, lines).0 + [RenderLine(RenderAll(st, lines).1, line).0], RenderLine(RenderAll(st, lines).1, line).1)
  {
    assert (lines + [line])[..|lines|] == lines;
  }

  /** Placing one more row puts it in the last column, opening a new column after every `rpc`-th row. */
  lemma ColumnsSnoc(rows: seq<Row>, row: Row, rpc: int)
    requires rpc != 0
    ensures var cols := Columns(rows, rpc);
      var placed := cols[|cols| - 1 := cols[|cols| - 1] + [row]];
      Columns(rows + [row], rpc) == if |rows| % rpc == rpc - 1 then placed + [[]] else placed
  {
    assert (rows + [row])[..|rows|] == rows;
  }

  /** Euclidean division is determined by any quotient and in-range remainder. */
  lemma DivModUnique(x: int, d: int, q: int, r: int)
    requires d > 0 && 0 <= r < d && x == q * d + r
    ensures x / d == q && x % d == r
  {
    var q0, r0 := x / d, x % d;
    assert q0 * d + r0 == x;
    assert (q - q0) * d == r0 - r;
    if q > q0 {
      MulAtLeast(q - q0, d);
    } else if q < q0 {
      MulAtLeast(q0 - q, d);
    }
  }

  lemma {:induction false} MulAtLeast(k: int, d: int)
    requires k >= 1 && d > 0
    ensures k * d >= d
    decreases k
  {
    if k > 1 {
      MulAtLeast(k - 1, d);
      assert k * d == (k - 1) * d + d;
    }
  }

  /** The rows of the columns, column after column. */
  function Flat(cols: seq<seq<Row>>): seq<Row>
  {
    if cols == [] then [] else Flat(cols[..|cols| - 1]) + cols[|cols| - 1]
  }

  /** Columns whose last one holds fewer than `rpc` rows and all others exactly `rpc`. */
  predicate Filled(cols: seq<seq<Row>>, rpc: int)
  {
    cols != [] && (forall c :: 0 <= c < |cols| - 1 ==> |cols[c]| == rpc) && |cols[|cols| - 1]| < rpc
  }

  /**
    The column layout: with `rpc` rows per column the columns hold the rows
    in order, every column but the last holds exactly `rpc` of them and the
    last (possibly empty) one holds the rest, so row `i` is row `i % rpc`
    of column `i / rpc`.
  */
  lemma {:induction false} ColumnsLayout(rows: seq<Row>, rpc: int)
    requires rpc > 0
    ensures Flat(Columns(rows, rpc)) == rows
    ensures Filled(Columns(rows, rpc), rpc)
    ensures |rows| == (|Columns(rows, rpc)| - 1) * rpc + |Columns(rows, rpc)[|Columns(rows, rpc)| - 1]|
  {
    if rows != [] {
      var n := |rows| - 1;
      var prefix := rows[..n];
      ColumnsLayout(prefix, rpc);
      ColumnsSnoc(prefix, rows[n], rpc);
      assert prefix + [rows[n]] == rows;
      var cols := Columns(prefix, rpc);
      var last := |cols| - 1;
      DivModUnique(n, rpc, last, |cols[last]|);
      PlaceRow(cols, rows[n], rpc);
    }
  }

  /** Placing one row keeps the columns filled, adds the row at the end, and opens a new column when the last one fills up. */
  lemma PlaceRow(cols: seq<seq<Row>>, row: Row, rpc: int)
    requires Filled(cols, rpc)
    ensures var last := |cols| - 1;
      var placed := cols[last := cols[last] + [row]];
      var next := if |cols[last]| == rpc - 1 then placed + [[]] else placed;
      && Filled(next, rpc)
      && Flat(next) == Flat(cols) + [row]
      && (|next| - 1) * rpc + |next[|next| - 1]| == (|cols| - 1) * rpc + |cols[last]| + 1
  {
    var last := |cols| - 1;
    var placed := cols[last := cols[last] + [row]];
    FlatPlaceLast(cols, row);
    if |cols[last]| == rpc - 1 {
      assert Flat(placed + [[]]) == Flat(placed) + [];
      assert (|placed| - 1) * rpc + rpc == |placed| * rpc;
    }
  }

  /** Adding a row to the last column adds it at the end of the flattened rows. */
  lemma FlatPlaceLast(cols: seq<seq<Row>>, row: Row)
    requires cols != []
    ensures Flat(cols[|cols| - 1 := cols[|cols| - 1] + [row]]) == Flat(cols) + [row]
  {
    var last := |cols| - 1;
    var placed := cols[last := cols[last] + [row]];
    assert placed[..last] == cols[..last];
  }

  /** The row text and the note are only ever extended while a line is read. */
  lemma {:induction false} ScanExtends(a: LineAcc, toks: seq<Token>)
    ensures a.rowText <= Scan(a, toks).rowText
    ensures a.note <= Scan(a, toks).note
  {
    if toks != [] {
      var b := Scan(a, toks[..|toks| - 1]);
      ScanExtends(a, toks[..|toks| - 1]);
      var c := Step(b, toks[|toks| - 1]);
      assert b.rowText <= c.rowText && b.note <= c.note;
    }
  }

  /** Every row is one lyrics cell and one note cell: fixed opening markup, then the line's text, then fixed closing markup. */
  lemma RenderLineCells(st: TagState, toks: seq<Token>)
    ensures var row := RenderLine(st, toks).0;
      && RowStart <= row.text
      && |row.text| >= |RowStart| + 12 && row.text[|row.text| - 12..] == "&nbsp;</td>\n"
      && row.notes[..17] == "<td class='note'>" && row.notes[|row.notes| - 6..] == "</td>\n"
  {
    var a := Scan(LineAcc(st, false, RowStart, ""), toks);
    ScanExtends(LineAcc(st, false, RowStart, ""), toks);
    var body := if a.openSpan then a.rowText + "<span>" else a.rowText;
    assert RowStart <= body;
    var row := RenderLine(st, toks).0;
    assert row.text == body + "&nbsp;</td>\n";
    assert row.notes == "<td class='note'>" + a.note + "</td>\n";
  }

  /** The tag tokens of a line, in order. */
  function Tags(toks: seq<Token>): (tags: seq<Token>)
    ensures |tags| <= |toks|
    ensures forall i :: 0 <= i < |tags| ==> !tags[i].Word?
  {
    if toks == [] then []
    else
      var t := toks[|toks| - 1];
      Tags(toks[..|toks| - 1]) + (if t.Word? then [] else [t])
  }

  /** Reading the tags alone from the same state ends in the same state as reading the whole line. */
  lemma {:induction false} ScanStateFromTags(a: LineAcc, b: LineAcc, toks: seq<Token>)
    requires a.state == b.state
    ensures Scan(a, toks).state == Scan(b, Tags(toks)).state
  {
    if toks != [] {
      var p := toks[..|toks| - 1];
      var t := toks[|toks| - 1];
      ScanStateFromTags(a, b, p);
      var x := Scan(a, p);
      var y := Scan(b, Tags(p));
      assert Scan(a, toks) == Step(x, t);
      if t.Word? {
        assert Tags(toks) == Tags(p) + [];
        assert Tags(toks) == Tags(p);
        StepWordState(x, t);
      } else {
        var tags := Tags(p) + [t];
        assert Tags(toks) == tags;
        assert tags[..|tags| - 1] == Tags(p);
        assert Scan(b, tags) == Step(y, t);
        StepTagState(x, y, t);
      }
    }
  }

  /** A word never moves the tag state. */
  lemma StepWordState(x: LineAcc, t: Token)
    requires t.Word?
    ensures Step(x, t).state == x.state
  {
  }

  /** What a tag does to the state depends on the state alone. */
  lemma StepTagState(x: LineAcc, y: LineAcc, t: Token)
    requires x.state == y.state && !t.Word?
    ensures Step(x, t).state == Step(y, t).state
  {
  }

  /** The tag state a line leaves for the next line depends only on the line's tags, never on its words. */
  lemma StateFromTags(st: TagState, toks: seq<Token>)
    ensures RenderLine(st, toks).1 == RenderLine(st, Tags(toks)).1
  {
    var a := LineAcc(st, false, RowStart, "");
    ScanStateFromTags(a, a, toks);
  }

  /** Renders the text as an HTML table; `scan` stands for the tokenizer. */
  method PrettyText(m: MarkText, rowsPerCol: int, scan: string -> seq<Token>) returns (html: string)
    ensures html == Pretty(m.textLines, rowsPerCol, scan)
  {
    var lines := m.textLines;
    ghost var toks := Tokenized(lines, scan);
    var cols: seq<seq<Row>> := [[]];
    var state := Text;
    var cidx := 0;
    var rpc := rowsPerCol;
    if rpc == 0 {
      rpc := (|lines| + 1) / 2;
    }
    ghost var rows: seq<Row> := [];
    var i := 0;
    while i < |lines|
      invariant 0 <= i <= |lines|
      invariant (rows, state) == RenderAll(Text, toks[..i])
      invariant i < |lines| ==> rpc != 0
      invariant cols == Columns(rows, rpc)
      invariant cidx == |cols| - 1
    {
      var row, next := ScanLine(state, scan(lines[i]));
      assert (rows + [row], next) == RenderAll(Text, toks[..i + 1]) by {
        assert toks[i] == scan(lines[i]);
        assert toks[..i + 1] == toks[..i] + [toks[i]];
        RenderAllSnoc(Text, toks[..i], toks[i]);
      }
      var placed := cols[cidx := cols[cidx] + [row]];
      assert Columns(rows + [row], rpc) == if i % rpc == rpc - 1 then placed + [[]] else placed by {
        ColumnsSnoc(rows, row, rpc);
      }
      rows := rows + [row];
      state := next;
      cols := placed;
      if i % rpc == rpc - 1 {
        cols := cols + [[]];
        cidx := cidx + 1;
      }
      i := i + 1;
    }
    assert toks[..i] == toks;
    html := WriteTable(cols);
  }
}
