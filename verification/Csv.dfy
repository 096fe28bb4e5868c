/**
 * The CSV reader of src/imports/csv.ts, and a writer in the sense of section 2 of RFC 4180 that it
 * inverts: each cell quoted or, where it has no special character, plain.
 */
module Csv {
  import opened Prelude
  import opened Strings

  const BOM: char := '\U{FEFF}'
  const QUOTE: char := '\"'
  const CR: char := '\r'
  const LF: char := '\n'

  predicate IsDelimiter(c: char) {
    c == ',' || c == ';' || c == '\t'
  }

  predicate IsBreak(c: char) {
    c == CR || c == LF
  }

  predicate IsBlank(cell: string) {
    forall i :: 0 <= i < |cell| ==> IsSpace(cell[i])
  }

  predicate IsBlankRow(row: seq<string>) {
    forall i :: 0 <= i < |row| ==> IsBlank(row[i])
  }

  /** The rows with something in them, in order. */
  function Kept(rows: seq<seq<string>>): seq<seq<string>> {
    if rows == [] then []
    else
      var last := |rows| - 1;
      if IsBlankRow(rows[last]) then Kept(rows[..last]) else Kept(rows[..last]) + [rows[last]]
  }

  // ---------------------------------------------------------------- the reader

  datatype Scanner = Scanner(field: string, row: seq<string>, rows: seq<seq<string>>, inQuotes: bool)

  const Start := Scanner("", [], [], false)

  function EndField(s: Scanner): Scanner {
    s.(row := s.row + [s.field], field := "")
  }

  function EndRow(s: Scanner): Scanner {
    Scanner("", [], s.rows + [s.row + [s.field]], s.inQuotes)
  }

  /** The while loop of parseCsv on what is left of the text. */
  function Scan(text: string, d: char, s: Scanner): Scanner
    decreases |text|
  {
    if text == "" then s
    else
      var ch := text[0];
      if s.inQuotes then
        if ch != QUOTE then Scan(text[1..], d, s.(field := s.field + [ch]))
        else if |text| > 1 && text[1] == QUOTE then Scan(text[2..], d, s.(field := s.field + [QUOTE]))
        else Scan(text[1..], d, s.(inQuotes := false))
      else if ch == QUOTE && s.field == "" then Scan(text[1..], d, s.(inQuotes := true))
      else if ch == d then Scan(text[1..], d, EndField(s))
      else if IsBreak(ch) then Scan(text[BreakLength(text)..], d, EndRow(s))
      else Scan(text[1..], d, s.(field := s.field + [ch]))
  }

  /** CRLF counts as one break. */
  function BreakLength(text: string): (n: nat)
    requires text != "" && IsBreak(text[0])
    ensures 1 <= n <= |text|
  {
    if text[0] == CR && |text| > 1 && text[1] == LF then 2 else 1
  }

  /** What the scan leaves open at the end of the text is closed as a row. */
  function Finished(s: Scanner): seq<seq<string>> {
    if s.field != "" || s.row != [] then EndRow(s).rows else s.rows
  }

  function StripBom(input: string): string {
    if input != "" && input[0] == BOM then input[1..] else input
  }

  function Rows(text: string, d: char): seq<seq<string>> {
    Kept(Finished(Scan(text, d, Start)))
  }

  // ---------------------------------------------------------------- delimiter detection

  function FirstLine(text: string): string {
    if text == "" || IsBreak(text[0]) then "" else [text[0]] + FirstLine(text[1..])
  }

  /** Occurrences of `c` outside quotes. */
  function Outside(line: string, inQuotes: bool, c: char): nat {
    if line == "" then 0
    else if line[0] == QUOTE then Outside(line[1..], !inQuotes, c)
    else Outside(line[1..], inQuotes, c) + if !inQuotes && line[0] == c then 1 else 0
  }

  function Choose(commas: nat, semicolons: nat, tabs: nat): char {
    if semicolons > commas && semicolons >= tabs then ';'
    else if tabs > commas && tabs > semicolons then '\t'
    else ','
  }

  function Detected(text: string): char {
    var line := FirstLine(text);
    Choose(Outside(line, false, ','), Outside(line, false, ';'), Outside(line, false, '\t'))
  }

  // ---------------------------------------------------------------- the source's loops

  method ReadFirstLine(text: string) returns (line: string)
    ensures line == FirstLine(text)
  {
    line := "";
    var i := 0;
    while i < |text| && !IsBreak(text[i])
      invariant 0 <= i <= |text|
      invariant line + FirstLine(text[i..]) == FirstLine(text)
    {
      line := line + [text[i]];
      i := i + 1;
    }
    assert FirstLine(text[i..]) == "";
  }

  method DetectDelimiter(text: string) returns (d: char)
    ensures d == Detected(text)
    ensures IsDelimiter(d)
  {
    var line := ReadFirstLine(text);
    var inQuotes, commas, semicolons, tabs := false, 0, 0, 0;
    var i := 0;
    while i < |line|
      invariant 0 <= i <= |line|
      invariant Outside(line, false, ',') == commas + Outside(line[i..], inQuotes, ',')
      invariant Outside(line, false, ';') == semicolons + Outside(line[i..], inQuotes, ';')
      invariant Outside(line, false, '\t') == tabs + Outside(line[i..], inQuotes, '\t')
    {
      var ch := line[i];
      if ch == QUOTE {
        inQuotes := !inQuotes;
      } else if !inQuotes && ch == ',' {
        commas := commas + 1;
      } else if !inQuotes && ch == ';' {
        semicolons := semicolons + 1;
      } else if !inQuotes && ch == '\t' {
        tabs := tabs + 1;
      }
      i := i + 1;
    }
    d := Choose(commas, semicolons, tabs);
  }

  method ParseCsv(input: string, forced: Option<char>) returns (rows: seq<seq<string>>, delimiter: char)
    ensures delimiter == if forced.Some? then forced.value else Detected(StripBom(input))
    ensures rows == Rows(StripBom(input), delimiter)
  {
    var text := StripBom(input);
    if forced.Some? {
      delimiter := forced.value;
    } else {
      delimiter := DetectDelimiter(text);
    }
    var s, i := Start, 0;
    while i < |text|
      invariant 0 <= i <= |text|
      invariant Scan(text, delimiter, Start) == Scan(text[i..], delimiter, s)
    {
      var ch := text[i];
      assert text[i..][1..] == text[i + 1..];
      if s.inQuotes {
        if ch == QUOTE {
          if i + 1 < |text| && text[i + 1] == QUOTE {
            assert text[i..][2..] == text[i + 2..];
            s, i := s.(field := s.field + [QUOTE]), i + 2;
            continue;
          }
          s, i := s.(inQuotes := false), i + 1;
          continue;
        }
        s, i := s.(field := s.field + [ch]), i + 1;
        continue;
      }
      if ch == QUOTE && s.field == "" {
        s, i := s.(inQuotes := true), i + 1;
        continue;
      }
      if ch == delimiter {
        s, i := EndField(s), i + 1;
        continue;
      }
      if ch == CR || ch == LF {
        var n := if ch == CR && i + 1 < |text| && text[i + 1] == LF then 2 else 1;
        assert text[i..][n..] == text[i + n..];
        s, i := EndRow(s), i + n;
        continue;
      }
      s, i := s.(field := s.field + [ch]), i + 1;
    }
    if s.field != "" || s.row != [] {
      s := EndRow(s);
    }
    rows := Kept(s.rows);
  }

  // ---------------------------------------------------------------- the writer

  datatype Cell = Cell(text: string, quoted: bool)

  datatype Ending = CrLf | Lf | Cr

  function Break(e: Ending): string {
    match e
    case CrLf => [CR, LF]
    case Lf => [LF]
    case Cr => [CR]
  }

  function Doubled(text: string): string {
    if text == "" then ""
    else (if text[0] == QUOTE then [QUOTE, QUOTE] else [text[0]]) + Doubled(text[1..])
  }

  function WriteCell(c: Cell): string {
    if c.quoted then [QUOTE] + Doubled(c.text) + [QUOTE] else c.text
  }

  function WriteRow(cells: seq<Cell>, d: char): string
    requires cells != []
  {
    if |cells| == 1 then WriteCell(cells[0]) else WriteCell(cells[0]) + [d] + WriteRow(cells[1..], d)
  }

  /** All rows, with a break after each; after the last one only if `closed`. */
  function WriteRows(rows: seq<seq<Cell>>, d: char, e: Ending, closed: bool): string
    requires forall r :: 0 <= r < |rows| ==> rows[r] != []
  {
    if rows == [] then ""
    else if |rows| == 1 && !closed then WriteRow(rows[0], d)
    else WriteRow(rows[0], d) + Break(e) + WriteRows(rows[1..], d, e, closed)
  }

  predicate IsPlain(text: string, d: char) {
    forall i :: 0 <= i < |text| ==> text[i] != QUOTE && text[i] != d && !IsBreak(text[i])
  }

  /** RFC 4180: a cell with a quote, the delimiter or a line break in it must be quoted. */
  ghost predicate IsLegal(cells: seq<Cell>, d: char) {
    forall i :: 0 <= i < |cells| ==> cells[i].quoted || IsPlain(cells[i].text, d)
  }

  ghost predicate IsTable(rows: seq<seq<Cell>>, d: char) {
    forall r :: 0 <= r < |rows| ==> rows[r] != [] && IsLegal(rows[r], d)
  }

  function Texts(cells: seq<Cell>): seq<string> {
    seq(|cells|, i requires 0 <= i < |cells| => cells[i].text)
  }

  function Values(rows: seq<seq<Cell>>): seq<seq<string>> {
    seq(|rows|, i requires 0 <= i < |rows| => Texts(rows[i]))
  }

  // ---------------------------------------------------------------- reading back what was written

  lemma {:induction false} ScanQuoted(text: string, rest: string, d: char, s: Scanner)
    requires s.inQuotes && (rest == "" || rest[0] != QUOTE)
    ensures Scan(Doubled(text) + [QUOTE] + rest, d, s)
         == Scan(rest, d, s.(field := s.field + text, inQuotes := false))
    decreases |text|
  {
    var all := Doubled(text) + [QUOTE] + rest;
    if text == "" {
      assert all[1..] == rest && s.field + text == s.field;
    } else {
      var step := if text[0] == QUOTE then 2 else 1;
      var s' := s.(field := s.field + [text[0]]);
      assert all[step..] == Doubled(text[1..]) + [QUOTE] + rest;
      ScanQuoted(text[1..], rest, d, s');
      assert s'.field + text[1..] == s.field + text;
    }
  }

  lemma {:induction false} ScanPlain(text: string, rest: string, d: char, s: Scanner)
    requires !s.inQuotes && IsPlain(text, d)
    ensures Scan(text + rest, d, s) == Scan(rest, d, s.(field := s.field + text))
    decreases |text|
  {
    if text == "" {
      assert text + rest == rest && s.field + text == s.field;
    } else {
      var s' := s.(field := s.field + [text[0]]);
      assert (text + rest)[1..] == text[1..] + rest;
      ScanPlain(text[1..], rest, d, s');
      assert s'.field + text[1..] == s.field + text;
    }
  }

  lemma ScanCell(c: Cell, rest: string, d: char, s: Scanner)
    requires !s.inQuotes && s.field == "" && (c.quoted || IsPlain(c.text, d))
    requires rest == "" || rest[0] != QUOTE
    ensures Scan(WriteCell(c) + rest, d, s) == Scan(rest, d, s.(field := c.text))
  {
    assert "" + c.text == c.text;
    if c.quoted {
      assert (WriteCell(c) + rest)[1..] == Doubled(c.text) + [QUOTE] + rest;
      ScanQuoted(c.text, rest, d, s.(inQuotes := true));
    } else {
      ScanPlain(c.text, rest, d, s);
    }
  }

  /** The scanner with a whole row read and only its last field still open. */
  function Open(s: Scanner, cells: seq<Cell>): Scanner
    requires cells != []
  {
    s.(row := s.row + Texts(cells[..|cells| - 1]), field := cells[|cells| - 1].text)
  }

  lemma OpenFirst(s: Scanner, cells: seq<Cell>)
    requires |cells| > 1
    ensures Open(s.(row := s.row + [cells[0].text]), cells[1..]) == Open(s, cells)
  {
    var tail := cells[1..];
    assert Texts(cells[..|cells| - 1]) == [cells[0].text] + Texts(tail[..|tail| - 1]);
    assert s.row + [cells[0].text] + Texts(tail[..|tail| - 1]) == s.row + ([cells[0].text] + Texts(tail[..|tail| - 1]));
  }

  lemma ScanDelimiter(rest: string, d: char, s: Scanner)
    requires IsDelimiter(d) && !s.inQuotes
    ensures Scan([d] + rest, d, s) == Scan(rest, d, EndField(s))
  {
    assert ([d] + rest)[1..] == rest;
  }

  lemma {:induction false} ScanRow(cells: seq<Cell>, rest: string, d: char, s: Scanner)
    requires cells != [] && IsLegal(cells, d) && IsDelimiter(d)
    requires !s.inQuotes && s.field == "" && (rest == "" || IsBreak(rest[0]))
    ensures Scan(WriteRow(cells, d) + rest, d, s) == Scan(rest, d, Open(s, cells))
    decreases |cells|
  {
    var c := cells[0];
    if |cells| == 1 {
      ScanCell(c, rest, d, s);
      assert s.row + Texts(cells[..0]) == s.row;
    } else {
      var tail := cells[1..];
      var more := WriteRow(tail, d) + rest;
      assert WriteRow(cells, d) + rest == WriteCell(c) + ([d] + more);
      ScanCell(c, [d] + more, d, s);
      ScanDelimiter(more, d, s.(field := c.text));
      var s' := s.(row := s.row + [c.text]);
      assert EndField(s.(field := c.text)) == s';
      ScanRow(tail, rest, d, s');
      OpenFirst(s, cells);
    }
  }

  /** A written row never starts with a bare line feed, so CR alone is not taken for half of CRLF. */
  lemma NoLeadingLf(rows: seq<seq<Cell>>, d: char, closed: bool)
    requires IsTable(rows, d) && IsDelimiter(d)
    ensures var text := WriteRows(rows, d, Cr, closed); text == "" || text[0] != LF
  {
    if rows != [] {
      var c := rows[0][0];
      assert WriteCell(c) != "" ==> WriteRow(rows[0], d) != "" && WriteRow(rows[0], d)[0] == WriteCell(c)[0];
    }
  }

  lemma ScanBreak(e: Ending, rest: string, d: char, s: Scanner)
    requires IsDelimiter(d) && !s.inQuotes && (e == Cr ==> rest == "" || rest[0] != LF)
    ensures Scan(Break(e) + rest, d, s) == Scan(rest, d, EndRow(s))
  {
    assert (Break(e) + rest)[BreakLength(Break(e) + rest)..] == rest;
  }

  lemma {:induction false} KeptAppend(a: seq<seq<string>>, b: seq<seq<string>>)
    ensures Kept(a + b) == Kept(a) + Kept(b)
    decreases |b|
  {
    if b == [] {
      assert a + b == a;
    } else {
      var last := |b| - 1;
      KeptAppend(a, b[..last]);
      assert (a + b)[..|a + b| - 1] == a + b[..last];
    }
  }

  /** The last row without a final break: lost only when it is one empty cell, which is blank anyway. */
  lemma LastRow(cells: seq<Cell>, s: Scanner)
    requires cells != [] && !s.inQuotes && s.row == []
    ensures Kept(Finished(Open(s, cells))) == Kept(s.rows + [Texts(cells)])
    ensures EndRow(Open(s, cells)) == Scanner("", [], s.rows + [Texts(cells)], false)
  {
    var s' := Open(s, cells);
    assert s'.row + [s'.field] == Texts(cells);
    KeptAppend(s.rows, [Texts(cells)]);
    if Finished(s') == s'.rows && !(s'.field != "" || s'.row != []) {
      assert Texts(cells) == [""];
      assert Kept([[""]]) == Kept([[""]][..0]);
    }
  }

  /** One row and its break. */
  lemma ScanWholeRow(cells: seq<Cell>, e: Ending, tail: string, d: char, s: Scanner)
    requires cells != [] && IsLegal(cells, d) && IsDelimiter(d) && (e == Cr ==> tail == "" || tail[0] != LF)
    requires !s.inQuotes && s.field == "" && s.row == []
    ensures Scan(WriteRow(cells, d) + Break(e) + tail, d, s)
         == Scan(tail, d, Scanner("", [], s.rows + [Texts(cells)], false))
  {
    assert WriteRow(cells, d) + Break(e) + tail == WriteRow(cells, d) + (Break(e) + tail);
    ScanRow(cells, Break(e) + tail, d, s);
    ScanBreak(e, tail, d, Open(s, cells));
    LastRow(cells, s);
  }

  lemma ScanUnclosedRow(cells: seq<Cell>, d: char, s: Scanner)
    requires cells != [] && IsLegal(cells, d) && IsDelimiter(d)
    requires !s.inQuotes && s.field == "" && s.row == []
    ensures Kept(Finished(Scan(WriteRow(cells, d), d, s))) == Kept(s.rows + [Texts(cells)])
  {
    ScanRow(cells, "", d, s);
    assert WriteRow(cells, d) + "" == WriteRow(cells, d);
    LastRow(cells, s);
  }

  lemma ValuesFirst(rows: seq<seq<Cell>>, before: seq<seq<string>>)
    requires rows != []
    ensures before + [Texts(rows[0])] + Values(rows[1..]) == before + Values(rows)
  {
    assert Values(rows) == [Texts(rows[0])] + Values(rows[1..]);
  }

  lemma {:induction false} ScanRows(rows: seq<seq<Cell>>, d: char, e: Ending, closed: bool, s: Scanner)
    requires IsTable(rows, d) && IsDelimiter(d)
    requires !s.inQuotes && s.field == "" && s.row == []
    ensures Kept(Finished(Scan(WriteRows(rows, d, e, closed), d, s))) == Kept(s.rows + Values(rows))
    decreases |rows|
  {
    if rows == [] {
      assert s.rows + Values(rows) == s.rows;
    } else {
      var cells := rows[0];
      ValuesFirst(rows, s.rows);
      if |rows| == 1 && !closed {
        ScanUnclosedRow(cells, d, s);
        assert s.rows + [Texts(cells)] + Values(rows[1..]) == s.rows + [Texts(cells)];
      } else {
        if e == Cr {
          NoLeadingLf(rows[1..], d, closed);
        }
        ScanWholeRow(cells, e, WriteRows(rows[1..], d, e, closed), d, s);
        ScanRows(rows[1..], d, e, closed, Scanner("", [], s.rows + [Texts(cells)], false));
      }
    }
  }

  ghost predicate OpensWithBom(rows: seq<seq<Cell>>) {
    rows != [] && rows[0] != [] && !rows[0][0].quoted && rows[0][0].text != "" && rows[0][0].text[0] == BOM
  }

  lemma WrittenHasNoBom(rows: seq<seq<Cell>>, d: char, e: Ending, closed: bool)
    requires IsTable(rows, d) && IsDelimiter(d) && !OpensWithBom(rows)
    ensures StripBom(WriteRows(rows, d, e, closed)) == WriteRows(rows, d, e, closed)
    ensures StripBom([BOM] + WriteRows(rows, d, e, closed)) == WriteRows(rows, d, e, closed)
  {
    if rows != [] {
      var c := rows[0][0];
      assert WriteCell(c) != "" ==> WriteRow(rows[0], d) != "" && WriteRow(rows[0], d)[0] == WriteCell(c)[0];
      assert WriteCell(c) == "" && |rows[0]| > 1 ==> WriteRow(rows[0], d)[0] == d;
    }
  }

  /**
   * Round trip: any table of non-empty rows, quoted where it must be and anywhere else it likes,
   * written with any of the three delimiters and any of the three line endings, with or without a
   * final one and with or without a byte-order mark, reads back as exactly its rows that are not blank.
   */
  lemma RoundTrip(rows: seq<seq<Cell>>, d: char, e: Ending, closed: bool)
    requires IsTable(rows, d) && IsDelimiter(d) && !OpensWithBom(rows)
    ensures Rows(StripBom(WriteRows(rows, d, e, closed)), d) == Kept(Values(rows))
    ensures Rows(StripBom([BOM] + WriteRows(rows, d, e, closed)), d) == Kept(Values(rows))
  {
    WrittenHasNoBom(rows, d, e, closed);
    ScanRows(rows, d, e, closed, Start);
    assert Start.rows + Values(rows) == Values(rows);
  }

  // ---------------------------------------------------------------- reading what RFC 4180 does not write

  /** No delimiter and no line break; quotes may be in it. */
  ghost predicate IsLoose(text: string, d: char) {
    forall i :: 0 <= i < |text| ==> text[i] != d && !IsBreak(text[i])
  }

  /** Once a cell has begun without a quote, or has closed its quotes, every character up to its end is itself, quotes included. */
  lemma {:induction false} LooseTextIsRead(text: string, rest: string, d: char, s: Scanner)
    requires !s.inQuotes && IsLoose(text, d)
    requires s.field != "" || text == "" || text[0] != QUOTE
    ensures Scan(text + rest, d, s) == Scan(rest, d, s.(field := s.field + text))
    decreases |text|
  {
    if text == "" {
      assert text + rest == rest;
      assert s.field + text == s.field;
    } else {
      assert (text + rest)[0] == text[0] && (text + rest)[1..] == text[1..] + rest;
      LooseTextIsRead(text[1..], rest, d, s.(field := s.field + [text[0]]));
      assert s.field + [text[0]] + text[1..] == s.field + text;
    }
  }

  /** Text after closed quotes belongs to the same cell. */
  lemma TextAfterQuotesJoins(inner: string, after: string, rest: string, d: char, s: Scanner)
    requires !s.inQuotes && s.field == "" && inner != "" && IsLoose(after, d) && (after == "" || after[0] != QUOTE)
    requires rest == "" || rest[0] != QUOTE
    ensures Scan([QUOTE] + Doubled(inner) + [QUOTE] + after + rest, d, s) == Scan(rest, d, s.(field := inner + after))
  {
    QuotedThen(inner, after, rest);
    ScanCell(Cell(inner, true), after + rest, d, s);
    LooseTextIsRead(after, rest, d, s.(field := inner));
  }

  lemma QuotedThen(inner: string, after: string, rest: string)
    ensures [QUOTE] + Doubled(inner) + [QUOTE] + after + rest == WriteCell(Cell(inner, true)) + (after + rest)
  {
  }

  /** Quotes that are never closed take the rest of the file into one cell. */
  lemma {:induction false} OpenQuotesSwallow(text: string, d: char, s: Scanner)
    requires s.inQuotes
    ensures Scan(Doubled(text), d, s) == s.(field := s.field + text)
    decreases |text|
  {
    if text == "" {
      assert s.field + text == s.field;
    } else {
      var all, more := Doubled(text), Doubled(text[1..]);
      OpenQuotesSwallow(text[1..], d, s.(field := s.field + [text[0]]));
      assert s.field + [text[0]] + text[1..] == s.field + text;
      if text[0] == QUOTE {
        assert all[0] == QUOTE && all[1] == QUOTE && all[2..] == more;
      } else {
        assert all[0] == text[0] && all[1..] == more;
      }
    }
  }

  /** What is kept of a file are the rows with something other than white space in them, in their order. */
  lemma {:induction false} KeptIs(rows: seq<seq<string>>, row: seq<string>)
    ensures row in Kept(rows) <==>
            row in rows && exists i, j :: 0 <= i < |row| && 0 <= j < |row[i]| && !IsSpace(row[i][j])
  {
    if rows != [] {
      KeptIs(rows[..|rows| - 1], row);
      assert rows == rows[..|rows| - 1] + [rows[|rows| - 1]];
    }
  }

  // ---------------------------------------------------------------- detecting the delimiter that was written

  ghost predicate IsOneLine(cells: seq<Cell>) {
    forall i :: 0 <= i < |cells| ==> forall j :: 0 <= j < |cells[i].text| ==> !IsBreak(cells[i].text[j])
  }

  function Occurrences(text: string, c: char): nat {
    if text == "" then 0 else Occurrences(text[1..], c) + if text[0] == c then 1 else 0
  }

  /** How often `c` stands in the cells written without quotes. */
  function Stray(cells: seq<Cell>, c: char): nat {
    if cells == [] then 0
    else Stray(cells[1..], c) + if cells[0].quoted then 0 else Occurrences(cells[0].text, c)
  }

  lemma {:induction false} OutsideQuoted(text: string, rest: string, c: char)
    requires c != QUOTE
    ensures Outside(Doubled(text) + [QUOTE] + rest, true, c) == Outside(rest, false, c)
    decreases |text|
  {
    var all := Doubled(text) + [QUOTE] + rest;
    if text == "" {
      assert all[1..] == rest;
    } else {
      OutsideQuoted(text[1..], rest, c);
      var more := Doubled(text[1..]) + [QUOTE] + rest;
      if text[0] == QUOTE {
        assert all[1..] == [QUOTE] + more;
        assert all[1..][1..] == more;
      } else {
        assert all[1..] == more;
      }
    }
  }

  lemma {:induction false} OutsidePlain(text: string, rest: string, c: char)
    requires forall j :: 0 <= j < |text| ==> text[j] != QUOTE
    ensures Outside(text + rest, false, c) == Occurrences(text, c) + Outside(rest, false, c)
    decreases |text|
  {
    if text == "" {
      assert text + rest == rest;
    } else {
      assert (text + rest)[1..] == text[1..] + rest;
      OutsidePlain(text[1..], rest, c);
    }
  }

  lemma OutsideCell(cell: Cell, rest: string, c: char)
    requires c != QUOTE && (cell.quoted || forall j :: 0 <= j < |cell.text| ==> cell.text[j] != QUOTE)
    ensures Outside(WriteCell(cell) + rest, false, c)
         == (if cell.quoted then 0 else Occurrences(cell.text, c)) + Outside(rest, false, c)
  {
    if cell.quoted {
      assert (WriteCell(cell) + rest)[1..] == Doubled(cell.text) + [QUOTE] + rest;
      OutsideQuoted(cell.text, rest, c);
    } else {
      OutsidePlain(cell.text, rest, c);
    }
  }

  /** A written row shows its separators, and any delimiter that stands in an unquoted cell. */
  lemma {:induction false} OutsideRow(cells: seq<Cell>, d: char, c: char)
    requires cells != [] && IsLegal(cells, d) && IsDelimiter(d) && IsDelimiter(c)
    ensures Outside(WriteRow(cells, d), false, c) == Stray(cells, c) + if c == d then |cells| - 1 else 0
    decreases |cells|
  {
    var rest := if |cells| == 1 then "" else [d] + WriteRow(cells[1..], d);
    assert WriteRow(cells, d) == WriteCell(cells[0]) + rest;
    OutsideCell(cells[0], rest, c);
    if |cells| > 1 {
      OutsideRow(cells[1..], d, c);
      assert rest[1..] == WriteRow(cells[1..], d);
    } else {
      assert cells[1..] == [];
    }
  }

  lemma {:induction false} NoneOf(text: string, c: char)
    requires forall j :: 0 <= j < |text| ==> text[j] != c
    ensures Occurrences(text, c) == 0
  {
    if text != "" {
      NoneOf(text[1..], c);
    }
  }

  lemma {:induction false} NoStrayOfItsOwn(cells: seq<Cell>, d: char)
    requires IsLegal(cells, d)
    ensures Stray(cells, d) == 0
  {
    if cells != [] {
      NoStrayOfItsOwn(cells[1..], d);
      if !cells[0].quoted {
        NoneOf(cells[0].text, d);
      }
    }
  }

  lemma {:induction false} DoubledStaysOnLine(text: string)
    requires forall j :: 0 <= j < |text| ==> !IsBreak(text[j])
    ensures forall j :: 0 <= j < |Doubled(text)| ==> !IsBreak(Doubled(text)[j])
    decreases |text|
  {
    if text != "" {
      DoubledStaysOnLine(text[1..]);
    }
  }

  lemma {:induction false} RowStaysOnLine(cells: seq<Cell>, d: char)
    requires cells != [] && IsOneLine(cells) && IsDelimiter(d)
    ensures forall j :: 0 <= j < |WriteRow(cells, d)| ==> !IsBreak(WriteRow(cells, d)[j])
    decreases |cells|
  {
    DoubledStaysOnLine(cells[0].text);
    if |cells| > 1 {
      RowStaysOnLine(cells[1..], d);
    }
  }

  lemma {:induction false} FirstLineStops(line: string, rest: string)
    requires forall j :: 0 <= j < |line| ==> !IsBreak(line[j])
    requires rest == "" || IsBreak(rest[0])
    ensures FirstLine(line + rest) == line
    decreases |line|
  {
    if line == "" {
      assert line + rest == rest;
    } else {
      assert (line + rest)[1..] == line[1..] + rest;
      FirstLineStops(line[1..], rest);
    }
  }

  lemma HeaderIsFirstLine(rows: seq<seq<Cell>>, d: char, e: Ending, closed: bool)
    requires IsTable(rows, d) && IsDelimiter(d) && rows != [] && IsOneLine(rows[0])
    ensures FirstLine(WriteRows(rows, d, e, closed)) == WriteRow(rows[0], d)
  {
    var header := WriteRow(rows[0], d);
    var rest := if |rows| == 1 && !closed then "" else Break(e) + WriteRows(rows[1..], d, e, closed);
    assert WriteRows(rows, d, e, closed) == header + rest;
    RowStaysOnLine(rows[0], d);
    FirstLineStops(header, rest);
  }

  /** The tie rule: the comma before the others, the semicolon before the tab. */
  predicate WinsTie(d: char, c: char) {
    d == ',' || (d == ';' && c == '\t')
  }

  /** The header's separators outnumber every other delimiter left unquoted in it, or tie with one they beat. */
  ghost predicate Prevails(d: char, cells: seq<Cell>) {
    forall c :: IsDelimiter(c) && c != d ==> Beats(d, c, cells)
  }

  predicate Beats(d: char, c: char, cells: seq<Cell>) {
    Stray(cells, c) < |cells| - 1 || (Stray(cells, c) == |cells| - 1 && WinsTie(d, c))
  }

  /**
   * With a header on one line, quoted or not, the delimiter written is the delimiter detected exactly when the
   * header's separators prevail over the delimiters that stand unquoted in it.
   */
  lemma DetectionRecoversDelimiter(rows: seq<seq<Cell>>, d: char, e: Ending, closed: bool)
    requires IsTable(rows, d) && IsDelimiter(d) && rows != [] && IsOneLine(rows[0])
    ensures Detected(WriteRows(rows, d, e, closed)) == d <==> Prevails(d, rows[0])
  {
    HeaderIsFirstLine(rows, d, e, closed);
    OutsideRow(rows[0], d, ',');
    OutsideRow(rows[0], d, ';');
    OutsideRow(rows[0], d, '\t');
    NoStrayOfItsOwn(rows[0], d);
    ChosenIff(rows[0], d);
  }

  lemma ChosenIff(cells: seq<Cell>, d: char)
    requires IsDelimiter(d) && cells != [] && Stray(cells, d) == 0
    ensures var n := |cells| - 1;
            Choose(Stray(cells, ',') + (if ',' == d then n else 0), Stray(cells, ';') + (if ';' == d then n else 0),
                   Stray(cells, '\t') + (if '\t' == d then n else 0)) == d
            <==> Prevails(d, cells)
  {
    assert Prevails(d, cells) <==> (d == ',' || Beats(d, ',', cells)) && (d == ';' || Beats(d, ';', cells))
                                   && (d == '\t' || Beats(d, '\t', cells));
  }

  /** Fully quoted, as the writers of such files do: two header cells, or the comma. */
  lemma QuotedHeaderPrevails(cells: seq<Cell>, d: char)
    requires IsDelimiter(d) && cells != [] && forall i :: 0 <= i < |cells| ==> cells[i].quoted
    ensures Prevails(d, cells) <==> |cells| >= 2 || d == ','
  {
    QuotedHasNoStray(cells, ',');
    QuotedHasNoStray(cells, ';');
    QuotedHasNoStray(cells, '\t');
    assert Beats(d, if d == ',' then ';' else ',', cells) ==> |cells| >= 2 || d == ',';
  }

  lemma {:induction false} QuotedHasNoStray(cells: seq<Cell>, c: char)
    requires forall i :: 0 <= i < |cells| ==> cells[i].quoted
    ensures Stray(cells, c) == 0
  {
    if cells != [] {
      QuotedHasNoStray(cells[1..], c);
    }
  }

  /** One quoted header column under a semicolon: the semicolon is not found again. */
  lemma LoneHeaderLosesItsDelimiter(e: Ending, closed: bool)
    ensures var rows := [[Cell("imei", true)], [Cell("1", true)]];
            Detected(WriteRows(rows, ';', e, closed)) != ';'
  {
    var rows: seq<seq<Cell>> := [[Cell("imei", true)], [Cell("1", true)]];
    assert rows[0][0].text == "imei" && forall j :: 0 <= j < 4 ==> !IsBreak("imei"[j]);
    QuotedHeaderPrevails(rows[0], ';');
    DetectionRecoversDelimiter(rows, ';', e, closed);
  }

  /** One plain header column with a stray semicolon in a comma file: the stray wins. */
  lemma StrayDelimiterWins(e: Ending, closed: bool)
    ensures var rows := [[Cell("a;b", false)]];
            IsTable(rows, ',') && Detected(WriteRows(rows, ',', e, closed)) == ';'
  {
    var rows: seq<seq<Cell>> := [[Cell("a;b", false)]];
    var header := "a;b";
    assert rows[0][0].text == header && header[0] == 'a' && header[1] == ';' && header[2] == 'b';
    assert IsPlain(header, ',');
    assert WriteRow(rows[0], ',') == header;
    HeaderIsFirstLine(rows, ',', e, closed);
    assert header[1..] == ";b" && ";b"[1..] == "b" && "b"[1..] == "";
    assert Outside("b", false, ';') == 0 && Outside("b", false, ',') == 0 && Outside("b", false, '\t') == 0;
    assert Outside(";b", false, ';') == 1 && Outside(";b", false, ',') == 0 && Outside(";b", false, '\t') == 0;
  }

  /** So a file with such a header is read back with no delimiter given. */
  lemma RoundTripUnconfigured(rows: seq<seq<Cell>>, d: char, e: Ending, closed: bool)
    requires IsTable(rows, d) && IsDelimiter(d) && !OpensWithBom(rows)
    requires rows != [] && IsOneLine(rows[0]) && Prevails(d, rows[0])
    ensures var text := StripBom(WriteRows(rows, d, e, closed));
            Detected(text) == d && Rows(text, Detected(text)) == Kept(Values(rows))
  {
    WrittenHasNoBom(rows, d, e, closed);
    DetectionRecoversDelimiter(rows, d, e, closed);
    RoundTrip(rows, d, e, closed);
  }
}
