/** Reading what was written gives the table back, with each CR LF inside a cell turned into LF. */
module CsvRoundTrip {
  import opened Collections
  import opened StringUtil
  import opened CsvFormat
  import CsvFiles

  function Normalized(cell: Text): Text { Replaced(cell, CRLF, [LF]) }

  function NormalizedRow(row: Row): Row { if row == [] then [] else [Normalized(row[0])] + NormalizedRow(row[1..]) }

  function NormalizedTable(table: Table): Table {
    if table == [] then [] else [NormalizedRow(table[0])] + NormalizedTable(table[1..])
  }

  /** What may follow a cell: the delimiter, the end of the row, or the end of the text. */
  predicate CellEnd(rest: Text, delimiter: Delimiter) {
    rest == [] || rest[0] == delimiter || StartsWith(rest, CRLF)
  }

  predicate GoodDelimiter(delimiter: Delimiter) { delimiter !in [QUOTE, CR, LF, NUL] }

  // ---------- physical lines ----------

  /** A unit that ends nothing stays in front of its line. */
  lemma LineCons(c: CodeUnit, text: Text)
    requires c != LF && (c == CR ==> text != [] && text[0] != LF)
    ensures FirstLine([c] + text) == [c] + FirstLine(text) && AfterLine([c] + text) == AfterLine(text)
  {
    assert ([c] + text)[1..] == text;
    var e := LineEnd(text);
    assert LineEnd([c] + text) == e + 1;
    assert ([c] + text)[..e + 1] == [c] + text[..e];
  }

  lemma LineFeed(text: Text)
    ensures FirstLine([LF] + text) == [] && AfterLine([LF] + text) == text
    ensures FirstLine(CRLF + text) == [] && AfterLine(CRLF + text) == text
  {
    assert ([LF] + text)[1..] == text;
    assert (CRLF + text)[1..] == [LF] + text;
    assert LineEnd(CRLF + text) == 1;
    assert (CRLF + text)[..1] == [CR];
    assert (CRLF + text)[2..] == text;
  }

  // ---------- quoted cells ----------

  function Doubled(cell: Text): Text { Replaced(cell, [QUOTE], [QUOTE, QUOTE]) }

  lemma DoubledCons(cell: Text)
    requires cell != []
    ensures Doubled(cell) == (if cell[0] == QUOTE then [QUOTE, QUOTE] else [cell[0]]) + Doubled(cell[1..])
  {
    assert StartsWith(cell, [QUOTE]) <==> cell[0] == QUOTE;
  }

  lemma NormalizedCons(cell: Text)
    requires cell != []
    ensures Normalized(cell) ==
            if |cell| > 1 && cell[0] == CR && cell[1] == LF then [LF] + Normalized(cell[2..])
            else [cell[0]] + Normalized(cell[1..])
  {
    assert StartsWith(cell, CRLF) <==> |cell| > 1 && cell[0] == CR && cell[1] == LF;
  }

  /** The written body of a quoted cell, from some point on. */
  function Body(cell: Text, rest: Text): Text { Doubled(cell) + [QUOTE] + rest }

  lemma BodyCons(cell: Text, rest: Text)
    requires cell != []
    ensures Body(cell, rest) == (if cell[0] == QUOTE then [QUOTE, QUOTE] else [cell[0]]) + Body(cell[1..], rest)
  {
    DoubledCons(cell);
  }

  /** Reading on inside quotes, at the start of this text. */
  function Scanned(text: Text): Scan { QuotedBody(FirstLine(text), AfterLine(text)) }

  lemma ScanPlain(c: CodeUnit, text: Text)
    requires c != QUOTE && c != LF && (c == CR ==> text != [] && text[0] != LF)
    ensures Scanned([c] + text) == Prefixed(c, Scanned(text))
  {
    LineCons(c, text);
    assert ([c] + FirstLine(text))[1..] == FirstLine(text);
  }

  lemma ScanQuotes(text: Text)
    ensures Scanned([QUOTE, QUOTE] + text) == Prefixed(QUOTE, Scanned(text))
  {
    assert [QUOTE, QUOTE] + text == [QUOTE] + ([QUOTE] + text);
    LineCons(QUOTE, [QUOTE] + text);
    LineCons(QUOTE, text);
    var line := [QUOTE] + ([QUOTE] + FirstLine(text));
    assert line[2..] == FirstLine(text);
  }

  lemma ScanBreak(text: Text)
    requires text != []
    ensures Scanned([LF] + text) == Prefixed(LF, Scanned(text)) && Scanned(CRLF + text) == Prefixed(LF, Scanned(text))
  {
    LineFeed(text);
  }

  lemma ScanClose(text: Text)
    requires text == [] || text[0] != QUOTE
    ensures Scanned([QUOTE] + text) == Scan(true, [], FirstLine(text), AfterLine(text), false)
  {
    LineCons(QUOTE, text);
    FirstUnit(text);
    assert ([QUOTE] + FirstLine(text))[1..] == FirstLine(text);
  }

  /** A line starts with the text's first unit, unless that ends the line. */
  lemma FirstUnit(text: Text)
    ensures FirstLine(text) != [] ==> text != [] && FirstLine(text)[0] == text[0]
  {
  }

  lemma {:induction false} QuotedRoundTrip(cell: Text, rest: Text)
    requires rest == [] || rest[0] != QUOTE
    ensures Scanned(Body(cell, rest)) == Scan(true, Normalized(cell), FirstLine(rest), AfterLine(rest), false)
    decreases |cell|
  {
    if cell == [] {
      assert Body(cell, rest) == [QUOTE] + rest;
      ScanClose(rest);
    } else {
      BodyCons(cell, rest);
      NormalizedCons(cell);
      var next := Body(cell[1..], rest);
      if |cell| > 1 && cell[0] == CR && cell[1] == LF {
        BodyCons(cell[1..], rest);
        assert cell[1..][1..] == cell[2..];
        assert Body(cell, rest) == CRLF + Body(cell[2..], rest);
        QuotedRoundTrip(cell[2..], rest);
        ScanBreak(Body(cell[2..], rest));
      } else {
        QuotedRoundTrip(cell[1..], rest);
        if cell[0] == QUOTE {
          ScanQuotes(next);
        } else if cell[0] == LF {
          ScanBreak(next);
        } else {
          if |cell| > 1 { BodyCons(cell[1..], rest); }
          ScanPlain(cell[0], next);
        }
      }
    }
  }

  // ---------- cells ----------

  /** Reading a cell at the start of this text. */
  function CellAt(text: Text, separator: CodeUnit): Scan { ReadCell(FirstLine(text), AfterLine(text), separator) }

  /** What a reader sees of a written cell. */
  function CellRead(cell: Text, rest: Text, delimiter: Delimiter): Scan {
    if rest != [] && rest[0] == delimiter
    then Scan(true, Normalized(cell), FirstLine(rest[1..]), AfterLine(rest[1..]), true)
    else Scan(true, Normalized(cell), [], AfterLine(rest), false)
  }

  lemma SeparatorAt(rest: Text, delimiter: Delimiter)
    requires GoodDelimiter(delimiter) && CellEnd(rest, delimiter)
    ensures ToSeparator(FirstLine(rest), AfterLine(rest), delimiter) == CellRead([], rest, delimiter)
  {
    if rest != [] && rest[0] == delimiter {
      assert rest == [delimiter] + rest[1..];
      LineCons(delimiter, rest[1..]);
      assert ([delimiter] + FirstLine(rest[1..]))[1..] == FirstLine(rest[1..]);
    } else if rest != [] {
      assert rest == CRLF + rest[2..];
      LineFeed(rest[2..]);
    }
  }

  lemma EscapesAre(delimiter: Delimiter)
    requires GoodDelimiter(delimiter)
    ensures Escapes(delimiter, QUOTE) == [CR, LF, delimiter, QUOTE] && CString([QUOTE, QUOTE]) == [QUOTE, QUOTE]
  {
    assert [CR, LF, delimiter, QUOTE][1..] == [LF, delimiter, QUOTE];
    assert [LF, delimiter, QUOTE][1..] == [delimiter, QUOTE];
    assert [delimiter, QUOTE][1..] == [QUOTE];
    assert [QUOTE][1..] == [] && [QUOTE, QUOTE][1..] == [QUOTE];
    assert CString([QUOTE]) == [QUOTE];
    assert CString([delimiter, QUOTE]) == [delimiter, QUOTE];
    assert CString([LF, delimiter, QUOTE]) == [LF, delimiter, QUOTE];
  }

  /** A plain cell has no unit that would end it or quote it. */
  predicate Plain(cell: Text, delimiter: Delimiter) {
    forall i :: 0 <= i < |cell| ==> cell[i] !in [CR, LF, delimiter, QUOTE]
  }

  lemma {:induction false} PlainRoundTrip(cell: Text, rest: Text, delimiter: Delimiter)
    requires GoodDelimiter(delimiter) && CellEnd(rest, delimiter) && Plain(cell, delimiter)
    ensures ToSeparator(FirstLine(cell + rest), AfterLine(cell + rest), delimiter) == CellRead(cell, rest, delimiter)
  {
    if cell == [] {
      assert cell + rest == rest;
      SeparatorAt(rest, delimiter);
    } else {
      assert cell + rest == [cell[0]] + (cell[1..] + rest);
      PlainRoundTrip(cell[1..], rest, delimiter);
      LineCons(cell[0], cell[1..] + rest);
      NormalizedCons(cell);
      SeparatorCons(cell[0], FirstLine(cell[1..] + rest), AfterLine(cell[1..] + rest), delimiter);
    }
  }

  lemma SeparatorCons(c: CodeUnit, tail: Text, rest: Text, separator: CodeUnit)
    requires c != separator
    ensures ToSeparator([c] + tail, rest, separator) == Prefixed(c, ToSeparator(tail, rest, separator))
  {
    assert ([c] + tail)[1..] == tail;
    var p := Find(tail, separator);
    assert ([c] + tail)[..p + 1] == [c] + tail[..p];
    if p < |tail| { assert ([c] + tail)[p + 2..] == tail[p + 1..]; }
  }

  lemma QuotedText(cell: Text, rest: Text, delimiter: Delimiter)
    requires GoodDelimiter(delimiter) && NeedsQuotes(cell, delimiter, QUOTE)
    ensures CellText(cell, delimiter, QUOTE) + rest == [QUOTE] + Body(cell, rest)
  {
    EscapesAre(delimiter);
    var inner := Doubled(cell);
    assert CellText(cell, delimiter, QUOTE) == [QUOTE] + inner + [QUOTE];
    Reassociate([QUOTE], inner, [QUOTE]);
    Reassociate([QUOTE], inner + [QUOTE], rest);
  }

  lemma ReadQuotedCell(line: Text, after: Text, separator: CodeUnit)
    requires QuotedBody(line, after).ok
    ensures var body := QuotedBody(line, after);
            var end := ToSeparator(body.tail, body.rest, separator);
            ReadCell([QUOTE] + line, after, separator) == end.(text := body.text + end.text)
  {
    assert ([QUOTE] + line)[1..] == line;
  }

  lemma QuotedCellRoundTrip(cell: Text, rest: Text, delimiter: Delimiter)
    requires GoodDelimiter(delimiter) && CellEnd(rest, delimiter)
    ensures CellAt([QUOTE] + Body(cell, rest), delimiter) == CellRead(cell, rest, delimiter)
  {
    var body := Body(cell, rest);
    LineCons(QUOTE, body);
    QuotedRoundTrip(cell, rest);
    ReadQuotedCell(FirstLine(body), AfterLine(body), delimiter);
    SeparatorAt(rest, delimiter);
    assert Normalized(cell) + [] == Normalized(cell);
  }

  lemma CellRoundTrip(cell: Text, rest: Text, delimiter: Delimiter)
    requires GoodDelimiter(delimiter) && CellEnd(rest, delimiter)
    ensures CellAt(CellText(cell, delimiter, QUOTE) + rest, delimiter) == CellRead(cell, rest, delimiter)
  {
    if NeedsQuotes(cell, delimiter, QUOTE) {
      QuotedText(cell, rest, delimiter);
      QuotedCellRoundTrip(cell, rest, delimiter);
    } else {
      EscapesAre(delimiter);
      PlainRoundTrip(cell, rest, delimiter);
      FirstUnit(CellText(cell, delimiter, QUOTE) + rest);
    }
  }

  /** A cell is written as it is if it is plain, and otherwise between quotes, with the quotes in it doubled. */
  lemma WrittenCell(cell: Text, delimiter: Delimiter)
    requires GoodDelimiter(delimiter)
    ensures CellText(cell, delimiter, QUOTE) ==
            if Plain(cell, delimiter) then cell else [QUOTE] + Doubled(cell) + [QUOTE]
  {
    EscapesAre(delimiter);
    assert NeedsQuotes(cell, delimiter, QUOTE) <==> !Plain(cell, delimiter);
  }

  // ---------- cells nobody would write ----------

  /** Text between a closing quote and the next separator, or the end of the line, belongs to the cell. */
  lemma TextAfterQuotes(cell: Text, rest: Text, separator: CodeUnit, p: nat)
    requires rest == [] || rest[0] != QUOTE
    requires p <= |FirstLine(rest)| && forall i :: 0 <= i < p ==> FirstLine(rest)[i] != separator
    requires p < |FirstLine(rest)| ==> FirstLine(rest)[p] == separator
    ensures var line := FirstLine(rest);
            CellAt([QUOTE] + Body(cell, rest), separator) ==
            Scan(true, Normalized(cell) + line[..p], if p < |line| then line[p + 1..] else [],
                 AfterLine(rest), p < |line|)
  {
    var body, line := Body(cell, rest), FirstLine(rest);
    LineCons(QUOTE, body);
    QuotedRoundTrip(cell, rest);
    ReadQuotedCell(FirstLine(body), AfterLine(body), separator);
    assert p == Find(line, separator);
    assert line[..|line|] == line;
  }

  /** Inside quotes the text never ends them. */
  predicate Unclosed(text: Text) { !Scanned(text).ok && Scanned(text).rest == [] }

  lemma UnclosedQuotes(text: Text)
    requires Unclosed(text)
    ensures Unclosed([QUOTE, QUOTE] + text)
  {
    ScanQuotes(text);
  }

  lemma UnclosedBreak(text: Text)
    requires Unclosed(text)
    ensures Unclosed([LF] + text) && Unclosed(CRLF + text)
  {
    LineFeed(text);
  }

  lemma UnclosedPlain(c: CodeUnit, text: Text)
    requires Unclosed(text) && c != QUOTE && c != LF && (c == CR && text != [] ==> text[0] != LF)
    ensures Unclosed([c] + text)
  {
    if c == CR && text == [] {
      assert [CR] + text == [CR] && [CR][..1] == [CR] && FirstLine([CR]) == [];
    } else {
      ScanPlain(c, text);
    }
  }

  /** Without a closing quote the rest of the text is consumed and no cell comes of it. */
  lemma {:induction false} UnterminatedBody(cell: Text)
    ensures Unclosed(Doubled(cell))
    decreases |cell|
  {
    if cell != [] {
      DoubledCons(cell);
      UnterminatedBody(cell[1..]);
      var next := Doubled(cell[1..]);
      if cell[0] == QUOTE {
        UnclosedQuotes(next);
      } else if cell[0] == LF {
        UnclosedBreak(next);
      } else if |cell| > 1 && cell[0] == CR && cell[1] == LF {
        UnterminatedBody(cell[2..]);
        UnclosedBreak(Doubled(cell[2..]));
        DoubledBreak(cell);
      } else {
        DoubledFirst(cell[1..]);
        UnclosedPlain(cell[0], next);
      }
    }
  }

  lemma DoubledBreak(cell: Text)
    requires |cell| > 1 && cell[0] == CR && cell[1] == LF
    ensures Doubled(cell) == CRLF + Doubled(cell[2..])
  {
    DoubledCons(cell);
    DoubledCons(cell[1..]);
    assert cell[1..][1..] == cell[2..];
  }

  lemma DoubledFirst(cell: Text)
    ensures Doubled(cell) != [] ==> cell != [] && Doubled(cell)[0] == cell[0]
  {
    if cell != [] { DoubledCons(cell); }
  }

  lemma UnterminatedCell(cell: Text, separator: CodeUnit)
    ensures ReadTable([QUOTE] + Doubled(cell), separator) == [[]]
  {
    var text := [QUOTE] + Doubled(cell);
    LineCons(QUOTE, Doubled(cell));
    UnterminatedBody(cell);
    var line := [QUOTE] + FirstLine(Doubled(cell));
    assert line[1..] == FirstLine(Doubled(cell));
    assert ReadRow(FirstLine(text), AfterLine(text), separator) == ([], []);
  }

  // ---------- rows and tables ----------

  predicate RowEnd(rest: Text) { rest == [] || StartsWith(rest, CRLF) }

  lemma {:induction false} RowRoundTrip(row: Row, rest: Text, delimiter: Delimiter)
    requires GoodDelimiter(delimiter) && row != [] && RowEnd(rest)
    ensures var text := RowText(row, delimiter, QUOTE) + rest;
            ReadRow(FirstLine(text), AfterLine(text), delimiter) == (NormalizedRow(row), AfterLine(rest))
    decreases |row|
  {
    if |row| == 1 {
      CellRoundTrip(row[0], rest, delimiter);
      assert NormalizedRow(row) == [Normalized(row[0])];
    } else {
      var next := RowText(row[1..], delimiter, QUOTE) + rest;
      var text := RowText(row, delimiter, QUOTE) + rest;
      assert text == CellText(row[0], delimiter, QUOTE) + ([delimiter] + next);
      CellRoundTrip(row[0], [delimiter] + next, delimiter);
      assert ([delimiter] + next)[1..] == next;
      RowRoundTrip(row[1..], rest, delimiter);
    }
  }

  /** A row that leaves no trace in the text. */
  predicate Blank(row: Row) { row == [] || row == [[]] }

  /** The rows the text shows: a row without cells reads as one empty cell, and a last blank row is lost. */
  function Shown(table: Table): Table {
    if table == [] then []
    else if |table| == 1 then (if Blank(table[0]) then [] else table)
    else [if table[0] == [] then [[]] else table[0]] + Shown(table[1..])
  }

  lemma BlankText(row: Row, delimiter: Delimiter)
    requires GoodDelimiter(delimiter)
    ensures Blank(row) <==> RowText(row, delimiter, QUOTE) == []
  {
  }

  /** Every table, whatever its rows, reads as the rows its text shows. */
  lemma {:induction false} TableReads(table: Table, delimiter: Delimiter)
    requires GoodDelimiter(delimiter)
    ensures ReadTable(TableText(table, delimiter, QUOTE), delimiter) == NormalizedTable(Shown(table))
    decreases |table|
  {
    if table != [] {
      var text := TableText(table, delimiter, QUOTE);
      var row := if table[0] == [] then [[]] else table[0];
      BlankText(table[0], delimiter);
      BlankText(row, delimiter);
      if |table| == 1 {
        if !Blank(table[0]) {
          assert RowText(row, delimiter, QUOTE) + [] == text;
          RowRoundTrip(row, [], delimiter);
          assert NormalizedTable(table) == [NormalizedRow(row)];
        }
      } else {
        var next := TableText(table[1..], delimiter, QUOTE);
        assert text == RowText(row, delimiter, QUOTE) + (CRLF + next);
        RowRoundTrip(row, CRLF + next, delimiter);
        LineFeed(next);
        TableReads(table[1..], delimiter);
      }
    }
  }

  /** Tables whose text shows every row: none is without cells, and the last is not a single empty cell. */
  predicate Writable(table: Table) {
    && (forall i :: 0 <= i < |table| ==> table[i] != [])
    && (table != [] ==> table[|table| - 1] != [[]])
  }

  lemma {:induction false} ShownIsTable(table: Table)
    ensures NormalizedTable(Shown(table)) == NormalizedTable(table) <==> Writable(table)
    ensures |NormalizedTable(table)| == |table|
    decreases |table|
  {
    if |table| == 1 {
      assert table[1..] == [];
      assert NormalizedTable(table) == [NormalizedRow(table[0])];
    } else if |table| > 1 {
      var rest := table[1..];
      ShownIsTable(rest);
      var row := if table[0] == [] then [[]] else table[0];
      assert NormalizedTable(table) == [NormalizedRow(table[0])] + NormalizedTable(rest);
      assert NormalizedTable(Shown(table)) == [NormalizedRow(row)] + NormalizedTable(Shown(rest)) by {
        assert Shown(table)[1..] == Shown(rest);
      }
      assert NormalizedRow(row) == NormalizedRow(table[0]) <==> table[0] != [];
      assert Writable(table) <==> table[0] != [] && Writable(rest) by {
        assert forall i :: 0 < i < |table| ==> table[i] == rest[i - 1];
        assert forall i :: 0 <= i < |rest| ==> rest[i] == table[i + 1];
      }
      SameCons(NormalizedRow(row), NormalizedTable(Shown(rest)), NormalizedRow(table[0]), NormalizedTable(rest));
    }
  }

  lemma SameCons(a: Row, s: Table, b: Row, t: Table)
    ensures [a] + s == [b] + t <==> a == b && s == t
  {
    if [a] + s == [b] + t {
      assert a == ([a] + s)[0] == ([b] + t)[0] == b;
      assert s == ([a] + s)[1..] == ([b] + t)[1..] == t;
    }
  }

  /** A table comes back from its text exactly when the text shows every row. */
  lemma TableRoundTrip(table: Table, delimiter: Delimiter)
    requires GoodDelimiter(delimiter)
    ensures ReadTable(TableText(table, delimiter, QUOTE), delimiter) == NormalizedTable(table) <==> Writable(table)
  {
    TableReads(table, delimiter);
    ShownIsTable(table);
  }

  // ---------- which separator the reader uses ----------

  lemma {:induction false} PlainWithWrongSeparator(cell: Text, rest: Text, delimiter: Delimiter, separator: CodeUnit)
    requires GoodDelimiter(delimiter) && Plain(cell, delimiter) && separator != delimiter
    ensures var line := FirstLine(cell + ([delimiter] + rest));
            line != [] && line[0] != QUOTE && Find(line, separator) != |cell|
  {
    LinePrefix(cell, [delimiter] + rest, delimiter);
    LineCons(delimiter, rest);
    var line := FirstLine(cell + ([delimiter] + rest));
    assert line == cell + ([delimiter] + FirstLine(rest));
    assert line[|cell|] == delimiter;
  }

  /** With another separator the first cell takes in the delimiter, or ends too early. */
  lemma WrongFirstCell(cell: Text, rest: Text, delimiter: Delimiter, separator: CodeUnit)
    requires GoodDelimiter(delimiter) && separator != delimiter
    ensures CellAt(CellText(cell, delimiter, QUOTE) + ([delimiter] + rest), separator).text != Normalized(cell)
  {
    var after := [delimiter] + rest;
    if NeedsQuotes(cell, delimiter, QUOTE) {
      QuotedText(cell, after, delimiter);
      WrongAfterQuotes(cell, rest, delimiter, separator);
    } else {
      EscapesAre(delimiter);
      PlainWithWrongSeparator(cell, rest, delimiter, separator);
      PlainIsNormalized(cell);
      var line := FirstLine(cell + after);
      var p := Find(line, separator);
      assert |CellAt(cell + after, separator).text| == p;
    }
  }

  lemma {:induction false} PlainIsNormalized(cell: Text)
    requires forall i :: 0 <= i < |cell| ==> cell[i] != CR
    ensures Normalized(cell) == cell
  {
    if cell != [] {
      NormalizedCons(cell);
      PlainIsNormalized(cell[1..]);
    }
  }

  lemma WrongAfterQuotes(cell: Text, rest: Text, delimiter: Delimiter, separator: CodeUnit)
    requires GoodDelimiter(delimiter) && separator != delimiter
    ensures CellAt([QUOTE] + Body(cell, [delimiter] + rest), separator).text != Normalized(cell)
  {
    var after := [delimiter] + rest;
    LineCons(delimiter, rest);
    var line := FirstLine(after);
    assert line[0] == delimiter;
    var p := Find(line, separator);
    TextAfterQuotes(cell, after, separator, p);
    assert |Normalized(cell) + line[..p]| == |Normalized(cell)| + p;
  }

  lemma TextOfFirst(table: Table, delimiter: Delimiter) returns (rest: Text)
    requires table != [] && |table[0]| > 1
    ensures TableText(table, delimiter, QUOTE) == CellText(table[0][0], delimiter, QUOTE) + ([delimiter] + rest)
  {
    var cell := CellText(table[0][0], delimiter, QUOTE);
    var row := RowText(table[0][1..], delimiter, QUOTE);
    Reassociate(cell, [delimiter], row);
    rest := row;
    if |table| > 1 {
      var more := CRLF + TableText(table[1..], delimiter, QUOTE);
      rest := row + more;
      Reassociate(RowText(table[0], delimiter, QUOTE), CRLF, TableText(table[1..], delimiter, QUOTE));
      Reassociate(cell, [delimiter] + row, more);
      Reassociate([delimiter], row, more);
    }
  }

  lemma FirstCellRead(text: Text, separator: CodeUnit)
    requires text != [] && ReadTable(text, separator)[0] != []
    ensures ReadTable(text, separator)[0][0] == CellAt(text, separator).text
  {
  }

  /** A table with two cells in its first row comes back exactly when the reader uses the writer's delimiter. */
  lemma SeparatorMatters(table: Table, delimiter: Delimiter, separator: CodeUnit)
    requires GoodDelimiter(delimiter) && Writable(table) && table != [] && |table[0]| > 1
    ensures var text := TableText(table, delimiter, QUOTE);
            ReadTable(text, separator) == NormalizedTable(table) <==> separator == delimiter
  {
    if separator == delimiter {
      TableRoundTrip(table, delimiter);
    } else {
      var text := TableText(table, delimiter, QUOTE);
      var rest := TextOfFirst(table, delimiter);
      WrongFirstCell(table[0][0], rest, delimiter, separator);
      assert NormalizedTable(table)[0][0] == Normalized(table[0][0]);
      if ReadTable(text, separator) == NormalizedTable(table) { FirstCellRead(text, separator); }
    }
  }

  /** A signature is looked for in the raw line, so one that was quoted is missed, and quotes alone are misread. */
  predicate SignatureWorks(cell: Text, delimiter: Delimiter) {
    || (cell != [] && Plain(cell, delimiter))
    || (delimiter == COMMA && !(cell != [] && forall i :: 0 <= i < |cell| ==> cell[i] == QUOTE))
  }

  lemma {:induction false} LinePrefix(cell: Text, rest: Text, delimiter: Delimiter)
    requires Plain(cell, delimiter)
    ensures FirstLine(cell + rest) == cell + FirstLine(rest)
  {
    if cell == [] {
      assert cell + rest == rest;
    } else {
      assert cell + rest == [cell[0]] + (cell[1..] + rest);
      LinePrefix(cell[1..], rest, delimiter);
      LineCons(cell[0], cell[1..] + rest);
    }
  }

  lemma PlainSignature(cell: Text, rest: Text, delimiter: Delimiter)
    requires GoodDelimiter(delimiter) && cell != [] && Plain(cell, delimiter)
    ensures Separator(cell + ([delimiter] + rest), cell) == delimiter
  {
    LinePrefix(cell, [delimiter] + rest, delimiter);
    LineCons(delimiter, rest);
  }

  predicate StartsWithQuotes(text: Text, n: nat) { n <= |text| && forall i :: 0 <= i < n ==> text[i] == QUOTE }

  lemma LineOfQuotes(text: Text, n: nat)
    requires StartsWithQuotes(text, n)
    ensures StartsWithQuotes(FirstLine(text), n)
  {
  }

  lemma {:induction false} DoubledQuotes(cell: Text, n: nat)
    requires StartsWithQuotes(cell, n)
    ensures StartsWithQuotes(Doubled(cell), 2 * n)
  {
    if n > 0 {
      DoubledCons(cell);
      DoubledQuotes(cell[1..], n - 1);
    }
  }

  /** A quoted cell that begins with n quotes is written with 2n + 1 of them in front. */
  lemma QuotesInFront(cell: Text, rest: Text, n: nat)
    requires StartsWithQuotes(cell, n)
    ensures StartsWithQuotes(FirstLine([QUOTE] + Body(cell, rest)), 2 * n + 1)
  {
    DoubledQuotes(cell, n);
    LineOfQuotes([QUOTE] + Body(cell, rest), 2 * n + 1);
  }

  function LeadingQuotes(cell: Text): (n: nat)
    ensures StartsWithQuotes(cell, n) && (n < |cell| ==> cell[n] != QUOTE)
  {
    if cell == [] || cell[0] != QUOTE then 0 else 1 + LeadingQuotes(cell[1..])
  }

  lemma QuotedSignature(cell: Text, rest: Text)
    requires cell != []
    ensures Separator([QUOTE] + Body(cell, rest), cell) ==
            if forall i :: 0 <= i < |cell| ==> cell[i] == QUOTE then QUOTE else COMMA
  {
    var n := LeadingQuotes(cell);
    var line := FirstLine([QUOTE] + Body(cell, rest));
    QuotesInFront(cell, rest, n);
    if n < |cell| {
      assert line[n] == QUOTE && cell[n] != QUOTE;
      assert |line| >= |cell| ==> line[..|cell|][n] == QUOTE;
    } else {
      assert StartsWith(line, cell) by { assert line[..|cell|] == cell; }
    }
  }

  /** A signature equal to the first cell finds the delimiter if and only if it works. */
  lemma SignatureFindsDelimiter(table: Table, delimiter: Delimiter)
    requires GoodDelimiter(delimiter) && table != [] && |table[0]| > 1
    ensures Separator(TableText(table, delimiter, QUOTE), table[0][0]) == delimiter <==>
            SignatureWorks(table[0][0], delimiter)
  {
    var cell := table[0][0];
    var rest := TextOfFirst(table, delimiter);
    EscapesAre(delimiter);
    if cell != [] {
      if NeedsQuotes(cell, delimiter, QUOTE) {
        QuotedText(cell, [delimiter] + rest, delimiter);
        QuotedSignature(cell, [delimiter] + rest);
      } else {
        PlainSignature(cell, rest, delimiter);
      }
    }
  }

  /**
   * Reading back a table with two cells in its first row: without a signature it takes the comma, and with its
   * first cell as signature it takes one that works. Both conditions are exact.
   */
  lemma RoundTrip(table: Table, delimiter: Delimiter)
    requires GoodDelimiter(delimiter) && Writable(table) && table != [] && |table[0]| > 1
    ensures var text := TableText(table, delimiter, QUOTE);
            && (ReadAll(text, []) == NormalizedTable(table) <==> delimiter == COMMA)
            && (ReadAll(text, table[0][0]) == NormalizedTable(table) <==> SignatureWorks(table[0][0], delimiter))
  {
    var text := TableText(table, delimiter, QUOTE);
    SeparatorMatters(table, delimiter, COMMA);
    SeparatorMatters(table, delimiter, Separator(text, table[0][0]));
    SignatureFindsDelimiter(table, delimiter);
  }

  /** A comma file with the first cell `"`, and its signature: the separator becomes the quote. */
  lemma QuoteSignatureFails()
    ensures var table: Table := [[[QUOTE], [98]]];
            && Separator(TableText(table, COMMA, QUOTE), [QUOTE]) == QUOTE
            && ReadAll(TableText(table, COMMA, QUOTE), [QUOTE]) != NormalizedTable(table)
  {
    var table: Table := [[[QUOTE], [98]]];
    var rest := TextOfFirst(table, COMMA);
    EscapesAre(COMMA);
    assert table[0][0] == [QUOTE] && [QUOTE][0] in Escapes(COMMA, QUOTE);
    QuotedText([QUOTE], [COMMA] + rest, COMMA);
    QuotedSignature([QUOTE], [COMMA] + rest);
    RoundTrip(table, COMMA);
  }

  /** A file delimited by `;` with the first cell `;`, and its signature: the separator stays the comma. */
  lemma QuotedSignatureFails()
    ensures var table: Table := [[[59], [98]]];
            && Separator(TableText(table, 59, QUOTE), [59]) == COMMA
            && ReadAll(TableText(table, 59, QUOTE), [59]) != NormalizedTable(table)
  {
    var table: Table := [[[59], [98]]];
    var rest := TextOfFirst(table, 59);
    EscapesAre(59);
    assert table[0][0] == [59] && [59][0] in Escapes(59, QUOTE);
    QuotedText([59], [59] + rest, 59);
    QuotedSignature([59], [59] + rest);
    RoundTrip(table, 59);
  }

  /** A table whose last row is one empty cell loses that row. */
  lemma BlankRowFails()
    ensures !Writable([[[]]]) && ReadTable(TableText([[[]]], COMMA, QUOTE), COMMA) != NormalizedTable([[[]]])
  {
    TableRoundTrip([[[]]], COMMA);
  }

  /** The objects do what the texts say: what a `Writer` without a mark has written, a `Reader` reads. */
  method WriteAndRead(table: Table, delimiter: Delimiter, signature: Text) returns (copy: Table)
    requires GoodDelimiter(delimiter) && table != []
    ensures signature == [] && delimiter == COMMA ==> (copy == NormalizedTable(table) <==> Writable(table))
    ensures Writable(table) && |table[0]| > 1 && signature == [] ==>
              (copy == NormalizedTable(table) <==> delimiter == COMMA)
    ensures Writable(table) && |table[0]| > 1 && signature == table[0][0] ==>
              (copy == NormalizedTable(table) <==> SignatureWorks(signature, delimiter))
  {
    var writer := new CsvFiles.Writer([], delimiter, QUOTE);
    writer.WriteTable(table);
    copy := CsvFiles.ReadFile(writer.stream, signature);
    assert [] + TableText(table, delimiter, QUOTE) == TableText(table, delimiter, QUOTE);
    TableRoundTrip(table, delimiter);
    if Writable(table) && |table[0]| > 1 { RoundTrip(table, delimiter); }
  }

  // ---------- the four delimiters that do not work ----------

  ghost predicate RoundTrips(delimiter: Delimiter) {
    forall table: Table :: Writable(table) ==>
      ReadTable(TableText(table, delimiter, QUOTE), delimiter) == NormalizedTable(table)
  }

  lemma {:induction false} CStringWithin(s: Text)
    ensures forall u :: u in CString(s) ==> u in s && u != NUL
  {
    if s != [] && s[0] != NUL { CStringWithin(s[1..]); }
  }

  lemma PlainCell(cell: Text, delimiter: Delimiter)
    requires forall i :: 0 <= i < |cell| ==> cell[i] == NUL || cell[i] !in [CR, LF, delimiter, QUOTE]
    ensures CellText(cell, delimiter, QUOTE) == cell
  {
    CStringWithin([CR, LF, delimiter, QUOTE]);
  }

  lemma PlainPair(a: Text, b: Text, delimiter: Delimiter)
    requires CellText(a, delimiter, QUOTE) == a && CellText(b, delimiter, QUOTE) == b
    ensures TableText([[a, b]], delimiter, QUOTE) == a + [delimiter] + b
    ensures |NormalizedTable([[a, b]])| == 1 && |NormalizedTable([[a, b]])[0]| == 2
  {
    assert [a, b][1..] == [b] && [b][1..] == [] && [[a, b]][1..] == [];
    assert RowText([b], delimiter, QUOTE) == b;
    assert RowText([a, b], delimiter, QUOTE) == a + [delimiter] + b;
    assert NormalizedRow([b]) == [Normalized(b)];
    assert NormalizedRow([a, b]) == [Normalized(a), Normalized(b)];
  }

  /** An empty first cell makes the delimiter look like an opening quote. */
  lemma QuoteFails()
    ensures !RoundTrips(QUOTE)
  {
    PlainCell([], QUOTE);
    PlainCell([98], QUOTE);
    PlainPair([], [98], QUOTE);
    var text: Text := [QUOTE, 98];
    assert [] + [QUOTE] + [98] == text;
    assert text[1..] == [98] && text[..2] == text;
    assert LineEnd([98]) == 1 && LineEnd(text) == 2 && FirstLine(text) == text;
    assert [98][1..] == [] && !QuotedBody([98], []).ok;
    assert ReadRow(text, [], QUOTE).0 == [];
    assert ReadTable(text, QUOTE)[0] == [];
    assert Writable([[[], [98]]]);
  }

  /** A delimiter at the end of the line is taken for half of a line break. */
  lemma CrFails()
    ensures !RoundTrips(CR)
  {
    PlainCell([97], CR);
    PlainCell([], CR);
    PlainPair([97], [], CR);
    var text: Text := [97, CR];
    assert [97] + [CR] + [] == text;
    assert text[1..] == [CR] && text[..2] == text && text[..1] == [97];
    assert LineEnd([CR]) == 1 && LineEnd(text) == 2 && FirstLine(text) == [97];
    assert [97][1..] == [] && Find([97], CR) == 1;
    assert ReadRow([97], [], CR).0 == [[97]];
    assert |ReadTable(text, CR)[0]| == 1;
    assert Writable([[[97], []]]);
  }

  /** The delimiter splits the record into two lines. */
  lemma LfFails()
    ensures !RoundTrips(LF)
  {
    PlainCell([97], LF);
    PlainCell([98], LF);
    PlainPair([97], [98], LF);
    var text: Text := [97, LF, 98];
    assert [97] + [LF] + [98] == text;
    assert text[1..] == [LF, 98] && text[..1] == [97] && text[2..] == [98];
    assert LineEnd([LF, 98]) == 0 && LineEnd(text) == 1 && FirstLine(text) == [97];
    assert [97][1..] == [] && Find([97], LF) == 1;
    assert ReadRow([97], [98], LF).0 == [[97]];
    assert |ReadTable(text, LF)[0]| == 1;
    assert Writable([[[97], [98]]]);
  }

  /** A zero delimiter ends the array of units that force quotes, so a cell that holds it is not quoted. */
  lemma NulFails()
    ensures !RoundTrips(NUL)
  {
    PlainCell([NUL], NUL);
    var table: Table := [[[NUL]]];
    assert TableText(table, NUL, QUOTE) == [NUL];
    assert [NUL][1..] == [] && [NUL][..1] == [NUL];
    assert LineEnd([NUL]) == 1 && FirstLine([NUL]) == [NUL];
    assert ReadCell([NUL], [], NUL) == Scan(true, [], [], [], true);
    assert |ReadRow([NUL], [], NUL).0| == 2;
    assert |ReadTable([NUL], NUL)[0]| == 2;
    assert table[0][1..] == [] && NormalizedRow(table[0]) == [Normalized([NUL])];
    assert |NormalizedTable(table)[0]| == 1;
    assert Writable(table);
  }

  /** A delimiter works for every table exactly when it is none of quote, CR, LF and NUL. */
  lemma DelimitersThatWork(delimiter: Delimiter)
    ensures RoundTrips(delimiter) <==> GoodDelimiter(delimiter)
  {
    if GoodDelimiter(delimiter) {
      forall table: Table | Writable(table)
        ensures ReadTable(TableText(table, delimiter, QUOTE), delimiter) == NormalizedTable(table)
      {
        TableRoundTrip(table, delimiter);
      }
    } else {
      QuoteFails();
      CrFails();
      LfFails();
      NulFails();
    }
  }
}
