/** `CsvWriter` and `CsvReader` themselves, as objects that work on a stream. */
module CsvFiles {
  import opened Collections
  import opened StringUtil
  import opened CsvFormat

  /** `StringToCsv`: quotes a cell if it must be, doubling the quotes inside it. */
  method StringToCsv(raw: Text, delimiter: CodeUnit, quote: CodeUnit) returns (r: Text)
    ensures r == CellText(raw, delimiter, quote)
  {
    if NeedsQuotes(raw, delimiter, quote) {
      r := [quote] + raw;
      assert r[..1] == [quote] && r[1..] == raw;
      r := ReplaceSubstringsAfterOffset(r, |r| - |raw|, [quote], CString([quote, quote]));
      r := r + [quote];
    } else {
      r := raw;
    }
  }

  /** `stream` is what was written; the encoding is left out, a byte-order mark is given as text. */
  class Writer {
    var stream: Text
    const bom: Text
    const delimiter: Delimiter
    const quote: CodeUnit
    var bomWritten: bool
    var skipStart: bool
    var startOfLine: bool

    constructor (bom: Text, delimiter: Delimiter, quote: CodeUnit)
      ensures stream == [] && !bomWritten && skipStart && startOfLine
      ensures this.bom == bom && this.delimiter == delimiter && this.quote == quote
    {
      stream := [];
      this.bom, this.delimiter, this.quote := bom, delimiter, quote;
      bomWritten, skipStart, startOfLine := false, true, true;
    }

    method WriteBom()
      modifies this
      ensures stream == old(stream) + (if old(bomWritten) then [] else bom)
      ensures bomWritten && skipStart == old(skipStart) && startOfLine == old(startOfLine)
    {
      if bomWritten { return; }
      bomWritten := true;
      stream := stream + bom;
    }

    /** Ends the previous row, if there was one. */
    method StartRow()
      modifies this
      ensures stream == old(stream) + (if old(bomWritten) then [] else bom) + (if old(skipStart) then [] else CRLF)
      ensures bomWritten && !skipStart
      ensures startOfLine == (!old(skipStart) || old(startOfLine))
    {
      var skip := skipStart;
      skipStart := false;
      WriteBom();
      if skip { return; }
      stream := stream + CRLF;
      startOfLine := true;
    }

    method WriteCell(cell: Text)
      modifies this
      ensures stream == old(stream) + (if old(bomWritten) then [] else bom)
                        + (if old(startOfLine) then [] else [delimiter]) + CellText(cell, delimiter, quote)
      ensures bomWritten && !startOfLine && skipStart == old(skipStart)
    {
      WriteBom();
      if !startOfLine { stream := stream + [delimiter]; }
      startOfLine := false;
      var escaped := StringToCsv(cell, delimiter, quote);
      stream := stream + escaped;
    }

    /** One row, after `StartRow`. */
    method WriteRow(row: Row)
      requires bomWritten && startOfLine
      modifies this
      ensures stream == old(stream) + RowText(row, delimiter, quote)
      ensures bomWritten && skipStart == old(skipStart)
    {
      var i := 0;
      while i < |row|
        invariant 0 <= i <= |row|
        invariant bomWritten && skipStart == old(skipStart) && startOfLine == (i == 0)
        invariant stream == old(stream) + RowText(row[..i], delimiter, quote)
      {
        ghost var written := RowText(row[..i], delimiter, quote);
        WriteCell(row[i]);
        RowTextSnoc(row[..i], row[i], delimiter, quote);
        Appended(old(stream), written, if i == 0 then [] else [delimiter], CellText(row[i], delimiter, quote));
        assert row[..i] + [row[i]] == row[..i + 1];
        i := i + 1;
      }
      assert row[..|row|] == row;
    }

    /** The next row of a table. */
    method WriteNextRow(row: Row)
      requires if bomWritten then !skipStart else skipStart && startOfLine
      modifies this
      ensures bomWritten && !skipStart
      ensures stream == old(stream) + (if old(bomWritten) then CRLF else bom) + RowText(row, delimiter, quote)
    {
      StartRow();
      WriteRow(row);
    }

    /** A whole table on a fresh writer. */
    method WriteTable(table: Table)
      requires !bomWritten && skipStart && startOfLine && stream == [] && table != []
      modifies this
      ensures stream == bom + TableText(table, delimiter, quote)
    {
      WriteNextRow(table[0]);
      OneRow(table, delimiter, quote);
      var i := 1;
      while i < |table|
        invariant 0 < i <= |table| && bomWritten && !skipStart
        invariant stream == bom + TableText(table[..i], delimiter, quote)
      {
        WriteNextRow(table[i]);
        NextRowText(table, i, bom, delimiter, quote);
        i := i + 1;
      }
      assert table[..|table|] == table;
    }
  }

  lemma OneRow(table: Table, delimiter: CodeUnit, quote: CodeUnit)
    requires table != []
    ensures TableText(table[..1], delimiter, quote) == RowText(table[0], delimiter, quote)
  {
    assert table[..1] == [table[0]];
  }

  lemma NextRowText(table: Table, i: nat, bom: Text, delimiter: CodeUnit, quote: CodeUnit)
    requires 0 < i < |table|
    ensures bom + TableText(table[..i + 1], delimiter, quote)
         == bom + TableText(table[..i], delimiter, quote) + CRLF + RowText(table[i], delimiter, quote)
  {
    TableTextSnoc(table[..i], table[i], delimiter, quote);
    assert table[..i] + [table[i]] == table[..i + 1];
  }

  lemma Appended(start: Text, written: Text, between: Text, more: Text)
    ensures start + written + [] + between + more == start + (written + between + more)
  {
    assert start + written + [] == start + written;
    Reassociate(start, written, between);
    Reassociate(start, written + between, more);
  }

  lemma {:induction false} RowTextSnoc(row: Row, cell: Text, delimiter: CodeUnit, quote: CodeUnit)
    ensures RowText(row + [cell], delimiter, quote) ==
            RowText(row, delimiter, quote) + (if row == [] then [] else [delimiter]) + CellText(cell, delimiter, quote)
  {
    if row == [] {
      assert row + [cell] == [cell];
    } else if |row| == 1 {
      assert (row + [cell])[1..] == [cell];
    } else {
      var head, rest := CellText(row[0], delimiter, quote) + [delimiter], RowText(row[1..], delimiter, quote);
      assert (row + [cell])[1..] == row[1..] + [cell];
      RowTextSnoc(row[1..], cell, delimiter, quote);
      Reassociate(head, rest + [delimiter], CellText(cell, delimiter, quote));
      Reassociate(head, rest, [delimiter]);
    }
  }

  lemma {:induction false} TableTextSnoc(table: Table, row: Row, delimiter: CodeUnit, quote: CodeUnit)
    ensures TableText(table + [row], delimiter, quote) ==
            TableText(table, delimiter, quote) + (if table == [] then [] else CRLF) + RowText(row, delimiter, quote)
  {
    if table == [] {
      assert table + [row] == [row];
    } else if |table| == 1 {
      assert (table + [row])[1..] == [row];
    } else {
      var head, rest := RowText(table[0], delimiter, quote) + CRLF, TableText(table[1..], delimiter, quote);
      assert (table + [row])[1..] == table[1..] + [row];
      TableTextSnoc(table[1..], row, delimiter, quote);
      Reassociate(head, rest + CRLF, RowText(row, delimiter, quote));
      Reassociate(head, rest, CRLF);
    }
  }

  /** `getline` on what is left of the stream, then the line without its carriage return, breaks normalized. */
  class Reader {
    var stream: Text
    var signature: Text
    var separator: CodeUnit
    var line: Text
    var linePos: nat
    var hasCells: bool

    constructor (text: Text, signature: Text)
      ensures stream == text && this.signature == signature && separator == COMMA
      ensures line == [] && linePos == 0 && !hasCells
    {
      stream, this.signature, separator := text, signature, COMMA;
      line, linePos, hasCells := [], 0, false;
    }

    ghost predicate Valid() reads this { linePos <= |line| }

    /** What is left of the current line. */
    ghost function Tail(): Text reads this requires Valid() { line[linePos..] }

    method ReadPhysicalLine() returns (ok: bool)
      requires Valid()
      modifies this`stream, this`line, this`linePos
      ensures Valid() && ok == (old(stream) != [])
      ensures stream == AfterLine(old(stream))
      ensures if ok then line == FirstLine(old(stream)) && linePos == 0
              else line == old(line) && linePos == old(linePos)
    {
      ok := stream != [];
      if !ok { return; }
      var e := LineEnd(stream);
      line := stream[..e];
      stream := if e < |stream| then stream[e + 1..] else [];
      if line != [] && line[|line| - 1] == CR { line := line[..|line| - 1]; }
      ghost var raw := line;
      line := ReplaceSubstringsAfterOffset(line, 0, CRLF, [LF]);
      NothingToReplace(raw);
      assert raw[..0] == [] && raw[0..] == raw;
      linePos := 0;
    }

    /** The next record; the first one may say what the separator is. */
    method NextRow() returns (ok: bool)
      requires Valid()
      modifies this
      ensures Valid() && ok == (old(stream) != []) && stream == AfterLine(old(stream))
      ensures ok ==> line == FirstLine(old(stream)) && linePos == 0 && hasCells && signature == []
      ensures ok ==>
                separator == if old(signature) != [] && |line| > |old(signature)| && StartsWith(line, old(signature))
                             then line[|old(signature)|] else old(separator)
      ensures !ok ==> hasCells == old(hasCells) && separator == old(separator) && signature == old(signature)
    {
      linePos := 0;
      ok := ReadPhysicalLine();
      if !ok { return; }
      hasCells := true;
      if signature != [] {
        if |line| > |signature| && StartsWith(line, signature) { separator := line[|signature|]; }
        signature := [];
      }
    }

    /** The next cell of the record, as `ReadCell` describes it. */
    method NextCell() returns (ok: bool, cell: Text)
      requires Valid()
      modifies this`stream, this`line, this`linePos, this`hasCells
      ensures Valid()
      ensures !old(hasCells) ==> !ok && !hasCells && stream == old(stream)
      ensures old(hasCells) ==>
                var scan := ReadCell(old(Tail()), old(stream), separator);
                && ok == scan.ok && stream == scan.rest
                && (ok ==> cell == scan.text && hasCells == scan.more && (hasCells ==> Tail() == scan.tail))
                && (!ok ==> !hasCells)
    {
      cell := [];
      if !hasCells { return false, cell; }
      if linePos < |line| && line[linePos] == QUOTE {
        ghost var tail, rest := Tail(), stream;
        assert tail[0] == QUOTE && tail[1..] == line[linePos + 1..];
        linePos := linePos + 1;
        ok, cell := ReadQuoted();
        if !ok {
          hasCells := false;
          return;
        }
        ghost var body := QuotedBody(tail[1..], rest);
        var p := linePos + Find(line[linePos..], separator);
        if p == |line| {
          cell := cell + line[linePos..];
          linePos := |line|;
          hasCells := false;
        } else {
          cell := cell + line[linePos..p];
          assert line[linePos..][..p - linePos] == line[linePos..p];
          assert line[linePos..][p - linePos + 1..] == line[p + 1..];
          linePos := p + 1;
        }
        return true, cell;
      }
      var p := linePos + Find(line[linePos..], separator);
      if p == |line| {
        cell := line[linePos..];
        hasCells := false;
      } else {
        cell := line[linePos..p];
        assert line[linePos..][..p - linePos] == line[linePos..p];
        assert line[linePos..][p - linePos + 1..] == line[p + 1..];
        linePos := p + 1;
      }
      ok := true;
    }

    /** The loop over quotes and line breaks inside a quoted cell. */
    method ReadQuoted() returns (ok: bool, cell: Text)
      requires Valid()
      modifies this`stream, this`line, this`linePos
      ensures Valid()
      ensures var body := QuotedBody(old(Tail()), old(stream));
              && ok == body.ok && stream == body.rest
              && (ok ==> cell == body.text && Tail() == body.tail)
    {
      cell := [];
      ghost var body := QuotedBody(Tail(), stream);
      var done := false;
      ok := false;
      while !done
        invariant Valid() && (!done ==> Continues(body, cell, Tail(), stream))
        invariant done ==> ok == body.ok && stream == body.rest && (ok ==> cell == body.text && Tail() == body.tail)
        decreases !done, |stream|, |line| - linePos
      {
        done, ok, cell := QuotedStep(cell, body);
      }
    }

    /** One turn: to the next quote or over the line break; done at a closing quote or at the end of input. */
    method QuotedStep(collected: Text, ghost body: Scan) returns (done: bool, ok: bool, cell: Text)
      requires Valid() && Continues(body, collected, Tail(), stream)
      modifies this`stream, this`line, this`linePos
      ensures Valid()
      ensures !done ==> Continues(body, cell, Tail(), stream)
      ensures !done ==> |stream| < |old(stream)| || (stream == old(stream) && |line| - linePos < old(|line| - linePos))
      ensures done ==> ok == body.ok && stream == body.rest && (ok ==> cell == body.text && Tail() == body.tail)
    {
      ghost var tail, rest := Tail(), stream;
      var p := linePos + Find(line[linePos..], QUOTE);
      ghost var k := p - linePos;
      cell := collected + line[linePos..p];
      assert line[linePos..p] == tail[..k];
      if p == |line| {
        StepOverBreak(body, collected, tail, rest);
        ok := ReadPhysicalLine();
        done := !ok;
        if ok { cell := cell + [LF]; }
        assert ok ==> Tail() == FirstLine(rest);
      } else {
        assert tail[k + 1..] == line[p + 1..];
        ok := true;
        linePos := p + 1;
        done := linePos >= |line| || line[linePos] != QUOTE;
        if done {
          StepToClose(body, collected, tail, rest, k);
        } else {
          StepOverQuotes(body, collected, tail, rest, k);
          assert tail[k + 2..] == line[p + 2..];
          cell := cell + [QUOTE];
          linePos := linePos + 1;
        }
      }
    }
  }

  /** Reading on from here completes the body, given what was collected so far. */
  ghost predicate Continues(body: Scan, cell: Text, tail: Text, rest: Text) {
    var now := QuotedBody(tail, rest);
    && now.ok == body.ok && now.rest == body.rest
    && (body.ok ==> body.text == cell + now.text && body.tail == now.tail)
  }

  lemma Collected(cell: Text, plain: Text, c: CodeUnit, text: Text)
    ensures cell + (plain + ([c] + text)) == cell + plain + [c] + text
  {
    Reassociate(plain, [c], text);
    Reassociate(cell, plain + [c], text);
    Reassociate(cell, plain, [c]);
  }

  predicate PlainUpTo(tail: Text, k: nat) {
    k <= |tail| && (k < |tail| ==> tail[k] == QUOTE) && forall i :: 0 <= i < k ==> tail[i] != QUOTE
  }

  /** One turn of the loop: the units up to the end of the line, and the line break. */
  lemma StepOverBreak(body: Scan, cell: Text, tail: Text, rest: Text)
    requires Continues(body, cell, tail, rest) && PlainUpTo(tail, |tail|)
    ensures rest == [] ==> !body.ok && body.rest == []
    ensures rest != [] ==> Continues(body, cell + tail[..|tail|] + [LF], FirstLine(rest), AfterLine(rest))
  {
    PlainQuoted(tail, rest, |tail|);
    assert tail[|tail|..] == [];
    if rest != [] { Collected(cell, tail[..|tail|], LF, QuotedBody(FirstLine(rest), AfterLine(rest)).text); }
  }

  /** One turn of the loop: the units up to the next two quotes. */
  lemma StepOverQuotes(body: Scan, cell: Text, tail: Text, rest: Text, k: nat)
    requires Continues(body, cell, tail, rest) && PlainUpTo(tail, k) && k + 1 < |tail| && tail[k + 1] == QUOTE
    ensures Continues(body, cell + tail[..k] + [QUOTE], tail[k + 2..], rest)
  {
    PlainQuoted(tail, rest, k);
    assert tail[k..][0] == QUOTE && tail[k..][1] == QUOTE && tail[k..][2..] == tail[k + 2..];
    Collected(cell, tail[..k], QUOTE, QuotedBody(tail[k + 2..], rest).text);
  }

  /** The last turn of the loop: the units up to the closing quote. */
  lemma StepToClose(body: Scan, cell: Text, tail: Text, rest: Text, k: nat)
    requires Continues(body, cell, tail, rest) && PlainUpTo(tail, k) && k < |tail|
    requires k + 1 < |tail| ==> tail[k + 1] != QUOTE
    ensures body.ok && body.text == cell + tail[..k] && body.tail == tail[k + 1..] && body.rest == rest
  {
    PlainQuoted(tail, rest, k);
    assert tail[k..][0] == QUOTE && tail[k..][1..] == tail[k + 1..];
    assert k + 1 < |tail| ==> tail[k..][1] == tail[k + 1];
    assert tail[..k] + [] == tail[..k];
  }

  /** A physical line has no line feed left to replace. */
  lemma {:induction false} NothingToReplace(line: Text)
    requires forall i :: 0 <= i < |line| ==> line[i] != LF
    ensures Replaced(line, CRLF, [LF]) == line
  {
    if line != [] { NothingToReplace(line[1..]); }
  }

  /** Units before the next quote are taken as they are. */
  lemma {:induction false} PlainQuoted(tail: Text, rest: Text, k: nat)
    requires k <= |tail| && forall i :: 0 <= i < k ==> tail[i] != QUOTE
    ensures QuotedBody(tail, rest).text == tail[..k] + QuotedBody(tail[k..], rest).text
    ensures QuotedBody(tail, rest) == QuotedBody(tail[k..], rest).(text := QuotedBody(tail, rest).text)
  {
    if k == 0 {
      assert tail[0..] == tail && tail[..0] == [];
    } else {
      PlainQuoted(tail[1..], rest, k - 1);
      assert tail[1..][k - 1..] == tail[k..] && tail[..k] == [tail[0]] + tail[1..][..k - 1];
      Reassociate([tail[0]], tail[1..][..k - 1], QuotedBody(tail[k..], rest).text);
    }
  }

  /** What is left of the record and, after it, of the stream. */
  ghost function CellsLeft(reader: Reader): (Row, Text)
    requires reader.Valid()
    reads reader
  {
    if reader.hasCells then ReadRow(reader.Tail(), reader.stream, reader.separator) else ([], reader.stream)
  }

  /** The cells of the record a reader has just moved to. */
  method ReadCells(reader: Reader) returns (row: Row)
    requires reader.Valid()
    modifies reader
    ensures reader.Valid() && reader.separator == old(reader.separator) && reader.signature == old(reader.signature)
    ensures row == old(CellsLeft(reader).0) && reader.stream == old(CellsLeft(reader).1)
  {
    row := [];
    ghost var all := CellsLeft(reader);
    while true
      invariant reader.Valid()
      invariant reader.separator == old(reader.separator) && reader.signature == old(reader.signature)
      invariant all.0 == row + CellsLeft(reader).0 && all.1 == CellsLeft(reader).1
      decreases reader.hasCells, |reader.stream|, |reader.Tail()|
    {
      ghost var left := CellsLeft(reader);
      var ok, cell := reader.NextCell();
      if !ok { return; }
      assert left.0 == [cell] + CellsLeft(reader).0 && left.1 == CellsLeft(reader).1;
      Reassociate(row, [cell], CellsLeft(reader).0);
      row := row + [cell];
    }
  }

  /** The records left: the first one decides on the separator, if there is a signature. */
  function RowsLeft(stream: Text, signature: Text, separator: CodeUnit): Table {
    ReadTable(stream, if signature == [] then separator else Separator(stream, signature))
  }

  /** Every record of a text, the way the reader is used. */
  method ReadFile(text: Text, signature: Text) returns (table: Table)
    ensures table == ReadAll(text, signature)
  {
    var reader := new Reader(text, signature);
    table := [];
    while true
      invariant reader.Valid() && (reader.signature == [] || reader.separator == COMMA)
      invariant ReadAll(text, signature) == table + RowsLeft(reader.stream, reader.signature, reader.separator)
      decreases |reader.stream|
    {
      ghost var left := RowsLeft(reader.stream, reader.signature, reader.separator);
      var more := reader.NextRow();
      if !more { return; }
      assert reader.Tail() == reader.line;
      var row := ReadCells(reader);
      assert left == [row] + RowsLeft(reader.stream, reader.signature, reader.separator);
      Reassociate(table, [row], RowsLeft(reader.stream, reader.signature, reader.separator));
      table := table + [row];
    }
  }
}
