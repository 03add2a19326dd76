/** The text `CsvWriter` produces for a table, and the table `CsvReader` makes of a text, unit by unit. */
module CsvFormat {
  import opened StringUtil

  const NUL: CodeUnit := 0
  const LF: CodeUnit := 10
  const CR: CodeUnit := 13
  const QUOTE: CodeUnit := 34
  const COMMA: CodeUnit := 44

  const CRLF: Text := [CR, LF]

  /** The writer's delimiter is a `char` that goes out as one byte, so only ASCII is the same unit for the reader. */
  type Delimiter = c: CodeUnit | c < 128

  type Row = seq<Text>
  type Table = seq<Row>

  // ---------- writing ----------

  /** A zero-terminated array read as a string. */
  function CString(s: Text): Text {
    if s == [] || s[0] == NUL then [] else [s[0]] + CString(s[1..])
  }

  /** The units that force a cell into quotes. */
  function Escapes(delimiter: CodeUnit, quote: CodeUnit): Text { CString([CR, LF, delimiter, quote]) }

  predicate NeedsQuotes(raw: Text, delimiter: CodeUnit, quote: CodeUnit) {
    exists i :: 0 <= i < |raw| && raw[i] in Escapes(delimiter, quote)
  }

  function CellText(raw: Text, delimiter: CodeUnit, quote: CodeUnit): Text {
    if NeedsQuotes(raw, delimiter, quote)
    then [quote] + Replaced(raw, [quote], CString([quote, quote])) + [quote]
    else raw
  }

  function RowText(row: Row, delimiter: CodeUnit, quote: CodeUnit): Text {
    if row == [] then []
    else if |row| == 1 then CellText(row[0], delimiter, quote)
    else CellText(row[0], delimiter, quote) + [delimiter] + RowText(row[1..], delimiter, quote)
  }

  function TableText(table: Table, delimiter: CodeUnit, quote: CodeUnit): Text {
    if table == [] then []
    else if |table| == 1 then RowText(table[0], delimiter, quote)
    else RowText(table[0], delimiter, quote) + CRLF + TableText(table[1..], delimiter, quote)
  }

  // ---------- reading ----------

  /** The position of the first line feed, or the length of the text. */
  function LineEnd(text: Text): (e: nat)
    ensures e <= |text|
    ensures e < |text| ==> text[e] == LF
    ensures forall i :: 0 <= i < e ==> text[i] != LF
  {
    if text == [] || text[0] == LF then 0 else 1 + LineEnd(text[1..])
  }

  function StripCr(line: Text): Text {
    if line != [] && line[|line| - 1] == CR then line[..|line| - 1] else line
  }

  /** The next physical line, without its line break. */
  function FirstLine(text: Text): Text { StripCr(text[..LineEnd(text)]) }

  /** What follows the next physical line. */
  function AfterLine(text: Text): (r: Text)
    ensures text != [] ==> |r| < |text|
  {
    if LineEnd(text) < |text| then text[LineEnd(text) + 1..] else []
  }

  /** A cell or the body of one, with what is left of the line and of the stream. */
  datatype Scan = Scan(ok: bool, text: Text, tail: Text, rest: Text, more: bool)

  /** Inside quotes: up to the closing quote, over line breaks. */
  function QuotedBody(tail: Text, rest: Text): (r: Scan)
    ensures r.ok ==> |r.rest| < |rest| || (r.rest == rest && |r.tail| < |tail|)
    ensures |r.rest| <= |rest| && !r.more
    decreases |rest|, |tail|
  {
    if tail == [] then
      if rest == [] then Scan(false, [], [], [], false)
      else Prefixed(LF, QuotedBody(FirstLine(rest), AfterLine(rest)))
    else if tail[0] != QUOTE then Prefixed(tail[0], QuotedBody(tail[1..], rest))
    else if |tail| > 1 && tail[1] == QUOTE then Prefixed(QUOTE, QuotedBody(tail[2..], rest))
    else Scan(true, [], tail[1..], rest, false)
  }

  function Prefixed(c: CodeUnit, scan: Scan): Scan { scan.(text := [c] + scan.text) }

  /** The first position of the unit, or the length of the text. */
  function Find(text: Text, c: CodeUnit): (p: nat)
    ensures p <= |text|
    ensures p < |text| ==> text[p] == c
    ensures forall i :: 0 <= i < p ==> text[i] != c
  {
    if text == [] || text[0] == c then 0 else 1 + Find(text[1..], c)
  }

  /** The rest of a cell: up to the separator or the end of the line. */
  function ToSeparator(tail: Text, rest: Text, separator: CodeUnit): Scan {
    var p := Find(tail, separator);
    if p == |tail| then Scan(true, tail, [], rest, false)
    else Scan(true, tail[..p], tail[p + 1..], rest, true)
  }

  function ReadCell(tail: Text, rest: Text, separator: CodeUnit): (r: Scan)
    ensures |r.rest| <= |rest|
    ensures r.ok && r.more ==> |r.rest| < |rest| || (r.rest == rest && |r.tail| < |tail|)
  {
    if tail != [] && tail[0] == QUOTE then
      var body := QuotedBody(tail[1..], rest);
      if !body.ok then body
      else
        var end := ToSeparator(body.tail, body.rest, separator);
        end.(text := body.text + end.text)
    else ToSeparator(tail, rest, separator)
  }

  /** The cells of a record, and what is left of the stream. */
  function ReadRow(tail: Text, rest: Text, separator: CodeUnit): (r: (Row, Text))
    ensures |r.1| <= |rest|
    decreases |rest|, |tail|
  {
    var cell := ReadCell(tail, rest, separator);
    if !cell.ok then ([], cell.rest)
    else if !cell.more then ([cell.text], cell.rest)
    else
      var more := ReadRow(cell.tail, cell.rest, separator);
      ([cell.text] + more.0, more.1)
  }

  function ReadTable(text: Text, separator: CodeUnit): Table
    decreases |text|
  {
    if text == [] then []
    else
      var row := ReadRow(FirstLine(text), AfterLine(text), separator);
      [row.0] + ReadTable(row.1, separator)
  }

  /** The separator: the unit after the signature, if the first line starts with it. */
  function Separator(text: Text, signature: Text): CodeUnit {
    if signature != [] && |FirstLine(text)| > |signature| && StartsWith(FirstLine(text), signature)
    then FirstLine(text)[|signature|] else COMMA
  }

  function ReadAll(text: Text, signature: Text): Table { ReadTable(text, Separator(text, signature)) }
}
