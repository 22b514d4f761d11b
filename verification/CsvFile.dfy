/** The CSV reader as objects: text streams, and the file that is read into a table. */
module CsvFile {
  import opened Options
  import opened CsvLogic

  /** A text stream; `getline` takes from its front. */
  class TextStream {
    var rest: string

    constructor (text: string)
      ensures rest == text
    {
      rest := text;
    }

    /** The text up to the delimiter, which is dropped; fails on an empty rest. */
    method GetLine(d: char) returns (ok: bool, value: string)
      modifies this
      ensures ok == (old(rest) != "")
      ensures ok ==> Split(old(rest), d) == [value] + Split(rest, d)
      ensures !ok ==> value == "" && rest == ""
      ensures |rest| <= |old(rest)| && (ok ==> |rest| < |old(rest)|)
    {
      ok, value := rest != "", "";
      if !ok {
        return;
      }
      var n := 0;
      while n < |rest| && rest[n] != d
        invariant n <= |rest| && d !in rest[..n]
      {
        n := n + 1;
      }
      BeforeIs(rest, d, n);
      value := rest[..n];
      rest := if n == |rest| then "" else rest[n + 1..];
    }
  }

  class CsvFile {
    var columnNames: Row
    var columnCount: nat
    var rowStrings: seq<Row>
    var rowCount: nat
    var colIndex: map<string, nat>

    ghost function View(): Table
      reads this
    {
      Table(columnNames, columnCount, rowStrings, rowCount, colIndex)
    }

    constructor ()
      ensures View() == EMPTY
    {
      columnNames, columnCount, rowStrings, rowCount, colIndex := [], 0, [], 0, map[];
    }

    /** `_readRow`: the fields of a line, added to `start`. */
    method ReadRow(line: string, start: Row) returns (row: Row)
      ensures row == start + Fields(line)
    {
      var strm := new TextStream(line);
      row := start;
      var ok, colVal := strm.GetLine(',');
      while ok
        invariant fresh(strm)
        invariant if ok then row + [colVal] + Split(strm.rest, ',') == start + Fields(line)
                  else row == start + Fields(line) && strm.rest == ""
        decreases |strm.rest|, ok
      {
        row := row + [colVal];
        ok, colVal := strm.GetLine(',');
      }
    }

    /** `_organize`: the outcome names the first column that is there already. */
    method Organize() returns (outcome: Outcome)
      requires columnCount == |columnNames|
      modifies this`colIndex
      ensures var (index, duplicate) := Organized(old(colIndex), columnNames, 0);
              colIndex == index && outcome == if duplicate.None? then Done else DuplicateColumn(duplicate.value)
    {
      for j := 0 to columnCount
        invariant Organized(colIndex, columnNames, j) == Organized(old(colIndex), columnNames, 0)
      {
        if columnNames[j] in colIndex {
          return DuplicateColumn(columnNames[j]);
        }
        colIndex := colIndex[columnNames[j] := j];
      }
      return Done;
    }

    /** The data rows; `outcome` is `Done` with `blank` when a blank line ended the reading. */
    method ReadRows(fstrm: TextStream) returns (stop: Stop)
      requires columnCount == |columnNames|
      modifies this`rowStrings, fstrm
      ensures var (rows, s) := RowsRead(|columnNames|, Split(old(fstrm.rest), '\n'), 0);
              rowStrings == old(rowStrings) + rows && stop == s
    {
      hide Split, Fields;
      var n := 0;
      ghost var lines := Split(fstrm.rest, '\n');
      ghost var all := RowsRead(columnCount, lines, 0);
      SplitNothing('\n');
      var ok, line := fstrm.GetLine('\n');
      while ok
        invariant lines == (if ok then [line] else []) + Split(fstrm.rest, '\n')
        invariant lines == [] <==> !ok
        invariant rowStrings + RowsRead(columnCount, lines, n).0 == old(rowStrings) + all.0
        invariant RowsRead(columnCount, lines, n).1 == all.1
        decreases |fstrm.rest|, ok
      {
        var row := ReadRow(line, []);
        assert row == Fields(line);
        assert lines[1..] == Split(fstrm.rest, '\n');
        if |row| == 0 {
          return BlankLine;
        }
        if |row| < |columnNames| {
          return TooShort(n);
        }
        assert RowsRead(columnCount, lines, n).0 == [row] + RowsRead(columnCount, lines[1..], n + 1).0;
        rowStrings := rowStrings + [row];
        n := n + 1;
        lines := lines[1..];
        ok, line := fstrm.GetLine('\n');
      }
      return AllRead;
    }

    /** `read`, given the content of the file if it could be opened. */
    method Read(content: Option<string>) returns (outcome: Outcome)
      modifies this
      ensures (View(), outcome) == ReadInto(old(View()), content)
    {
      if content.None? {
        return CannotOpen;
      }
      var fstrm := new TextStream(content.value);
      ghost var lines := Split(content.value, '\n');
      var _, line := fstrm.GetLine('\n');
      assert lines != [] ==> lines[1..] == Split(fstrm.rest, '\n');
      columnNames := ReadRow(line, columnNames);
      columnCount := |columnNames|;
      var stop := ReadRows(fstrm);
      match stop {
        case BlankLine => return Done;
        case TooShort(row) => return IncompleteRow(row);
        case AllRead =>
      }
      rowCount := |rowStrings|;
      outcome := Organize();
    }

    /** `appendRow` */
    static method AppendRow(os: string, row: Row) returns (text: string)
      ensures text == os + Joined(row) + "\n"
    {
      text := os;
      var first := true;
      for i := 0 to |row|
        invariant first == (i == 0)
        invariant text + (if 0 < i < |row| then "," else "") + Joined(row[i..]) == os + Joined(row)
      {
        assert row[i..][1..] == row[i + 1..];
        if first {
          first := false;
        } else {
          text := text + ",";
        }
        text := text + row[i];
      }
      text := text + "\n";
    }

    method DumpStr() returns (text: string)
      ensures text == Dump(columnNames, rowStrings)
    {
      text := AppendRow("", columnNames);
      for i := 0 to |rowStrings|
        invariant text + Printed(rowStrings[i..]) == Dump(columnNames, rowStrings)
      {
        assert rowStrings[i..][1..] == rowStrings[i + 1..];
        text := AppendRow(text, rowStrings[i]);
      }
    }

    method GetValue(col: string, row: int) returns (value: Lookup)
      ensures value == ValueAt(View(), col, row)
    {
      if row < 0 || row >= rowCount {
        return NoRow;
      }
      if col !in colIndex {
        return NoColumn;
      }
      if row >= |rowStrings| || colIndex[col] >= |rowStrings[row]| {
        return PastEnd;
      }
      return Found(rowStrings[row][colIndex[col]]);
    }
  }
}
