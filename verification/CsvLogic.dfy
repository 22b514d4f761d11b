/** Reading and printing tables of comma separated fields, as functions of text, and the round trip. */
module CsvLogic {
  import opened Options

  type Row = seq<string>

  // ---- `getline` ----

  /** The number of characters before the first `d`. */
  function Before(s: string, d: char): (n: nat)
    ensures n <= |s| && d !in s[..n] && (n < |s| ==> s[n] == d)
  {
    if s == [] || s[0] == d then 0
    else
      assert s[..1 + Before(s[1..], d)] == [s[0]] + s[1..][..Before(s[1..], d)];
      1 + Before(s[1..], d)
  }

  /** What repeated calls of `getline` give: nothing from an empty rest, so an empty last field is lost. */
  function Split(s: string, d: char): seq<string>
    decreases |s|
  {
    if s == [] then []
    else
      var n := Before(s, d);
      [s[..n]] + Split(if n == |s| then [] else s[n + 1..], d)
  }

  function Fields(line: string): Row { Split(line, ',') }

  // ---- Reading ----

  /** `index` maps a name to its column. */
  datatype Table = Table(columns: Row, columnCount: nat, rows: seq<Row>, rowCount: nat, index: map<string, nat>)

  const EMPTY := Table([], 0, [], 0, map[])

  /** How reading the data lines ends. */
  datatype Stop = AllRead | BlankLine | TooShort(row: nat)

  function RowsRead(width: nat, lines: seq<string>, rowCount: nat): (seq<Row>, Stop) {
    if lines == [] then ([], AllRead)
    else
      var row := Fields(lines[0]);
      if row == [] then ([], BlankLine)
      else if |row| < width then ([], TooShort(rowCount))
      else
        var (rest, stop) := RowsRead(width, lines[1..], rowCount + 1);
        ([row] + rest, stop)
  }

  /** `_organize` from column `j` on: the index, or the first name that is there already. */
  function Organized(index: map<string, nat>, columns: Row, j: nat): (map<string, nat>, Option<string>)
    requires j <= |columns|
    decreases |columns| - j
  {
    if j == |columns| then (index, None)
    else if columns[j] in index then (index, Some(columns[j]))
    else Organized(index[columns[j] := j], columns, j + 1)
  }

  datatype Outcome = Done | CannotOpen | IncompleteRow(row: nat) | DuplicateColumn(name: string)

  /** `read` on a table `t` and the content of the file, if it can be opened. A blank line ends the
      reading without an error but also without counting the rows or making the index. */
  function ReadInto(t: Table, content: Option<string>): (Table, Outcome) {
    if content.None? then (t, CannotOpen)
    else
      var lines := Split(content.value, '\n');
      var columns := t.columns + (if lines == [] then [] else Fields(lines[0]));
      var (rows, stop) := RowsRead(|columns|, if lines == [] then [] else lines[1..], 0);
      var t1 := t.(columns := columns, columnCount := |columns|, rows := t.rows + rows);
      match stop
      case BlankLine => (t1, Done)
      case TooShort(row) => (t1, IncompleteRow(row))
      case AllRead =>
        var (index, duplicate) := Organized(t.index, columns, 0);
        (t1.(rowCount := |t1.rows|, index := index),
         if duplicate.None? then Done else DuplicateColumn(duplicate.value))
  }

  // ---- Printing ----

  function Joined(row: Row): string {
    if row == [] then "" else if |row| == 1 then row[0] else row[0] + "," + Joined(row[1..])
  }

  function Printed(rows: seq<Row>): string {
    if rows == [] then "" else Joined(rows[0]) + "\n" + Printed(rows[1..])
  }

  function Dump(columns: Row, rows: seq<Row>): string { Printed([columns] + rows) }

  // ---- Which tables survive ----

  predicate Clean(field: string) { ',' !in field && '\n' !in field }

  predicate CleanRow(row: Row) {
    (forall f | f in row :: Clean(f)) && (row != [] ==> row[|row| - 1] != "")
  }

  predicate DistinctNames(columns: Row) { forall i, j | 0 <= i < j < |columns| :: columns[i] != columns[j] }

  predicate Survives(columns: Row, rows: seq<Row>) {
    && DistinctNames(columns) && CleanRow(columns)
    && forall r | r in rows :: CleanRow(r) && r != [] && |r| >= |columns|
  }

  // ---- Splitting ----

  lemma {:induction false} BeforeIs(s: string, d: char, n: nat)
    requires n <= |s| && d !in s[..n] && (n < |s| ==> s[n] == d)
    ensures Before(s, d) == n
  {
    if n > 0 {
      assert s[..n][0] != d;
      assert s[1..][..n - 1] == s[..n][1..];
      BeforeIs(s[1..], d, n - 1);
    }
  }

  lemma SplitFirst(a: string, rest: string, d: char)
    requires d !in a
    ensures Split(a + [d] + rest, d) == [a] + Split(rest, d)
  {
    var s := a + [d] + rest;
    assert s[..|a|] == a && s[|a| + 1..] == rest;
    BeforeIs(s, d, |a|);
  }

  lemma SplitLast(a: string, d: char)
    requires d !in a && a != ""
    ensures Split(a, d) == [a]
  {
    assert a[..|a|] == a;
    BeforeIs(a, d, |a|);
  }

  /** A piece holds no delimiter and nothing the text does not hold. */
  lemma {:induction false} PieceIsClean(s: string, d: char, i: nat)
    requires i < |Split(s, d)|
    ensures d !in Split(s, d)[i] && forall c | c in Split(s, d)[i] :: c in s
    decreases |s|
  {
    var n := Before(s, d);
    if i > 0 {
      PieceIsClean(if n == |s| then [] else s[n + 1..], d, i - 1);
    }
  }

  lemma LinesAreClean(text: string, i: nat, j: nat)
    requires i < |Split(text, '\n')| && j < |Fields(Split(text, '\n')[i])|
    ensures Clean(Fields(Split(text, '\n')[i])[j])
  {
    PieceIsClean(text, '\n', i);
    PieceIsClean(Split(text, '\n')[i], ',', j);
  }

  // ---- Printing and reading one row ----

  predicate AllClean(row: Row) { forall f | f in row :: Clean(f) }

  lemma SplitNothing(d: char)
    ensures Split("", d) == []
  {}

  /** A printed row has no line end, and reads back without an empty last field. */
  lemma {:induction false} JoinedReadsBack(row: Row)
    requires AllClean(row)
    ensures '\n' !in Joined(row)
    ensures Fields(Joined(row)) == if row != [] && row[|row| - 1] == "" then row[..|row| - 1] else row
  {
    hide Split;
    SplitNothing(',');
    if row != [] {
      assert Clean(row[0]);
      if |row| == 1 {
        if row[0] != "" { SplitLast(row[0], ','); }
      } else {
        JoinedReadsBack(row[1..]);
        assert Joined(row) == row[0] + [','] + Joined(row[1..]);
        SplitFirst(row[0], Joined(row[1..]), ',');
        assert row == [row[0]] + row[1..];
      }
    }
  }

  // ---- Printing and reading the table ----

  function Lines(rows: seq<Row>): seq<string> {
    if rows == [] then [] else [Joined(rows[0])] + Lines(rows[1..])
  }

  predicate AllRowsClean(rows: seq<Row>) { forall r | r in rows :: AllClean(r) }

  lemma {:induction false} PrintedSplits(rows: seq<Row>)
    requires AllRowsClean(rows)
    ensures Split(Printed(rows), '\n') == Lines(rows)
  {
    if rows != [] {
      assert rows[0] in rows;
      JoinedReadsBack(rows[0]);
      PrintedSplits(rows[1..]);
      assert Printed(rows) == Joined(rows[0]) + ['\n'] + Printed(rows[1..]);
      SplitFirst(Joined(rows[0]), Printed(rows[1..]), '\n');
    }
  }

  predicate RowSurvives(width: nat, r: Row) { CleanRow(r) && r != [] && |r| >= width }

  lemma {:induction false} RowsReadBack(width: nat, rows: seq<Row>, n: nat)
    requires AllRowsClean(rows)
    ensures RowsRead(width, Lines(rows), n).0 == rows <==> forall r | r in rows :: RowSurvives(width, r)
    ensures RowsRead(width, Lines(rows), n).0 == rows ==> RowsRead(width, Lines(rows), n).1 == AllRead
  {
    if rows != [] {
      assert rows[0] in rows;
      JoinedReadsBack(rows[0]);
      assert Lines(rows)[1..] == Lines(rows[1..]);
      RowsReadBack(width, rows[1..], n + 1);
      assert rows == [rows[0]] + rows[1..];
      assert Fields(Joined(rows[0])) == rows[0] <==> CleanRow(rows[0]);
    }
  }

  /** The index is made, each name at its column, exactly when no name repeats. */
  lemma {:induction false} OrganizedIs(index: map<string, nat>, columns: Row, j: nat)
    requires j <= |columns|
    requires forall s :: s in index <==> s in columns[..j]
    requires forall k | 0 <= k < j :: index[columns[k]] == k
    ensures Organized(index, columns, j).1 == None <==>
            forall i, k | 0 <= i < k && j <= k < |columns| :: columns[i] != columns[k]
    ensures Organized(index, columns, j).1 == None ==>
            forall k | 0 <= k < |columns| ::
              columns[k] in Organized(index, columns, j).0 && Organized(index, columns, j).0[columns[k]] == k
    decreases |columns| - j
  {
    if j < |columns| {
      if columns[j] !in index {
        assert columns[..j + 1] == columns[..j] + [columns[j]];
        OrganizedIs(index[columns[j] := j], columns, j + 1);
      } else {
        var i :| 0 <= i < j && columns[..j][i] == columns[j];
        assert columns[i] == columns[j];
      }
    }
  }

  /** Reading what is printed gives back the same header and rows exactly when the names are distinct,
      no field holds a comma or a line end, no last field is empty, and every row has a field and is at
      least as wide as the header. It then also counts the rows and finds every column. */
  lemma RoundTripIff(columns: Row, rows: seq<Row>)
    ensures var (t, outcome) := ReadInto(EMPTY, Some(Dump(columns, rows)));
            && ((outcome == Done && t.columns == columns && t.rows == rows) <==> Survives(columns, rows))
            && (Survives(columns, rows) ==>
                  && t.columnCount == |columns| && t.rowCount == |rows|
                  && (forall k | 0 <= k < |columns| :: columns[k] in t.index && t.index[columns[k]] == k))
  {
    var text := Dump(columns, rows);
    var (t, outcome) := ReadInto(EMPTY, Some(text));
    if AllClean(columns) && AllRowsClean(rows) {
      CleanRoundTrip(columns, rows);
    } else {
      ReadIsClean(text);
      assert !Survives(columns, rows);
    }
  }

  /** Whatever the file, no field that is read holds a comma or a line end. */
  lemma ReadIsClean(text: string)
    ensures var (t, _) := ReadInto(EMPTY, Some(text)); AllClean(t.columns) && AllRowsClean(t.rows)
  {
    var lines := Split(text, '\n');
    forall i, j | 0 <= i < |lines| && 0 <= j < |Fields(lines[i])|
      ensures Clean(Fields(lines[i])[j])
    {
      LinesAreClean(text, i, j);
    }
    var (t, _) := ReadInto(EMPTY, Some(text));
    if lines != [] {
      assert AllClean(Fields(lines[0]));
      forall i | 0 <= i < |lines[1..]|
        ensures AllClean(Fields(lines[1..][i]))
      {
        assert lines[1..][i] == lines[i + 1];
      }
      RowsReadClean(|t.columns|, lines[1..], 0);
    }
  }

  lemma {:induction false} RowsReadClean(width: nat, lines: seq<string>, n: nat)
    requires forall i | 0 <= i < |lines| :: AllClean(Fields(lines[i]))
    ensures AllRowsClean(RowsRead(width, lines, n).0)
  {
    if lines != [] {
      RowsReadClean(width, lines[1..], n + 1);
    }
  }

  lemma CleanRoundTrip(columns: Row, rows: seq<Row>)
    requires AllClean(columns) && AllRowsClean(rows)
    ensures var (t, outcome) := ReadInto(EMPTY, Some(Dump(columns, rows)));
            && ((outcome == Done && t.columns == columns && t.rows == rows) <==> Survives(columns, rows))
            && (Survives(columns, rows) ==>
                  && t.columnCount == |columns| && t.rowCount == |rows|
                  && (forall k | 0 <= k < |columns| :: columns[k] in t.index && t.index[columns[k]] == k))
  {
    PrintedIsRead(columns, rows);
    hide RowsRead, Organized, ReadInto, Dump, Joined, RowSurvives;
    if CleanRow(columns) {
      RowsReadBack(|columns|, rows, 0);
      OrganizedIs(map[], columns, 0);
      SurvivesByRow(columns, rows);
    }
  }

  lemma SurvivesByRow(columns: Row, rows: seq<Row>)
    ensures Survives(columns, rows) <==>
            DistinctNames(columns) && CleanRow(columns) && forall r | r in rows :: RowSurvives(|columns|, r)
  {}

  /** What reading makes of a printed table whose fields hold no comma and no line end. */
  lemma PrintedIsRead(columns: Row, rows: seq<Row>)
    requires AllClean(columns) && AllRowsClean(rows)
    ensures var (t, outcome) := ReadInto(EMPTY, Some(Dump(columns, rows)));
            var (read, stop) := RowsRead(|t.columns|, Lines(rows), 0);
            && (t.columns == columns <==> CleanRow(columns)) && t.rows == read && t.columnCount == |t.columns|
            && (stop == AllRead ==>
                  && t.rowCount == |read| && t.index == Organized(map[], t.columns, 0).0
                  && (outcome == Done <==> Organized(map[], t.columns, 0).1 == None))
  {
    hide RowsRead, Organized, Fields, Split, Joined;
    var all := [columns] + rows;
    PrintedSplits(all);
    assert all[1..] == rows && Lines(all) == [Joined(columns)] + Lines(rows);
    JoinedReadsBack(columns);
    assert EMPTY.columns + Fields(Joined(columns)) == Fields(Joined(columns));
  }

  // ---- Blank lines ----

  lemma {:induction false} PrintedThenSplits(rows: seq<Row>, more: string)
    requires AllRowsClean(rows)
    ensures Split(Printed(rows) + more, '\n') == Lines(rows) + Split(more, '\n')
  {
    if rows == [] {
      assert Printed(rows) + more == more && Lines(rows) + Split(more, '\n') == Split(more, '\n');
    } else {
      assert rows[0] in rows;
      JoinedReadsBack(rows[0]);
      PrintedThenSplits(rows[1..], more);
      assert Printed(rows) + more == Joined(rows[0]) + ['\n'] + (Printed(rows[1..]) + more);
      SplitFirst(Joined(rows[0]), Printed(rows[1..]) + more, '\n');
      assert Lines(rows) + Split(more, '\n') == [Joined(rows[0])] + (Lines(rows[1..]) + Split(more, '\n'));
    }
  }

  lemma {:induction false} RowsReadToBlank(width: nat, rows: seq<Row>, more: seq<string>, n: nat)
    requires AllRowsClean(rows) && forall r | r in rows :: RowSurvives(width, r)
    ensures RowsRead(width, Lines(rows) + [""] + more, n) == (rows, BlankLine)
  {
    var lines := Lines(rows) + [""] + more;
    if rows == [] {
      assert lines[0] == "";
    } else {
      assert rows[0] in rows && RowSurvives(width, rows[0]);
      JoinedReadsBack(rows[0]);
      assert lines[0] == Joined(rows[0]) && lines[1..] == Lines(rows[1..]) + [""] + more;
      assert Fields(lines[0]) == rows[0];
      RowsReadToBlank(width, rows[1..], more, n + 1);
      assert rows == [rows[0]] + rows[1..];
    }
  }

  /** Whatever follows it, a blank line ends reading without an error: the rows before it are kept, but not
      counted, no column can be looked up, and repeated column names go unnoticed. */
  lemma BlankLineIsSilent(columns: Row, rows: seq<Row>, more: string)
    requires CleanRow(columns) && forall r | r in rows :: RowSurvives(|columns|, r)
    ensures ReadInto(EMPTY, Some(Dump(columns, rows) + "\n" + more)) ==
            (Table(columns, |columns|, rows, 0, map[]), Done)
  {
    hide RowsRead, Organized, Fields, Joined, Split, Dump, ReadInto, Printed, RowSurvives, CleanRow;
    var text := Dump(columns, rows) + "\n" + more;
    var rest := Lines(rows) + [""] + Split(more, '\n');
    RowsAreClean(columns, rows);
    BlankLineSplits(columns, rows, more);
    HeaderReadsBack(columns);
    RowsReadToBlank(|columns|, rows, Split(more, '\n'), 0);
    BlankLineRead(text, Joined(columns), rest, columns, rows);
  }

  lemma RowsAreClean(columns: Row, rows: seq<Row>)
    requires CleanRow(columns) && forall r | r in rows :: RowSurvives(|columns|, r)
    ensures AllClean(columns) && AllRowsClean(rows)
  {}

  lemma HeaderReadsBack(columns: Row)
    requires CleanRow(columns)
    ensures Fields(Joined(columns)) == columns
  {
    JoinedReadsBack(columns);
  }

  lemma BlankLineSplits(columns: Row, rows: seq<Row>, more: string)
    requires AllClean(columns) && AllRowsClean(rows)
    ensures Split(Dump(columns, rows) + "\n" + more, '\n') ==
            [Joined(columns)] + (Lines(rows) + [""] + Split(more, '\n'))
  {
    hide Split, Printed, Joined;
    var all, blank := [columns] + rows, "" + ['\n'] + more;
    assert Dump(columns, rows) + "\n" + more == Printed(all) + blank;
    PrintedThenSplits(all, blank);
    SplitFirst("", more, '\n');
    assert all[1..] == rows && Lines(all) == [Joined(columns)] + Lines(rows);
  }

  lemma BlankLineRead(text: string, header: string, rest: seq<string>, columns: Row, rows: seq<Row>)
    requires Split(text, '\n') == [header] + rest && Fields(header) == columns
    requires RowsRead(|columns|, rest, 0) == (rows, BlankLine)
    ensures ReadInto(EMPTY, Some(text)) == (Table(columns, |columns|, rows, 0, map[]), Done)
  {
    hide RowsRead, Split, Fields;
    assert ([header] + rest)[1..] == rest && EMPTY.columns + columns == columns && EMPTY.rows + rows == rows;
  }

  // ---- Short rows ----

  lemma {:induction false} RowsReadToShort(width: nat, rows: seq<Row>, short: Row, more: seq<string>, n: nat)
    requires AllRowsClean(rows) && forall r | r in rows :: RowSurvives(width, r)
    requires CleanRow(short) && short != [] && |short| < width
    ensures RowsRead(width, Lines(rows) + [Joined(short)] + more, n) == (rows, TooShort(n + |rows|))
  {
    var lines := Lines(rows) + [Joined(short)] + more;
    JoinedReadsBack(short);
    if rows == [] {
      assert lines[0] == Joined(short);
    } else {
      assert rows[0] in rows && RowSurvives(width, rows[0]);
      JoinedReadsBack(rows[0]);
      assert lines[0] == Joined(rows[0]) && lines[1..] == Lines(rows[1..]) + [Joined(short)] + more;
      RowsReadToShort(width, rows[1..], short, more, n + 1);
      assert rows == [rows[0]] + rows[1..];
    }
  }

  /** Whatever follows it, a row with fewer fields than the header ends reading with an error that names it: the
      rows before it are kept, but not counted, and no column can be looked up. */
  lemma ShortRowIsReported(columns: Row, rows: seq<Row>, short: Row, more: string)
    requires CleanRow(columns) && forall r | r in rows :: RowSurvives(|columns|, r)
    requires CleanRow(short) && short != [] && |short| < |columns|
    ensures ReadInto(EMPTY, Some(Dump(columns, rows + [short]) + more)) ==
            (Table(columns, |columns|, rows, 0, map[]), IncompleteRow(|rows|))
  {
    hide RowsRead, Organized, Fields, Joined, Split, Dump, ReadInto, Printed, RowSurvives;
    var text := Dump(columns, rows + [short]) + more;
    var rest := Lines(rows) + [Joined(short)] + Split(more, '\n');
    RowsAreClean(columns, rows);
    ShortRowSplits(columns, rows, short, more);
    HeaderReadsBack(columns);
    RowsReadToShort(|columns|, rows, short, Split(more, '\n'), 0);
    ReadFrom(text, Joined(columns), rest, columns);
  }

  lemma ShortRowSplits(columns: Row, rows: seq<Row>, short: Row, more: string)
    requires AllClean(columns) && AllRowsClean(rows) && AllClean(short)
    ensures Split(Dump(columns, rows + [short]) + more, '\n') ==
            [Joined(columns)] + (Lines(rows) + [Joined(short)] + Split(more, '\n'))
  {
    hide Split, Printed, Joined, Lines;
    var all := [columns] + (rows + [short]);
    PrintedThenSplits(all, more);
    LinesAppend(rows, short);
    LinesCons(columns, rows + [short]);
  }

  lemma LinesCons(row: Row, rows: seq<Row>)
    ensures Lines([row] + rows) == [Joined(row)] + Lines(rows)
  {}

  lemma {:induction false} LinesAppend(rows: seq<Row>, row: Row)
    ensures Lines(rows + [row]) == Lines(rows) + [Joined(row)]
  {
    if rows == [] {
      LinesCons(row, []);
    } else {
      LinesAppend(rows[1..], row);
      assert rows + [row] == [rows[0]] + (rows[1..] + [row]);
      LinesCons(rows[0], rows[1..] + [row]);
    }
  }

  /** What the outcome of reading says, by how the rows ended. */
  lemma ReadFrom(text: string, header: string, rest: seq<string>, columns: Row)
    requires Split(text, '\n') == [header] + rest && Fields(header) == columns
    ensures var (rows, stop) := RowsRead(|columns|, rest, 0);
            var (t, outcome) := ReadInto(EMPTY, Some(text));
            && t.columns == columns && t.columnCount == |columns| && t.rows == rows
            && (stop.TooShort? ==> t.rowCount == 0 && t.index == map[] && outcome == IncompleteRow(stop.row))
            && (stop == AllRead ==>
                  && t.rowCount == |rows| && t.index == Organized(map[], columns, 0).0
                  && outcome == (match Organized(map[], columns, 0).1
                                 case None => Done
                                 case Some(name) => DuplicateColumn(name)))
  {
    hide RowsRead, Split, Fields, Organized;
    assert ([header] + rest)[1..] == rest && EMPTY.columns + columns == columns;
    assert EMPTY.rows + RowsRead(|columns|, rest, 0).0 == RowsRead(|columns|, rest, 0).0;
  }

  /** The name reported is the first that repeats an earlier one. */
  lemma {:induction false} FirstRepeated(index: map<string, nat>, columns: Row, j: nat) returns (k: nat)
    requires j <= |columns| && forall s :: s in index <==> s in columns[..j]
    requires forall a, b | 0 <= a < b < j :: columns[a] != columns[b]
    requires Organized(index, columns, j).1.Some?
    ensures j <= k < |columns| && Organized(index, columns, j).1 == Some(columns[k])
    ensures columns[k] in columns[..k] && forall a, b | 0 <= a < b < k :: columns[a] != columns[b]
    decreases |columns| - j
  {
    if columns[j] in index {
      k := j;
    } else {
      assert columns[..j + 1] == columns[..j] + [columns[j]];
      k := FirstRepeated(index[columns[j] := j], columns, j + 1);
    }
  }

  // ---- A second reading ----

  /** An object that has its index keeps it: whatever file it reads next, the columns and rows are added to those
      it has; when all rows are read, all are counted, but its own first column is reported as a duplicate. A file
      that cannot be opened changes nothing. */
  lemma SecondReading(t: Table, content: Option<string>)
    requires t.columns != [] && t.columns[0] in t.index
    ensures var (u, outcome) := ReadInto(t, content);
            && u.index == t.index && t.columns <= u.columns && t.rows <= u.rows
            && (content == None ==> u == t && outcome == CannotOpen)
            && (content != None ==> u.columnCount == |u.columns|)
            && (outcome.DuplicateColumn? ==> outcome.name == t.columns[0] && u.rowCount == |u.rows|)
            && (content != None && !outcome.DuplicateColumn? ==>
                  u.rowCount == t.rowCount && (outcome == Done || outcome.IncompleteRow?))
  {
    hide RowsRead, Split, Fields;
    if content.Some? {
      var lines := Split(content.value, '\n');
      var columns := t.columns + (if lines == [] then [] else Fields(lines[0]));
      assert columns[0] == t.columns[0];
    }
  }

  // ---- Values ----

  /** Every column in the index is there in every row that is counted. */
  ghost predicate Indexed(t: Table) {
    && t.rowCount <= |t.rows|
    && forall i, name | 0 <= i < t.rowCount && name in t.index :: t.index[name] < |t.rows[i]|
  }

  /** What looking up a value can come to; a row is indexed without a check and may be too short. */
  datatype Lookup = Found(value: string) | NoRow | NoColumn | PastEnd

  /** `getValue` */
  function ValueAt(t: Table, col: string, row: int): Lookup {
    if row < 0 || row >= t.rowCount then NoRow
    else if col !in t.index then NoColumn
    else if row < |t.rows| && t.index[col] < |t.rows[row]| then Found(t.rows[row][t.index[col]])
    else PastEnd
  }

  /** A row outside those counted comes before a name that is not in the index; a value is what its row holds in
      the column the index gives. */
  lemma LookupIs(t: Table, col: string, row: int)
    ensures ValueAt(t, col, row) == NoRow <==> !(0 <= row < t.rowCount)
    ensures ValueAt(t, col, row) == NoColumn <==> 0 <= row < t.rowCount && col !in t.index
    ensures forall v :: ValueAt(t, col, row) == Found(v) <==>
              0 <= row < t.rowCount && row < |t.rows| && col in t.index && t.index[col] < |t.rows[row]|
              && t.rows[row][t.index[col]] == v
  {}

  /** In an indexed table no look-up runs past the end of a row. */
  lemma NeverPastEnd(t: Table, col: string, row: int)
    requires Indexed(t)
    ensures ValueAt(t, col, row) != PastEnd
  {}

  lemma FirstReadIsIndexed(content: Option<string>)
    ensures Indexed(ReadInto(EMPTY, content).0)
  {
    hide Split, Fields, RowsRead, Organized;
    if content.Some? {
      var lines := Split(content.value, '\n');
      var columns := EMPTY.columns + (if lines == [] then [] else Fields(lines[0]));
      RowsAreWide(|columns|, if lines == [] then [] else lines[1..], 0);
      IndexIsInRange(map[], columns, 0);
    }
  }

  /** However a first reading ends, looking up a value never runs past the end of a row. */
  lemma ReadIsIndexed(content: Option<string>)
    ensures Indexed(ReadInto(EMPTY, content).0)
    ensures forall col, row :: ValueAt(ReadInto(EMPTY, content).0, col, row) != PastEnd
  {
    hide ReadInto, Indexed, ValueAt;
    FirstReadIsIndexed(content);
    forall col, row
      ensures ValueAt(ReadInto(EMPTY, content).0, col, row) != PastEnd
    {
      NeverPastEnd(ReadInto(EMPTY, content).0, col, row);
    }
  }

  lemma {:induction false} RowsAreWide(width: nat, lines: seq<string>, n: nat)
    ensures forall r | r in RowsRead(width, lines, n).0 :: |r| >= width
  {
    if lines != [] { RowsAreWide(width, lines[1..], n + 1); }
  }

  lemma {:induction false} IndexIsInRange(index: map<string, nat>, columns: Row, j: nat)
    requires j <= |columns| && forall name | name in index :: index[name] < |columns|
    ensures forall name | name in Organized(index, columns, j).0 :: Organized(index, columns, j).0[name] < |columns|
    decreases |columns| - j
  {
    if j < |columns| && columns[j] !in index { IndexIsInRange(index[columns[j] := j], columns, j + 1); }
  }

  /** After printing and reading back, each value is found under its column name and row number. */
  lemma ValuesSurvive(columns: Row, rows: seq<Row>, row: nat, k: nat)
    requires Survives(columns, rows) && row < |rows| && k < |columns|
    ensures rows[row] in rows
    ensures ValueAt(ReadInto(EMPTY, Some(Dump(columns, rows))).0, columns[k], row) == Found(rows[row][k])
  {
    hide ReadInto, Dump, CleanRow;
    RoundTripIff(columns, rows);
    ReadIsIndexed(Some(Dump(columns, rows)));
  }
}
