/** The dump round trip: what writeTableSQL writes, read line by line, gives every row back. */
module DumpRoundTrip {
  import opened SqlLiterals
  import opened DumpLines
  import opened Strings

  /* ---------- One statement ---------- */

  predicate IsNameChar(c: char) {
    'a' <= c <= 'z' || 'A' <= c <= 'Z' || '0' <= c <= '9' || c == '_'
  }

  // The table and column names of the schema.
  predicate IsName(s: string) {
    s != "" && forall i :: 0 <= i < |s| ==> IsNameChar(s[i])
  }

  predicate AllNames(names: seq<string>) {
    names != [] && forall k :: 0 <= k < |names| ==> IsName(names[k])
  }

  lemma {:induction false} CommaPartsOfName(cur: string, name: string, rest: string)
    requires (forall i :: 0 <= i < |name| ==> IsNameChar(name[i])) && (rest == "" || StartsWith(rest, ", "))
    ensures CommaParts(cur, name + rest) == CommaParts(cur + name, rest)
    decreases |name|
  {
    if name == "" {
      assert name + rest == rest && cur + name == cur;
    } else {
      assert (name + rest)[0] == name[0] && (name + rest)[1..] == name[1..] + rest;
      assert !StartsWith(name + rest, ", ");
      CommaPartsOfName(cur + [name[0]], name[1..], rest);
      assert cur + [name[0]] + name[1..] == cur + name;
    }
  }

  lemma {:induction false} ColumnsBack(cols: seq<string>)
    requires AllNames(cols)
    ensures CommaParts("", Join(cols, ", ")) == cols
  {
    var c := cols[0];
    assert "" + c == c;
    if |cols| == 1 {
      CommaPartsOfName("", c, "");
      assert c + "" == c;
      assert cols == [c];
    } else {
      var rest := Join(cols[1..], ", ");
      CommaPartsOfName("", c, ", " + rest);
      assert (", " + rest)[2..] == rest;
      ColumnsBack(cols[1..]);
      assert cols == [c] + cols[1..];
    }
  }

  lemma {:induction false} NamesTrimmed(cols: seq<string>)
    requires forall k :: 0 <= k < |cols| ==> IsName(cols[k])
    ensures TrimAll(cols) == cols
  {
    if cols != [] {
      NamesTrimmed(cols[1..]);
    }
  }

  // No character of the joined names is c.
  lemma {:induction false} JoinedWithout(names: seq<string>, sep: string, c: char)
    requires c !in sep && forall k :: 0 <= k < |names| ==> c !in names[k]
    ensures c !in Join(names, sep)
  {
    if |names| > 1 {
      JoinedWithout(names[1..], sep, c);
    }
  }

  lemma NamesWithout(cols: seq<string>, c: char)
    requires AllNames(cols) && !IsNameChar(c) && c != ',' && c != ' '
    ensures c !in Join(cols, ", ")
  {
    forall k | 0 <= k < |cols|
      ensures c !in cols[k]
    {
      assert IsName(cols[k]);
    }
    JoinedWithout(cols, ", ", c);
  }

  // The pieces of a statement, from the outside in.
  lemma ValuesParsed(table: string, cols: seq<string>, row: seq<Value>)
    requires row != []
    ensures ParseValues(table, cols, ValuesKw + (("(" + Join(Literals(row), ", ")) + (")" + ";"))) == Parsed(table, cols, Literals(row))
  {
    var inner := Join(Literals(row), ", ");
    var v := ("(" + inner) + (")" + ";");
    assert (ValuesKw + v)[|ValuesKw|..] == v && (ValuesKw + v)[..|ValuesKw|] == ValuesKw;
    assert v[|v| - 1..] == ";";
    assert TrimSemicolon(v) == ("(" + inner) + ")";
    assert (("(" + inner) + ")")[1..|inner| + 1] == inner;
    SplitJoined(row, "");
  }

  lemma ColumnsParsed(table: string, cols: seq<string>, tail: string)
    requires AllNames(cols)
    ensures ParseColumns(table, ("(" + Join(cols, ", ")) + (")" + tail)) == ParseValues(table, cols, tail)
  {
    var inner := Join(cols, ", ");
    var rest := ("(" + inner) + (")" + tail);
    NamesWithout(cols, ')');
    CutAfter(inner, ')', tail);
    assert rest[1..] == inner + ([')'] + tail);
    ColumnsBack(cols);
    NamesTrimmed(cols);
  }

  lemma NameHasNoSpace(s: string)
    requires IsName(s)
    ensures ' ' !in s
  {
  }

  lemma TableParsed(table: string, columns: string)
    requires IsName(table)
    ensures ParseInsert(InsertInto + (table + (" " + columns))) == ParseColumns(table, columns)
  {
    var rest := table + (" " + columns);
    assert (InsertInto + rest)[..|InsertInto|] == InsertInto && (InsertInto + rest)[|InsertInto|..] == rest;
    NameHasNoSpace(table);
    CutAfter(table, ' ', columns);
    assert [' '] + columns == " " + columns;
  }

  /** Printing a row and parsing the statement gives back the table, the columns and the
    * literals in order, whatever quotes, commas, parentheses or newlines the row holds. */
  lemma StatementRoundTrip(table: string, cols: seq<string>, row: seq<Value>)
    requires IsName(table) && AllNames(cols) && row != []
    ensures ParseInsert(Statement(table, cols, row)) == Parsed(table, cols, Literals(row))
  {
    var values := ValuesKw + (("(" + Join(Literals(row), ", ")) + (")" + ";"));
    var columns := ("(" + Join(cols, ", ")) + (")" + values);
    TableParsed(table, columns);
    ColumnsParsed(table, cols, values);
    ValuesParsed(table, cols, row);
  }

  /* ---------- The values of a row ---------- */

  function DecodeRow(lits: seq<string>): seq<Decoded>
    requires forall k :: 0 <= k < |lits| ==> IsBytes(lits[k])
  {
    seq(|lits|, k requires 0 <= k < |lits| => Decode(lits[k]))
  }

  function ExpectedRow(row: seq<Value>): seq<Decoded> {
    seq(|row|, k requires 0 <= k < |row| => Decoded(Expected(row[k])))
  }

  /** The whole row comes back, in order, if and only if it holds no empty blob. */
  lemma RowRoundTrip(row: seq<Value>)
    ensures forall k :: 0 <= k < |row| ==> IsBytes(Literals(row)[k])
    ensures DecodeRow(Literals(row)) == ExpectedRow(row) <==> Blob("") !in row
  {
    forall k | 0 <= k < |row|
      ensures IsBytes(Literals(row)[k]) && (Decode(Literals(row)[k]) == Decoded(Expected(row[k])) <==> row[k] != Blob(""))
    {
      ValueRoundTrip(row[k]);
    }
    if DecodeRow(Literals(row)) == ExpectedRow(row) {
      forall k | 0 <= k < |row|
        ensures row[k] != Blob("")
      {
        assert DecodeRow(Literals(row))[k] == ExpectedRow(row)[k];
      }
    }
  }

  /* ---------- Lines ---------- */

  predicate OneLine(s: string) {
    '\n' !in s && '\r' !in s
  }

  lemma {:induction false} DoubledOneLine(s: string)
    requires OneLine(s)
    ensures OneLine(Double(s))
  {
    if s != "" {
      DoubledOneLine(s[1..]);
    }
  }

  lemma HexOneLine(b: Bytes)
    ensures OneLine(HexEncode(b))
  {
    HexIsHex(b);
  }

  lemma LiteralOneLine(v: Value)
    ensures OneLine(Literal(v))
  {
    match v
    case Null =>
    case Bool(_) =>
    case Int(n) => DecimalNumeral(n);
    case Text(s) => QuoteOneLine(s);
    case Blob(b) => HexOneLine(b); OneLineAppend("X'", HexEncode(b)); OneLineAppend("X'" + HexEncode(b), "'");
  }

  lemma OneLineAppend(a: string, b: string)
    requires OneLine(a) && OneLine(b)
    ensures OneLine(a + b)
  {
  }

  lemma QuoteOneLine(s: Bytes)
    ensures OneLine(Quote(s))
  {
    if NeedsHex(s) {
      HexOneLine(s);
      OneLineAppend(CastHead, HexEncode(s));
      OneLineAppend(CastHead + HexEncode(s), CastTail);
    } else {
      DoubledOneLine(s);
      OneLineAppend("'", Double(s));
      OneLineAppend("'" + Double(s), "'");
    }
  }

  lemma NameOneLine(s: string)
    requires IsName(s)
    ensures OneLine(s)
  {
  }

  lemma RowOneLine(row: seq<Value>)
    ensures OneLine(Join(Literals(row), ", "))
  {
    forall k | 0 <= k < |row|
      ensures OneLine(Literals(row)[k])
    {
      LiteralOneLine(row[k]);
    }
    JoinedWithout(Literals(row), ", ", '\n');
    JoinedWithout(Literals(row), ", ", '\r');
  }

  /** A printed statement is a single line. */
  lemma StatementOneLine(table: string, cols: seq<string>, row: seq<Value>)
    requires IsName(table) && AllNames(cols)
    ensures OneLine(Statement(table, cols, row))
  {
    NameOneLine(table);
    NamesWithout(cols, '\n');
    NamesWithout(cols, '\r');
    RowOneLine(row);
    var values := ("(" + Join(Literals(row), ", ")) + (")" + ";");
    OneLineAppend("(", Join(Literals(row), ", "));
    OneLineAppend("(" + Join(Literals(row), ", "), ")" + ";");
    ListOneLine(Join(cols, ", "), values);
    OneLineAppend(" ", ("(" + Join(cols, ", ")) + (")" + (ValuesKw + values)));
    OneLineAppend(table, " " + (("(" + Join(cols, ", ")) + (")" + (ValuesKw + values))));
    OneLineAppend(InsertInto, table + (" " + (("(" + Join(cols, ", ")) + (")" + (ValuesKw + values)))));
  }

  lemma ListOneLine(cols: string, values: string)
    requires OneLine(cols) && OneLine(values)
    ensures OneLine(("(" + cols) + (")" + (ValuesKw + values)))
  {
    OneLineAppend("(", cols);
    OneLineAppend(ValuesKw, values);
    OneLineAppend(")", ValuesKw + values);
    OneLineAppend("(" + cols, ")" + (ValuesKw + values));
  }

  // The longest line the importer's scanner takes, its newline included.
  const MaxLine := 10 * 1024 * 1024

  // bufio.ScanLines: up to a newline, without a carriage return before it; the last line
  // may lack the newline but not be empty.
  function DropCR(s: string): string {
    if EndsWith(s, "\r") then s[..|s| - 1] else s
  }

  // The lines read, and whether a longer one then stopped the scanner with an error.
  datatype Scan = Scan(lines: seq<string>, tooLong: bool)

  function ScanLines(s: string): Scan
    decreases |s|
  {
    if s == "" then Scan([], false)
    else
      var k := IndexOf(s, '\n');
      if k >= MaxLine then Scan([], true)
      else if k == |s| then Scan([DropCR(s)], false)
      else var rest := ScanLines(s[k + 1..]); Scan([DropCR(s[..k])] + rest.lines, rest.tooLong)
  }

  // The text writeTableSQL writes.
  function TableText(table: string, cols: seq<string>, rows: seq<seq<Value>>): string {
    if rows == [] then "" else (Statement(table, cols, rows[0]) + "\n") + TableText(table, cols, rows[1..])
  }

  lemma NoCR(s: string)
    requires '\r' !in s
    ensures DropCR(s) == s
  {
    if s != "" {
      assert s[|s| - 1..] == [s[|s| - 1]];
      assert s[|s| - 1] in s;
    }
  }

  lemma FirstLine(line: string, rest: string)
    requires OneLine(line)
    ensures var s := ScanLines(rest);
            ScanLines((line + "\n") + rest) == if |line| < MaxLine then Scan([line] + s.lines, s.tooLong) else Scan([], true)
  {
    var s := (line + "\n") + rest;
    assert s == line + (['\n'] + rest);
    IndexAfter(line, '\n', rest);
    assert s[..|line|] == line && s[|line| + 1..] == rest;
    NoCR(line);
  }

  /* ---------- How long a statement is ---------- */

  function Quotes(s: string): nat {
    if s == "" then 0 else (if s[0] == '\'' then 1 else 0) + Quotes(s[1..])
  }

  function LiteralSize(v: Value): nat {
    match v
    case Null => 4
    case Bool(_) => 1
    case Int(n) => |Decimal(n)|
    case Text(s) => if NeedsHex(s) then 2 * |s| + 17 else |s| + Quotes(s) + 2
    case Blob(b) => 2 * |b| + 3
  }

  function RowSize(row: seq<Value>): nat {
    if row == [] then 0 else LiteralSize(row[0]) + if |row| == 1 then 0 else 2 + RowSize(row[1..])
  }

  // The length of a row's statement, counted without printing it.
  function StatementSize(table: string, cols: seq<string>, row: seq<Value>): nat {
    36 + |table| + |Join(cols, ", ")| + RowSize(row)
  }

  lemma {:induction false} DoubleSize(s: string)
    ensures |Double(s)| == |s| + Quotes(s)
  {
    if s != "" {
      DoubleSize(s[1..]);
    }
  }

  lemma LiteralSized(v: Value)
    ensures |Literal(v)| == LiteralSize(v)
  {
    match v
    case Text(s) => HexIsHex(s); DoubleSize(s);
    case Blob(b) => HexIsHex(b);
    case _ =>
  }

  lemma {:induction false} RowSized(row: seq<Value>)
    ensures |Join(Literals(row), ", ")| == RowSize(row)
  {
    if row != [] {
      LiteralSized(row[0]);
      assert Literals(row)[1..] == Literals(row[1..]);
      RowSized(row[1..]);
    }
  }

  lemma StatementSized(table: string, cols: seq<string>, row: seq<Value>)
    ensures |Statement(table, cols, row)| == StatementSize(table, cols, row)
  {
    RowSized(row);
  }

  /* ---------- A table ---------- */

  predicate Fits(table: string, cols: seq<string>, row: seq<Value>) {
    StatementSize(table, cols, row) < 10 * 1024 * 1024
  }

  // How many rows come before the first whose statement is too long.
  function FittingRows(table: string, cols: seq<string>, rows: seq<seq<Value>>): (n: nat)
    ensures n <= |rows| && (forall k :: 0 <= k < n ==> Fits(table, cols, rows[k]))
    ensures n < |rows| ==> !Fits(table, cols, rows[n])
  {
    if rows == [] || !Fits(table, cols, rows[0]) then 0 else 1 + FittingRows(table, cols, rows[1..])
  }

  lemma FirstStatement(table: string, cols: seq<string>, row: seq<Value>, rest: string)
    requires IsName(table) && AllNames(cols)
    ensures var s := ScanLines(rest); var line := Statement(table, cols, row);
            ScanLines((line + "\n") + rest) == if Fits(table, cols, row) then Scan([line] + s.lines, s.tooLong) else Scan([], true)
  {
    StatementOneLine(table, cols, row);
    StatementSized(table, cols, row);
    FirstLine(Statement(table, cols, row), rest);
  }

  // The statements of the first n rows.
  function Statements(table: string, cols: seq<string>, rows: seq<seq<Value>>, n: nat): seq<string>
    requires n <= |rows|
  {
    seq(n, k requires 0 <= k < n => Statement(table, cols, rows[k]))
  }

  lemma StatementsOf(table: string, cols: seq<string>, rows: seq<seq<Value>>, n: nat)
    requires n < |rows|
    ensures Statements(table, cols, rows, n + 1) == [Statement(table, cols, rows[0])] + Statements(table, cols, rows[1..], n)
  {
  }

  /** The scanner reads the statements before the first one that is too long, one a line and
    * in order, and fails exactly if there is one. */
  lemma {:induction false} TableScanned(table: string, cols: seq<string>, rows: seq<seq<Value>>)
    requires IsName(table) && AllNames(cols)
    ensures var n := FittingRows(table, cols, rows);
            ScanLines(TableText(table, cols, rows)) == Scan(Statements(table, cols, rows, n), n < |rows|)
  {
    if rows != [] {
      TableScanned(table, cols, rows[1..]);
      FirstStatement(table, cols, rows[0], TableText(table, cols, rows[1..]));
      if Fits(table, cols, rows[0]) {
        StatementsOf(table, cols, rows, FittingRows(table, cols, rows[1..]));
      }
    }
  }

  predicate AllBytes(lits: seq<string>) {
    forall k :: 0 <= k < |lits| ==> IsBytes(lits[k])
  }

  // What the importer makes of the line: the row's values under its table and columns.
  predicate RowBack(table: string, cols: seq<string>, line: string, row: seq<Value>) {
    var p := ParseInsert(Trim(line));
    p.Parsed? && p.table == table && p.cols == cols && AllBytes(p.values) && DecodeRow(p.values) == ExpectedRow(row)
  }

  predicate TableBack(s: Scan, table: string, cols: seq<string>, rows: seq<seq<Value>>) {
    !s.tooLong && |s.lines| == |rows| && forall k :: 0 <= k < |rows| ==> RowBack(table, cols, s.lines[k], rows[k])
  }

  lemma StatementTrimmed(table: string, cols: seq<string>, row: seq<Value>)
    ensures Trim(Statement(table, cols, row)) == Statement(table, cols, row)
  {
    var s := Statement(table, cols, row);
    assert s[0] == 'I' && s[|s| - 1] == ';';
  }

  lemma RowBackExactly(table: string, cols: seq<string>, row: seq<Value>)
    requires IsName(table) && AllNames(cols) && row != []
    ensures RowBack(table, cols, Statement(table, cols, row), row) <==> Blob("") !in row
  {
    StatementTrimmed(table, cols, row);
    StatementRoundTrip(table, cols, row);
    RowRoundTrip(row);
  }

  /** A table written and read back line by line gives back every row, in order, under its
    * table and columns, if and only if no row holds an empty blob and no row's statement is
    * as long as the scanner's buffer. */
  lemma TableRoundTrip(table: string, cols: seq<string>, rows: seq<seq<Value>>)
    requires IsName(table) && AllNames(cols) && forall k :: 0 <= k < |rows| ==> |rows[k]| == |cols|
    ensures TableBack(ScanLines(TableText(table, cols, rows)), table, cols, rows)
            <==> forall k :: 0 <= k < |rows| ==> Blob("") !in rows[k] && Fits(table, cols, rows[k])
  {
    TableScanned(table, cols, rows);
    forall k | 0 <= k < |rows|
      ensures RowBack(table, cols, Statement(table, cols, rows[k]), rows[k]) <==> Blob("") !in rows[k]
    {
      RowBackExactly(table, cols, rows[k]);
    }
  }

  lemma {:induction false} RowAtLeast(row: seq<Value>, j: nat)
    requires j < |row|
    ensures RowSize(row) >= LiteralSize(row[j])
  {
    if j > 0 {
      RowAtLeast(row[1..], j - 1);
    }
  }

  // A value whose literal alone fills the buffer.
  predicate TooLarge(v: Value) {
    (v.Text? && |v.s| >= 10 * 1024 * 1024) || (v.Blob? && |v.bytes| >= 5 * 1024 * 1024)
  }

  /** A text of 10 MiB or a blob of 5 MiB is exported but stops the import. */
  lemma LargeValueStops(table: string, cols: seq<string>, rows: seq<seq<Value>>, k: nat, j: nat)
    requires IsName(table) && AllNames(cols) && k < |rows| && j < |rows[k]| && TooLarge(rows[k][j])
    ensures ScanLines(TableText(table, cols, rows)).tooLong
  {
    RowAtLeast(rows[k], j);
    TableScanned(table, cols, rows);
  }

  /** Such a row: one text of 11 MiB. */
  lemma ElevenMebibytes(table: string, col: string)
    requires IsName(table) && IsName(col)
    ensures var text: Bytes := seq(11 * 1024 * 1024, _ => 'x');
            ScanLines(TableText(table, [col], [[Text(text)]])) == Scan([], true)
  {
    var text: Bytes := seq(11 * 1024 * 1024, _ => 'x');
    var rows := [[Text(text)]];
    RowAtLeast(rows[0], 0);
    TableScanned(table, [col], rows);
    assert ScanLines(TableText(table, [col], rows)).lines == [];
  }

  /* ---------- The writer ---------- */

  method WriteTableSQL(table: string, cols: seq<string>, rows: seq<seq<Value>>) returns (out: string)
    ensures out == TableText(table, cols, rows)
  {
    out := "";
    assert rows[0..] == rows;
    for n := 0 to |rows|
      invariant out + TableText(table, cols, rows[n..]) == TableText(table, cols, rows)
    {
      assert rows[n..][1..] == rows[n + 1..];
      var line := Statement(table, cols, rows[n]) + "\n";
      assert (out + line) + TableText(table, cols, rows[n + 1..]) == out + (line + TableText(table, cols, rows[n + 1..]));
      out := out + line;
    }
    assert out + "" == out;
  }
}
