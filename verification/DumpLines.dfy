/** Lines of the dump (internal/store/export.go): writeTableSQL prints a row as one INSERT
  * statement; parseInsertLine and splitSQLValues take the statement apart again.
  */
module DumpLines {
  import opened Options
  import opened Decimals
  import opened SqlLiterals
  import opened Strings

  /* ---------- Printing ---------- */

  function Literals(row: seq<Value>): (r: seq<string>)
    ensures |r| == |row|
  {
    seq(|row|, i requires 0 <= i < |row| => Literal(row[i]))
  }

  const InsertInto := "INSERT OR IGNORE INTO "
  const ValuesKw := " VALUES "

  function Statement(table: string, cols: seq<string>, row: seq<Value>): string {
    InsertInto + (table + (" " + (("(" + Join(cols, ", ")) + (")" + (ValuesKw + (("(" + Join(Literals(row), ", ")) + (")" + ";")))))))
  }

  /** A row as it stands in the dump, in the words of SQLite: one INSERT that skips rows already
    * there, with the values as literals, text with quotes doubled, or in hexadecimal where it
    * would break the line. */
  lemma StatementWritten(table: string, cols: seq<string>, row: seq<Value>, v: Value)
    ensures Statement(table, cols, row)
            == "INSERT OR IGNORE INTO " + table + " (" + Join(cols, ", ") + ") VALUES (" + Join(Literals(row), ", ") + ");"
    ensures match v
            case Null => Literal(v) == "NULL"
            case Int(n) => var k: int := n; Literal(v) == if k < 0 then "-" + Digits(-k) else Digits(k)
            case Bool(b) => Literal(v) == if b then "1" else "0"
            case Blob(b) => Literal(v) == "X'" + HexEncode(b) + "'"
            case Text(s) =>
              Literal(v) == if '\n' in s || '\r' in s || '\0' in s then "CAST(X'" + HexEncode(s) + "' AS TEXT)" else "'" + Double(s) + "'"
  {
    Regrouped("INSERT OR IGNORE INTO ", table, Join(cols, ", "), Join(Literals(row), ", "));
  }

  lemma Regrouped(head: string, table: string, cols: string, values: string)
    ensures head + (table + (" " + (("(" + cols) + (")" + (" VALUES " + (("(" + values) + (")" + ";")))))))
            == head + table + " (" + cols + ") VALUES (" + values + ");"
  {
    assert " " + "(" == " (" && ")" + " VALUES " + "(" == ") VALUES (" && ")" + ";" == ");";
  }

  /* ---------- Splitting the values ---------- */

  // The tokens of `rest`, the text `cur` of the first of them being read already; `depth`
  // is the nesting of parentheses and `inStr` says whether a string literal is open.
  function Tokens(cur: string, depth: int, inStr: bool, rest: string): seq<string>
    decreases |rest|
  {
    if rest == "" then [Trim(cur)]
    else
      var c := rest[0];
      if inStr then
        if c != '\'' then Tokens(cur + [c], depth, true, rest[1..])
        else if |rest| > 1 && rest[1] == '\'' then Tokens(cur + [c] + [c], depth, true, rest[2..])
        else Tokens(cur + [c], depth, false, rest[1..])
      else if c == ',' && depth == 0 then [Trim(cur)] + Tokens("", 0, false, rest[1..])
      else Tokens(cur + [c], if c == '(' then depth + 1 else if c == ')' then depth - 1 else depth, c == '\'', rest[1..])
  }

  function SplitValues(s: string): seq<string> {
    Tokens("", 0, false, s)
  }

  // What is left to split at position i, the current token having started at `start`.
  ghost predicate Splitting(s: string, values: seq<string>, depth: int, inStr: bool, start: nat, i: nat) {
    start <= i <= |s| && SplitValues(s) == values + Tokens(s[start..i], depth, inStr, s[i..])
  }

  // A doubled quote inside a string.
  lemma SplitEscape(s: string, values: seq<string>, depth: int, start: nat, i: nat)
    requires Splitting(s, values, depth, true, start, i) && i + 1 < |s| && s[i] == '\'' && s[i + 1] == '\''
    ensures Splitting(s, values, depth, true, start, i + 2)
  {
    var rest := s[i..];
    assert rest[0] == '\'' && rest[1] == '\'' && rest[2..] == s[i + 2..];
    assert s[start..i] + [s[i]] + [s[i]] == s[start..i + 2];
  }

  function NextDepth(depth: int, inStr: bool, c: char): int {
    if inStr then depth else if c == '(' then depth + 1 else if c == ')' then depth - 1 else depth
  }

  // Any other character that does not end the token.
  lemma SplitChar(s: string, values: seq<string>, depth: int, inStr: bool, start: nat, i: nat)
    requires Splitting(s, values, depth, inStr, start, i) && i < |s|
    requires inStr && s[i] == '\'' ==> i + 1 == |s| || s[i + 1] != '\''
    requires !inStr && s[i] == ',' ==> depth != 0
    ensures Splitting(s, values, NextDepth(depth, inStr, s[i]), inStr != (s[i] == '\''), start, i + 1)
  {
    var rest := s[i..];
    assert rest[0] == s[i] && rest[1..] == s[i + 1..] && (|rest| > 1 ==> rest[1] == s[i + 1]);
    assert s[start..i] + [s[i]] == s[start..i + 1];
  }

  lemma SplitAt(s: string, values: seq<string>, start: nat, i: nat)
    requires Splitting(s, values, 0, false, start, i) && i < |s| && s[i] == ','
    ensures Splitting(s, values + [Trim(s[start..i])], 0, false, i + 1, i + 1)
  {
    assert s[i..][1..] == s[i + 1..];
    var rest := Tokens("", 0, false, s[i + 1..]);
    assert values + ([Trim(s[start..i])] + rest) == (values + [Trim(s[start..i])]) + rest;
    assert s[i + 1..i + 1] == "";
  }

  method SplitSQLValues(s: string) returns (values: seq<string>)
    ensures values == SplitValues(s)
  {
    values := [];
    var depth, inStr, start, i := 0, false, 0, 0;
    assert s[0..0] == "" && s[0..] == s;
    while i < |s|
      invariant Splitting(s, values, depth, inStr, start, i)
    {
      var c := s[i];
      if inStr {
        if c == '\'' {
          if i + 1 < |s| && s[i + 1] == '\'' {
            SplitEscape(s, values, depth, start, i);
            i := i + 1;
          } else {
            SplitChar(s, values, depth, inStr, start, i);
            inStr := false;
          }
        } else {
          SplitChar(s, values, depth, inStr, start, i);
        }
      } else if c == ',' && depth == 0 {
        SplitAt(s, values, start, i);
        values := values + [Trim(s[start..i])];
        start := i + 1;
      } else {
        SplitChar(s, values, depth, inStr, start, i);
        if c == '(' {
          depth := depth + 1;
        } else if c == ')' {
          depth := depth - 1;
        } else if c == '\'' {
          inStr := true;
        }
      }
      i := i + 1;
    }
    assert s[i..] == "" && s[start..i] == s[start..];
    values := values + [Trim(s[start..])];
  }

  /* ---------- Literals pass the splitter whole ---------- */

  // Reading x moves the splitter from one state to another without ending a token.
  ghost predicate Passes(x: string, depth: int, inStr: bool, depth': int, inStr': bool, post: string) {
    forall cur :: Tokens(cur, depth, inStr, x + post) == Tokens(cur + x, depth', inStr', post)
  }

  lemma PassesTwo(x: string, y: string, d: int, q: bool, d1: int, q1: bool, d2: int, q2: bool, post: string)
    requires Passes(x, d, q, d1, q1, y + post) && Passes(y, d1, q1, d2, q2, post)
    ensures Passes(x + y, d, q, d2, q2, post)
  {
    forall cur
      ensures Tokens(cur, d, q, (x + y) + post) == Tokens(cur + (x + y), d2, q2, post)
    {
      assert (x + y) + post == x + (y + post);
      assert cur + (x + y) == (cur + x) + y;
    }
  }

  // Characters that mean nothing to the splitter outside a string.
  predicate Plain(s: string) {
    forall i :: 0 <= i < |s| ==> s[i] !in {'\'', '(', ')', ','}
  }

  lemma {:induction false} PlainPasses(x: string, d: int, post: string)
    requires Plain(x)
    ensures Passes(x, d, false, d, false, post)
  {
    forall cur
      ensures Tokens(cur, d, false, x + post) == Tokens(cur + x, d, false, post)
    {
      if x == "" {
        assert x + post == post && cur + x == cur;
      } else {
        PlainPasses(x[1..], d, post);
        assert (x + post)[1..] == x[1..] + post;
        assert (cur + [x[0]]) + x[1..] == cur + x;
      }
    }
  }

  function DoubleOne(c: char): string {
    if c == '\'' then "''" else [c]
  }

  lemma CharPasses(c: char, d: int, post: string)
    ensures Passes(DoubleOne(c), d, true, d, true, post)
  {
    var x := DoubleOne(c);
    forall cur
      ensures Tokens(cur, d, true, x + post) == Tokens(cur + x, d, true, post)
    {
      assert (x + post)[|x|..] == post;
      assert cur + ['\''] + ['\''] == cur + "''";
    }
  }

  lemma NothingPasses(d: int, q: bool, post: string)
    ensures Passes("", d, q, d, q, post)
  {
    forall cur
      ensures Tokens(cur, d, q, "" + post) == Tokens(cur + "", d, q, post)
    {
      assert "" + post == post && cur + "" == cur;
    }
  }

  lemma {:induction false} DoubledPasses(t: string, d: int, post: string)
    ensures Passes(Double(t), d, true, d, true, post)
  {
    if t == "" {
      NothingPasses(d, true, post);
    } else {
      DoubledPasses(t[1..], d, post);
      CharPasses(t[0], d, Double(t[1..]) + post);
      PassesTwo(DoubleOne(t[0]), Double(t[1..]), d, true, d, true, d, true, post);
    }
  }

  // The end of the values, or a comma.
  predicate AtComma(post: string) {
    post == "" || post[0] == ','
  }

  // A string without quotes is its own doubling.
  lemma {:induction false} DoubleOfPlain(s: string)
    requires '\'' !in s
    ensures Double(s) == s
  {
    if s != "" {
      DoubleOfPlain(s[1..]);
      assert [s[0]] + s[1..] == s;
    }
  }

  // 'text' with its quotes doubled, at any depth.
  lemma QuotedPasses(t: string, d: int, post: string)
    requires post == "" || post[0] != '\''
    ensures Passes("'" + (Double(t) + "'"), d, false, d, false, post)
  {
    DoubledPasses(t, d, "'" + post);
    PassesTwo(Double(t), "'", d, true, d, true, d, false, post);
    PassesTwo("'", Double(t) + "'", d, false, d, true, d, false, post);
  }

  lemma HexHasNoQuote(b: Bytes)
    ensures '\'' !in HexEncode(b)
  {
    HexIsHex(b);
  }

  lemma BlobPieces(h: string)
    ensures "X" + ("'" + (h + "'")) == "X'" + h + "'"
  {
    assert "X" + "'" == "X'";
  }

  lemma UnquotedPasses(h: string, d: int, post: string)
    requires '\'' !in h && (post == "" || post[0] != '\'')
    ensures Passes("X" + ("'" + (h + "'")), d, false, d, false, post)
  {
    DoubleOfPlain(h);
    QuotedPasses(h, d, post);
    PlainPasses("X", d, ("'" + (h + "'")) + post);
    PassesTwo("X", "'" + (h + "'"), d, false, d, false, d, false, post);
  }

  lemma BlobPasses(b: Bytes, d: int, post: string)
    requires post == "" || post[0] != '\''
    ensures Passes("X'" + HexEncode(b) + "'", d, false, d, false, post)
  {
    HexHasNoQuote(b);
    UnquotedPasses(HexEncode(b), d, post);
    BlobPieces(HexEncode(b));
  }

  const AsText := " AS TEXT" + ")"

  lemma AsTextPasses(post: string)
    ensures Passes(AsText, 1, false, 0, false, post)
  {
    PlainPasses(" AS TEXT", 1, ")" + post);
    PassesTwo(" AS TEXT", ")", 1, false, 1, false, 0, false, post);
  }

  lemma InParens(x: string, post: string)
    requires Passes(x, 1, false, 0, false, post)
    ensures Passes("CAST" + ("(" + x), 0, false, 0, false, post)
  {
    PassesTwo("(", x, 0, false, 1, false, 0, false, post);
    PlainPasses("CAST", 0, ("(" + x) + post);
    PassesTwo("CAST", "(" + x, 0, false, 0, false, 0, false, post);
  }

  lemma CastPasses(b: Bytes, post: string)
    ensures Passes(CastHead + HexEncode(b) + CastTail, 0, false, 0, false, post)
  {
    var blob := "X'" + HexEncode(b) + "'";
    AsTextPasses(post);
    BlobPasses(b, 1, AsText + post);
    PassesTwo(blob, AsText, 1, false, 1, false, 0, false, post);
    InParens(blob + AsText, post);
    CastPieces(HexEncode(b));
  }

  lemma CastPieces(h: string)
    ensures "CAST" + ("(" + (("X'" + h + "'") + AsText)) == CastHead + h + CastTail
  {
    assert "CAST" + ("(" + "X'") == CastHead;
    assert "'" + AsText == CastTail;
  }

  lemma NumeralPasses(s: string, post: string)
    requires IsNumeral(s)
    ensures Passes(s, 0, false, 0, false, post)
  {
    PlainPasses(s, 0, post);
  }

  lemma LiteralPasses(v: Value, post: string)
    requires AtComma(post)
    ensures Passes(Literal(v), 0, false, 0, false, post)
  {
    match v
    case Null => PlainPasses("NULL", 0, post);
    case Bool(b) => PlainPasses(Literal(v), 0, post);
    case Int(n) => DecimalNumeral(n); NumeralPasses(Decimal(n), post);
    case Text(s) => TextPasses(s, post);
    case Blob(b) => BlobPasses(b, 0, post);
  }

  lemma TextPasses(s: Bytes, post: string)
    requires AtComma(post)
    ensures Passes(Quote(s), 0, false, 0, false, post)
  {
    if NeedsHex(s) {
      CastPasses(s, post);
    } else {
      QuotedPasses(s, 0, post);
      assert "'" + (Double(s) + "'") == Quote(s);
    }
  }

  lemma {:induction false} LeadingSpaces(sp: string, s: string)
    requires Tight(s) && forall i :: 0 <= i < |sp| ==> IsSpace(sp[i])
    ensures Trim(sp + s) == s
  {
    if sp == "" {
      assert sp + s == s;
    } else {
      assert (sp + s)[1..] == sp[1..] + s;
      LeadingSpaces(sp[1..], s);
    }
  }

  // The literals come back out of the joined text; `sp` is the space after a comma.
  lemma {:induction false} SplitJoined(row: seq<Value>, sp: string)
    requires row != [] && (sp == "" || sp == " ")
    ensures Tokens(sp, 0, false, Join(Literals(row), ", ")) == Literals(row)
    decreases |row|
  {
    var lits := Literals(row);
    if |row| == 1 {
      SplitLast(row[0], sp);
      assert lits == [Literal(row[0])];
    } else {
      assert lits[1..] == Literals(row[1..]);
      SplitJoined(row[1..], " ");
      SplitOne(row[0], sp, Join(lits[1..], ", "), lits[1..]);
      assert lits == [Literal(row[0])] + lits[1..];
    }
  }

  lemma SplitLast(v: Value, sp: string)
    requires sp == "" || sp == " "
    ensures Tokens(sp, 0, false, Literal(v)) == [Literal(v)]
  {
    LiteralTight(v);
    LeadingSpaces(sp, Literal(v));
    LiteralPasses(v, "");
    assert Literal(v) + "" == Literal(v);
  }

  lemma SplitOne(v: Value, sp: string, rest: string, tokens: seq<string>)
    requires (sp == "" || sp == " ") && Tokens(" ", 0, false, rest) == tokens
    ensures Tokens(sp, 0, false, Literal(v) + (", " + rest)) == [Literal(v)] + tokens
  {
    LiteralTight(v);
    LeadingSpaces(sp, Literal(v));
    CommaEnds(v, sp, rest);
  }

  lemma CommaEnds(v: Value, sp: string, rest: string)
    ensures Tokens(sp, 0, false, Literal(v) + (", " + rest)) == [Trim(sp + Literal(v))] + Tokens(" ", 0, false, rest)
  {
    LiteralPasses(v, ", " + rest);
    assert (", " + rest)[1..] == " " + rest;
    PlainPasses(" ", 0, rest);
    assert "" + " " == " ";
  }

  /* ---------- Taking a statement apart ---------- */

  // The position of the first such character, or the length.
  function IndexOf(s: string, c: char): (k: nat)
    ensures k <= |s|
  {
    if s == "" || s[0] == c then 0 else 1 + IndexOf(s[1..], c)
  }

  // The text before and after the first such character, if there is one.
  function CutAt(s: string, c: char): Option<(string, string)> {
    var k := IndexOf(s, c);
    if k == |s| then None else Some((s[..k], s[k + 1..]))
  }

  // strings.Split(s, ", "), the first part having begun with `cur`.
  function CommaParts(cur: string, s: string): seq<string>
    decreases |s|
  {
    if s == "" then [cur]
    else if StartsWith(s, ", ") then [cur] + CommaParts("", s[2..])
    else CommaParts(cur + [s[0]], s[1..])
  }

  function TrimAll(parts: seq<string>): seq<string> {
    if parts == [] then [] else [Trim(parts[0])] + TrimAll(parts[1..])
  }

  datatype Parsed = Parsed(table: string, cols: seq<string>, values: seq<string>) | Malformed(table: string)

  function TrimSemicolon(s: string): string {
    if EndsWith(s, ";") then s[..|s| - 1] else s
  }

  function ParseValues(table: string, cols: seq<string>, rest: string): Parsed {
    if !StartsWith(rest, ValuesKw) then Malformed(table)
    else
      var v := TrimSemicolon(rest[|ValuesKw|..]);
      if |v| < 2 || v[0] != '(' || v[|v| - 1] != ')' then Malformed(table)
      else Parsed(table, cols, SplitValues(v[1..|v| - 1]))
  }

  // The opening parenthesis is not a closing one, so the search may start after it.
  function ParseColumns(table: string, rest: string): Parsed {
    if rest == "" || rest[0] != '(' then Malformed(table)
    else
      match CutAt(rest[1..], ')')
      case None => Malformed(table)
      case Some(cut) => ParseValues(table, TrimAll(CommaParts("", cut.0)), cut.1)
  }

  function ParseTable(rest: string): Parsed {
    match CutAt(rest, ' ')
    case None => Malformed("unknown")
    case Some(cut) => ParseColumns(cut.0, cut.1)
  }

  function ParseInsert(line: string): Parsed {
    if StartsWith(line, InsertInto) then ParseTable(line[|InsertInto|..]) else Malformed("unknown")
  }

  /* ---------- What parses ---------- */

  lemma {:induction false} IndexAfter(s: string, c: char, rest: string)
    requires c !in s
    ensures IndexOf(s + ([c] + rest), c) == |s|
  {
    if s != "" {
      assert (s + ([c] + rest))[1..] == s[1..] + ([c] + rest);
      IndexAfter(s[1..], c, rest);
    }
  }

  lemma CutAfter(s: string, c: char, rest: string)
    requires c !in s
    ensures CutAt(s + ([c] + rest), c) == Some((s, rest))
  {
    var t := s + ([c] + rest);
    IndexAfter(s, c, rest);
    assert t[..|s|] == s && t[|s| + 1..] == rest;
  }

  lemma {:induction false} IndexSplits(s: string, c: char)
    ensures var k := IndexOf(s, c); c !in s[..k] && (k < |s| ==> s[k] == c)
  {
    if s != "" && s[0] != c {
      IndexSplits(s[1..], c);
      var k := IndexOf(s[1..], c);
      assert s[..k + 1] == [s[0]] + s[1..][..k];
    }
  }

  // CutAt finds the only cut whose first part is free of the character.
  lemma CutExactly(s: string, c: char, x: string, y: string)
    ensures CutAt(s, c) == Some((x, y)) <==> c !in x && s == x + ([c] + y)
  {
    if c !in x && s == x + ([c] + y) {
      CutAfter(x, c, y);
    }
    IndexSplits(s, c);
    var k := IndexOf(s, c);
    assert k < |s| ==> s == s[..k] + ([c] + s[k + 1..]);
  }

  // A statement with the table t, the column text c and the value text v, with or without
  // its semicolon.
  function Spelled(t: string, c: string, v: string, semicolon: bool): string {
    InsertInto + (t + (" " + (("(" + c) + (")" + (ValuesKw + (("(" + v) + (if semicolon then ");" else ")")))))))
  }

  ghost predicate Spells(line: string, t: string, c: string, v: string) {
    ' ' !in t && ')' !in c && exists semicolon :: line == Spelled(t, c, v, semicolon)
  }

  predicate Enclosed(s: string, v: string, semicolon: bool) {
    s == ValuesKw + (("(" + v) + (if semicolon then ");" else ")"))
  }

  lemma ValuesEnclosed(table: string, cols: seq<string>, s: string, v: string, semicolon: bool)
    requires Enclosed(s, v, semicolon)
    ensures ParseValues(table, cols, s) == Parsed(table, cols, SplitValues(v))
  {
    var w := s[|ValuesKw|..];
    assert s[..|ValuesKw|] == ValuesKw && w == ("(" + v) + (if semicolon then ");" else ")");
    assert w[|w| - 1] == if semicolon then ';' else ')';
    assert w[|w| - 1..] == [w[|w| - 1]];
    assert TrimSemicolon(w) == ("(" + v) + ")";
    assert (("(" + v) + ")")[1..|v| + 1] == v;
  }

  lemma SemicolonOff(w: string)
    ensures w == TrimSemicolon(w) + if EndsWith(w, ";") then ";" else ""
  {
    if EndsWith(w, ";") {
      assert w == w[..|w| - 1] + w[|w| - 1..];
    }
  }

  lemma Parentheses(x: string)
    requires |x| >= 2 && x[0] == '(' && x[|x| - 1] == ')'
    ensures x == ("(" + x[1..|x| - 1]) + ")"
  {
  }

  lemma EnclosedValues(table: string, cols: seq<string>, s: string) returns (v: string, semicolon: bool)
    requires ParseValues(table, cols, s).Parsed?
    ensures Enclosed(s, v, semicolon)
  {
    var w := s[|ValuesKw|..];
    var x := TrimSemicolon(w);
    v, semicolon := x[1..|x| - 1], EndsWith(w, ";");
    SemicolonOff(w);
    Parentheses(x);
    assert s == ValuesKw + w;
    assert (("(" + v) + ")") + ";" == ("(" + v) + ");";
    assert (("(" + v) + ")") + "" == ("(" + v) + ")";
  }

  lemma SpelledParses(t: string, c: string, v: string, semicolon: bool)
    requires ' ' !in t && ')' !in c
    ensures ParseInsert(Spelled(t, c, v, semicolon)) == Parsed(t, TrimAll(CommaParts("", c)), SplitValues(v))
  {
    var values := ValuesKw + (("(" + v) + (if semicolon then ");" else ")"));
    var columns := ("(" + c) + (")" + values);
    var rest := t + (" " + columns);
    assert Spelled(t, c, v, semicolon) == InsertInto + rest;
    assert (InsertInto + rest)[..|InsertInto|] == InsertInto && (InsertInto + rest)[|InsertInto|..] == rest;
    CutAfter(t, ' ', columns);
    assert columns[1..] == c + ([')'] + values);
    CutAfter(c, ')', values);
    ValuesEnclosed(t, TrimAll(CommaParts("", c)), values, v, semicolon);
  }

  lemma ColumnsSpelled(t: string, s: string) returns (c: string, values: string, v: string, semicolon: bool)
    requires ParseColumns(t, s).Parsed?
    ensures s == ("(" + c) + (")" + values) && ')' !in c && Enclosed(values, v, semicolon)
  {
    var inner := CutAt(s[1..], ')').value;
    CutExactly(s[1..], ')', inner.0, inner.1);
    c, values := inner.0, inner.1;
    assert s == "(" + s[1..] && [')'] + values == ")" + values;
    v, semicolon := EnclosedValues(t, TrimAll(CommaParts("", c)), values);
  }

  lemma ParsedSpelled(line: string) returns (t: string, c: string, v: string)
    requires ParseInsert(line).Parsed?
    ensures Spells(line, t, c, v)
  {
    var rest := line[|InsertInto|..];
    var cut := CutAt(rest, ' ').value;
    CutExactly(rest, ' ', cut.0, cut.1);
    t := cut.0;
    var values, semicolon;
    c, values, v, semicolon := ColumnsSpelled(t, cut.1);
    assert line == InsertInto + rest && [' '] + cut.1 == " " + cut.1;
    assert line == Spelled(t, c, v, semicolon);
  }

  /** The lines that parse are exactly the statements, and what they are parsed into is their
    * table, the trimmed parts of the column text and the tokens of the value text. */
  lemma ParsedExactly(line: string)
    ensures ParseInsert(line).Parsed? <==> exists t, c, v :: Spells(line, t, c, v)
    ensures forall t, c, v :: Spells(line, t, c, v) ==> ParseInsert(line) == Parsed(t, TrimAll(CommaParts("", c)), SplitValues(v))
  {
    forall t, c, v | Spells(line, t, c, v)
      ensures ParseInsert(line) == Parsed(t, TrimAll(CommaParts("", c)), SplitValues(v))
    {
      var semicolon :| line == Spelled(t, c, v, semicolon);
      SpelledParses(t, c, v, semicolon);
    }
    if ParseInsert(line).Parsed? {
      var t, c, v := ParsedSpelled(line);
    }
  }

  lemma {:induction false} TrimAllSnoc(parts: seq<string>, p: string)
    ensures TrimAll(parts + [p]) == TrimAll(parts) + [Trim(p)]
  {
    if parts == [] {
      assert parts + [p] == [p] && [p][1..] == [];
    } else {
      assert (parts + [p])[1..] == parts[1..] + [p];
      TrimAllSnoc(parts[1..], p);
    }
  }

  method TrimColumns(parts: seq<string>) returns (cols: seq<string>)
    ensures cols == TrimAll(parts)
  {
    cols := [];
    for i := 0 to |parts|
      invariant cols == TrimAll(parts[..i])
    {
      assert parts[..i + 1] == parts[..i] + [parts[i]];
      TrimAllSnoc(parts[..i], parts[i]);
      cols := cols + [Trim(parts[i])];
    }
    assert parts[..|parts|] == parts;
  }

  method ParseValuesPart(table: string, cols: seq<string>, rest: string) returns (r: Parsed)
    ensures r == ParseValues(table, cols, rest)
  {
    if !StartsWith(rest, ValuesKw) {
      return Malformed(table);
    }
    var v := TrimSemicolon(rest[|ValuesKw|..]);
    if |v| < 2 || v[0] != '(' || v[|v| - 1] != ')' {
      return Malformed(table);
    }
    var values := SplitSQLValues(v[1..|v| - 1]);
    return Parsed(table, cols, values);
  }

  method ParseColumnsPart(table: string, rest: string) returns (r: Parsed)
    ensures r == ParseColumns(table, rest)
  {
    if rest == "" || rest[0] != '(' {
      return Malformed(table);
    }
    match CutAt(rest[1..], ')') {
      case None =>
        r := Malformed(table);
      case Some(cut) =>
        var cols := TrimColumns(CommaParts("", cut.0));
        r := ParseValuesPart(table, cols, cut.1);
    }
  }

  method ParseTablePart(rest: string) returns (r: Parsed)
    ensures r == ParseTable(rest)
  {
    match CutAt(rest, ' ') {
      case None =>
        r := Malformed("unknown");
      case Some(cut) =>
        r := ParseColumnsPart(cut.0, cut.1);
    }
  }

  method ParseInsertLine(line: string) returns (r: Parsed)
    ensures r.Parsed? <==> exists t, c, v :: Spells(line, t, c, v)
    ensures forall t, c, v :: Spells(line, t, c, v) ==> r == Parsed(t, TrimAll(CommaParts("", c)), SplitValues(v))
    ensures r == ParseInsert(line)
  {
    ParsedExactly(line);
    if !StartsWith(line, InsertInto) {
      return Malformed("unknown");
    }
    r := ParseTablePart(line[|InsertInto|..]);
  }
}
