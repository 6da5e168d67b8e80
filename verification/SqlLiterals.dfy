/** SQL literals of the dump format (internal/store/export.go): sqlLiteral and quoteSQL
  * print a value, parseSQLLiteralToGo reads it back. A string is a sequence of bytes, a
  * byte being a character below 256.
  */
module SqlLiterals {
  import opened Options
  import opened Decimals
  import opened Strings

  predicate IsBytes(s: string) {
    forall i :: 0 <= i < |s| ==> s[i] as int < 256
  }

  type Bytes = s: string | IsBytes(s)

  const MaxInt64 := 0x7FFF_FFFF_FFFF_FFFF

  type int64 = n: int | -MaxInt64 - 1 <= n <= MaxInt64

  datatype Value = Null | Int(n: int64) | Bool(b: bool) | Text(s: Bytes) | Blob(bytes: Bytes)

  /* ---------- Bytes in hexadecimal ---------- */

  const HexDigits := "0123456789abcdef"

  function HexEncode(b: Bytes): string {
    if b == [] then ""
    else [HexDigits[b[0] as int / 16], HexDigits[b[0] as int % 16]] + HexEncode(b[1..])
  }

  function HexValue(c: char): Option<nat> {
    if '0' <= c <= '9' then Some(c as int - '0' as int)
    else if 'a' <= c <= 'f' then Some(c as int - 'a' as int + 10)
    else if 'A' <= c <= 'F' then Some(c as int - 'A' as int + 10)
    else None
  }

  // None for an odd length or a character that is not a hexadecimal digit.
  function HexDecode(s: string): Option<Bytes> {
    if s == "" then Some("")
    else if |s| == 1 || HexValue(s[0]).None? || HexValue(s[1]).None? then None
    else
      var rest := HexDecode(s[2..]);
      if rest.None? then None
      else Some([(HexValue(s[0]).value * 16 + HexValue(s[1]).value) as char] + rest.value)
  }

  lemma {:induction false} HexRoundTrip(b: Bytes)
    ensures HexDecode(HexEncode(b)) == Some(b)
  {
    if b != [] {
      HexRoundTrip(b[1..]);
      HexStep(b[0], HexEncode(b[1..]));
      assert [b[0]] + b[1..] == b;
    }
  }

  lemma HexStep(c: char, t: string)
    requires c as int < 256 && HexDecode(t).Some?
    ensures HexDecode([HexDigits[c as int / 16], HexDigits[c as int % 16]] + t) == Some([c] + HexDecode(t).value)
  {
    var s := [HexDigits[c as int / 16], HexDigits[c as int % 16]] + t;
    HexDigitValue(c as int / 16);
    HexDigitValue(c as int % 16);
    assert s[2..] == t;
  }

  lemma HexDigitValue(d: nat)
    requires d < 16
    ensures HexValue(HexDigits[d]) == Some(d)
  {
  }

  predicate IsHex(s: string) {
    forall i :: 0 <= i < |s| ==> HexValue(s[i]).Some?
  }

  lemma {:induction false} HexIsHex(b: Bytes)
    ensures IsHex(HexEncode(b)) && |HexEncode(b)| == 2 * |b|
  {
    if b != [] {
      HexIsHex(b[1..]);
      HexDigitValue(b[0] as int / 16);
      HexDigitValue(b[0] as int % 16);
      var h, t := [HexDigits[b[0] as int / 16], HexDigits[b[0] as int % 16]], HexEncode(b[1..]);
      assert forall i :: 2 <= i < |h + t| ==> (h + t)[i] == t[i - 2];
    }
  }

  /* ---------- Decimal numbers ---------- */

  function Decimal(n: int): string {
    if n < 0 then "-" + Digits(-n) else Digits(n)
  }

  function Unsigned(s: string): string {
    if s != "" && (s[0] == '-' || s[0] == '+') then s[1..] else s
  }

  // strconv.ParseInt(s, 10, 64)
  function ParseInt(s: string): Option<int64> {
    if Unsigned(s) == "" || !AllDigits(Unsigned(s)) then None
    else
      var n := Number(Unsigned(s));
      var v: int := if s[0] == '-' then 0 - n else n;
      if -MaxInt64 - 1 <= v <= MaxInt64 then Some(v) else None
  }

  lemma IntRoundTrip(n: int64)
    ensures ParseInt(Decimal(n)) == Some(n)
  {
    var m: nat := if n < 0 then 0 - n else n;
    DigitsRead(m);
    DecimalSplit(n, m);
  }

  lemma DecimalSplit(n: int, m: nat)
    requires m == if n < 0 then 0 - n else n
    ensures Unsigned(Decimal(n)) == Digits(m) && (Decimal(n)[0] == '-' <==> n < 0)
  {
    DigitsRead(m);
    assert Digits(m)[0] >= '0';
    if n < 0 {
      assert Decimal(n)[1..] == Digits(m);
    }
  }

  /* ---------- Quoted text ---------- */

  // strings.ReplaceAll(s, "'", "''")
  function Double(s: string): (r: string)
    ensures IsBytes(s) ==> IsBytes(r)
  {
    if s == "" then "" else (if s[0] == '\'' then "''" else [s[0]]) + Double(s[1..])
  }

  // strings.ReplaceAll(s, "''", "'")
  function Undouble(s: string): (r: string)
    ensures IsBytes(s) ==> IsBytes(r)
  {
    if s == "" then ""
    else if |s| >= 2 && s[0] == '\'' && s[1] == '\'' then "'" + Undouble(s[2..])
    else [s[0]] + Undouble(s[1..])
  }

  lemma {:induction false} DoubledReadBack(s: string)
    ensures Undouble(Double(s)) == s
  {
    if s != "" {
      DoubledReadBack(s[1..]);
      if s[0] == '\'' {
        assert Double(s)[2..] == Double(s[1..]);
      } else {
        assert Double(s)[1..] == Double(s[1..]);
      }
      assert [s[0]] + s[1..] == s;
    }
  }

  // Text that has to stay out of the line as it is.
  predicate NeedsHex(s: string) {
    '\n' in s || '\r' in s || '\0' in s
  }

  const CastHead := "CAST(X'"
  const CastTail := "' AS TEXT)"

  function Quote(s: Bytes): string {
    if NeedsHex(s) then CastHead + HexEncode(s) + CastTail else "'" + Double(s) + "'"
  }

  function Literal(v: Value): string {
    match v
    case Null => "NULL"
    case Int(n) => Decimal(n)
    case Bool(b) => if b then "1" else "0"
    case Text(s) => Quote(s)
    case Blob(bytes) => "X'" + HexEncode(bytes) + "'"
  }

  /* ---------- Reading a literal ---------- */

  predicate IsSpace(c: char) {
    c == ' ' || c == '\t' || c == '\n' || c == '\r' || c as int == 11 || c as int == 12
  }

  function TrimLeft(s: string): (r: string)
    ensures IsBytes(s) ==> IsBytes(r)
  {
    if s != "" && IsSpace(s[0]) then TrimLeft(s[1..]) else s
  }

  function TrimRight(s: string): (r: string)
    ensures IsBytes(s) ==> IsBytes(r)
  {
    if s != "" && IsSpace(s[|s| - 1]) then TrimRight(s[..|s| - 1]) else s
  }

  function Trim(s: string): string {
    TrimRight(TrimLeft(s))
  }

  // strings.EqualFold(s, "NULL")
  predicate IsNull(s: string) {
    |s| == 4 && s[0] in "nN" && s[1] in "uU" && s[2] in "lL" && s[3] in "lL"
  }

  // `NotExact`: neither null, text, blob nor integer; the source goes on to try a float.
  // `Panics`: the slice bounds cross.
  datatype Decoded = Decoded(value: Value) | BadHex | NotExact | Panics

  function FromHex(s: string, text: bool): Decoded {
    match HexDecode(s)
    case None => BadHex
    case Some(b) => Decoded(if text then Text(b) else Blob(b))
  }

  function DecodeTrimmed(s: Bytes): Decoded {
    if IsNull(s) then Decoded(Null)
    else if |s| >= 2 && s[0] == '\'' && s[|s| - 1] == '\'' then
      Decoded(Text(Undouble(s[1..|s| - 1])))
    else if StartsWith(s, CastHead) && EndsWith(s, CastTail) then
      if |s| < 17 then Panics else FromHex(s[7..|s| - 10], true)
    else if |s| >= 4 && StartsWith(s, "X'") && s[|s| - 1] == '\'' then FromHex(s[2..|s| - 1], false)
    else if ParseInt(s).Some? then Decoded(Int(ParseInt(s).value))
    else NotExact
  }

  function Decode(s: Bytes): Decoded {
    DecodeTrimmed(Trim(s))
  }

  /* ---------- The round trip of a value ---------- */

  // What reading gives back: a truth value returns as an integer.
  function Expected(v: Value): Value {
    if v.Bool? then Int(if v.b then 1 else 0) else v
  }

  // A literal that neither starts nor ends with white space.
  predicate Tight(s: string) {
    s != "" && !IsSpace(s[0]) && !IsSpace(s[|s| - 1])
  }

  predicate IsNumeral(s: string) {
    s != "" && forall i :: 0 <= i < |s| ==> s[i] == '-' || '0' <= s[i] <= '9'
  }

  lemma NumeralTight(s: string)
    requires IsNumeral(s)
    ensures Tight(s) && IsBytes(s)
  {
  }

  lemma DecimalNumeral(n: int)
    ensures IsNumeral(Decimal(n))
  {
    if n < 0 {
      DigitsRead(0 - n);
      SignedNumeral(Digits(0 - n));
    } else {
      DigitsRead(n);
    }
  }

  lemma SignedNumeral(d: string)
    requires AllDigits(d)
    ensures IsNumeral("-" + d)
  {
    var s := "-" + d;
    assert forall i :: 1 <= i < |s| ==> s[i] == d[i - 1];
  }

  lemma QuoteTight(s: Bytes)
    ensures Tight(Quote(s)) && IsBytes(Quote(s))
  {
    if NeedsHex(s) {
      HexBytes(s);
    }
  }

  lemma HexBytes(b: Bytes)
    ensures IsBytes(HexEncode(b))
  {
    HexIsHex(b);
  }

  lemma LiteralTight(v: Value)
    ensures Tight(Literal(v)) && IsBytes(Literal(v))
  {
    match v
    case Null =>
    case Bool(_) =>
    case Int(n) => DecimalNumeral(n); NumeralTight(Decimal(n));
    case Text(s) => QuoteTight(s);
    case Blob(b) => HexBytes(b);
  }

  // No other form of literal starts like a number.
  lemma NumeralRead(s: Bytes)
    requires IsNumeral(s)
    ensures DecodeTrimmed(s) == if ParseInt(s).Some? then Decoded(Int(ParseInt(s).value)) else NotExact
  {
    var c := s[0];
    assert c == '-' || '0' <= c <= '9';
    assert !IsNull(s);
  }

  lemma IntRead(n: int64)
    ensures IsBytes(Decimal(n)) && DecodeTrimmed(Decimal(n)) == Decoded(Int(n))
  {
    DecimalNumeral(n);
    NumeralTight(Decimal(n));
    IntRoundTrip(n);
    NumeralRead(Decimal(n));
  }

  lemma CastForm(h: string)
    requires IsBytes(h) && h != ""
    ensures var lit := CastHead + h + CastTail;
            && IsBytes(lit) && lit[0] == 'C' && |lit| >= 17 && lit[7..|lit| - 10] == h
            && StartsWith(lit, CastHead) && EndsWith(lit, CastTail)
  {
    var lit := CastHead + h + CastTail;
    assert lit[7..|lit| - 10] == h;
    assert lit[..7] == CastHead && lit[|lit| - 10..] == CastTail;
  }

  lemma HexTextRead(s: Bytes)
    requires s != ""
    ensures var lit := CastHead + HexEncode(s) + CastTail; IsBytes(lit) && DecodeTrimmed(lit) == FromHex(HexEncode(s), true)
  {
    HexBytes(s);
    CastForm(HexEncode(s));
  }

  lemma BlobForm(h: string)
    requires IsBytes(h)
    ensures var lit := "X'" + h + "'";
            && IsBytes(lit) && lit[0] == 'X' && lit[|lit| - 1] == '\'' && lit[2..|lit| - 1] == h && StartsWith(lit, "X'")
            && !StartsWith(lit, CastHead)
  {
    var lit := "X'" + h + "'";
    assert lit[2..|lit| - 1] == h;
    assert lit[..2] == "X'";
  }

  lemma QuoteForm(d: string)
    requires IsBytes(d)
    ensures var lit := "'" + d + "'";
            IsBytes(lit) && !IsNull(lit) && |lit| >= 2 && lit[0] == '\'' && lit[|lit| - 1] == '\'' && lit[1..|lit| - 1] == d
  {
    var lit := "'" + d + "'";
    assert lit[1..|lit| - 1] == d;
  }

  lemma QuotedRead(s: Bytes)
    ensures var lit := "'" + Double(s) + "'"; IsBytes(lit) && DecodeTrimmed(lit) == Decoded(Text(s))
  {
    QuoteForm(Double(s));
    DoubledReadBack(s);
  }

  lemma BlobRead(b: Bytes)
    ensures IsBytes(Literal(Blob(b))) && DecodeTrimmed(Literal(Blob(b))) == if b == "" then NotExact else Decoded(Blob(b))
  {
    HexBytes(b);
    BlobForm(HexEncode(b));
    HexRoundTrip(b);
    if b == "" {
      assert Literal(Blob(b)) == "X''";
    } else {
      HexIsHex(b);
    }
  }

  lemma TextRead(s: Bytes)
    ensures IsBytes(Quote(s)) && DecodeTrimmed(Quote(s)) == Decoded(Text(s))
  {
    if NeedsHex(s) {
      HexTextRead(s);
      HexRoundTrip(s);
    } else {
      QuotedRead(s);
    }
  }

  lemma BoolRead(b: bool)
    ensures IsBytes(Literal(Bool(b))) && DecodeTrimmed(Literal(Bool(b))) == Decoded(Expected(Bool(b)))
  {
    var n: int64 := if b then 1 else 0;
    IntRead(n);
    OneDigit(n);
  }

  lemma OneDigit(n: int)
    requires 0 <= n <= 1
    ensures Decimal(n) == if n == 1 then "1" else "0"
  {
    assert Digits(n) == "" + [('0' as int + n % 10) as char];
  }

  /** Printing a value and reading the literal gives the value back, a truth value as 0 or
    * 1, if and only if it is not the empty blob, whose literal X'' is too short for the
    * reader. */
  lemma ValueRoundTrip(v: Value)
    ensures IsBytes(Literal(v))
    ensures Decode(Literal(v)) == Decoded(Expected(v)) <==> v != Blob("")
  {
    LiteralTight(v);
    match v
    case Null =>
    case Bool(b) => BoolRead(b);
    case Int(n) => IntRead(n);
    case Text(s) => TextRead(s);
    case Blob(b) => BlobRead(b);
  }

  /** The reader is total except on one token: where the two ends of the text form share
    * their quote, it slices past the middle. */
  lemma PanicsExactly(s: Bytes)
    ensures Decode(s).Panics? <==> Trim(s) == "CAST(X' AS TEXT)"
  {
    var t := Trim(s);
    if StartsWith(t, CastHead) && EndsWith(t, CastTail) && |t| < 17 {
      assert t[..7] == CastHead && t[|t| - 10..] == CastTail;
      if |t| <= 16 {
        assert t[6] == '\'';
        ShortCast(t);
      }
    }
  }

  lemma ShortCast(t: string)
    requires StartsWith(t, CastHead) && EndsWith(t, CastTail) && |t| < 17
    ensures t == "CAST(X' AS TEXT)"
  {
    assert t[|t| - 10] == '\'';
    assert forall i :: 0 <= i < 7 ==> t[i] == CastHead[i];
    assert |t| - 10 >= 6;
    assert t == t[..6] + t[6..];
  }
}
