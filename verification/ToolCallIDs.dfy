/** Tool call ids that carry a thought signature (internal/provider/gemini/types.go): encoding
  * and decoding, with the unpadded URL alphabet of base64 (section 5 of RFC 4648). A string is
  * a sequence of bytes.
  */
module ToolCallIDs {
  import opened Options
  import opened Strings
  import opened SqlLiterals
  import Decimals
  import Gemini

  /* ---------- Base64 ---------- */

  function Sextet(v: nat): char
    requires v < 64
  {
    if v < 26 then ('A' as int + v) as char
    else if v < 52 then ('a' as int + v - 26) as char
    else if v < 62 then ('0' as int + v - 52) as char
    else if v == 62 then '-' else '_'
  }

  function SextetValue(c: char): (v: Option<nat>)
    ensures v.Some? ==> v.value < 64
  {
    if 'A' <= c <= 'Z' then Some(c as int - 'A' as int)
    else if 'a' <= c <= 'z' then Some(c as int - 'a' as int + 26)
    else if '0' <= c <= '9' then Some(c as int - '0' as int + 52)
    else if c == '-' then Some(62)
    else if c == '_' then Some(63)
    else None
  }

  lemma SextetRead(v: nat)
    requires v < 64
    ensures SextetValue(Sextet(v)) == Some(v) && Sextet(v) != '\n' && Sextet(v) != '\r'
  {
  }

  // The four groups of six bits of three bytes, and the bytes of the groups.
  function High6(x: char): nat {
    x as int / 4
  }

  function Low2High4(x: char, y: nat): nat {
    x as int % 4 * 16 + y / 16
  }

  function Low4High2(y: char, z: nat): nat {
    y as int % 16 * 4 + z / 64
  }

  function Low6(z: char): nat {
    z as int % 64
  }

  function Byte1(u: nat, v: nat): char
    requires u < 64 && v < 64
  {
    (u * 4 + v / 16) as char
  }

  function Byte2(v: nat, w: nat): char
    requires v < 64 && w < 64
  {
    (v % 16 * 16 + w / 4) as char
  }

  function Byte3(w: nat, t: nat): char
    requires w < 64 && t < 64
  {
    (w % 4 * 64 + t) as char
  }

  lemma GroupsRead(x: char, y: char, z: nat)
    requires x as int < 256 && y as int < 256 && z < 256
    ensures High6(x) < 64 && Low2High4(x, y as int) < 64 && Low4High2(y, z) < 64
    ensures Byte1(High6(x), Low2High4(x, y as int)) == x && Byte2(Low2High4(x, y as int), Low4High2(y, z)) == y
  {
    FirstByte(x as int, y as int / 16);
    SecondByte(x as int % 4, y as int, z / 64);
  }

  lemma LastRead(y: char, z: char)
    requires y as int < 256 && z as int < 256
    ensures Low4High2(y, z as int) < 64 && Low6(z) < 64 && Byte3(Low4High2(y, z as int), Low6(z)) == z
  {
    ThirdByte(y as int % 16, z as int);
  }

  lemma FirstByte(x: nat, y: nat)
    requires x < 256 && y < 16
    ensures x / 4 * 4 + (x % 4 * 16 + y) / 16 == x
  {
  }

  lemma SecondByte(x: nat, y: nat, z: nat)
    requires x < 4 && y < 256 && z < 4
    ensures (x * 16 + y / 16) % 16 * 16 + (y % 16 * 4 + z) / 4 == y
  {
  }

  lemma ThirdByte(y: nat, z: nat)
    requires y < 16 && z < 256
    ensures (y * 4 + z / 64) % 4 * 64 + z % 64 == z
  {
  }

  predicate AllSix(vs: seq<nat>) {
    forall k :: 0 <= k < |vs| ==> vs[k] < 64
  }

  // The bits of the bytes by the six, the last ones filled up with zeros.
  function Packed(b: Bytes): (vs: seq<nat>)
    ensures AllSix(vs)
  {
    if |b| == 0 then []
    else if |b| == 1 then [High6(b[0]), Low2High4(b[0], 0)]
    else if |b| == 2 then [High6(b[0]), Low2High4(b[0], b[1] as int), Low4High2(b[1], 0)]
    else [High6(b[0]), Low2High4(b[0], b[1] as int), Low4High2(b[1], b[2] as int), Low6(b[2])] + Packed(b[3..])
  }

  function Sextets(vs: seq<nat>): string
    requires AllSix(vs)
  {
    if vs == [] then "" else [Sextet(vs[0])] + Sextets(vs[1..])
  }

  function Encode64(b: Bytes): string {
    Sextets(Packed(b))
  }

  // Line breaks are skipped wherever they stand.
  function WithoutBreaks(s: string): string {
    if s == "" then "" else (if s[0] == '\n' || s[0] == '\r' then "" else [s[0]]) + WithoutBreaks(s[1..])
  }

  function ValuesOf(s: string): Option<seq<nat>> {
    if s == "" then Some([])
    else
      var v, rest := SextetValue(s[0]), ValuesOf(s[1..]);
      if v.None? || rest.None? then None else Some([v.value] + rest.value)
  }

  // Four values make three bytes, three make two and two make one; the bits that are left over
  // are not looked at.
  function Unpacked(vs: seq<nat>): Option<string>
    requires AllSix(vs)
  {
    if |vs| == 0 then Some("")
    else if |vs| == 1 then None
    else if |vs| == 2 then Some([Byte1(vs[0], vs[1])])
    else if |vs| == 3 then Some([Byte1(vs[0], vs[1]), Byte2(vs[1], vs[2])])
    else
      var rest := Unpacked(vs[4..]);
      if rest.None? then None else Some([Byte1(vs[0], vs[1]), Byte2(vs[1], vs[2]), Byte3(vs[2], vs[3])] + rest.value)
  }

  lemma {:induction false} ValuesBelow(s: string)
    ensures ValuesOf(s).Some? ==> AllSix(ValuesOf(s).value)
  {
    if s != "" {
      ValuesBelow(s[1..]);
    }
  }

  function Decode64(s: string): Option<string> {
    var vs := ValuesOf(WithoutBreaks(s));
    ValuesBelow(WithoutBreaks(s));
    if vs.None? then None else Unpacked(vs.value)
  }

  lemma {:induction false} SextetsRead(vs: seq<nat>)
    requires AllSix(vs)
    ensures WithoutBreaks(Sextets(vs)) == Sextets(vs) && ValuesOf(Sextets(vs)) == Some(vs)
  {
    if vs != [] {
      SextetRead(vs[0]);
      SextetsRead(vs[1..]);
      assert Sextets(vs)[1..] == Sextets(vs[1..]) && [vs[0]] + vs[1..] == vs;
    }
  }

  lemma {:induction false} PackedRead(b: Bytes)
    ensures Unpacked(Packed(b)) == Some(b)
    decreases |b|
  {
    if |b| == 0 {
    } else if |b| < 3 {
      FewPacked(b);
    } else {
      PackedRead(b[3..]);
      ThreePacked(b);
    }
  }

  lemma FewPacked(b: Bytes)
    requires 1 <= |b| <= 2
    ensures Unpacked(Packed(b)) == Some(b)
  {
    if |b| == 1 {
      GroupsRead(b[0], 0 as char, 0);
      assert b == [b[0]];
    } else {
      GroupsRead(b[0], b[1], 0);
      assert b == [b[0], b[1]];
    }
  }

  lemma FourUnpacked(u: nat, v: nat, w: nat, t: nat, rest: seq<nat>)
    requires u < 64 && v < 64 && w < 64 && t < 64 && AllSix(rest) && Unpacked(rest).Some?
    ensures Unpacked([u, v, w, t] + rest) == Some([Byte1(u, v), Byte2(v, w), Byte3(w, t)] + Unpacked(rest).value)
  {
    assert ([u, v, w, t] + rest)[4..] == rest;
  }

  lemma ThreePacked(b: Bytes)
    requires |b| >= 3 && Unpacked(Packed(b[3..])) == Some(b[3..])
    ensures Unpacked(Packed(b)) == Some(b)
  {
    GroupsRead(b[0], b[1], b[2] as int);
    LastRead(b[1], b[2]);
    FourUnpacked(High6(b[0]), Low2High4(b[0], b[1] as int), Low4High2(b[1], b[2] as int), Low6(b[2]), Packed(b[3..]));
    assert b == [b[0], b[1], b[2]] + b[3..];
  }

  /** Every byte string is read back from its encoding. */
  lemma Base64RoundTrip(b: Bytes)
    ensures Decode64(Encode64(b)) == Some(b)
  {
    SextetsRead(Packed(b));
    PackedRead(b);
  }

  lemma EncodedNotEmpty(b: Bytes)
    requires b != ""
    ensures Encode64(b) != ""
  {
  }

  /* ---------- The marker ---------- */

  const Marker := "__ggts__"

  predicate OccursAt(s: string, sub: string, i: int) {
    0 <= i && i + |sub| <= |s| && s[i..i + |sub|] == sub
  }

  lemma NextOccurrences(s: string, sub: string)
    requires s != "" && !OccursAt(s, sub, 0)
    ensures forall j :: j > 0 && OccursAt(s, sub, j) ==> OccursAt(s[1..], sub, j - 1)
    ensures forall j :: OccursAt(s[1..], sub, j) ==> OccursAt(s, sub, j + 1)
  {
    forall j | OccursAt(s[1..], sub, j)
      ensures OccursAt(s, sub, j + 1)
    {
      assert s[1..][j..j + |sub|] == s[j + 1..j + 1 + |sub|];
    }
    forall j | j > 0 && OccursAt(s, sub, j)
      ensures OccursAt(s[1..], sub, j - 1)
    {
      assert s[1..][j - 1..j - 1 + |sub|] == s[j..j + |sub|];
    }
  }

  // strings.Index: the first occurrence, or -1.
  function Index(s: string, sub: string): (i: int)
    ensures i >= -1 && (i >= 0 ==> OccursAt(s, sub, i))
    ensures forall j :: 0 <= j && (i < 0 || j < i) ==> !OccursAt(s, sub, j)
  {
    if StartsWith(s, sub) then 0
    else if s == "" then -1
    else
      var i := Index(s[1..], sub);
      NextOccurrences(s, sub);
      if i < 0 then -1 else i + 1
  }

  predicate Contains(s: string, sub: string) {
    Index(s, sub) >= 0
  }

  function EncodeToolCallID(id: string, signature: Bytes): string {
    if signature == "" || Contains(id, Marker) then id
    else (if id == "" then "call_gemini" else id) + (Marker + Encode64(signature))
  }

  // The id without its signature, and the signature.
  function DecodeToolCallID(id: string): (string, string) {
    var i := Index(id, Marker);
    if i < 0 then (id, "")
    else
      var encoded := id[i + |Marker|..];
      if encoded == "" || Decode64(encoded).None? then (id, "") else (id[..i], Decode64(encoded).value)
  }

  /* ---------- There and back ---------- */

  lemma FirstIs(s: string, sub: string, i: int)
    requires OccursAt(s, sub, i) && forall j :: 0 <= j < i ==> !OccursAt(s, sub, j)
    ensures Index(s, sub) == i
  {
  }

  // The end of the id and the beginning of the marker could be taken for a marker.
  predicate RunsIntoMarker(id: string) {
    EndsWith(id, "__ggts") || EndsWith(id, "__ggts_")
  }

  lemma MarkerAt(s: string, j: int)
    ensures OccursAt(s, Marker, j)
            <==> && 0 <= j && j + 8 <= |s| && s[j] == '_' && s[j + 1] == '_' && s[j + 2] == 'g' && s[j + 3] == 'g'
                 && s[j + 4] == 't' && s[j + 5] == 's' && s[j + 6] == '_' && s[j + 7] == '_'
  {
    if 0 <= j && j + 8 <= |s| {
      var t := s[j..j + 8];
      assert forall k :: 0 <= k < 8 ==> t[k] == s[j + k];
      assert t == Marker <==> t[0] == '_' && t[1] == '_' && t[2] == 'g' && t[3] == 'g' && t[4] == 't' && t[5] == 's' && t[6] == '_' && t[7] == '_';
    }
  }

  lemma EndsAsMarker(id: string, n: nat)
    requires n == 6 || n == 7
    ensures EndsWith(id, Marker[..n])
            <==> && |id| >= n && id[|id| - n] == '_' && id[|id| - n + 1] == '_' && id[|id| - n + 2] == 'g' && id[|id| - n + 3] == 'g'
                 && id[|id| - n + 4] == 't' && id[|id| - n + 5] == 's' && (n == 7 ==> id[|id| - 1] == '_')
  {
    if |id| >= n {
      var t := id[|id| - n..];
      assert forall k :: 0 <= k < n ==> t[k] == id[|id| - n + k];
      assert t == Marker[..n] <==> t[0] == '_' && t[1] == '_' && t[2] == 'g' && t[3] == 'g' && t[4] == 't' && t[5] == 's' && (n == 7 ==> t[6] == '_');
    }
  }

  // An occurrence of the marker before its place lies within the id or across its end.
  lemma Overlap(id: string, tail: string, j: int)
    requires !Contains(id, Marker) && 0 <= j < |id|
    ensures OccursAt(id + (Marker + tail), Marker, j) <==> (j == |id| - 6 && EndsWith(id, "__ggts")) || (j == |id| - 7 && EndsWith(id, "__ggts_"))
  {
    var s, k := id + (Marker + tail), |id| - j;
    MarkerAt(s, j);
    MarkerAt(id, j);
    assert Marker[..6] == "__ggts" && Marker[..7] == "__ggts_";
    if k == 6 || k == 7 {
      EndsAsMarker(id, k);
    }
    assert forall i :: |id| <= i < |id| + 8 ==> s[i] == Marker[i - |id|];
  }

  lemma MarkerInPlace(id: string, tail: string)
    ensures OccursAt(id + (Marker + tail), Marker, |id|)
  {
  }

  lemma MarkerFound(id: string, tail: string)
    requires !Contains(id, Marker)
    ensures Index(id + (Marker + tail), Marker) == |id| <==> !RunsIntoMarker(id)
  {
    var s := id + (Marker + tail);
    MarkerInPlace(id, tail);
    forall j | 0 <= j < |id|
      ensures OccursAt(s, Marker, j) <==> (j == |id| - 6 && EndsWith(id, "__ggts")) || (j == |id| - 7 && EndsWith(id, "__ggts_"))
    {
      Overlap(id, tail, j);
    }
    if EndsWith(id, "__ggts") {
      assert OccursAt(s, Marker, |id| - 6);
    } else if EndsWith(id, "__ggts_") {
      assert OccursAt(s, Marker, |id| - 7);
    } else {
      FirstIs(s, Marker, |id|);
    }
  }

  // What a decoder finds after the marker of an id.
  predicate Signed(id: string) {
    var i := Index(id, Marker);
    i >= 0 && id[i + |Marker|..] != "" && Decode64(id[i + |Marker|..]).Some?
  }

  lemma SignedRead(id: string, signature: Bytes)
    requires id != "" && signature != "" && !Contains(id, Marker)
    ensures DecodeToolCallID(EncodeToolCallID(id, signature)) == (id, signature) <==> !RunsIntoMarker(id)
  {
    var tail := Encode64(signature);
    var s := id + (Marker + tail);
    MarkerFound(id, tail);
    Base64RoundTrip(signature);
    EncodedNotEmpty(signature);
    if Index(s, Marker) == |id| {
      assert s[|id| + |Marker|..] == tail && s[..|id|] == id;
    } else {
      MarkerInPlace(id, tail);
      assert 0 <= Index(s, Marker) < |id|;
      ShorterBase(s, Index(s, Marker), id);
    }
  }

  lemma ShorterBase(s: string, i: int, id: string)
    requires 0 <= i < |id| <= |s| && |id| < |s|
    ensures s[..i] != id && s != id
  {
  }

  lemma BaseNotEmpty(s: string)
    requires s != "" && s[0] != '_'
    ensures DecodeToolCallID(s).0 != ""
  {
    MarkerAt(s, Index(s, Marker));
  }

  /** Which ids bring a signature there and back, for every id and signature: with a signature,
    * those that are not empty, hold no marker of their own and do not end in "__ggts" or
    * "__ggts_", which would make a marker with the beginning of the one that follows; without
    * one, those that do not happen to look signed. */
  lemma SignatureRoundTripExactly(id: string, signature: Bytes)
    ensures DecodeToolCallID(EncodeToolCallID(id, signature)) == (id, signature)
            <==> if signature == "" then !Signed(id) else id != "" && !Contains(id, Marker) && !RunsIntoMarker(id)
  {
    if signature == "" {
      var i := Index(id, Marker);
      if Signed(id) {
        ShorterBase(id + "_", i, id);
      }
    } else if Contains(id, Marker) {
      assert EncodeToolCallID(id, signature) == id;
      var i := Index(id, Marker);
      if Signed(id) {
        ShorterBase(id + "_", i, id);
      }
    } else if id == "" {
      BaseNotEmpty(EncodeToolCallID(id, signature));
    } else {
      SignedRead(id, signature);
    }
  }

  /* ---------- The ids that the translators make ---------- */

  lemma {:induction false} ZerosRead(n: nat)
    ensures Decimals.AllDigits(Gemini.Zeros(n)) && |Gemini.Zeros(n)| == n
  {
    if n > 0 {
      ZerosRead(n - 1);
    }
  }

  lemma {:induction false} NumberOfZeros(n: nat)
    requires Decimals.AllDigits(Gemini.Zeros(n))
    ensures Decimals.Number(Gemini.Zeros(n)) == 0
  {
    if n > 0 {
      ZerosRead(n - 1);
      NumberOfZeros(n - 1);
      LastZero(n);
    }
  }

  lemma {:induction false} LastZero(n: nat)
    requires n > 0
    ensures Gemini.Zeros(n) == Gemini.Zeros(n - 1) + "0"
  {
    if n > 1 {
      LastZero(n - 1);
    }
  }

  lemma {:induction false} LeadingZeros(n: nat, d: string)
    requires Decimals.AllDigits(d)
    ensures Decimals.AllDigits(Gemini.Zeros(n) + d) && Decimals.Number(Gemini.Zeros(n) + d) == Decimals.Number(d)
    decreases |d|
  {
    ZerosRead(n);
    if d == "" {
      NumberOfZeros(n);
      assert Gemini.Zeros(n) + d == Gemini.Zeros(n);
    } else {
      var s := Gemini.Zeros(n) + d;
      LeadingZeros(n, d[..|d| - 1]);
      assert s[..|s| - 1] == Gemini.Zeros(n) + d[..|d| - 1] && s[|s| - 1] == d[|d| - 1];
    }
  }

  /** The number in an id has at least six digits and reads back as the number. */
  lemma SixDigitsRead(n: nat)
    ensures var s := Gemini.SixDigits(n); |s| >= 6 && Decimals.AllDigits(s) && Decimals.Number(s) == n
  {
    Decimals.DigitsRead(n);
    PaddedRead(Decimals.Digits(n));
  }

  lemma PaddedRead(d: string)
    requires Decimals.AllDigits(d)
    ensures var s := Gemini.Padded(d);
            |s| >= 6 && Decimals.AllDigits(s) && Decimals.Number(s) == Decimals.Number(d)
  {
    if |d| < 6 {
      ZerosRead(6 - |d|);
      LeadingZeros(6 - |d|, d);
    }
  }

  // An id without a g in it, as the translators make them.
  lemma PlainId(id: string, signature: Bytes)
    requires id != "" && 'g' !in id
    ensures DecodeToolCallID(EncodeToolCallID(id, signature)) == (id, signature)
  {
    SignatureRoundTripExactly(id, signature);
    MarkerAt(id, Index(id, Marker));
    assert Marker[..6] == "__ggts" && Marker[..7] == "__ggts_";
    EndsAsMarker(id, 6);
    EndsAsMarker(id, 7);
  }

  /** The ids of a translated stream bring every signature back, and two of them are never the
    * same. */
  lemma StreamIdsRead(prefix: string, n: nat, signature: Bytes, m: nat, other: Bytes)
    requires prefix == "toolu_" || prefix == "call_"
    ensures var id := EncodeToolCallID(prefix + Gemini.SixDigits(n), signature);
            && DecodeToolCallID(id) == (prefix + Gemini.SixDigits(n), signature)
            && (m != n ==> id != EncodeToolCallID(prefix + Gemini.SixDigits(m), other))
  {
    var a, b := prefix + Gemini.SixDigits(n), prefix + Gemini.SixDigits(m);
    SixDigitsRead(n);
    SixDigitsRead(m);
    PlainId(a, signature);
    PlainId(b, other);
    if a == b {
      assert a[|prefix|..] == Gemini.SixDigits(n) && b[|prefix|..] == Gemini.SixDigits(m);
    }
  }
}
