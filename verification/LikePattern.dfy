/** escapeLikePattern (internal/store/sqlite_costs.go) against the LIKE predicate with an
  * escape character (section 8.5 of ISO/IEC 9075-2:2003).
  */
module LikePattern {
  import opened Options

  /* ---------- Escaping ---------- */

  // strings.ReplaceAll with a single character to replace
  function Replace(s: string, c: char, with: string): string {
    if s == "" then "" else (if s[0] == c then with else [s[0]]) + Replace(s[1..], c, with)
  }

  function Escape(s: string): string {
    Replace(Replace(Replace(s, '\\', "\\\\"), '%', "\\%"), '_', "\\_")
  }

  predicate IsSpecial(c: char) {
    c == '\\' || c == '%' || c == '_'
  }

  function EscapeOne(c: char): string {
    if IsSpecial(c) then ['\\', c] else [c]
  }

  function EscapeEach(s: string): string {
    if s == "" then "" else EscapeOne(s[0]) + EscapeEach(s[1..])
  }

  lemma {:induction false} ReplaceAppend(a: string, b: string, c: char, with: string)
    ensures Replace(a + b, c, with) == Replace(a, c, with) + Replace(b, c, with)
  {
    if a == "" {
      assert a + b == b;
    } else {
      assert (a + b)[1..] == a[1..] + b;
      ReplaceAppend(a[1..], b, c, with);
    }
  }

  lemma ReplaceTwo(a: char, b: char, c: char, with: string)
    requires a != c
    ensures Replace([a, b], c, with) == [a] + if b == c then with else [b]
  {
    assert [a, b][1..] == [b];
    ReplaceOne(b, c, with);
  }

  lemma ReplaceOne(b: char, c: char, with: string)
    ensures Replace([b], c, with) == if b == c then with else [b]
  {
    assert [b][1..] == "";
  }

  // The three replacements on what one character has become.
  lemma OneCharacter(c: char)
    ensures Escape([c]) == EscapeOne(c)
  {
    ReplaceOne(c, '\\', "\\\\");
    if c == '\\' {
      ReplaceTwo('\\', '\\', '%', "\\%");
      ReplaceTwo('\\', '\\', '_', "\\_");
      assert ['\\'] + ['\\'] == "\\\\";
    } else {
      ReplaceOne(c, '%', "\\%");
      if c == '%' {
        ReplaceTwo('\\', '%', '_', "\\_");
        assert ['\\'] + ['%'] == "\\%";
      } else {
        ReplaceOne(c, '_', "\\_");
      }
    }
  }

  /** The three successive replacements are one escape of each character: the backslashes of
    * an earlier replacement are not escaped again by a later one. */
  lemma {:induction false} EscapeIsPerCharacter(s: string)
    ensures Escape(s) == EscapeEach(s)
  {
    if s != "" {
      var x, y := [s[0]], s[1..];
      assert s == x + y;
      ReplaceAppend(x, y, '\\', "\\\\");
      ReplaceAppend(Replace(x, '\\', "\\\\"), Replace(y, '\\', "\\\\"), '%', "\\%");
      ReplaceAppend(Replace(Replace(x, '\\', "\\\\"), '%', "\\%"), Replace(Replace(y, '\\', "\\\\"), '%', "\\%"), '_', "\\_");
      OneCharacter(s[0]);
      EscapeIsPerCharacter(y);
    }
  }

  /* ---------- The LIKE predicate ---------- */

  datatype Element = AnySequence | AnyOne | Literal(c: char)

  // The pattern read with escape character \; None if an escape stands before anything but
  // a wildcard or itself.
  function Elements(p: string): Option<seq<Element>> {
    if p == "" then Some([])
    else if p[0] == '\\' then
      if |p| < 2 || !IsSpecial(p[1]) then None else Cons(Literal(p[1]), Elements(p[2..]))
    else Cons(if p[0] == '%' then AnySequence else if p[0] == '_' then AnyOne else Literal(p[0]), Elements(p[1..]))
  }

  function Cons(e: Element, rest: Option<seq<Element>>): Option<seq<Element>> {
    if rest.None? then None else Some([e] + rest.value)
  }

  // `fold` identifies the characters the collation does not tell apart, as SQLite does
  // with the case of letters.
  predicate Matches(fold: char -> char, es: seq<Element>, t: string)
    decreases |es| + |t|
  {
    if es == [] then t == ""
    else
      match es[0]
      case AnySequence => Matches(fold, es[1..], t) || (t != "" && Matches(fold, es, t[1..]))
      case AnyOne => t != "" && Matches(fold, es[1..], t[1..])
      case Literal(c) => t != "" && fold(t[0]) == fold(c) && Matches(fold, es[1..], t[1..])
  }

  predicate Like(fold: char -> char, t: string, p: string) {
    Elements(p).Some? && Matches(fold, Elements(p).value, t)
  }

  predicate IsPrefix(fold: char -> char, s: string, t: string) {
    |s| <= |t| && forall i :: 0 <= i < |s| ==> fold(t[i]) == fold(s[i])
  }

  function Literals(s: string): seq<Element> {
    if s == "" then [] else [Literal(s[0])] + Literals(s[1..])
  }

  lemma {:induction false} ElementsOfEscaped(s: string)
    ensures Elements(EscapeEach(s) + "%") == Some(Literals(s) + [AnySequence])
  {
    if s == "" {
      assert EscapeEach(s) + "%" == "%" && "%"[1..] == "";
      assert [] + [AnySequence] == [AnySequence] && [AnySequence] + [] == [AnySequence];
      assert Elements("") == Some([]);
    } else {
      var p := EscapeEach(s) + "%";
      var rest := EscapeEach(s[1..]) + "%";
      assert p == EscapeOne(s[0]) + rest;
      assert p[|EscapeOne(s[0])|..] == rest;
      ElementsOfEscaped(s[1..]);
      assert [Literal(s[0])] + (Literals(s[1..]) + [AnySequence]) == Literals(s) + [AnySequence];
    }
  }

  lemma {:induction false} AnythingMatches(fold: char -> char, t: string)
    ensures Matches(fold, [AnySequence], t)
  {
    if t != "" {
      AnythingMatches(fold, t[1..]);
    }
  }

  lemma {:induction false} LiteralsMatch(fold: char -> char, s: string, t: string)
    ensures Matches(fold, Literals(s) + [AnySequence], t) <==> IsPrefix(fold, s, t)
    decreases |s|
  {
    var es := Literals(s) + [AnySequence];
    if s == "" {
      assert es == [AnySequence];
      AnythingMatches(fold, t);
    } else {
      assert es[0] == Literal(s[0]) && es[1..] == Literals(s[1..]) + [AnySequence];
      if t != "" {
        LiteralsMatch(fold, s[1..], t[1..]);
        if IsPrefix(fold, s, t) {
          assert forall i :: 0 <= i < |s[1..]| ==> t[1..][i] == t[i + 1] && s[1..][i] == s[i + 1];
        }
        if IsPrefix(fold, s[1..], t[1..]) && fold(t[0]) == fold(s[0]) {
          forall i | 0 <= i < |s|
            ensures fold(t[i]) == fold(s[i])
          {
            if i > 0 {
              assert t[1..][i - 1] == t[i] && s[1..][i - 1] == s[i];
            }
          }
        }
      }
    }
  }

  /** A text is LIKE the escaped prefix followed by % if and only if it begins with the
    * prefix, whatever wildcards or backslashes the prefix holds. */
  lemma LikeIsPrefix(fold: char -> char, s: string, t: string)
    ensures Like(fold, t, Escape(s) + "%") <==> IsPrefix(fold, s, t)
  {
    EscapeIsPerCharacter(s);
    ElementsOfEscaped(s);
    LiteralsMatch(fold, s, t);
  }

  /** The escaped text, with % after it, is LIKE exactly the texts that begin with s. */
  method EscapeLikePattern(s: string) returns (r: string)
    ensures r == EscapeEach(s)
    ensures forall fold: char -> char, t :: Like(fold, t, r + "%") <==> IsPrefix(fold, s, t)
  {
    r := Replace(s, '\\', "\\\\");
    r := Replace(r, '%', "\\%");
    r := Replace(r, '_', "\\_");
    assert r == Escape(s);
    EscapeIsPerCharacter(s);
    forall fold: char -> char, t
      ensures Like(fold, t, r + "%") <==> IsPrefix(fold, s, t)
    {
      LikeIsPrefix(fold, s, t);
    }
  }
}
