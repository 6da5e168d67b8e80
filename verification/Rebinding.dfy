/** rebindForPostgres (internal/store/postgres.go), against what a query with placeholders
  * means once values are bound to it.
  */
module Rebinding {
  import opened Decimals

  /* ---------- SQL text and the values bound to it ---------- */

  // A statement as the database sees it: text, with values in the places of placeholders.
  datatype Token = Ch(c: char) | Val(value: string) | Missing

  function Chars(s: string): (r: seq<Token>)
    ensures |r| == |s|
  {
    seq(|s|, i requires 0 <= i < |s| => Ch(s[i]))
  }

  // The n-th argument, counted from one.
  function Arg(args: seq<string>, n: nat): (t: Token)
    ensures !t.Ch?
  {
    if 1 <= n <= |args| then Val(args[n - 1]) else Missing
  }

  // The k-th placeholder takes the k-th argument.
  function BindText(q: string, n: nat, args: seq<string>): (r: seq<Token>)
    ensures |r| == |q|
    decreases |q|
  {
    if q == "" then []
    else if q[0] == '?' then [Arg(args, n)] + BindText(q[1..], n + 1, args)
    else [Ch(q[0])] + BindText(q[1..], n, args)
  }

  function Holes(q: string): nat {
    if q == "" then 0 else (if q[0] == '?' then 1 else 0) + Holes(q[1..])
  }

  lemma {:induction false} HolesAppend(a: string, b: string)
    ensures Holes(a + b) == Holes(a) + Holes(b)
  {
    if a == "" {
      assert a + b == b;
    } else {
      assert (a + b)[1..] == a[1..] + b;
      HolesAppend(a[1..], b);
    }
  }

  lemma BindStep(q: string, n: nat, args: seq<string>)
    requires q != ""
    ensures BindText(q, n, args)
            == [if q[0] == '?' then Arg(args, n) else Ch(q[0])] + BindText(q[1..], if q[0] == '?' then n + 1 else n, args)
  {
  }

  lemma {:induction false} BindAppend(a: string, b: string, n: nat, args: seq<string>)
    ensures BindText(a + b, n, args) == BindText(a, n, args) + BindText(b, n + Holes(a), args)
    decreases |a|
  {
    if a == "" {
      assert a + b == b;
      assert [] + BindText(b, n, args) == BindText(b, n, args);
    } else {
      var m := if a[0] == '?' then n + 1 else n;
      assert (a + b)[1..] == a[1..] + b;
      BindAppend(a[1..], b, m, args);
      BindStep(a + b, n, args);
      BindStep(a, n, args);
      Regroup(if a[0] == '?' then Arg(args, n) else Ch(a[0]), BindText(a[1..], m, args), BindText(b, n + Holes(a), args));
    }
  }

  lemma Regroup(t: Token, a: seq<Token>, b: seq<Token>)
    ensures [t] + (a + b) == ([t] + a) + b
  {
  }

  lemma {:induction false} BindMore(a: string, n: nat, args: seq<string>, more: seq<string>)
    requires 1 <= n && n + Holes(a) <= |args| + 1
    ensures BindText(a, n, args + more) == BindText(a, n, args)
    decreases |a|
  {
    if a != "" {
      BindMore(a[1..], if a[0] == '?' then n + 1 else n, args, more);
    }
  }

  lemma {:induction false} BindPlain(a: string, n: nat, args: seq<string>)
    requires '?' !in a
    ensures BindText(a, n, args) == Chars(a) && Holes(a) == 0
    decreases |a|
  {
    if a != "" {
      BindPlain(a[1..], n, args);
    }
  }

  /* ---------- Rebinding ---------- */

  function RebindFrom(q: string, n: nat): string
    decreases |q|
  {
    if q == "" then ""
    else if q[0] == '?' then "$" + Digits(n) + RebindFrom(q[1..], n + 1)
    else [q[0]] + RebindFrom(q[1..], n)
  }

  method RebindForPostgres(query: string) returns (b: string)
    ensures b == RebindFrom(query, 1)
  {
    b := "";
    var n := 1;
    assert query[0..] == query;
    for i := 0 to |query|
      invariant n >= 1 && b + RebindFrom(query[i..], n) == RebindFrom(query, 1)
    {
      var rest := query[i..];
      assert rest[1..] == query[i + 1..];
      if query[i] == '?' {
        assert (b + ("$" + Digits(n))) + RebindFrom(rest[1..], n + 1) == b + RebindFrom(rest, n);
        b := b + ("$" + Digits(n));
        n := n + 1;
      } else {
        assert (b + [query[i]]) + RebindFrom(rest[1..], n) == b + RebindFrom(rest, n);
        b := b + [query[i]];
      }
    }
    assert b + "" == b;
  }

  // How many digits a text begins with.
  function DigitRun(s: string): (k: nat)
    ensures k <= |s| && AllDigits(s[..k]) && (k < |s| ==> !IsDigit(s[k]))
  {
    if s == "" || !IsDigit(s[0]) then 0
    else
      var k := DigitRun(s[1..]);
      assert s[..k + 1] == [s[0]] + s[1..][..k];
      1 + k
  }

  // Positional parameters: $k, with all its digits, takes the k-th argument.
  function BindDollar(q: string, args: seq<string>): seq<Token>
    decreases |q|
  {
    if q == "" then []
    else if q[0] == '$' then
      var k := DigitRun(q[1..]);
      [Arg(args, Number(q[1..][..k]))] + BindDollar(q[1..][k..], args)
    else [Ch(q[0])] + BindDollar(q[1..], args)
  }

  // No dollar sign, and no placeholder that runs into a digit.
  predicate Clean(q: string) {
    q == ""
    || (q[0] != '$' && (q[0] == '?' && |q| > 1 ==> !IsDigit(q[1])) && Clean(q[1..]))
  }

  lemma {:induction false} RunOfDigits(d: string, rest: string)
    requires AllDigits(d)
    ensures DigitRun(d + rest) == |d| + DigitRun(rest)
  {
    if d == "" {
      assert d + rest == rest;
    } else {
      assert (d + rest)[1..] == d[1..] + rest;
      RunOfDigits(d[1..], rest);
    }
  }

  lemma DollarBound(d: string, rest: string, args: seq<string>)
    requires AllDigits(d)
    ensures var k := DigitRun(rest);
            && AllDigits(d + rest[..k])
            && BindDollar("$" + (d + rest), args) == [Arg(args, Number(d + rest[..k]))] + BindDollar(rest[k..], args)
  {
    var k, text := DigitRun(rest), d + rest;
    RunOfDigits(d, rest);
    DollarStep(text, args);
    assert text[..|d| + k] == d + rest[..k] && text[|d| + k..] == rest[k..];
  }

  lemma DollarStep(text: string, args: seq<string>)
    ensures var k := DigitRun(text); BindDollar("$" + text, args) == [Arg(args, Number(text[..k]))] + BindDollar(text[k..], args)
  {
    assert ("$" + text)[1..] == text;
  }

  lemma RebindHole(q: string, n: nat)
    requires q != "" && q[0] == '?'
    ensures RebindFrom(q, n) == "$" + (Digits(n) + RebindFrom(q[1..], n + 1))
  {
  }

  lemma HoleBound(q: string, n: nat, args: seq<string>)
    requires q != "" && q[0] == '?' && (|q| > 1 ==> !IsDigit(q[1]))
    ensures BindDollar(RebindFrom(q, n), args) == [Arg(args, n)] + BindDollar(RebindFrom(q[1..], n + 1), args)
  {
    var rest := RebindFrom(q[1..], n + 1);
    DigitsRead(n);
    DollarBound(Digits(n), rest, args);
    assert Digits(n) + rest[..0] == Digits(n) && rest[0..] == rest;
    RebindHole(q, n);
  }

  lemma {:induction false} CleanBound(q: string, n: nat, args: seq<string>)
    requires Clean(q)
    ensures BindDollar(RebindFrom(q, n), args) == BindText(q, n, args)
    decreases |q|
  {
    if q != "" {
      if q[0] == '?' {
        HoleBound(q, n, args);
        CleanBound(q[1..], n + 1, args);
      } else {
        var rest := RebindFrom(q[1..], n);
        assert ([q[0]] + rest)[1..] == rest;
        CleanBound(q[1..], n, args);
      }
    }
  }

  lemma {:induction false} MoreDigits(d: string, more: string)
    requires AllDigits(d) && AllDigits(more) && more != "" && Number(d) > 0
    ensures AllDigits(d + more) && Number(d + more) > Number(d)
    decreases |more|
  {
    var n := |more| - 1;
    assert (d + more)[..|d| + n] == d + more[..n];
    assert forall i :: 0 <= i < |d + more| ==> (d + more)[i] == if i < |d| then d[i] else more[i - |d|];
    if n == 0 {
      assert d + more[..0] == d;
    } else {
      MoreDigits(d, more[..n]);
    }
  }

  predicate Differs(q: string, n: nat, args: seq<string>) {
    BindDollar(RebindFrom(q, n), args) != BindText(q, n, args)
  }

  // A placeholder followed by a digit: the number read is larger than the one written.
  lemma RunsOn(q: string, n: nat, args: seq<string>)
    requires n >= 1 && |q| > 1 && q[0] == '?' && IsDigit(q[1]) && |args| == n
    ensures Differs(q, n, args)
  {
    var rest := RebindFrom(q[1..], n + 1);
    DigitsRead(n);
    DollarBound(Digits(n), rest, args);
    assert rest[0] == q[1];
    MoreDigits(Digits(n), rest[..DigitRun(rest)]);
    RebindHole(q, n);
    BindStep(q, n, args);
    assert BindDollar(RebindFrom(q, n), args)[0] == Missing;
  }

  lemma TailsDiffer(x: Token, a: seq<Token>, y: Token, b: seq<Token>)
    requires a != b
    ensures [x] + a != [y] + b
  {
    assert ([x] + a)[1..] == a && ([y] + b)[1..] == b;
  }

  function Blanks(n: nat): (args: seq<string>)
    ensures |args| == n
  {
    if n == 0 then [] else [""] + Blanks(n - 1)
  }

  lemma {:induction false} UncleanDiffers(q: string, n: nat) returns (args: seq<string>)
    requires n >= 1 && !Clean(q)
    ensures Differs(q, n, args)
    decreases |q|
  {
    if q[0] == '$' {
      args := [];
      DollarStays(q, n, args);
    } else if q[0] == '?' && |q| > 1 && IsDigit(q[1]) {
      args := Blanks(n);
      RunsOn(q, n, args);
    } else if q[0] == '?' {
      args := UncleanDiffers(q[1..], n + 1);
      HoleDiffers(q, n, args);
    } else {
      args := UncleanDiffers(q[1..], n);
      OtherDiffers(q, n, args);
    }
  }

  lemma HoleDiffers(q: string, n: nat, args: seq<string>)
    requires q != "" && q[0] == '?' && (|q| > 1 ==> !IsDigit(q[1]))
    requires Differs(q[1..], n + 1, args)
    ensures Differs(q, n, args)
  {
    HoleBound(q, n, args);
    BindStep(q, n, args);
    TailsDiffer(Arg(args, n), BindDollar(RebindFrom(q[1..], n + 1), args), Arg(args, n), BindText(q[1..], n + 1, args));
  }

  lemma OtherDiffers(q: string, n: nat, args: seq<string>)
    requires q != "" && q[0] != '?' && q[0] != '$'
    requires Differs(q[1..], n, args)
    ensures Differs(q, n, args)
  {
    BindStep(q, n, args);
    TailsDiffer(Ch(q[0]), BindDollar(RebindFrom(q[1..], n), args), Ch(q[0]), BindText(q[1..], n, args));
  }

  lemma DollarStays(q: string, n: nat, args: seq<string>)
    requires q != "" && q[0] == '$'
    ensures Differs(q, n, args)
  {
    var rest := RebindFrom(q[1..], n);
    assert "" + rest == rest && [q[0]] == "$";
    DollarBound("", rest, args);
    BindStep(q, n, args);
    assert BindText(q, n, args)[0] == Ch('$');
    assert !BindDollar("$" + rest, args)[0].Ch?;
  }

  /** Rebinding keeps the meaning of a query for all arguments, the k-th placeholder becoming
    * $k and every other character staying, if and only if the query has no dollar sign and
    * no placeholder that runs into a digit. */
  lemma RebindExactly(q: string)
    ensures (forall args :: BindDollar(RebindFrom(q, 1), args) == BindText(q, 1, args)) <==> Clean(q)
  {
    if Clean(q) {
      forall args
        ensures BindDollar(RebindFrom(q, 1), args) == BindText(q, 1, args)
      {
        CleanBound(q, 1, args);
      }
    } else {
      var args := UncleanDiffers(q, 1);
      assert BindDollar(RebindFrom(q, 1), args) != BindText(q, 1, args);
    }
  }
}
