/** The filter of the cost queries (internal/store/sqlite_costs.go): joins, conditions and
  * arguments put together step by step.
  */
module CostFilter {
  import opened Options
  import opened Rebinding
  import Decimals
  import LikePattern

  /* ---------- Pieces of SQL ---------- */

  // Text, a column of a table alias, or a placeholder.
  datatype Piece = Raw(text: string) | Col(alias: string, column: string) | Hole

  type Condition = seq<Piece>

  function PieceText(p: Piece): string {
    match p
    case Raw(text) => text
    case Col(alias, column) => alias + ("." + column)
    case Hole => "?"
  }

  function Text(ps: seq<Piece>): string {
    if ps == [] then "" else PieceText(ps[0]) + Text(ps[1..])
  }

  lemma {:induction false} TextAppend(a: seq<Piece>, b: seq<Piece>)
    ensures Text(a + b) == Text(a) + Text(b)
  {
    if a == [] {
      assert a + b == b;
      assert "" + Text(b) == Text(b);
    } else {
      assert (a + b)[1..] == a[1..] + b;
      TextAppend(a[1..], b);
    }
  }

  // Conditions with a separator between them.
  function Joined(cs: seq<Condition>, sep: string): seq<Piece> {
    if cs == [] then []
    else if |cs| == 1 then cs[0]
    else Joined(cs[..|cs| - 1], sep) + ([Raw(sep)] + cs[|cs| - 1])
  }

  function JoinedTokens(ws: seq<seq<Token>>, sep: string): seq<Token> {
    if ws == [] then []
    else if |ws| == 1 then ws[0]
    else JoinedTokens(ws[..|ws| - 1], sep) + (Chars(sep) + ws[|ws| - 1])
  }

  /* ---------- The query and what it is meant to say ---------- */

  datatype CostParams = CostParams(from: string, to: string, groupBy: string, keyPrefix: string, groupFilter: string,
                                   providerGroups: seq<string>, scopeType: string, scopeUserID: string, scopeTeamID: string)

  // A join: the table, its alias and the two columns it is joined on.
  datatype Join = Join(table: string, alias: string, left: Piece, right: Piece)

  datatype Filter = Filter(joins: seq<Join>, where: seq<Piece>, args: seq<string>)

  function Is(alias: string, column: string, op: string): Condition {
    [Col(alias, column), Raw(op), Hole]
  }

  function IsLike(alias: string, column: string): Condition {
    [Col(alias, column), Raw(" LIKE "), Hole, Raw(" ESCAPE '\\'")]
  }

  function Commas(n: nat): seq<Piece> {
    if n == 0 then [] else if n == 1 then [Hole] else Commas(n - 1) + [Raw(","), Hole]
  }

  function In(alias: string, column: string, n: nat): Condition {
    [Col(alias, column), Raw(" IN (")] + (Commas(n) + [Raw(")")])
  }

  function Prefix(s: string): string {
    LikePattern.Escape(s) + "%"
  }

  // The same statements with the values in place.
  function SaysIs(alias: string, column: string, op: string, value: string): seq<Token> {
    Chars(alias + ("." + column)) + (Chars(op) + [Val(value)])
  }

  function SaysLike(alias: string, column: string, value: string): seq<Token> {
    Chars(alias + ("." + column)) + (Chars(" LIKE ") + ([Val(value)] + Chars(" ESCAPE '\\'")))
  }

  function Values(vs: seq<string>): seq<Token> {
    if vs == [] then [] else if |vs| == 1 then [Val(vs[0])] else Values(vs[..|vs| - 1]) + (Chars(",") + [Val(vs[|vs| - 1])])
  }

  function SaysIn(alias: string, column: string, vs: seq<string>): seq<Token> {
    Chars(alias + ("." + column)) + (Chars(" IN (") + (Values(vs) + Chars(")")))
  }

  function PrefixWanted(p: CostParams): seq<seq<Token>> {
    if p.groupFilter == "" then [] else [SaysLike("rl", "provider_name", Prefix(p.groupFilter))]
  }

  function ProviderWanted(p: CostParams): seq<seq<Token>> {
    PrefixWanted(p)
    + (if p.providerGroups == [] then [] else [SaysIn("rl", "provider_name", p.providerGroups)])
  }

  function Parenthesized(ts: seq<Token>): seq<Token> {
    Chars("(") + (ts + Chars(")"))
  }

  function GroupWanted(p: CostParams, modelCol: Option<string>): seq<seq<Token>> {
    if modelCol.None? then []
    else if p.groupBy == "provider" then
      if p.groupFilter == "" && p.providerGroups == [] then [] else [Parenthesized(JoinedTokens(ProviderWanted(p), " OR "))]
    else if p.groupFilter != "" then [SaysLike("rl", modelCol.value, Prefix(p.groupFilter))]
    else []
  }

  function ScopeWanted(p: CostParams): seq<seq<Token>> {
    if p.scopeType == "user" then [SaysIs("pko", "owner_user_id", " = ", p.scopeUserID)]
    else if p.scopeType == "team" then [SaysIs("tm", "team_id", " = ", p.scopeTeamID)]
    else []
  }

  function TimesWanted(p: CostParams, from: string, to: string): seq<seq<Token>> {
    (if p.from != "" then [SaysIs("rl", "timestamp", " >= ", from)] else [])
    + (if p.to != "" then [SaysIs("rl", "timestamp", " <= ", to)] else [])
  }

  function BoundsWanted(p: CostParams, from: string, to: string): seq<seq<Token>> {
    TimesWanted(p, from, to)
    + (if p.keyPrefix != "" then [SaysIs("pk", "key_prefix", " = ", p.keyPrefix)] else [])
  }

  // What the query is meant to filter on: every given bound, key, group and scope, each
  // condition with its own value. `from` and `to` are given as normalized.
  function Wanted(p: CostParams, modelCol: Option<string>, from: string, to: string): seq<seq<Token>> {
    BoundsWanted(p, from, to) + GroupWanted(p, modelCol) + ScopeWanted(p)
  }

  /* ---------- Alignment ---------- */

  // Binding exactly these arguments to the condition gives these tokens.
  ghost predicate Bound(c: Condition, args: seq<string>, ts: seq<Token>) {
    BindText(Text(c), 1, args) == ts && Holes(Text(c)) == |args|
  }

  lemma {:induction false} BindShift(q: string, n: nat, before: seq<string>, args: seq<string>)
    requires n >= 1
    ensures BindText(q, |before| + n, before + args) == BindText(q, n, args)
    decreases |q|
  {
    if q != "" {
      BindShift(q[1..], if q[0] == '?' then n + 1 else n, before, args);
      assert Arg(before + args, |before| + n) == Arg(args, n);
    }
  }

  // Conditions and arguments one after the other.
  lemma BoundAppend(c: Condition, args: seq<string>, ts: seq<Token>, d: Condition, more: seq<string>, us: seq<Token>)
    requires Bound(c, args, ts) && Bound(d, more, us)
    ensures Bound(c + d, args + more, ts + us)
  {
    TextAppend(c, d);
    HolesAppend(Text(c), Text(d));
    BindAppend(Text(c), Text(d), 1, args + more);
    BindMore(Text(c), 1, args, more);
    BindShift(Text(d), 1, args, more);
  }

  lemma OnePiece(p: Piece)
    ensures Text([p]) == PieceText(p)
  {
    assert [p][1..] == [];
    assert PieceText(p) + "" == PieceText(p);
  }

  lemma PlainBound(p: Piece)
    requires '?' !in PieceText(p)
    ensures Bound([p], [], Chars(PieceText(p)))
  {
    OnePiece(p);
    BindPlain(PieceText(p), 1, []);
  }

  lemma HoleBoundTo(value: string)
    ensures Bound([Hole], [value], [Val(value)])
  {
    OnePiece(Hole);
    assert BindText("", 2, [value]) == [] && "?"[1..] == "";
  }

  predicate IsName(s: string) {
    s != "" && '?' !in s && '$' !in s && !Decimals.IsDigit(s[0])
  }

  lemma IsBound(alias: string, column: string, op: string, value: string)
    requires IsName(alias) && IsName(column) && '?' !in op
    ensures Bound(Is(alias, column, op), [value], SaysIs(alias, column, op, value))
  {
    PlainBound(Col(alias, column));
    PlainBound(Raw(op));
    HoleBoundTo(value);
    BoundAppend([Raw(op)], [], Chars(op), [Hole], [value], [Val(value)]);
    BoundAppend([Col(alias, column)], [], Chars(alias + ("." + column)), [Raw(op)] + [Hole], [] + [value], Chars(op) + [Val(value)]);
    assert [Col(alias, column)] + ([Raw(op)] + [Hole]) == Is(alias, column, op);
    assert [] + ([] + [value]) == [value];
  }

  lemma LikeBound(alias: string, column: string, value: string)
    requires IsName(alias) && IsName(column)
    ensures Bound(IsLike(alias, column), [value], SaysLike(alias, column, value))
  {
    var escape := " ESCAPE '\\'";
    IsBound(alias, column, " LIKE ", value);
    PlainBound(Raw(escape));
    BoundAppend(Is(alias, column, " LIKE "), [value], SaysIs(alias, column, " LIKE ", value), [Raw(escape)], [], Chars(escape));
    assert Is(alias, column, " LIKE ") + [Raw(escape)] == IsLike(alias, column);
    assert [value] + [] == [value];
    assert SaysIs(alias, column, " LIKE ", value) + Chars(escape) == SaysLike(alias, column, value);
  }

  lemma {:induction false} CommasBound(vs: seq<string>)
    ensures Bound(Commas(|vs|), vs, Values(vs))
  {
    if |vs| == 0 {
      assert Text([]) == "";
    } else if |vs| == 1 {
      HoleBoundTo(vs[0]);
      assert vs == [vs[0]];
    } else {
      var pre, last := vs[..|vs| - 1], vs[|vs| - 1];
      CommasBound(pre);
      CommaHole(last);
      BoundAppend(Commas(|pre|), pre, Values(pre), [Raw(","), Hole], [last], Chars(",") + [Val(last)]);
      assert pre + [last] == vs;
    }
  }

  lemma CommaHole(value: string)
    ensures Bound([Raw(","), Hole], [value], Chars(",") + [Val(value)])
  {
    PlainBound(Raw(","));
    HoleBoundTo(value);
    BoundAppend([Raw(",")], [], Chars(","), [Hole], [value], [Val(value)]);
    assert [Raw(",")] + [Hole] == [Raw(","), Hole] && [] + [value] == [value];
  }

  lemma InBound(alias: string, column: string, vs: seq<string>)
    requires IsName(alias) && IsName(column)
    ensures Bound(In(alias, column, |vs|), vs, SaysIn(alias, column, vs))
  {
    PlainBound(Col(alias, column));
    PlainBound(Raw(" IN ("));
    PlainBound(Raw(")"));
    CommasBound(vs);
    BoundAppend(Commas(|vs|), vs, Values(vs), [Raw(")")], [], Chars(")"));
    assert vs + [] == vs;
    var tail := Commas(|vs|) + [Raw(")")];
    BoundAppend([Raw(" IN (")], [], Chars(" IN ("), tail, vs, Values(vs) + Chars(")"));
    assert [] + vs == vs;
    BoundAppend([Col(alias, column)], [], Chars(alias + ("." + column)), [Raw(" IN (")] + tail, vs, Chars(" IN (") + (Values(vs) + Chars(")")));
    assert [Col(alias, column)] + ([Raw(" IN (")] + tail) == In(alias, column, |vs|);
  }

  // The conditions so far say what is wanted so far.
  ghost predicate Aligned(cs: seq<Condition>, args: seq<string>, ws: seq<seq<Token>>, sep: string) {
    |cs| == |ws| && Bound(Joined(cs, sep), args, JoinedTokens(ws, sep))
  }

  lemma AlignedMore(cs: seq<Condition>, args: seq<string>, ws: seq<seq<Token>>, sep: string, c: Condition, more: seq<string>, w: seq<Token>)
    requires Aligned(cs, args, ws, sep) && Bound(c, more, w) && '?' !in sep
    ensures Aligned(cs + [c], args + more, ws + [w], sep)
  {
    assert (cs + [c])[..|cs|] == cs && (ws + [w])[..|ws|] == ws;
    if cs == [] {
      assert Holes("") == 0;
      assert args + more == more;
    } else {
      PlainBound(Raw(sep));
      BoundAppend([Raw(sep)], [], Chars(sep), c, more, w);
      assert [] + more == more;
      BoundAppend(Joined(cs, sep), args, JoinedTokens(ws, sep), [Raw(sep)] + c, more, Chars(sep) + w);
    }
  }

  lemma ParenthesesBound(c: Condition, args: seq<string>, ts: seq<Token>)
    requires Bound(c, args, ts)
    ensures Bound([Raw("(")] + (c + [Raw(")")]), args, Parenthesized(ts))
  {
    PlainBound(Raw("("));
    PlainBound(Raw(")"));
    BoundAppend(c, args, ts, [Raw(")")], [], Chars(")"));
    assert args + [] == args && [] + args == args;
    BoundAppend([Raw("(")], [], Chars("("), c + [Raw(")")], args, ts + Chars(")"));
  }

  /* ---------- Aliases and stray characters ---------- */

  // Harmless next to other text when the query is rebound.
  predicate Tidy(q: string) {
    Clean(q) && (q == "" || !Decimals.IsDigit(q[0]))
  }

  ghost predicate CleanCondition(c: Condition, aliases: set<string>) {
    forall k :: 0 <= k < |c| ==> Tidy(PieceText(c[k])) && (c[k].Col? ==> c[k].alias in aliases)
  }

  lemma {:induction false} TidyAppend(a: string, b: string)
    requires Tidy(a) && Tidy(b)
    ensures Tidy(a + b)
  {
    if a == "" {
      assert a + b == b;
    } else {
      CleanAppend(a, b);
      assert (a + b)[0] == a[0];
    }
  }

  lemma {:induction false} CleanAppend(a: string, b: string)
    requires Clean(a) && Tidy(b)
    ensures Clean(a + b)
  {
    if a == "" {
      assert a + b == b;
    } else {
      assert (a + b)[1..] == a[1..] + b;
      CleanAppend(a[1..], b);
    }
  }

  lemma {:induction false} NameTidy(s: string)
    requires '?' !in s && '$' !in s
    ensures Clean(s)
  {
    if s != "" {
      NameTidy(s[1..]);
    }
  }

  lemma ColTidy(alias: string, column: string)
    requires IsName(alias) && IsName(column)
    ensures Tidy(PieceText(Col(alias, column)))
  {
    NameTidy(alias + ("." + column));
  }

  lemma {:induction false} TidyText(ps: seq<Piece>)
    requires forall k :: 0 <= k < |ps| ==> Tidy(PieceText(ps[k]))
    ensures Tidy(Text(ps))
  {
    if ps != [] {
      TidyText(ps[1..]);
      TidyAppend(PieceText(ps[0]), Text(ps[1..]));
    }
  }

  lemma RawTidy(s: string)
    requires '?' !in s && '$' !in s && (s == "" || !Decimals.IsDigit(s[0]))
    ensures Tidy(s)
  {
    NameTidy(s);
  }

  lemma IsClean(alias: string, column: string, op: string, aliases: set<string>)
    requires IsName(alias) && IsName(column) && alias in aliases && op != "" && '?' !in op && '$' !in op && !Decimals.IsDigit(op[0])
    ensures CleanCondition(Is(alias, column, op), aliases)
  {
    ColTidy(alias, column);
    RawTidy(op);
    HoleTidy();
  }

  lemma HoleTidy()
    ensures Tidy("?")
  {
    assert "?"[1..] == "";
  }

  lemma LikeClean(alias: string, column: string, aliases: set<string>)
    requires IsName(alias) && IsName(column) && alias in aliases
    ensures CleanCondition(IsLike(alias, column), aliases)
  {
    IsClean(alias, column, " LIKE ", aliases);
    EscapeTidy();
    ThenClean(Is(alias, column, " LIKE "), " ESCAPE '\\'", aliases);
    assert Is(alias, column, " LIKE ") + [Raw(" ESCAPE '\\'")] == IsLike(alias, column);
  }

  lemma EscapeTidy()
    ensures Tidy(" ESCAPE '\\'")
  {
    RawTidy(" ESCAPE '\\'");
  }

  lemma {:induction false} CommasClean(n: nat, aliases: set<string>)
    ensures CleanCondition(Commas(n), aliases)
  {
    HoleTidy();
    RawTidy(",");
    if n > 1 {
      CommasClean(n - 1, aliases);
    }
  }

  lemma InClean(alias: string, column: string, n: nat, aliases: set<string>)
    requires IsName(alias) && IsName(column) && alias in aliases
    ensures CleanCondition(In(alias, column, n), aliases)
  {
    ColTidy(alias, column);
    RawTidy(" IN (");
    RawTidy(")");
    CommasClean(n, aliases);
    var tail := Commas(n) + [Raw(")")];
    ThenClean(Commas(n), ")", aliases);
    ThenClean([Col(alias, column)], " IN (", aliases);
    BothClean([Col(alias, column)] + [Raw(" IN (")], tail, aliases);
    assert [Col(alias, column)] + [Raw(" IN (")] + tail == In(alias, column, n);
  }

  lemma ThenClean(c: Condition, text: string, aliases: set<string>)
    requires CleanCondition(c, aliases) && Tidy(text)
    ensures CleanCondition(c + [Raw(text)], aliases)
  {
  }

  lemma BothClean(a: Condition, b: Condition, aliases: set<string>)
    requires CleanCondition(a, aliases) && CleanCondition(b, aliases)
    ensures CleanCondition(a + b, aliases)
  {
  }

  lemma {:induction false} JoinedClean(cs: seq<Condition>, sep: string, aliases: set<string>)
    requires Tidy(sep) && forall k :: 0 <= k < |cs| ==> CleanCondition(cs[k], aliases)
    ensures CleanCondition(Joined(cs, sep), aliases)
  {
    if |cs| > 1 {
      JoinedClean(cs[..|cs| - 1], sep, aliases);
    }
  }

  /* ---------- The builder ---------- */

  // What the conditions and arguments collected so far amount to.
  ghost predicate Building(cs: seq<Condition>, args: seq<string>, ws: seq<seq<Token>>, sep: string, aliases: set<string>) {
    Aligned(cs, args, ws, sep) && forall k :: 0 <= k < |cs| ==> CleanCondition(cs[k], aliases)
  }

  lemma BuildMore(cs: seq<Condition>, args: seq<string>, ws: seq<seq<Token>>, sep: string, aliases: set<string>,
                  c: Condition, more: seq<string>, w: seq<Token>)
    requires Building(cs, args, ws, sep, aliases) && Bound(c, more, w) && CleanCondition(c, aliases) && '?' !in sep
    ensures Building(cs + [c], args + more, ws + [w], sep, aliases)
  {
    AlignedMore(cs, args, ws, sep, c, more, w);
  }

  lemma BuildIs(cs: seq<Condition>, args: seq<string>, ws: seq<seq<Token>>, aliases: set<string>,
                alias: string, column: string, op: string, value: string)
    requires Building(cs, args, ws, " AND ", aliases) && IsName(alias) && IsName(column) && alias in aliases
    requires op != "" && '?' !in op && '$' !in op && !Decimals.IsDigit(op[0])
    ensures Building(cs + [Is(alias, column, op)], args + [value], ws + [SaysIs(alias, column, op, value)], " AND ", aliases)
  {
    IsBound(alias, column, op, value);
    IsClean(alias, column, op, aliases);
    BuildMore(cs, args, ws, " AND ", aliases, Is(alias, column, op), [value], SaysIs(alias, column, op, value));
  }

  function Introduced(joins: seq<Join>): set<string> {
    if joins == [] then {"rl"} else Introduced(joins[..|joins| - 1]) + {joins[|joins| - 1].alias}
  }

  // Each join uses the aliases of earlier ones and its own.
  predicate JoinsInScope(joins: seq<Join>) {
    joins == []
    || (var last := joins[|joins| - 1];
        JoinsInScope(joins[..|joins| - 1]) && LinksTo(last, Introduced(joins)))
  }

  predicate LinksTo(j: Join, aliases: set<string>) {
    j.left.Col? && j.right.Col? && j.left.alias in aliases && j.right.alias in aliases
  }

  const KeyJoin := Join("proxy_keys", "pk", Col("pk", "id"), Col("rl", "proxy_key_id"))
  const OwnerJoin := Join("proxy_key_owners", "pko", Col("pko", "proxy_key_id"), Col("pk", "id"))
  const TeamJoin := Join("team_memberships", "tm", Col("tm", "user_id"), Col("pko", "owner_user_id"))

  function AddOwnerScopeJoins(joins: seq<Join>, scopeType: string): seq<Join> {
    if scopeType == "user" then joins + [OwnerJoin]
    else if scopeType == "team" then joins + [OwnerJoin] + [TeamJoin]
    else joins
  }

  function Joins(p: CostParams, forceKeyJoin: bool): seq<Join> {
    AddOwnerScopeJoins(if forceKeyJoin || p.keyPrefix != "" || p.scopeType == "user" || p.scopeType == "team" then [KeyJoin] else [],
                       p.scopeType)
  }

  lemma JoinMore(joins: seq<Join>, j: Join)
    ensures Introduced(joins + [j]) == Introduced(joins) + {j.alias}
    ensures JoinsInScope(joins) && LinksTo(j, Introduced(joins) + {j.alias}) ==> JoinsInScope(joins + [j])
  {
    assert (joins + [j])[..|joins|] == joins;
  }

  lemma JoinsIntroduce(p: CostParams, forceKeyJoin: bool)
    ensures JoinsInScope(Joins(p, forceKeyJoin)) && "rl" in Introduced(Joins(p, forceKeyJoin))
    ensures p.keyPrefix != "" ==> "pk" in Introduced(Joins(p, forceKeyJoin))
    ensures p.scopeType == "user" ==> "pko" in Introduced(Joins(p, forceKeyJoin))
    ensures p.scopeType == "team" ==> "tm" in Introduced(Joins(p, forceKeyJoin))
  {
    JoinMore([], KeyJoin);
    assert [] + [KeyJoin] == [KeyJoin];
    JoinMore([KeyJoin], OwnerJoin);
    JoinMore([KeyJoin] + [OwnerJoin], TeamJoin);
  }

  lemma BuildLike(cs: seq<Condition>, args: seq<string>, ws: seq<seq<Token>>, sep: string, aliases: set<string>,
                  column: string, filter: string)
    requires Building(cs, args, ws, sep, aliases) && IsName(column) && "rl" in aliases && '?' !in sep
    ensures Building(cs + [IsLike("rl", column)], args + [Prefix(filter)], ws + [SaysLike("rl", column, Prefix(filter))], sep, aliases)
  {
    LikeBound("rl", column, Prefix(filter));
    LikeClean("rl", column, aliases);
    BuildMore(cs, args, ws, sep, aliases, IsLike("rl", column), [Prefix(filter)], SaysLike("rl", column, Prefix(filter)));
  }

  lemma BuildIn(cs: seq<Condition>, args: seq<string>, ws: seq<seq<Token>>, sep: string, aliases: set<string>,
                column: string, vs: seq<string>)
    requires Building(cs, args, ws, sep, aliases) && IsName(column) && "rl" in aliases && '?' !in sep
    ensures Building(cs + [In("rl", column, |vs|)], args + vs, ws + [SaysIn("rl", column, vs)], sep, aliases)
  {
    InBound("rl", column, vs);
    InClean("rl", column, |vs|, aliases);
    BuildMore(cs, args, ws, sep, aliases, In("rl", column, |vs|), vs, SaysIn("rl", column, vs));
  }

  const ProviderName := "provider_name"

  method AppendAll(values: seq<string>, more: seq<string>) returns (r: seq<string>)
    ensures r == values + more
  {
    r := values;
    for k := 0 to |more|
      invariant r == values + more[..k]
    {
      r := r + [more[k]];
      assert more[..k + 1] == more[..k] + [more[k]];
    }
    assert more[..|more|] == more;
  }

  // The alternatives a provider query asks for, and their values.
  method ProviderConditions(p: CostParams, ghost aliases: set<string>) returns (cs: seq<Condition>, values: seq<string>)
    requires "rl" in aliases
    ensures Building(cs, values, ProviderWanted(p), " OR ", aliases)
  {
    cs, values := PrefixCondition(p, aliases);
    if |p.providerGroups| > 0 {
      BuildIn(cs, values, PrefixWanted(p), " OR ", aliases, ProviderName, p.providerGroups);
      cs := cs + [In("rl", ProviderName, |p.providerGroups|)];
      values := AppendAll(values, p.providerGroups);
    } else {
      assert PrefixWanted(p) + [] == PrefixWanted(p);
    }
  }

  method PrefixCondition(p: CostParams, ghost aliases: set<string>) returns (cs: seq<Condition>, values: seq<string>)
    requires "rl" in aliases
    ensures Building(cs, values, PrefixWanted(p), " OR ", aliases)
  {
    cs, values := [], [];
    NothingBuilt(" OR ", aliases);
    if p.groupFilter != "" {
      BuildLike([], [], [], " OR ", aliases, ProviderName, p.groupFilter);
      assert [] + [IsLike("rl", ProviderName)] == [IsLike("rl", ProviderName)] && [] + [Prefix(p.groupFilter)] == [Prefix(p.groupFilter)];
      assert [] + PrefixWanted(p) == PrefixWanted(p);
      cs, values := [IsLike("rl", ProviderName)], [Prefix(p.groupFilter)];
    }
  }

  method AppendProviderConditions(cs: seq<Condition>, args: seq<string>, p: CostParams, ghost ws: seq<seq<Token>>, ghost aliases: set<string>)
      returns (conditions: seq<Condition>, arguments: seq<string>)
    requires Building(cs, args, ws, " AND ", aliases) && "rl" in aliases && p.groupBy == "provider"
    ensures Building(conditions, arguments, ws + GroupWanted(p, Some("")), " AND ", aliases)
  {
    if p.groupFilter == "" && |p.providerGroups| == 0 {
      assert ws + [] == ws;
      return cs, args;
    }
    var providerConditions, values := ProviderConditions(p, aliases);
    ghost var wanted := JoinedTokens(ProviderWanted(p), " OR ");
    var inner := Joined(providerConditions, " OR ");
    ParenthesesBound(inner, values, wanted);
    ParenthesesClean(providerConditions, aliases);
    var c := [Raw("(")] + (inner + [Raw(")")]);
    BuildMore(cs, args, ws, " AND ", aliases, c, values, Parenthesized(wanted));
    return cs + [c], args + values;
  }

  lemma ParenthesesClean(cs: seq<Condition>, aliases: set<string>)
    requires forall k :: 0 <= k < |cs| ==> CleanCondition(cs[k], aliases)
    ensures CleanCondition([Raw("(")] + (Joined(cs, " OR ") + [Raw(")")]), aliases)
  {
    RawTidy(" OR ");
    RawTidy("(");
    RawTidy(")");
    JoinedClean(cs, " OR ", aliases);
    BothClean(Joined(cs, " OR "), [Raw(")")], aliases);
    BothClean([Raw("(")], Joined(cs, " OR ") + [Raw(")")], aliases);
  }

  method AppendOwnerScopeConditions(cs: seq<Condition>, args: seq<string>, p: CostParams, ghost ws: seq<seq<Token>>, ghost aliases: set<string>)
      returns (conditions: seq<Condition>, arguments: seq<string>)
    requires Building(cs, args, ws, " AND ", aliases)
    requires (p.scopeType == "user" ==> "pko" in aliases) && (p.scopeType == "team" ==> "tm" in aliases)
    ensures Building(conditions, arguments, ws + ScopeWanted(p), " AND ", aliases)
  {
    conditions, arguments := cs, args;
    if p.scopeType == "user" {
      BuildIs(cs, args, ws, aliases, "pko", "owner_user_id", " = ", p.scopeUserID);
      conditions, arguments := cs + [Is("pko", "owner_user_id", " = ")], args + [p.scopeUserID];
    } else if p.scopeType == "team" {
      BuildIs(cs, args, ws, aliases, "tm", "team_id", " = ", p.scopeTeamID);
      conditions, arguments := cs + [Is("tm", "team_id", " = ")], args + [p.scopeTeamID];
    } else {
      assert ws + [] == ws;
    }
  }

  // A condition if it is asked for.
  method AppendIf(asked: bool, cs: seq<Condition>, args: seq<string>, alias: string, column: string, op: string, value: string,
                  ghost ws: seq<seq<Token>>, ghost aliases: set<string>)
      returns (conditions: seq<Condition>, arguments: seq<string>)
    requires Building(cs, args, ws, " AND ", aliases) && IsName(alias) && IsName(column) && (asked ==> alias in aliases)
    requires op != "" && '?' !in op && '$' !in op && !Decimals.IsDigit(op[0])
    ensures Building(conditions, arguments, ws + (if asked then [SaysIs(alias, column, op, value)] else []), " AND ", aliases)
  {
    conditions, arguments := cs, args;
    if asked {
      BuildIs(cs, args, ws, aliases, alias, column, op, value);
      conditions, arguments := conditions + [Is(alias, column, op)], arguments + [value];
    } else {
      assert ws + [] == ws;
    }
  }

  method AppendBounds(p: CostParams, from: string, to: string, ghost aliases: set<string>)
      returns (conditions: seq<Condition>, arguments: seq<string>)
    requires "rl" in aliases && (p.keyPrefix != "" ==> "pk" in aliases)
    ensures Building(conditions, arguments, BoundsWanted(p, from, to), " AND ", aliases)
  {
    conditions, arguments := AppendTimes(p, from, to, aliases);
    conditions, arguments := AppendIf(p.keyPrefix != "", conditions, arguments, "pk", "key_prefix", " = ", p.keyPrefix, TimesWanted(p, from, to), aliases);
  }

  method AppendTimes(p: CostParams, from: string, to: string, ghost aliases: set<string>)
      returns (conditions: seq<Condition>, arguments: seq<string>)
    requires "rl" in aliases
    ensures Building(conditions, arguments, TimesWanted(p, from, to), " AND ", aliases)
  {
    ghost var a := if p.from != "" then [SaysIs("rl", "timestamp", " >= ", from)] else [];
    NothingBuilt(" AND ", aliases);
    assert [] + a == a;
    conditions, arguments := AppendIf(p.from != "", [], [], "rl", "timestamp", " >= ", from, [], aliases);
    conditions, arguments := AppendIf(p.to != "", conditions, arguments, "rl", "timestamp", " <= ", to, a, aliases);
  }

  lemma NothingBuilt(sep: string, aliases: set<string>)
    ensures Building([], [], [], sep, aliases)
  {
  }

  method AppendGroup(cs: seq<Condition>, args: seq<string>, p: CostParams, modelCol: Option<string>,
                     ghost ws: seq<seq<Token>>, ghost aliases: set<string>)
      returns (conditions: seq<Condition>, arguments: seq<string>)
    requires Building(cs, args, ws, " AND ", aliases) && "rl" in aliases && (modelCol.Some? ==> IsName(modelCol.value))
    ensures Building(conditions, arguments, ws + GroupWanted(p, modelCol), " AND ", aliases)
  {
    conditions, arguments := cs, args;
    if modelCol.None? {
      assert ws + [] == ws;
    } else if p.groupBy == "provider" {
      conditions, arguments := AppendProviderConditions(cs, args, p, ws, aliases);
    } else if p.groupFilter != "" {
      BuildLike(cs, args, ws, " AND ", aliases, modelCol.value, p.groupFilter);
      conditions, arguments := cs + [IsLike("rl", modelCol.value)], args + [Prefix(p.groupFilter)];
    } else {
      assert ws + [] == ws;
    }
  }

  // The WHERE clause as it is meant.
  function Meant(ws: seq<seq<Token>>): seq<Token> {
    if ws == [] then [] else Chars(" WHERE ") + JoinedTokens(ws, " AND ")
  }

  // The clause says what is wanted: in it the k-th placeholder belongs to the k-th argument
  // and none of either is left over; every table alias in it is introduced by the joins;
  // and it says the same after rebinding for PostgreSQL.
  ghost predicate Says(f: Filter, ts: seq<Token>) {
    && BindText(Text(f.where), 1, f.args) == ts && Holes(Text(f.where)) == |f.args|
    && JoinsInScope(f.joins) && CleanCondition(f.where, Introduced(f.joins))
    && BindDollar(RebindFrom(Text(f.where), 1), f.args) == ts
  }

  function WhereOf(cs: seq<Condition>): seq<Piece> {
    if cs == [] then [] else [Raw(" WHERE ")] + Joined(cs, " AND ")
  }

  lemma WhereBound(cs: seq<Condition>, args: seq<string>, ws: seq<seq<Token>>)
    requires Aligned(cs, args, ws, " AND ")
    ensures Bound(WhereOf(cs), args, Meant(ws))
  {
    if cs != [] {
      PlainBound(Raw(" WHERE "));
      BoundAppend([Raw(" WHERE ")], [], Chars(" WHERE "), Joined(cs, " AND "), args, JoinedTokens(ws, " AND "));
      assert [] + args == args;
    }
  }

  lemma WhereClean(cs: seq<Condition>, aliases: set<string>)
    requires forall k :: 0 <= k < |cs| ==> CleanCondition(cs[k], aliases)
    ensures CleanCondition(WhereOf(cs), aliases)
  {
    AndTidy();
    JoinedClean(cs, " AND ", aliases);
  }

  lemma AndTidy()
    ensures Tidy(" AND ") && Tidy(" WHERE ")
  {
    RawTidy(" AND ");
    RawTidy(" WHERE ");
  }

  lemma WhereSays(joins: seq<Join>, cs: seq<Condition>, args: seq<string>, ws: seq<seq<Token>>)
    requires Building(cs, args, ws, " AND ", Introduced(joins)) && JoinsInScope(joins)
    ensures Says(Filter(joins, WhereOf(cs), args), Meant(ws))
  {
    WhereBound(cs, args, ws);
    WhereClean(cs, Introduced(joins));
    TidyText(WhereOf(cs));
    CleanBound(Text(WhereOf(cs)), 1, args);
  }

  /** buildCostFilter. For every choice of parameters the clause says exactly what is wanted,
    * each condition with its own value. */
  method BuildCostFilter(p: CostParams, forceKeyJoin: bool, modelCol: Option<string>, from: string, to: string) returns (f: Filter)
    requires modelCol.Some? ==> IsName(modelCol.value)
    ensures f.joins == Joins(p, forceKeyJoin)
    ensures Says(f, Meant(Wanted(p, modelCol, from, to)))
  {
    var joins := Joins(p, forceKeyJoin);
    JoinsIntroduce(p, forceKeyJoin);
    ghost var aliases := Introduced(joins);
    var conditions, args := AppendBounds(p, from, to, aliases);
    ghost var ws := BoundsWanted(p, from, to);
    conditions, args := AppendGroup(conditions, args, p, modelCol, ws, aliases);
    conditions, args := AppendOwnerScopeConditions(conditions, args, p, ws + GroupWanted(p, modelCol), aliases);
    WhereSays(joins, conditions, args, Wanted(p, modelCol, from, to));
    f := Filter(joins, if |conditions| > 0 then [Raw(" WHERE ")] + Joined(conditions, " AND ") else [], args);
  }
}
