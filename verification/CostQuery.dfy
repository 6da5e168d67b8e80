/** What the filter of the cost queries selects: the joins and conditions of CostFilter, read as
  * SQL reads them over the four tables, and the requests that are left.
  */
module CostQuery {
  import opened Options
  import opened Rebinding
  import opened CostFilter
  import LikePattern

  /* ---------- The tables ---------- */

  datatype Request = Request(id: string, proxyKeyID: string, timestamp: string, providerName: string,
                             modelRequested: string, modelUpstream: string)

  datatype Key = Key(id: string, keyPrefix: string)

  datatype Owner = Owner(proxyKeyID: string, ownerUserID: string)

  datatype Membership = Membership(userID: string, teamID: string)

  datatype Tables = Tables(requests: seq<Request>, keys: seq<Key>, owners: seq<Owner>, memberships: seq<Membership>)

  // A row of a table, by column.
  type Record = map<string, string>

  function RequestRow(r: Request): Record {
    map["id" := r.id, "proxy_key_id" := r.proxyKeyID, "timestamp" := r.timestamp, "provider_name" := r.providerName,
        "model_requested" := r.modelRequested, "model_upstream" := r.modelUpstream]
  }

  function KeyRow(k: Key): Record {
    map["id" := k.id, "key_prefix" := k.keyPrefix]
  }

  function OwnerRow(o: Owner): Record {
    map["proxy_key_id" := o.proxyKeyID, "owner_user_id" := o.ownerUserID]
  }

  function MembershipRow(m: Membership): Record {
    map["user_id" := m.userID, "team_id" := m.teamID]
  }

  ghost predicate InTable(t: Tables, name: string, row: Record) {
    if name == "request_logs" then exists r :: r in t.requests && row == RequestRow(r)
    else if name == "proxy_keys" then exists k :: k in t.keys && row == KeyRow(k)
    else if name == "proxy_key_owners" then exists o :: o in t.owners && row == OwnerRow(o)
    else if name == "team_memberships" then exists m :: m in t.memberships && row == MembershipRow(m)
    else false
  }

  /* ---------- The query ---------- */

  // A row of each joined table, by alias.
  type Joint = map<string, Record>

  function ValueAt(env: Joint, p: Piece): Option<string> {
    if p.Col? && p.alias in env && p.column in env[p.alias] then Some(env[p.alias][p.column]) else None
  }

  ghost predicate Meets(t: Tables, env: Joint, j: Join) {
    && j.alias in env && InTable(t, j.table, env[j.alias])
    && ValueAt(env, j.left).Some? && ValueAt(env, j.left) == ValueAt(env, j.right)
  }

  // A row of the inner joins, from the request log on.
  ghost predicate IsJoined(t: Tables, joins: seq<Join>, env: Joint) {
    && env.Keys == Introduced(joins)
    && "rl" in env && InTable(t, "request_logs", env["rl"])
    && forall k :: 0 <= k < |joins| ==> Meets(t, env, joins[k])
  }

  // The conditions of the clause. The collation decides which letters LIKE takes for the same,
  // and the order of texts.
  datatype Test =
    | Compare(alias: string, column: string, op: string, value: string)
    | LikeTest(alias: string, column: string, pattern: string)
    | OneOf(alias: string, column: string, values: seq<string>)

  datatype Clause = One(test: Test) | AnyOf(tests: seq<Test>)

  datatype Collation = Collation(fold: char -> char, atMost: (string, string) -> bool)

  function TestText(test: Test): seq<Token> {
    match test
    case Compare(alias, column, op, value) => SaysIs(alias, column, op, value)
    case LikeTest(alias, column, pattern) => SaysLike(alias, column, pattern)
    case OneOf(alias, column, values) => SaysIn(alias, column, values)
  }

  function TestTexts(tests: seq<Test>): seq<seq<Token>> {
    if tests == [] then [] else [TestText(tests[0])] + TestTexts(tests[1..])
  }

  function ClauseText(c: Clause): seq<Token> {
    match c
    case One(test) => TestText(test)
    case AnyOf(tests) => Parenthesized(JoinedTokens(TestTexts(tests), " OR "))
  }

  function ClauseTexts(cs: seq<Clause>): seq<seq<Token>> {
    if cs == [] then [] else [ClauseText(cs[0])] + ClauseTexts(cs[1..])
  }

  // What a test says of a value; an operator that is none of these is true of nothing.
  predicate True(col: Collation, test: Test, v: string) {
    match test
    case Compare(_, _, op, value) =>
      if op == " = " then v == value
      else if op == " >= " then col.atMost(value, v)
      else if op == " <= " then col.atMost(v, value)
      else false
    case LikeTest(_, _, pattern) => LikePattern.Like(col.fold, v, pattern)
    case OneOf(_, _, values) => v in values
  }

  predicate Passes(col: Collation, env: Joint, test: Test) {
    var v := ValueAt(env, Col(test.alias, test.column));
    v.Some? && True(col, test, v.value)
  }

  predicate Holds(col: Collation, env: Joint, c: Clause) {
    match c
    case One(test) => Passes(col, env, test)
    case AnyOf(tests) => exists k :: 0 <= k < |tests| && Passes(col, env, tests[k])
  }

  predicate AllHold(col: Collation, env: Joint, cs: seq<Clause>) {
    forall k :: 0 <= k < |cs| ==> Holds(col, env, cs[k])
  }

  ghost predicate Selects(t: Tables, col: Collation, joins: seq<Join>, cs: seq<Clause>, env: Joint) {
    IsJoined(t, joins, env) && AllHold(col, env, cs)
  }

  /* ---------- The clause that is built ---------- */

  function TimeClauses(p: CostParams, from: string, to: string): seq<Clause> {
    (if p.from != "" then [One(Compare("rl", "timestamp", " >= ", from))] else [])
    + (if p.to != "" then [One(Compare("rl", "timestamp", " <= ", to))] else [])
  }

  function KeyClauses(p: CostParams): seq<Clause> {
    if p.keyPrefix != "" then [One(Compare("pk", "key_prefix", " = ", p.keyPrefix))] else []
  }

  function ProviderTests(p: CostParams): seq<Test> {
    (if p.groupFilter == "" then [] else [LikeTest("rl", "provider_name", Prefix(p.groupFilter))])
    + (if p.providerGroups == [] then [] else [OneOf("rl", "provider_name", p.providerGroups)])
  }

  function GroupClauses(p: CostParams, modelCol: Option<string>): seq<Clause> {
    if modelCol.None? then []
    else if p.groupBy == "provider" then
      if p.groupFilter == "" && p.providerGroups == [] then [] else [AnyOf(ProviderTests(p))]
    else if p.groupFilter != "" then [One(LikeTest("rl", modelCol.value, Prefix(p.groupFilter)))]
    else []
  }

  function ScopeClauses(p: CostParams): seq<Clause> {
    if p.scopeType == "user" then [One(Compare("pko", "owner_user_id", " = ", p.scopeUserID))]
    else if p.scopeType == "team" then [One(Compare("tm", "team_id", " = ", p.scopeTeamID))]
    else []
  }

  function Clauses(p: CostParams, modelCol: Option<string>, from: string, to: string): seq<Clause> {
    TimeClauses(p, from, to) + KeyClauses(p) + GroupClauses(p, modelCol) + ScopeClauses(p)
  }

  lemma {:induction false} TextsAppend(a: seq<Clause>, b: seq<Clause>)
    ensures ClauseTexts(a + b) == ClauseTexts(a) + ClauseTexts(b)
    decreases |a|
  {
    if a == [] {
      assert a + b == b;
    } else {
      assert (a + b)[1..] == a[1..] + b;
      TextsAppend(a[1..], b);
    }
  }

  lemma OneText(c: Clause)
    ensures ClauseTexts([c]) == [ClauseText(c)]
  {
    assert [c][1..] == [];
  }

  lemma ProviderTexts(p: CostParams)
    ensures TestTexts(ProviderTests(p)) == ProviderWanted(p)
  {
    var a := LikeTest("rl", "provider_name", Prefix(p.groupFilter));
    var b := OneOf("rl", "provider_name", p.providerGroups);
    OneTestText(a);
    OneTestText(b);
    assert [a, b][1..] == [b];
    assert [a] + [b] == [a, b] && [a] + [] == [a] && [] + [b] == [b];
  }

  lemma OneTestText(test: Test)
    ensures TestTexts([test]) == [TestText(test)]
  {
    assert [test][1..] == [];
  }

  lemma TimeTexts(p: CostParams, from: string, to: string)
    ensures ClauseTexts(TimeClauses(p, from, to)) == TimesWanted(p, from, to)
  {
    var a, b := One(Compare("rl", "timestamp", " >= ", from)), One(Compare("rl", "timestamp", " <= ", to));
    OneText(a);
    OneText(b);
    TextsAppend(if p.from != "" then [a] else [], if p.to != "" then [b] else []);
  }

  lemma RestTexts(p: CostParams, modelCol: Option<string>)
    ensures ClauseTexts(KeyClauses(p)) == if p.keyPrefix != "" then [SaysIs("pk", "key_prefix", " = ", p.keyPrefix)] else []
    ensures ClauseTexts(GroupClauses(p, modelCol)) == GroupWanted(p, modelCol)
    ensures ClauseTexts(ScopeClauses(p)) == ScopeWanted(p)
  {
    ProviderTexts(p);
    if KeyClauses(p) != [] {
      OneText(KeyClauses(p)[0]);
    }
    if GroupClauses(p, modelCol) != [] {
      OneText(GroupClauses(p, modelCol)[0]);
    }
    if ScopeClauses(p) != [] {
      OneText(ScopeClauses(p)[0]);
    }
  }

  lemma CharsAppend(a: string, b: string)
    ensures Chars(a + b) == Chars(a) + Chars(b)
  {
  }

  lemma Placed(a: seq<Token>, b: seq<Token>, c: seq<Token>, d: seq<Token>)
    ensures a + (b + (c + d)) == (a + b) + c + d
  {
  }

  /** The text of each kind of test, its values in their places. */
  lemma TestsSpelledOut(name: string, alias: string, column: string, op: string, value: string, values: seq<string>)
    requires name == alias + ("." + column)
    ensures TestText(Compare(alias, column, op, value)) == Chars(name + op) + [Val(value)]
    ensures TestText(LikeTest(alias, column, value)) == Chars(name + " LIKE ") + [Val(value)] + Chars(" ESCAPE '\\'")
    ensures TestText(OneOf(alias, column, values)) == Chars(name + " IN (") + Values(values) + Chars(")")
  {
    CharsAppend(name, op);
    CharsAppend(name, " LIKE ");
    CharsAppend(name, " IN (");
    Placed(Chars(name), Chars(op), [Val(value)], []);
    Placed(Chars(name), Chars(" LIKE "), [Val(value)], Chars(" ESCAPE '\\'"));
    Placed(Chars(name), Chars(" IN ("), Values(values), Chars(")"));
    assert [Val(value)] + [] == [Val(value)];
  }

  /** The clause that buildCostFilter writes is that of these conditions, joined with AND. */
  lemma WantedIsWritten(p: CostParams, modelCol: Option<string>, from: string, to: string)
    ensures Wanted(p, modelCol, from, to) == ClauseTexts(Clauses(p, modelCol, from, to))
  {
    var a, b, c, d := TimeClauses(p, from, to), KeyClauses(p), GroupClauses(p, modelCol), ScopeClauses(p);
    TextsAppend(a, b);
    TextsAppend(a + b, c);
    TextsAppend(a + b + c, d);
    TimeTexts(p, from, to);
    RestTexts(p, modelCol);
  }

  /* ---------- The joins ---------- */

  function FirstJoins(n: nat): seq<Join> {
    if n == 0 then [] else if n == 1 then [KeyJoin] else if n == 2 then [KeyJoin, OwnerJoin] else [KeyJoin, OwnerJoin, TeamJoin]
  }

  function JoinCount(p: CostParams, forceKeyJoin: bool): nat {
    if p.scopeType == "team" then 3 else if p.scopeType == "user" then 2 else if forceKeyJoin || p.keyPrefix != "" then 1 else 0
  }

  lemma JoinsCounted(p: CostParams, forceKeyJoin: bool)
    ensures Joins(p, forceKeyJoin) == FirstJoins(JoinCount(p, forceKeyJoin))
  {
    assert [KeyJoin] + [OwnerJoin] == [KeyJoin, OwnerJoin] && [KeyJoin, OwnerJoin] + [TeamJoin] == [KeyJoin, OwnerJoin, TeamJoin];
  }

  // The joined row of these rows, of which the first n after the request are taken.
  function JointOf(n: nat, r: Request, k: Key, o: Owner, m: Membership): Joint {
    if n == 0 then map["rl" := RequestRow(r)]
    else if n == 1 then map["rl" := RequestRow(r), "pk" := KeyRow(k)]
    else if n == 2 then map["rl" := RequestRow(r), "pk" := KeyRow(k), "pko" := OwnerRow(o)]
    else map["rl" := RequestRow(r), "pk" := KeyRow(k), "pko" := OwnerRow(o), "tm" := MembershipRow(m)]
  }

  predicate Linked(t: Tables, n: nat, r: Request, k: Key, o: Owner, m: Membership) {
    && (n >= 1 ==> k in t.keys && k.id == r.proxyKeyID)
    && (n >= 2 ==> o in t.owners && o.proxyKeyID == k.id)
    && (n >= 3 ==> m in t.memberships && m.userID == o.ownerUserID)
  }

  lemma RequestValues(n: nat, r: Request, k: Key, o: Owner, m: Membership)
    ensures var env := JointOf(n, r, k, o, m);
            && ValueAt(env, Col("rl", "proxy_key_id")) == Some(r.proxyKeyID) && ValueAt(env, Col("rl", "timestamp")) == Some(r.timestamp)
            && ValueAt(env, Col("rl", "provider_name")) == Some(r.providerName)
            && ValueAt(env, Col("rl", "model_requested")) == Some(r.modelRequested)
            && ValueAt(env, Col("rl", "model_upstream")) == Some(r.modelUpstream)
  {
  }

  lemma KeyValues(n: nat, r: Request, k: Key, o: Owner, m: Membership)
    requires n >= 1
    ensures var env := JointOf(n, r, k, o, m);
            ValueAt(env, Col("pk", "id")) == Some(k.id) && ValueAt(env, Col("pk", "key_prefix")) == Some(k.keyPrefix)
  {
  }

  lemma OwnerValues(n: nat, r: Request, k: Key, o: Owner, m: Membership)
    requires n >= 2
    ensures var env := JointOf(n, r, k, o, m);
            ValueAt(env, Col("pko", "proxy_key_id")) == Some(o.proxyKeyID) && ValueAt(env, Col("pko", "owner_user_id")) == Some(o.ownerUserID)
  {
  }

  lemma MembershipValues(n: nat, r: Request, k: Key, o: Owner, m: Membership)
    requires n >= 3
    ensures var env := JointOf(n, r, k, o, m);
            ValueAt(env, Col("tm", "user_id")) == Some(m.userID) && ValueAt(env, Col("tm", "team_id")) == Some(m.teamID)
  {
  }

  function Aliases(n: nat): set<string> {
    if n == 0 then {"rl"} else if n == 1 then {"rl"} + {"pk"} else if n == 2 then {"rl"} + {"pk"} + {"pko"} else {"rl"} + {"pk"} + {"pko"} + {"tm"}
  }

  lemma OneAlias(joins: seq<Join>, j: Join, aliases: set<string>)
    requires Introduced(joins) == aliases
    ensures Introduced(joins + [j]) == aliases + {j.alias}
  {
    JoinMore(joins, j);
  }

  lemma AliasesOf(n: nat)
    ensures Introduced(FirstJoins(n)) == Aliases(n)
  {
    OneAlias([], KeyJoin, {"rl"});
    OneAlias([KeyJoin], OwnerJoin, {"rl"} + {"pk"});
    OneAlias([KeyJoin, OwnerJoin], TeamJoin, {"rl"} + {"pk"} + {"pko"});
    assert [] + [KeyJoin] == [KeyJoin] && [KeyJoin] + [OwnerJoin] == [KeyJoin, OwnerJoin];
    assert [KeyJoin, OwnerJoin] + [TeamJoin] == [KeyJoin, OwnerJoin, TeamJoin];
  }

  lemma JointKeys(n: nat, r: Request, k: Key, o: Owner, m: Membership)
    ensures JointOf(n, r, k, o, m).Keys == Aliases(n)
  {
  }

  lemma SameJoint(n: nat, env: Joint, r: Request, k: Key, o: Owner, m: Membership)
    requires env.Keys == Aliases(n) && env["rl"] == RequestRow(r) && (n >= 1 ==> env["pk"] == KeyRow(k))
    requires (n >= 2 ==> env["pko"] == OwnerRow(o)) && (n >= 3 ==> env["tm"] == MembershipRow(m))
    ensures env == JointOf(n, r, k, o, m)
  {
    JointKeys(n, r, k, o, m);
  }

  lemma LinkedIsJoined(t: Tables, n: nat, r: Request, k: Key, o: Owner, m: Membership)
    requires r in t.requests && Linked(t, n, r, k, o, m) && n <= 3
    ensures IsJoined(t, FirstJoins(n), JointOf(n, r, k, o, m))
  {
    var env := JointOf(n, r, k, o, m);
    AliasesOf(n);
    JointKeys(n, r, k, o, m);
    RequestValues(n, r, k, o, m);
    if n >= 1 {
      KeyValues(n, r, k, o, m);
      assert Meets(t, env, KeyJoin);
    }
    if n >= 2 {
      OwnerValues(n, r, k, o, m);
      assert Meets(t, env, OwnerJoin);
    }
    if n >= 3 {
      MembershipValues(n, r, k, o, m);
      assert Meets(t, env, TeamJoin);
    }
  }

  lemma JoinedIsLinked(t: Tables, n: nat, env: Joint, r: Request) returns (k: Key, o: Owner, m: Membership)
    requires IsJoined(t, FirstJoins(n), env) && env["rl"] == RequestRow(r) && n <= 3
    ensures Linked(t, n, r, k, o, m) && env == JointOf(n, r, k, o, m)
  {
    k, o, m := RowsOf(t, n, env);
    AliasesOf(n);
    SameJoint(n, env, r, k, o, m);
    JoinedAreLinked(t, n, r, k, o, m);
  }

  lemma RowsOf(t: Tables, n: nat, env: Joint) returns (k: Key, o: Owner, m: Membership)
    requires IsJoined(t, FirstJoins(n), env) && n <= 3
    ensures n >= 1 ==> k in t.keys && "pk" in env && env["pk"] == KeyRow(k)
    ensures n >= 2 ==> o in t.owners && "pko" in env && env["pko"] == OwnerRow(o)
    ensures n >= 3 ==> m in t.memberships && "tm" in env && env["tm"] == MembershipRow(m)
  {
    k, o, m := Key("", ""), Owner("", ""), Membership("", "");
    if n >= 1 {
      assert Meets(t, env, FirstJoins(n)[0]);
      k :| k in t.keys && env["pk"] == KeyRow(k);
    }
    if n >= 2 {
      assert Meets(t, env, FirstJoins(n)[1]);
      o :| o in t.owners && env["pko"] == OwnerRow(o);
    }
    if n >= 3 {
      assert Meets(t, env, FirstJoins(n)[2]);
      m :| m in t.memberships && env["tm"] == MembershipRow(m);
    }
  }

  lemma JoinedAreLinked(t: Tables, n: nat, r: Request, k: Key, o: Owner, m: Membership)
    requires n <= 3 && forall i :: 0 <= i < |FirstJoins(n)| ==> Meets(t, JointOf(n, r, k, o, m), FirstJoins(n)[i])
    ensures (n >= 1 ==> k.id == r.proxyKeyID) && (n >= 2 ==> o.proxyKeyID == k.id) && (n >= 3 ==> m.userID == o.ownerUserID)
  {
    RequestValues(n, r, k, o, m);
    if n >= 1 {
      KeyValues(n, r, k, o, m);
      assert Meets(t, JointOf(n, r, k, o, m), FirstJoins(n)[0]);
    }
    if n >= 2 {
      OwnerValues(n, r, k, o, m);
      assert Meets(t, JointOf(n, r, k, o, m), FirstJoins(n)[1]);
    }
    if n >= 3 {
      MembershipValues(n, r, k, o, m);
      assert Meets(t, JointOf(n, r, k, o, m), FirstJoins(n)[2]);
    }
  }

  /* ---------- What the query is for, on the tables ---------- */

  predicate InTimes(col: Collation, p: CostParams, from: string, to: string, r: Request) {
    (p.from != "" ==> col.atMost(from, r.timestamp)) && (p.to != "" ==> col.atMost(r.timestamp, to))
  }

  predicate BeginsWith(col: Collation, s: string, prefix: string) {
    |prefix| <= |s| && forall i :: 0 <= i < |prefix| ==> col.fold(s[i]) == col.fold(prefix[i])
  }

  // The columns the source's queries filter groups on.
  predicate IsModelColumn(column: string) {
    column == "model_requested" || column == "model_upstream"
  }

  function ModelOf(column: string, r: Request): string {
    if column == "model_requested" then r.modelRequested else r.modelUpstream
  }

  predicate InGroup(col: Collation, p: CostParams, modelCol: Option<string>, r: Request) {
    if modelCol.None? then true
    else if p.groupBy == "provider" then
      || (p.groupFilter == "" && p.providerGroups == [])
      || (p.groupFilter != "" && BeginsWith(col, r.providerName, p.groupFilter))
      || r.providerName in p.providerGroups
    else p.groupFilter != "" ==> BeginsWith(col, ModelOf(modelCol.value, r), p.groupFilter)
  }

  ghost predicate HasKey(t: Tables, r: Request) {
    exists k :: k in t.keys && k.id == r.proxyKeyID
  }

  ghost predicate HasKeyWith(t: Tables, r: Request, prefix: string) {
    exists k :: k in t.keys && k.id == r.proxyKeyID && k.keyPrefix == prefix
  }

  // The request's key is the user's.
  ghost predicate OwnedBy(t: Tables, r: Request, user: string) {
    HasKey(t, r) && exists o :: o in t.owners && o.proxyKeyID == r.proxyKeyID && o.ownerUserID == user
  }

  // The request's key is that of a member of the team.
  ghost predicate OwnedInTeam(t: Tables, r: Request, team: string) {
    exists m :: m in t.memberships && m.teamID == team && OwnedBy(t, r, m.userID)
  }

  ghost predicate IsMeant(t: Tables, col: Collation, p: CostParams, forceKeyJoin: bool, modelCol: Option<string>, from: string, to: string, r: Request) {
    && InTimes(col, p, from, to, r) && InGroup(col, p, modelCol, r)
    && (forceKeyJoin ==> HasKey(t, r))
    && (p.keyPrefix != "" ==> HasKeyWith(t, r, p.keyPrefix))
    && (p.scopeType == "user" ==> OwnedBy(t, r, p.scopeUserID))
    && (p.scopeType == "team" ==> OwnedInTeam(t, r, p.scopeTeamID))
  }

  // The primary keys of the tables.
  ghost predicate Keyed(t: Tables) {
    && (forall k, l :: k in t.keys && l in t.keys && k.id == l.id ==> k == l)
    && (forall o, q :: o in t.owners && q in t.owners && o.proxyKeyID == q.proxyKeyID ==> o == q)
    && (forall m, l :: m in t.memberships && l in t.memberships && m.userID == l.userID ==> m == l)
  }

  /* ---------- The conditions on a joined row ---------- */

  lemma HoldAppend(col: Collation, env: Joint, a: seq<Clause>, b: seq<Clause>)
    ensures AllHold(col, env, a + b) <==> AllHold(col, env, a) && AllHold(col, env, b)
  {
    assert forall k :: 0 <= k < |a| ==> (a + b)[k] == a[k];
    assert forall k :: 0 <= k < |b| ==> (a + b)[|a| + k] == b[k];
    if AllHold(col, env, a) && AllHold(col, env, b) {
      forall k | 0 <= k < |a + b|
        ensures Holds(col, env, (a + b)[k])
      {
        assert k >= |a| ==> (a + b)[k] == b[k - |a|];
      }
    }
  }

  lemma OneHolds(col: Collation, env: Joint, c: Clause)
    ensures AllHold(col, env, [c]) <==> Holds(col, env, c)
  {
    assert [c][0] == c;
  }

  lemma NoneHolds(col: Collation, env: Joint)
    ensures AllHold(col, env, [])
  {
  }

  lemma TimesHold(col: Collation, p: CostParams, from: string, to: string, n: nat, r: Request, k: Key, o: Owner, m: Membership)
    ensures AllHold(col, JointOf(n, r, k, o, m), TimeClauses(p, from, to)) <==> InTimes(col, p, from, to, r)
  {
    var env := JointOf(n, r, k, o, m);
    var a, b := One(Compare("rl", "timestamp", " >= ", from)), One(Compare("rl", "timestamp", " <= ", to));
    RequestValues(n, r, k, o, m);
    OneHolds(col, env, a);
    OneHolds(col, env, b);
    NoneHolds(col, env);
    HoldAppend(col, env, if p.from != "" then [a] else [], if p.to != "" then [b] else []);
  }

  lemma PrefixMatches(col: Collation, v: string, prefix: string)
    ensures LikePattern.Like(col.fold, v, Prefix(prefix)) <==> BeginsWith(col, v, prefix)
  {
    LikePattern.LikeIsPrefix(col.fold, prefix, v);
  }

  lemma ProviderHolds(col: Collation, p: CostParams, n: nat, r: Request, k: Key, o: Owner, m: Membership)
    ensures Holds(col, JointOf(n, r, k, o, m), AnyOf(ProviderTests(p)))
            <==> (p.groupFilter != "" && BeginsWith(col, r.providerName, p.groupFilter)) || r.providerName in p.providerGroups
  {
    var env, tests := JointOf(n, r, k, o, m), ProviderTests(p);
    var a := LikeTest("rl", "provider_name", Prefix(p.groupFilter));
    var b := OneOf("rl", "provider_name", p.providerGroups);
    RequestValues(n, r, k, o, m);
    PrefixMatches(col, r.providerName, p.groupFilter);
    assert Passes(col, env, a) <==> BeginsWith(col, r.providerName, p.groupFilter);
    assert Passes(col, env, b) <==> r.providerName in p.providerGroups;
    assert p.groupFilter != "" ==> tests[0] == a;
    assert p.providerGroups != [] ==> tests[|tests| - 1] == b;
    assert forall i :: 0 <= i < |tests| ==> (tests[i] == a && p.groupFilter != "") || tests[i] == b;
  }

  lemma GroupHolds(col: Collation, p: CostParams, modelCol: Option<string>, n: nat, r: Request, k: Key, o: Owner, m: Membership)
    requires modelCol.Some? ==> IsModelColumn(modelCol.value)
    ensures AllHold(col, JointOf(n, r, k, o, m), GroupClauses(p, modelCol)) <==> InGroup(col, p, modelCol, r)
  {
    var env := JointOf(n, r, k, o, m);
    NoneHolds(col, env);
    if modelCol.Some? && p.groupBy == "provider" {
      OneHolds(col, env, AnyOf(ProviderTests(p)));
      ProviderHolds(col, p, n, r, k, o, m);
    } else if modelCol.Some? {
      var c := LikeTest("rl", modelCol.value, Prefix(p.groupFilter));
      OneHolds(col, env, One(c));
      RequestValues(n, r, k, o, m);
      PrefixMatches(col, ModelOf(modelCol.value, r), p.groupFilter);
    }
  }

  lemma KeyHolds(col: Collation, p: CostParams, n: nat, r: Request, k: Key, o: Owner, m: Membership)
    requires p.keyPrefix != "" ==> n >= 1
    ensures AllHold(col, JointOf(n, r, k, o, m), KeyClauses(p)) <==> (p.keyPrefix != "" ==> k.keyPrefix == p.keyPrefix)
  {
    var env := JointOf(n, r, k, o, m);
    NoneHolds(col, env);
    OneHolds(col, env, One(Compare("pk", "key_prefix", " = ", p.keyPrefix)));
    if n >= 1 {
      KeyValues(n, r, k, o, m);
    }
  }

  lemma ScopeHolds(col: Collation, p: CostParams, n: nat, r: Request, k: Key, o: Owner, m: Membership)
    requires (p.scopeType == "user" ==> n >= 2) && (p.scopeType == "team" ==> n >= 3)
    ensures AllHold(col, JointOf(n, r, k, o, m), ScopeClauses(p))
            <==> (p.scopeType == "user" ==> o.ownerUserID == p.scopeUserID) && (p.scopeType == "team" ==> m.teamID == p.scopeTeamID)
  {
    var env := JointOf(n, r, k, o, m);
    NoneHolds(col, env);
    if p.scopeType == "user" {
      OneHolds(col, env, One(Compare("pko", "owner_user_id", " = ", p.scopeUserID)));
      OwnerValues(n, r, k, o, m);
    } else if p.scopeType == "team" {
      OneHolds(col, env, One(Compare("tm", "team_id", " = ", p.scopeTeamID)));
      MembershipValues(n, r, k, o, m);
    }
  }

  // The conditions, on the rows that were joined.
  predicate RowsMeet(col: Collation, p: CostParams, modelCol: Option<string>, from: string, to: string, r: Request, k: Key, o: Owner, m: Membership) {
    && InTimes(col, p, from, to, r) && InGroup(col, p, modelCol, r)
    && (p.keyPrefix != "" ==> k.keyPrefix == p.keyPrefix)
    && (p.scopeType == "user" ==> o.ownerUserID == p.scopeUserID)
    && (p.scopeType == "team" ==> m.teamID == p.scopeTeamID)
  }

  lemma ClausesHold(col: Collation, p: CostParams, modelCol: Option<string>, from: string, to: string,
                    n: nat, r: Request, k: Key, o: Owner, m: Membership)
    requires modelCol.Some? ==> IsModelColumn(modelCol.value)
    requires (p.keyPrefix != "" ==> n >= 1) && (p.scopeType == "user" ==> n >= 2) && (p.scopeType == "team" ==> n >= 3)
    ensures AllHold(col, JointOf(n, r, k, o, m), Clauses(p, modelCol, from, to)) <==> RowsMeet(col, p, modelCol, from, to, r, k, o, m)
  {
    var env := JointOf(n, r, k, o, m);
    var a, b, c, d := TimeClauses(p, from, to), KeyClauses(p), GroupClauses(p, modelCol), ScopeClauses(p);
    HoldAppend(col, env, a, b);
    HoldAppend(col, env, a + b, c);
    HoldAppend(col, env, a + b + c, d);
    TimesHold(col, p, from, to, n, r, k, o, m);
    KeyHolds(col, p, n, r, k, o, m);
    GroupHolds(col, p, modelCol, n, r, k, o, m);
    ScopeHolds(col, p, n, r, k, o, m);
  }

  /* ---------- What is selected ---------- */

  lemma MeantByRows(t: Tables, col: Collation, p: CostParams, forceKeyJoin: bool, modelCol: Option<string>, from: string, to: string,
                    r: Request, k: Key, o: Owner, m: Membership)
    requires Linked(t, JoinCount(p, forceKeyJoin), r, k, o, m) && RowsMeet(col, p, modelCol, from, to, r, k, o, m)
    ensures IsMeant(t, col, p, forceKeyJoin, modelCol, from, to, r)
  {
    if p.scopeType == "team" {
      assert OwnedBy(t, r, m.userID);
    }
  }

  lemma RowsOfMeant(t: Tables, col: Collation, p: CostParams, forceKeyJoin: bool, modelCol: Option<string>, from: string, to: string, r: Request)
      returns (k: Key, o: Owner, m: Membership)
    requires Keyed(t) && IsMeant(t, col, p, forceKeyJoin, modelCol, from, to, r)
    ensures Linked(t, JoinCount(p, forceKeyJoin), r, k, o, m) && RowsMeet(col, p, modelCol, from, to, r, k, o, m)
  {
    var n := JoinCount(p, forceKeyJoin);
    k, o, m := Key("", ""), Owner("", ""), Membership("", "");
    if n >= 1 {
      k :| k in t.keys && k.id == r.proxyKeyID;
    }
    if p.scopeType == "user" {
      o :| o in t.owners && o.proxyKeyID == r.proxyKeyID && o.ownerUserID == p.scopeUserID;
    } else if p.scopeType == "team" {
      m :| m in t.memberships && m.teamID == p.scopeTeamID && OwnedBy(t, r, m.userID);
      o :| o in t.owners && o.proxyKeyID == r.proxyKeyID && o.ownerUserID == m.userID;
    }
  }

  /** For all tables with these primary keys, all parameters and every collation: the requests
    * that the joins and the clause leave are exactly those in the given times and group whose
    * key has the given prefix, is the given user's, or is that of a member of the given team,
    * each of these as far as it is asked for; where a key is asked for at all, it must exist. */
  lemma SelectedExactly(t: Tables, col: Collation, p: CostParams, forceKeyJoin: bool, modelCol: Option<string>, from: string, to: string, r: Request)
    requires Keyed(t) && r in t.requests && (modelCol.Some? ==> IsModelColumn(modelCol.value))
    ensures (exists env :: Selects(t, col, Joins(p, forceKeyJoin), Clauses(p, modelCol, from, to), env) && env["rl"] == RequestRow(r))
            <==> IsMeant(t, col, p, forceKeyJoin, modelCol, from, to, r)
  {
    var n, joins, cs := JoinCount(p, forceKeyJoin), Joins(p, forceKeyJoin), Clauses(p, modelCol, from, to);
    JoinsCounted(p, forceKeyJoin);
    if env :| Selects(t, col, joins, cs, env) && env["rl"] == RequestRow(r) {
      var k, o, m := JoinedIsLinked(t, n, env, r);
      ClausesHold(col, p, modelCol, from, to, n, r, k, o, m);
      MeantByRows(t, col, p, forceKeyJoin, modelCol, from, to, r, k, o, m);
    }
    if IsMeant(t, col, p, forceKeyJoin, modelCol, from, to, r) {
      var k, o, m := RowsOfMeant(t, col, p, forceKeyJoin, modelCol, from, to, r);
      var env := JointOf(n, r, k, o, m);
      LinkedIsJoined(t, n, r, k, o, m);
      ClausesHold(col, p, modelCol, from, to, n, r, k, o, m);
      assert env["rl"] == RequestRow(r);
      assert Selects(t, col, joins, cs, env);
    }
  }

  /** No request is counted twice: the joins have at most one row for it. */
  lemma CountedOnce(t: Tables, p: CostParams, forceKeyJoin: bool, r: Request, e: Joint, f: Joint)
    requires Keyed(t) && IsJoined(t, Joins(p, forceKeyJoin), e) && IsJoined(t, Joins(p, forceKeyJoin), f)
    requires e["rl"] == RequestRow(r) && f["rl"] == RequestRow(r)
    ensures e == f
  {
    JoinsCounted(p, forceKeyJoin);
    var k, o, m := JoinedIsLinked(t, JoinCount(p, forceKeyJoin), e, r);
    var k', o', m' := JoinedIsLinked(t, JoinCount(p, forceKeyJoin), f, r);
  }
}
