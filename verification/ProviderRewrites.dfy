/** The startup rewrite of logged provider names (internal/store/sqlite.go): the rules made
  * from the model list, and the pass of UPDATE statements that applies them to the rows.
  */
module ProviderRewrites {
  import opened Options
  import LikePattern

  datatype Model = Model(name: string, provider: string, virtual: bool)

  // `legacy` is the name under which the provider used to be logged.
  datatype Provider = Provider(name: string, legacy: string)

  // A rule for one model name, or for the names with a prefix if that is not empty.
  datatype Rewrite = Rewrite(oldName: string, newName: string, exact: string, prefix: string)

  datatype Result = Rules(rules: seq<Rewrite>) | ProviderNotFound(model: string) | Ambiguous(rule: Rewrite)

  function FindProvider(ps: seq<Provider>, name: string): Option<Provider> {
    if ps == [] then None else if ps[0].name == name then Some(ps[0]) else FindProvider(ps[1..], name)
  }

  predicate IsWildcard(m: Model) {
    |m.name| >= 2 && m.name[|m.name| - 2..] == "/*"
  }

  function RuleFor(m: Model, p: Provider): Rewrite {
    if IsWildcard(m) then Rewrite(p.legacy, p.name, "", m.name[..|m.name| - 1]) else Rewrite(p.legacy, p.name, m.name, "")
  }

  // What a model contributes: nothing, a rule, or that its provider is unknown.
  datatype Part = Nothing | Rule(rule: Rewrite) | Unknown

  function PartOf(ps: seq<Provider>, m: Model): Part {
    if m.provider == "" || m.virtual then Nothing
    else
      var p := FindProvider(ps, m.provider);
      if p.None? then Unknown
      else if p.value.legacy == "" || p.value.legacy == p.value.name then Nothing
      else Rule(RuleFor(m, p.value))
  }

  // What may not be mapped in two ways.
  function Key(r: Rewrite): (string, string, string) {
    (r.oldName, r.exact, r.prefix)
  }

  // The different rules of one kind, in the order in which the models bring them.
  function RulesOfKind(ms: seq<Model>, ps: seq<Provider>, wildcard: bool): seq<Rewrite> {
    if ms == [] then []
    else
      var pre := RulesOfKind(ms[..|ms| - 1], ps, wildcard);
      var p := PartOf(ps, ms[|ms| - 1]);
      if p.Rule? && (p.rule.prefix != "") == wildcard && p.rule !in pre then pre + [p.rule] else pre
  }

  function RulesOf(ms: seq<Model>, ps: seq<Provider>): seq<Rewrite> {
    RulesOfKind(ms, ps, false) + RulesOfKind(ms, ps, true)
  }

  /** The rules, exact ones before wildcard ones, each in the order of the model list. */
  method ProviderNameRewrites(ms: seq<Model>, ps: seq<Provider>) returns (r: Result)
    ensures r.Rules? ==> Collected(ms, ps, r.rules) && r.rules == RulesOf(ms, ps)
    ensures r.ProviderNotFound? ==> exists i :: 0 <= i < |ms| && ms[i].name == r.model && PartOf(ps, ms[i]).Unknown?
    ensures r.Ambiguous? ==> exists i, j :: 0 <= i < j < |ms| && Conflict(ps, ms[i], ms[j]) && PartOf(ps, ms[j]).rule == r.rule
    ensures r.Rules? ==> AllKnown(ms, ps) && NoConflict(ms, ps)
  {
    var exact: seq<Rewrite>, wildcards: seq<Rewrite> := [], [];
    var seen: map<(string, string, string), string> := map[];
    for i := 0 to |ms|
      invariant Progress(ms[..i], ps, seen, exact, wildcards)
    {
      assert ms[..i + 1] == ms[..i] + [ms[i]];
      match PartOf(ps, ms[i]) {
        case Nothing =>
          StepNothing(ms[..i], ps, ms[i], seen, exact, wildcards);
        case Unknown =>
          return ProviderNotFound(ms[i].name);
        case Rule(rule) =>
          if Key(rule) in seen {
            if seen[Key(rule)] != rule.newName {
              ConflictFound(ms, ps, seen, i, rule);
              return Ambiguous(rule);
            }
            StepKnown(ms[..i], ps, ms[i], seen, exact, wildcards, rule);
          } else {
            StepNew(ms[..i], ps, ms[i], seen, exact, wildcards, rule);
            seen := seen[Key(rule) := rule.newName];
            if rule.prefix != "" {
              wildcards := wildcards + [rule];
            } else {
              exact := exact + [rule];
            }
          }
      }
    }
    assert ms[..|ms|] == ms;
    CollectedAll(ms, ps, seen, exact, wildcards);
    return Rules(exact + wildcards);
  }

  /* ---------- What is collected ---------- */

  ghost predicate Conflict(ps: seq<Provider>, a: Model, b: Model) {
    && PartOf(ps, a).Rule? && PartOf(ps, b).Rule?
    && Key(PartOf(ps, a).rule) == Key(PartOf(ps, b).rule) && PartOf(ps, a).rule.newName != PartOf(ps, b).rule.newName
  }

  ghost predicate NoConflict(ms: seq<Model>, ps: seq<Provider>) {
    forall i, j :: 0 <= i < j < |ms| ==> !Conflict(ps, ms[i], ms[j])
  }

  ghost predicate Seen(ms: seq<Model>, ps: seq<Provider>, seen: map<(string, string, string), string>) {
    && (forall i :: 0 <= i < |ms| && PartOf(ps, ms[i]).Rule? ==> Recorded(seen, PartOf(ps, ms[i]).rule))
    && (forall k :: k in seen ==> exists i :: 0 <= i < |ms| && IsRule(ps, ms[i], k, seen[k]))
  }

  predicate Recorded(seen: map<(string, string, string), string>, r: Rewrite) {
    Key(r) in seen && seen[Key(r)] == r.newName
  }

  predicate IsRule(ps: seq<Provider>, m: Model, key: (string, string, string), newName: string) {
    PartOf(ps, m).Rule? && Key(PartOf(ps, m).rule) == key && PartOf(ps, m).rule.newName == newName
  }

  // Both lists hold recorded rules, each key once, exact and wildcard rules apart.
  ghost predicate Sorted(exact: seq<Rewrite>, wildcards: seq<Rewrite>, seen: map<(string, string, string), string>) {
    && (forall r :: r in exact ==> r.prefix == "" && Recorded(seen, r))
    && (forall r :: r in wildcards ==> r.prefix != "" && Recorded(seen, r))
    && (forall k :: k in seen ==> exists r :: r in exact + wildcards && Key(r) == k)
  }

  // Exactly the rules of the models, with the exact ones first.
  ghost predicate Collected(ms: seq<Model>, ps: seq<Provider>, rules: seq<Rewrite>) {
    && (forall i :: 0 <= i < |ms| && PartOf(ps, ms[i]).Rule? ==> PartOf(ps, ms[i]).rule in rules)
    && (forall r :: r in rules ==> exists i :: 0 <= i < |ms| && PartOf(ps, ms[i]) == Rule(r))
    && (forall j, k :: 0 <= j < k < |rules| && rules[k].prefix == "" ==> rules[j].prefix == "")
  }

  ghost predicate AllKnown(ms: seq<Model>, ps: seq<Provider>) {
    forall i :: 0 <= i < |ms| ==> !PartOf(ps, ms[i]).Unknown?
  }

  // These models are dealt with.
  ghost predicate Progress(pre: seq<Model>, ps: seq<Provider>, seen: map<(string, string, string), string>,
                           exact: seq<Rewrite>, wildcards: seq<Rewrite>) {
    Noted(pre, ps, seen) && Listed(pre, ps, seen, exact, wildcards)
  }

  ghost predicate Noted(pre: seq<Model>, ps: seq<Provider>, seen: map<(string, string, string), string>) {
    AllKnown(pre, ps) && Seen(pre, ps, seen) && NoConflict(pre, ps)
  }

  ghost predicate Listed(pre: seq<Model>, ps: seq<Provider>, seen: map<(string, string, string), string>,
                         exact: seq<Rewrite>, wildcards: seq<Rewrite>) {
    Sorted(exact, wildcards, seen) && exact == RulesOfKind(pre, ps, false) && wildcards == RulesOfKind(pre, ps, true)
  }

  lemma OneModelMore(pre: seq<Model>, ps: seq<Provider>, m: Model, wildcard: bool)
    ensures var rules := RulesOfKind(pre, ps, wildcard); var p := PartOf(ps, m);
            RulesOfKind(pre + [m], ps, wildcard)
            == if p.Rule? && (p.rule.prefix != "") == wildcard && p.rule !in rules then rules + [p.rule] else rules
  {
    assert (pre + [m])[..|pre|] == pre;
  }

  // A recorded rule is in its list.
  lemma RecordedIsListed(exact: seq<Rewrite>, wildcards: seq<Rewrite>, seen: map<(string, string, string), string>, rule: Rewrite)
    requires Sorted(exact, wildcards, seen) && Recorded(seen, rule)
    ensures if rule.prefix != "" then rule in wildcards else rule in exact
  {
    var r :| r in exact + wildcards && Key(r) == Key(rule);
    assert Recorded(seen, r);
    assert r == rule;
  }

  lemma StepNothing(pre: seq<Model>, ps: seq<Provider>, m: Model, seen: map<(string, string, string), string>,
                    exact: seq<Rewrite>, wildcards: seq<Rewrite>)
    requires Progress(pre, ps, seen, exact, wildcards) && PartOf(ps, m).Nothing?
    ensures Progress(pre + [m], ps, seen, exact, wildcards)
  {
    OneModelMore(pre, ps, m, false);
    OneModelMore(pre, ps, m, true);
    NothingMore(pre, ps, seen, m);
  }

  lemma StepKnown(pre: seq<Model>, ps: seq<Provider>, m: Model, seen: map<(string, string, string), string>,
                  exact: seq<Rewrite>, wildcards: seq<Rewrite>, rule: Rewrite)
    requires Progress(pre, ps, seen, exact, wildcards) && PartOf(ps, m) == Rule(rule) && Recorded(seen, rule)
    ensures Progress(pre + [m], ps, seen, exact, wildcards)
  {
    KnownListed(pre, ps, m, seen, exact, wildcards, rule);
    KnownMore(pre, ps, seen, m, rule);
  }

  lemma KnownListed(pre: seq<Model>, ps: seq<Provider>, m: Model, seen: map<(string, string, string), string>,
                    exact: seq<Rewrite>, wildcards: seq<Rewrite>, rule: Rewrite)
    requires Listed(pre, ps, seen, exact, wildcards) && PartOf(ps, m) == Rule(rule) && Recorded(seen, rule)
    ensures Listed(pre + [m], ps, seen, exact, wildcards)
  {
    OneModelMore(pre, ps, m, false);
    OneModelMore(pre, ps, m, true);
    RecordedIsListed(exact, wildcards, seen, rule);
  }

  lemma StepNew(pre: seq<Model>, ps: seq<Provider>, m: Model, seen: map<(string, string, string), string>,
                exact: seq<Rewrite>, wildcards: seq<Rewrite>, rule: Rewrite)
    requires Progress(pre, ps, seen, exact, wildcards) && PartOf(ps, m) == Rule(rule) && Key(rule) !in seen
    ensures var more := seen[Key(rule) := rule.newName];
            if rule.prefix != "" then Progress(pre + [m], ps, more, exact, wildcards + [rule])
            else Progress(pre + [m], ps, more, exact + [rule], wildcards)
  {
    NewListed(pre, ps, m, seen, exact, wildcards, rule);
    NewMore(pre, ps, seen, m, rule);
  }

  lemma NewListed(pre: seq<Model>, ps: seq<Provider>, m: Model, seen: map<(string, string, string), string>,
                  exact: seq<Rewrite>, wildcards: seq<Rewrite>, rule: Rewrite)
    requires Listed(pre, ps, seen, exact, wildcards) && PartOf(ps, m) == Rule(rule) && Key(rule) !in seen
    ensures var more := seen[Key(rule) := rule.newName];
            if rule.prefix != "" then Listed(pre + [m], ps, more, exact, wildcards + [rule])
            else Listed(pre + [m], ps, more, exact + [rule], wildcards)
  {
    assert rule !in exact && rule !in wildcards;
    OneModelMore(pre, ps, m, false);
    OneModelMore(pre, ps, m, true);
    SortedMore(exact, wildcards, seen, rule);
  }

  lemma KnownLonger(pre: seq<Model>, ps: seq<Provider>, m: Model)
    requires AllKnown(pre, ps) && !PartOf(ps, m).Unknown?
    ensures AllKnown(pre + [m], ps)
  {
  }

  lemma NoMoreConflict(pre: seq<Model>, ps: seq<Provider>, m: Model)
    requires NoConflict(pre, ps) && forall i :: 0 <= i < |pre| ==> !Conflict(ps, pre[i], m)
    ensures NoConflict(pre + [m], ps)
  {
  }

  lemma NothingMore(pre: seq<Model>, ps: seq<Provider>, seen: map<(string, string, string), string>, m: Model)
    requires Noted(pre, ps, seen) && PartOf(ps, m).Nothing?
    ensures Noted(pre + [m], ps, seen)
  {
    KnownLonger(pre, ps, m);
    NoMoreConflict(pre, ps, m);
    SeenLonger(pre, ps, seen, m);
  }

  // What is recorded for a prefix of the models is there for a longer list.
  lemma SeenLonger(pre: seq<Model>, ps: seq<Provider>, seen: map<(string, string, string), string>, m: Model)
    requires Seen(pre, ps, seen)
    ensures forall k :: k in seen ==> exists i :: 0 <= i < |pre + [m]| && IsRule(ps, (pre + [m])[i], k, seen[k])
  {
    forall k | k in seen
      ensures exists i :: 0 <= i < |pre + [m]| && IsRule(ps, (pre + [m])[i], k, seen[k])
    {
      var i :| 0 <= i < |pre| && IsRule(ps, pre[i], k, seen[k]);
      assert (pre + [m])[i] == pre[i];
    }
  }

  lemma KnownMore(pre: seq<Model>, ps: seq<Provider>, seen: map<(string, string, string), string>, m: Model, rule: Rewrite)
    requires Noted(pre, ps, seen) && PartOf(ps, m) == Rule(rule) && Recorded(seen, rule)
    ensures Noted(pre + [m], ps, seen)
  {
    KnownLonger(pre, ps, m);
    SeenLonger(pre, ps, seen, m);
    forall i | 0 <= i < |pre|
      ensures !Conflict(ps, pre[i], m)
    {
      if PartOf(ps, pre[i]).Rule? {
        assert Recorded(seen, PartOf(ps, pre[i]).rule);
      }
    }
    NoMoreConflict(pre, ps, m);
  }

  lemma NewMore(pre: seq<Model>, ps: seq<Provider>, seen: map<(string, string, string), string>, m: Model, rule: Rewrite)
    requires Noted(pre, ps, seen) && PartOf(ps, m) == Rule(rule) && Key(rule) !in seen
    ensures Noted(pre + [m], ps, seen[Key(rule) := rule.newName])
  {
    KnownLonger(pre, ps, m);
    SeenLonger(pre, ps, seen, m);
    assert (pre + [m])[|pre|] == m && IsRule(ps, m, Key(rule), rule.newName);
    forall i | 0 <= i < |pre|
      ensures !Conflict(ps, pre[i], m)
    {
      if PartOf(ps, pre[i]).Rule? {
        assert Recorded(seen, PartOf(ps, pre[i]).rule);
      }
    }
  }

  lemma SortedMore(exact: seq<Rewrite>, wildcards: seq<Rewrite>, seen: map<(string, string, string), string>, rule: Rewrite)
    requires Sorted(exact, wildcards, seen) && Key(rule) !in seen
    ensures var more := seen[Key(rule) := rule.newName];
            if rule.prefix != "" then Sorted(exact, wildcards + [rule], more) else Sorted(exact + [rule], wildcards, more)
  {
    var more := seen[Key(rule) := rule.newName];
    var a, b := if rule.prefix != "" then exact else exact + [rule], if rule.prefix != "" then wildcards + [rule] else wildcards;
    forall k | k in more
      ensures exists r :: r in a + b && Key(r) == k
    {
      KeyListed(exact, wildcards, seen, rule, a + b, k);
    }
  }

  lemma KeyListed(exact: seq<Rewrite>, wildcards: seq<Rewrite>, seen: map<(string, string, string), string>, rule: Rewrite,
                  all: seq<Rewrite>, k: (string, string, string))
    requires Sorted(exact, wildcards, seen) && (k == Key(rule) || k in seen) && forall r :: r in all <==> r in exact || r in wildcards || r == rule
    ensures exists r :: r in all && Key(r) == k
  {
    if k == Key(rule) {
      assert rule in all;
    } else {
      var r :| r in exact + wildcards && Key(r) == k;
      assert r in all;
    }
  }

  lemma ConflictFound(ms: seq<Model>, ps: seq<Provider>, seen: map<(string, string, string), string>, i: nat, rule: Rewrite)
    requires i < |ms| && Seen(ms[..i], ps, seen) && PartOf(ps, ms[i]) == Rule(rule) && Key(rule) in seen && seen[Key(rule)] != rule.newName
    ensures exists k :: 0 <= k < i && Conflict(ps, ms[k], ms[i])
  {
    var k :| 0 <= k < |ms[..i]| && IsRule(ps, ms[..i][k], Key(rule), seen[Key(rule)]);
    assert ms[..i][k] == ms[k];
  }

  // A rule is determined by its key and the recorded new name.
  lemma CollectedAll(ms: seq<Model>, ps: seq<Provider>, seen: map<(string, string, string), string>, exact: seq<Rewrite>, wildcards: seq<Rewrite>)
    requires Seen(ms, ps, seen) && Sorted(exact, wildcards, seen)
    ensures Collected(ms, ps, exact + wildcards)
  {
    var rules := exact + wildcards;
    forall i | 0 <= i < |ms| && PartOf(ps, ms[i]).Rule?
      ensures PartOf(ps, ms[i]).rule in rules
    {
      var rule := PartOf(ps, ms[i]).rule;
      assert Recorded(seen, rule);
      var r :| r in rules && Key(r) == Key(rule);
      assert Recorded(seen, r);
      assert r == rule;
    }
    forall r | r in rules
      ensures exists i :: 0 <= i < |ms| && PartOf(ps, ms[i]) == Rule(r)
    {
      assert Recorded(seen, r);
      var i :| 0 <= i < |ms| && IsRule(ps, ms[i], Key(r), seen[Key(r)]);
      assert PartOf(ps, ms[i]).rule == r;
    }
    forall j, k | 0 <= j < k < |rules| && rules[k].prefix == ""
      ensures rules[j].prefix == ""
    {
      if k >= |exact| {
        WildcardsLast(exact, wildcards, seen, k);
      }
      assert rules[j] in exact;
    }
  }

  lemma WildcardsLast(exact: seq<Rewrite>, wildcards: seq<Rewrite>, seen: map<(string, string, string), string>, k: nat)
    requires Sorted(exact, wildcards, seen) && |exact| <= k < |exact + wildcards|
    ensures (exact + wildcards)[k].prefix != ""
  {
    assert (exact + wildcards)[k] in wildcards;
  }

  // The model goes to a provider that used to be logged under another name: its first entry.
  ghost predicate Renamed(ps: seq<Provider>, m: Model, j: int) {
    && m.provider != "" && !m.virtual
    && 0 <= j < |ps| && ps[j].name == m.provider && (forall i :: 0 <= i < j ==> ps[i].name != m.provider)
    && ps[j].legacy != "" && ps[j].legacy != ps[j].name
  }

  // The rule takes the models the name stands for: all that begin with what is before the
  // asterisk, or the one of the name.
  ghost predicate StandsFor(name: string, r: Rewrite) {
    if exists p: string :: name == p + "/*" then r.exact == "" && name == r.prefix + "*" else r.exact == name && r.prefix == ""
  }

  ghost predicate Brings(ps: seq<Provider>, m: Model, r: Rewrite) {
    exists j :: Renamed(ps, m, j) && r.oldName == ps[j].legacy && r.newName == ps[j].name && StandsFor(m.name, r)
  }

  lemma {:induction false} FirstProvider(ps: seq<Provider>, name: string)
    ensures FindProvider(ps, name) == None <==> forall i :: 0 <= i < |ps| ==> ps[i].name != name
    ensures forall j :: 0 <= j < |ps| && ps[j].name == name && (forall i :: 0 <= i < j ==> ps[i].name != name) ==> FindProvider(ps, name) == Some(ps[j])
    ensures FindProvider(ps, name).Some? ==> exists j :: 0 <= j < |ps| && ps[j].name == name && forall i :: 0 <= i < j ==> ps[i].name != name
  {
    var j := 0;
    while j < |ps| && ps[j].name != name
      invariant 0 <= j <= |ps| && (forall i :: 0 <= i < j ==> ps[i].name != name)
      invariant FindProvider(ps, name) == FindProvider(ps[j..], name)
    {
      assert ps[j..][1..] == ps[j + 1..];
      j := j + 1;
    }
  }

  lemma NamedPattern(m: Model, p: Provider, r: Rewrite)
    requires r == RuleFor(m, p)
    ensures StandsFor(m.name, r) && r.oldName == p.legacy && r.newName == p.name
  {
    if IsWildcard(m) {
      var n := |m.name|;
      assert m.name == m.name[..n - 2] + "/*";
      assert m.name == m.name[..n - 1] + "*";
    }
    forall p: string
      ensures (p + "/*")[|p|..] == "/*"
    {
    }
  }

  lemma PatternIs(name: string, r: Rewrite, t: Rewrite)
    requires StandsFor(name, r) && StandsFor(name, t) && r.oldName == t.oldName && r.newName == t.newName
    ensures r == t
  {
    if exists p: string :: name == p + "/*" {
      assert r.prefix == name[..|name| - 1] && t.prefix == name[..|name| - 1];
    }
  }

  lemma PartSpelledOut(ps: seq<Provider>, m: Model, r: Rewrite)
    ensures PartOf(ps, m) == Rule(r) <==> Brings(ps, m, r)
    ensures PartOf(ps, m).Unknown? <==> m.provider != "" && !m.virtual && forall i :: 0 <= i < |ps| ==> ps[i].name != m.provider
  {
    FirstProvider(ps, m.provider);
    if PartOf(ps, m) == Rule(r) {
      var j :| 0 <= j < |ps| && ps[j].name == m.provider && forall i :: 0 <= i < j ==> ps[i].name != m.provider;
      NamedPattern(m, ps[j], r);
      assert Renamed(ps, m, j);
    }
    if Brings(ps, m, r) {
      var j :| Renamed(ps, m, j) && r.oldName == ps[j].legacy && r.newName == ps[j].name && StandsFor(m.name, r);
      NamedPattern(m, ps[j], RuleFor(m, ps[j]));
      PatternIs(m.name, r, RuleFor(m, ps[j]));
    }
  }

  /** What the rules are, on the configuration: from the name a provider used to be logged under
    * to its present one, for the model names of the entries that name it and have no fallbacks. */
  lemma RulesSpelledOut(ms: seq<Model>, ps: seq<Provider>, rules: seq<Rewrite>, r: Rewrite)
    requires Collected(ms, ps, rules)
    ensures r in rules <==> exists i :: 0 <= i < |ms| && Brings(ps, ms[i], r)
  {
    forall i | 0 <= i < |ms|
      ensures PartOf(ps, ms[i]) == Rule(r) <==> Brings(ps, ms[i], r)
    {
      PartSpelledOut(ps, ms[i], r);
    }
  }

  /* ---------- The pass over the rows ---------- */

  datatype Row = Row(provider: string, model: string)

  // The WHERE clause of a rule's UPDATE; `fold` is the collation of LIKE.
  predicate Applies(fold: char -> char, r: Rewrite, row: Row) {
    && row.provider == r.oldName
    && if r.prefix != "" then LikePattern.Like(fold, row.model, LikePattern.Escape(r.prefix) + "%") else row.model == r.exact
  }

  function Update(fold: char -> char, r: Rewrite, row: Row): Row {
    if Applies(fold, r, row) then row.(provider := r.newName) else row
  }

  function Pass(fold: char -> char, rules: seq<Rewrite>, row: Row): Row
    decreases |rules|
  {
    if rules == [] then row else Pass(fold, rules[1..], Update(fold, rules[0], row))
  }

  // The pass over the table, one UPDATE statement after the other.
  method NormalizeLoggedProviderNames(fold: char -> char, rules: seq<Rewrite>, rows: array<Row>)
    modifies rows
    ensures forall k :: 0 <= k < rows.Length ==> rows[k] == Pass(fold, rules, old(rows[k]))
  {
    assert rules[0..] == rules;
    for i := 0 to |rules|
      invariant forall k :: 0 <= k < rows.Length ==> Pass(fold, rules[i..], rows[k]) == Pass(fold, rules, old(rows[k]))
    {
      assert rules[i..][1..] == rules[i + 1..];
      ghost var before := rows[..];
      for k := 0 to rows.Length
        invariant forall j :: 0 <= j < k ==> rows[j] == Update(fold, rules[i], before[j])
        invariant forall j :: k <= j < rows.Length ==> rows[j] == before[j]
      {
        rows[k] := Update(fold, rules[i], rows[k]);
      }
      forall k | 0 <= k < rows.Length
        ensures Pass(fold, rules[i + 1..], rows[k]) == Pass(fold, rules, old(rows[k]))
      {
        assert Pass(fold, rules[i..], before[k]) == Pass(fold, rules, old(rows[k]));
      }
    }
  }

  /** A wildcard rule applies to the rows of its old name whose model begins with the prefix. */
  lemma WildcardApplies(fold: char -> char, r: Rewrite, row: Row)
    requires r.prefix != ""
    ensures Applies(fold, r, row) <==> row.provider == r.oldName && LikePattern.IsPrefix(fold, r.prefix, row.model)
  {
    LikePattern.LikeIsPrefix(fold, r.prefix, row.model);
  }

  // The position of the first rule that applies to the row, or the number of rules.
  function First(fold: char -> char, rules: seq<Rewrite>, row: Row): (k: nat)
    ensures k <= |rules|
  {
    if rules == [] || Applies(fold, rules[0], row) then 0 else 1 + First(fold, rules[1..], row)
  }

  function ByFirst(fold: char -> char, rules: seq<Rewrite>, row: Row): Row {
    var k := First(fold, rules, row);
    if k < |rules| then row.(provider := rules[k].newName) else row
  }

  // A rule renames, as every rule made from a provider does.
  ghost predicate Renames(rules: seq<Rewrite>) {
    forall r :: r in rules ==> r.oldName != r.newName
  }

  lemma CollectedRename(ms: seq<Model>, ps: seq<Provider>, rules: seq<Rewrite>)
    requires Collected(ms, ps, rules)
    ensures Renames(rules)
  {
    forall r | r in rules
      ensures r.oldName != r.newName
    {
      var i :| 0 <= i < |ms| && PartOf(ps, ms[i]) == Rule(r);
    }
  }

  // Rule j is the one that maps the rows of its old name with this model, and rule k would
  // carry them on.
  predicate ChainAt(fold: char -> char, rules: seq<Rewrite>, j: nat, k: nat, model: string) {
    && j < |rules| && k < |rules| && rules[k].oldName == rules[j].newName
    && First(fold, rules, Row(rules[j].oldName, model)) == j
    && Applies(fold, rules[k], Row(rules[k].oldName, model))
  }

  ghost predicate Unchained(fold: char -> char, rules: seq<Rewrite>) {
    forall j, k, model :: !ChainAt(fold, rules, j, k, model)
  }

  lemma {:induction false} NothingApplies(fold: char -> char, rules: seq<Rewrite>, row: Row)
    requires forall k :: 0 <= k < |rules| ==> !Applies(fold, rules[k], row)
    ensures Pass(fold, rules, row) == row && First(fold, rules, row) == |rules|
  {
    if rules != [] {
      assert forall k :: 0 < k < |rules| ==> rules[k] == rules[1..][k - 1];
      NothingApplies(fold, rules[1..], row);
    }
  }

  // Up to the first rule that applies nothing happens.
  lemma {:induction false} PassFromFirst(fold: char -> char, rules: seq<Rewrite>, row: Row)
    ensures var k := First(fold, rules, row);
            && (k < |rules| ==> Applies(fold, rules[k], row) && Pass(fold, rules, row) == Pass(fold, rules[k + 1..], Update(fold, rules[k], row)))
            && (k == |rules| ==> Pass(fold, rules, row) == row)
  {
    if rules != [] && !Applies(fold, rules[0], row) {
      PassFromFirst(fold, rules[1..], row);
      var k := First(fold, rules[1..], row);
      if k < |rules[1..]| {
        assert rules[1..][k + 1..] == rules[k + 2..];
      }
    }
  }

  // The row is mapped by its first matching rule, and a second pass changes nothing.
  ghost predicate MappedOnce(fold: char -> char, rules: seq<Rewrite>, row: Row) {
    Pass(fold, rules, row) == ByFirst(fold, rules, row) && Pass(fold, rules, Pass(fold, rules, row)) == Pass(fold, rules, row)
  }

  lemma FirstRuleWins(fold: char -> char, rules: seq<Rewrite>, row: Row)
    requires Unchained(fold, rules)
    ensures MappedOnce(fold, rules, row)
  {
    var k := First(fold, rules, row);
    PassFromFirst(fold, rules, row);
    if k < |rules| {
      var out := Update(fold, rules[k], row);
      forall i | 0 <= i < |rules|
        ensures !Applies(fold, rules[i], out)
      {
        assert row == Row(rules[k].oldName, row.model);
        assert !ChainAt(fold, rules, k, i, row.model);
      }
      NothingApplies(fold, rules, out);
      NothingApplies(fold, rules[k + 1..], out);
    }
  }

  // Where there is a chain, its row is carried on, in the same pass or in the next.
  lemma CarriedOn(fold: char -> char, rules: seq<Rewrite>, j: nat, k: nat, model: string)
    requires Renames(rules) && ChainAt(fold, rules, j, k, model)
    ensures !MappedOnce(fold, rules, Row(rules[j].oldName, model)) || !MappedOnce(fold, rules, Row(rules[k].oldName, model))
  {
    var out := Row(rules[k].oldName, model);
    FirstApplies(fold, rules, out, k);
    var i := First(fold, rules, out);
    assert rules[i] in rules;
    assert ByFirst(fold, rules, out) == Row(rules[i].newName, model) != out;
  }

  /** Every row is mapped by its first matching rule, with nothing left for a second pass, if
    * and only if no rule's new name is the old name of a rule that takes one of the models the
    * first one maps. */
  lemma FirstRuleWinsExactly(fold: char -> char, rules: seq<Rewrite>)
    requires Renames(rules)
    ensures (forall row :: MappedOnce(fold, rules, row)) <==> Unchained(fold, rules)
  {
    if Unchained(fold, rules) {
      forall row
        ensures MappedOnce(fold, rules, row)
      {
        FirstRuleWins(fold, rules, row);
      }
    } else {
      var j, k, model :| ChainAt(fold, rules, j, k, model);
      CarriedOn(fold, rules, j, k, model);
    }
  }

  /** For the rules of any model list and its providers. */
  lemma ModelRulesExactly(fold: char -> char, ms: seq<Model>, ps: seq<Provider>, rules: seq<Rewrite>)
    requires Collected(ms, ps, rules)
    ensures (forall row :: MappedOnce(fold, rules, row)) <==> Unchained(fold, rules)
  {
    CollectedRename(ms, ps, rules);
    FirstRuleWinsExactly(fold, rules);
  }

  /* ---------- Looking for chains in the rules alone ---------- */

  // The character is no character of the rule's pattern, whatever the collation.
  predicate UnusedIn(fold: char -> char, r: Rewrite, c: char) {
    && (forall i :: 0 <= i < |r.exact| ==> fold(r.exact[i]) != fold(c))
    && (forall i :: 0 <= i < |r.prefix| ==> fold(r.prefix[i]) != fold(c))
  }

  function Longer(a: string, b: string): string {
    if |a| >= |b| then a else b
  }

  // A model that both patterns take, if any model is.
  function Shared(a: Rewrite, b: Rewrite, c: char): string {
    if a.prefix == "" then a.exact else if b.prefix == "" then b.exact else Longer(a.prefix, b.prefix) + [c]
  }

  // Two wildcard patterns overlap exactly if one prefix begins with the other.
  predicate Overlap(fold: char -> char, a: string, b: string) {
    LikePattern.IsPrefix(fold, a, b) || LikePattern.IsPrefix(fold, b, a)
  }

  lemma OverlapExactly(fold: char -> char, a: Rewrite, b: Rewrite, c: char)
    requires a.prefix != "" && b.prefix != ""
    ensures var m := Shared(a, b, c);
            Applies(fold, a, Row(a.oldName, m)) && Applies(fold, b, Row(b.oldName, m)) <==> Overlap(fold, a.prefix, b.prefix)
  {
    var m := Shared(a, b, c);
    WildcardApplies(fold, a, Row(a.oldName, m));
    WildcardApplies(fold, b, Row(b.oldName, m));
    assert forall i :: 0 <= i < |m| - 1 ==> m[i] == Longer(a.prefix, b.prefix)[i];
  }

  // A pattern that takes the shared model takes every model that both prefixes take.
  lemma TakesNoLess(fold: char -> char, r: Rewrite, a: string, b: string, c: char, model: string)
    requires UnusedIn(fold, r, c) && LikePattern.IsPrefix(fold, a, model) && LikePattern.IsPrefix(fold, b, model)
    requires Applies(fold, r, Row(r.oldName, Longer(a, b) + [c]))
    ensures Applies(fold, r, Row(r.oldName, model))
  {
    var l := Longer(a, b);
    assert (l + [c])[|l|] == c;
    if r.prefix != "" {
      WildcardApplies(fold, r, Row(r.oldName, l + [c]));
      WildcardApplies(fold, r, Row(r.oldName, model));
      assert forall i :: 0 <= i < |l| ==> (l + [c])[i] == l[i];
      assert LikePattern.IsPrefix(fold, l, model);
    }
  }

  lemma {:induction false} FirstStays(fold: char -> char, rules: seq<Rewrite>, row: Row, other: Row, j: nat)
    requires j < |rules| && First(fold, rules, row) == j && Applies(fold, rules[j], other)
    requires forall i :: 0 <= i < j && Applies(fold, rules[i], other) ==> Applies(fold, rules[i], row)
    ensures First(fold, rules, other) == j
  {
    if j > 0 {
      assert forall i :: 0 < i < |rules| ==> rules[i] == rules[1..][i - 1];
      FirstStays(fold, rules[1..], row, other, j - 1);
    }
  }

  lemma ChainAtShared(fold: char -> char, rules: seq<Rewrite>, j: nat, k: nat, model: string, c: char)
    requires ChainAt(fold, rules, j, k, model) && forall r :: r in rules ==> UnusedIn(fold, r, c)
    ensures ChainAt(fold, rules, j, k, Shared(rules[j], rules[k], c))
  {
    var a, b := rules[j], rules[k];
    FirstAppliesAt(fold, rules, Row(a.oldName, model));
    if a.prefix != "" && b.prefix != "" {
      WildcardApplies(fold, a, Row(a.oldName, model));
      WildcardApplies(fold, b, Row(b.oldName, model));
      assert Overlap(fold, a.prefix, b.prefix);
      OverlapExactly(fold, a, b, c);
      var m := Shared(a, b, c);
      forall i | 0 <= i < j && Applies(fold, rules[i], Row(a.oldName, m))
        ensures Applies(fold, rules[i], Row(a.oldName, model))
      {
        assert rules[i] in rules;
        TakesNoLess(fold, rules[i], a.prefix, b.prefix, c, model);
      }
      FirstStays(fold, rules, Row(a.oldName, model), Row(a.oldName, m), j);
    }
  }

  /** So chains can be looked for pair by pair: it is enough to try, for each pair, the exact
    * model of one of them, or the longer prefix followed by a character the rules do not use. */
  lemma UnchainedByPairs(fold: char -> char, rules: seq<Rewrite>, c: char)
    requires forall r :: r in rules ==> UnusedIn(fold, r, c)
    ensures Unchained(fold, rules)
            <==> forall j, k :: 0 <= j < |rules| && 0 <= k < |rules| ==> !ChainAt(fold, rules, j, k, Shared(rules[j], rules[k], c))
  {
    if !Unchained(fold, rules) {
      var j, k, model :| ChainAt(fold, rules, j, k, model);
      ChainAtShared(fold, rules, j, k, model, c);
    }
  }

  ghost predicate NoNewNameIsOld(rules: seq<Rewrite>) {
    forall j, k :: 0 <= j < |rules| && 0 <= k < |rules| ==> rules[j].newName != rules[k].oldName
  }

  // It is enough that no new name is also an old name.
  lemma DistinctNamesUnchained(fold: char -> char, rules: seq<Rewrite>)
    requires NoNewNameIsOld(rules)
    ensures Unchained(fold, rules)
  {
  }

  lemma TwoRules(fold: char -> char, a: Rewrite, b: Rewrite, row: Row)
    ensures Pass(fold, [a, b], row) == Update(fold, b, Update(fold, a, row))
  {
    assert [a, b][1..] == [b];
    OneRule(fold, b, Update(fold, a, row));
  }

  lemma OneRule(fold: char -> char, b: Rewrite, row: Row)
    ensures Pass(fold, [b], row) == Update(fold, b, row)
  {
    assert [b][1..] == [];
  }

  // Two providers, the second one named as the first one used to be logged.
  const TwoProviders: seq<Provider> := [Provider("b", "a"), Provider("c", "b")]

  function TwoModels(exact: string, wildcard: string): seq<Model> {
    [Model("x/y", exact, false), Model("x/*", wildcard, false)]
  }

  // The rules of an exact and a wildcard model.
  lemma RulesOfPair(ms: seq<Model>, ps: seq<Provider>, a: Rewrite, b: Rewrite)
    requires |ms| == 2 && PartOf(ps, ms[0]) == Rule(a) && PartOf(ps, ms[1]) == Rule(b)
    requires a.prefix == "" && b.prefix != ""
    ensures AllKnown(ms, ps) && NoConflict(ms, ps) && RulesOf(ms, ps) == [a, b]
  {
    PairOfKind(ms, ps, a, b, false);
    PairOfKind(ms, ps, a, b, true);
    PairAgrees(ms, ps, a, b);
  }

  lemma PairAgrees(ms: seq<Model>, ps: seq<Provider>, a: Rewrite, b: Rewrite)
    requires |ms| == 2 && PartOf(ps, ms[0]) == Rule(a) && PartOf(ps, ms[1]) == Rule(b) && a.prefix != b.prefix
    ensures AllKnown(ms, ps) && NoConflict(ms, ps)
  {
    assert Key(a) != Key(b);
  }

  lemma PairOfKind(ms: seq<Model>, ps: seq<Provider>, a: Rewrite, b: Rewrite, wildcard: bool)
    requires |ms| == 2 && PartOf(ps, ms[0]) == Rule(a) && PartOf(ps, ms[1]) == Rule(b)
    requires a.prefix == "" && b.prefix != ""
    ensures RulesOfKind(ms, ps, wildcard) == if wildcard then [b] else [a]
  {
    assert ms == ([] + [ms[0]]) + [ms[1]];
    OneModelMore([], ps, ms[0], wildcard);
    OneModelMore([] + [ms[0]], ps, ms[1], wildcard);
  }

  lemma PartsOfTwo(provider: string)
    requires provider == "b" || provider == "c"
    ensures var oldName := if provider == "b" then "a" else "b";
            && PartOf(TwoProviders, Model("x/y", provider, false)) == Rule(Rewrite(oldName, provider, "x/y", ""))
            && PartOf(TwoProviders, Model("x/*", provider, false)) == Rule(Rewrite(oldName, provider, "", "x/"))
  {
    assert TwoProviders[1..] == [Provider("c", "b")];
    assert "x/*"[1..] == "/*" && "x/*"[..2] == "x/" && "x/y"[1..] == "/y";
    assert "/y"[1] != "/*"[1];
  }

  /** Two model lists whose rules are chained: with the one a later rule carries a row on in
    * the same pass, with the other a second pass changes it again. */
  lemma ChainsCarryOn(fold: char -> char)
    ensures var rules, row := RulesOf(TwoModels("b", "c"), TwoProviders), Row("a", "x/y");
            Pass(fold, rules, row) == Row("c", "x/y") && ByFirst(fold, rules, row) == Row("b", "x/y")
    ensures var rules, row := RulesOf(TwoModels("c", "b"), TwoProviders), Row("a", "x/y");
            Pass(fold, rules, row) == Row("b", "x/y") && Pass(fold, rules, Row("b", "x/y")) == Row("c", "x/y")
  {
    var ab, bc := Rewrite("a", "b", "x/y", ""), Rewrite("b", "c", "", "x/");
    var bc', ab' := Rewrite("b", "c", "x/y", ""), Rewrite("a", "b", "", "x/");
    PartsOfTwo("b");
    PartsOfTwo("c");
    RulesOfPair(TwoModels("b", "c"), TwoProviders, ab, bc);
    RulesOfPair(TwoModels("c", "b"), TwoProviders, bc', ab');
    WildcardApplies(fold, bc, Row("b", "x/y"));
    WildcardApplies(fold, ab', Row("a", "x/y"));
    TwoRules(fold, ab, bc, Row("a", "x/y"));
    TwoRules(fold, bc', ab', Row("a", "x/y"));
    TwoRules(fold, bc', ab', Row("b", "x/y"));
  }

  lemma ExactEarlier(ms: seq<Model>, ps: seq<Provider>, rules: seq<Rewrite>, f: nat, k: nat)
    requires Collected(ms, ps, rules) && f <= k < |rules| && rules[k].prefix == ""
    ensures rules[f].prefix == ""
  {
  }

  /** On the rules made from a model list, an exact rule for the row's model comes before
    * every wildcard rule, so it is the one that maps the row. */
  lemma ExactBeforeWildcard(fold: char -> char, ms: seq<Model>, ps: seq<Provider>, rules: seq<Rewrite>, row: Row, k: nat)
    requires Collected(ms, ps, rules) && Unchained(fold, rules)
    requires k < |rules| && rules[k].prefix == "" && Applies(fold, rules[k], row)
    ensures var f := First(fold, rules, row);
            && f <= k && rules[f].prefix == "" && rules[f].oldName == row.provider && rules[f].exact == row.model
            && Pass(fold, rules, row) == row.(provider := rules[f].newName)
  {
    FirstRuleWins(fold, rules, row);
    FirstApplies(fold, rules, row, k);
    ExactEarlier(ms, ps, rules, First(fold, rules, row), k);
  }

  lemma FirstAppliesAt(fold: char -> char, rules: seq<Rewrite>, row: Row)
    ensures First(fold, rules, row) < |rules| ==> Applies(fold, rules[First(fold, rules, row)], row)
  {
    PassFromFirst(fold, rules, row);
  }

  lemma {:induction false} FirstApplies(fold: char -> char, rules: seq<Rewrite>, row: Row, k: nat)
    requires k < |rules| && Applies(fold, rules[k], row)
    ensures First(fold, rules, row) <= k && Applies(fold, rules[First(fold, rules, row)], row)
  {
    if !Applies(fold, rules[0], row) {
      FirstApplies(fold, rules[1..], row, k - 1);
    }
  }
}
