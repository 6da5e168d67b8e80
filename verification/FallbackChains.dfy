/** The fallback-chain resolver (internal/config/config.go): validation of the model list,
  * cycle detection by depth-first search, and flattening of every model into its chain of
  * dispatch targets. The names of the search and the memo table are proved against a graph
  * of fallback edges and a plain recursive meaning.
  */
module FallbackChains {
  import opened Options
  import opened Strings

  datatype Model = Model(name: string, provider: string, upstream: string, fallbacks: seq<string>, metadata: Option<string>)

  datatype Target = Target(provider: string, upstream: string, metadata: Option<string>)

  datatype Error =
    | BothKinds(name: string)
    | NeitherKind(name: string)
    | Undefined(name: string, ref: string)
    | Cycle(path: seq<string>)
    | NotFound(name: string)

  datatype Result<T> = Ok(value: T) | Err(error: Error)

  /* ---------- Wildcards ---------- */

  predicate IsWildcard(m: Model) {
    EndsWith(m.name, "/*")
  }

  function WildcardPrefix(m: Model): string {
    if EndsWith(m.name, "/*") then m.name[..|m.name| - 2] else ""
  }

  // The part before the first slash, and after it if there is one.
  function Segments(s: string): seq<string> {
    SegmentsFrom("", s)
  }

  function SegmentsFrom(segment: string, s: string): seq<string>
    decreases |s|
  {
    if s == "" then [segment]
    else if s[0] == '/' then [segment] + SegmentsFrom("", s[1..])
    else SegmentsFrom(segment + [s[0]], s[1..])
  }

  predicate IsSafeModelSuffix(s: string) {
    && '?' !in s && '#' !in s && '\\' !in s
    && forall k :: 0 <= k < |Segments(s)| ==> Segments(s)[k] !in {"..", ".", ""}
  }

  function MatchesWildcard(prefix: string, name: string): Option<string> {
    if StartsWith(name, prefix + "/") && |name| > |prefix| + 1 && IsSafeModelSuffix(name[|prefix| + 1..])
    then Some(name[|prefix| + 1..]) else None
  }

  // The suffix if the entry is a wildcard entry that matches the name.
  function Match(m: Model, name: string): Option<string> {
    if WildcardPrefix(m) == "" then None else MatchesWildcard(WildcardPrefix(m), name)
  }

  // The first wildcard entry that matches, and the target it stands for.
  function ResolveWildcard(ms: seq<Model>, name: string): Option<Target> {
    if ms == [] then None
    else if Match(ms[0], name).Some? then Some(Target(ms[0].provider, Match(ms[0], name).value, ms[0].metadata))
    else ResolveWildcard(ms[1..], name)
  }

  // A stretch between slashes, or between a slash and an end of the text.
  predicate IsPart(s: string, i: int, j: int) {
    0 <= i <= j <= |s| && '/' !in s[i..j] && (i == 0 || s[i - 1] == '/') && (j == |s| || s[j] == '/')
  }

  // The text is a stretch that begins at i or later.
  ghost predicate PartFrom(s: string, i: nat, x: string) {
    exists a, b :: i <= a && IsPart(s, a, b) && s[a..b] == x
  }

  // The stretch that begins at i ends at the next slash or with the text.
  lemma NextPart(s: string, i: nat, k: nat)
    requires i <= k <= |s| && '/' !in s[i..k] && (i == 0 || s[i - 1] == '/') && (k == |s| || s[k] == '/')
    ensures IsPart(s, i, k) && forall a, b :: i <= a && IsPart(s, a, b) ==> (a == i && b == k) || k + 1 <= a
  {
  }

  lemma PartsAfter(s: string, i: nat, k: nat, x: string)
    requires IsPart(s, i, k) && forall a, b :: i <= a && IsPart(s, a, b) ==> (a == i && b == k) || k + 1 <= a
    ensures PartFrom(s, i, x) <==> s[i..k] == x || PartFrom(s, k + 1, x)
  {
  }

  lemma {:induction false} SegmentsAreParts(s: string, i: nat, k: nat, x: string)
    requires i <= k <= |s| && '/' !in s[i..k] && (i == 0 || s[i - 1] == '/')
    ensures x in SegmentsFrom(s[i..k], s[k..]) <==> PartFrom(s, i, x)
    decreases |s| - k
  {
    if k == |s| {
      NextPart(s, i, k);
      PartsAfter(s, i, k, x);
    } else if s[k] == '/' {
      SegmentsAreParts(s, k + 1, k + 1, x);
      assert s[k..][1..] == s[k + 1..] && s[k + 1..k + 1] == "";
      NextPart(s, i, k);
      PartsAfter(s, i, k, x);
    } else {
      SegmentsAreParts(s, i, k + 1, x);
      assert s[k..][1..] == s[k + 1..] && s[i..k + 1] == s[i..k] + [s[k]];
    }
  }

  // What may be sent upstream as a model: no character that ends a path, and no stretch
  // between slashes that is empty or names a directory.
  ghost predicate Harmless(s: string) {
    && (forall k :: 0 <= k < |s| ==> s[k] != '?' && s[k] != '#' && s[k] != '\\')
    && (forall i, j :: IsPart(s, i, j) ==> s[i..j] != "" && s[i..j] != "." && s[i..j] != "..")
  }

  /** Which suffixes are refused. */
  lemma SafeExactly(s: string)
    ensures IsSafeModelSuffix(s) <==> Harmless(s)
  {
    forall x: string
      ensures x in Segments(s) <==> PartFrom(s, 0, x)
    {
      SegmentsAreParts(s, 0, 0, x);
      assert s[0..0] == "" && s[0..] == s;
    }
    if IsSafeModelSuffix(s) {
      forall i, j | IsPart(s, i, j)
        ensures s[i..j] != "" && s[i..j] != "." && s[i..j] != ".."
      {
        assert PartFrom(s, 0, s[i..j]);
      }
    }
    if Harmless(s) {
      forall k | 0 <= k < |Segments(s)|
        ensures Segments(s)[k] !in {"..", ".", ""}
      {
        assert PartFrom(s, 0, Segments(s)[k]);
      }
    }
  }

  // The name is that of the wildcard entry with this text for its asterisk.
  ghost predicate Fills(m: Model, name: string, suffix: string) {
    exists prefix: string :: prefix != "" && m.name == prefix + "/*" && name == prefix + ("/" + suffix) && Harmless(suffix)
  }

  lemma HarmlessNotEmpty(s: string)
    requires Harmless(s)
    ensures s != ""
  {
    assert s == "" ==> IsPart(s, 0, 0);
  }

  lemma MatchesExactly(m: Model, name: string, suffix: string)
    ensures Match(m, name) == Some(suffix) <==> Fills(m, name, suffix)
  {
    SafeExactly(suffix);
    if Match(m, name) == Some(suffix) {
      var prefix := WildcardPrefix(m);
      assert m.name == prefix + "/*";
      assert name == name[..|prefix| + 1] + suffix;
      assert name == prefix + ("/" + suffix);
    }
    if Fills(m, name, suffix) {
      HarmlessNotEmpty(suffix);
      var prefix: string :| prefix != "" && m.name == prefix + "/*" && name == prefix + ("/" + suffix) && Harmless(suffix);
      assert m.name[|m.name| - 2..] == "/*" && WildcardPrefix(m) == prefix;
      assert name[..|prefix| + 1] == prefix + "/" && name[|prefix| + 1..] == suffix;
    }
  }

  // The first entry that the name fits, with what the asterisk stands for.
  ghost predicate FirstFilled(ms: seq<Model>, name: string, i: int, suffix: string) {
    && 0 <= i < |ms| && Fills(ms[i], name, suffix)
    && forall j, s :: 0 <= j < i ==> !Fills(ms[j], name, s)
  }

  /** A name resolves to the provider of the first wildcard entry it fits, with what stands
    * for the asterisk as the model to ask for. */
  lemma {:induction false} WildcardExactly(ms: seq<Model>, name: string, t: Target)
    ensures ResolveWildcard(ms, name) == Some(t)
            <==> exists i, suffix :: FirstFilled(ms, name, i, suffix) && t == Target(ms[i].provider, suffix, ms[i].metadata)
    decreases |ms|
  {
    if ms != [] {
      forall s: string
        ensures Match(ms[0], name) == Some(s) <==> Fills(ms[0], name, s)
      {
        MatchesExactly(ms[0], name, s);
      }
      if Match(ms[0], name).Some? {
        var s := Match(ms[0], name).value;
        assert Fills(ms[0], name, s);
        assert FirstFilled(ms, name, 0, s);
      } else {
        WildcardExactly(ms[1..], name, t);
        assert forall s :: !Fills(ms[0], name, s);
        if i, s :| FirstFilled(ms[1..], name, i, s) && t == Target(ms[1..][i].provider, s, ms[1..][i].metadata) {
          FilledLater(ms, name, i, s);
          assert ms[1..][i] == ms[i + 1];
        }
        if i, s :| FirstFilled(ms, name, i, s) && t == Target(ms[i].provider, s, ms[i].metadata) {
          FilledLater(ms, name, i - 1, s);
          assert ms[1..][i - 1] == ms[i];
        }
      }
    }
  }

  lemma FilledLater(ms: seq<Model>, name: string, i: nat, suffix: string)
    requires ms != [] && forall s :: !Fills(ms[0], name, s)
    ensures FirstFilled(ms, name, i + 1, suffix) <==> FirstFilled(ms[1..], name, i, suffix)
  {
    if FirstFilled(ms, name, i + 1, suffix) {
      assert forall j :: 0 <= j < i ==> ms[1..][j] == ms[j + 1];
    }
    if FirstFilled(ms[1..], name, i, suffix) {
      forall j, s | 0 <= j < i + 1
        ensures !Fills(ms[j], name, s)
      {
        assert j > 0 ==> ms[1..][j - 1] == ms[j];
      }
    }
  }

  lemma {:induction false} NoneFilled(ms: seq<Model>, name: string)
    ensures ResolveWildcard(ms, name) == None <==> forall j, s :: 0 <= j < |ms| ==> !Fills(ms[j], name, s)
    decreases |ms|
  {
    if ms != [] {
      forall s: string
        ensures Match(ms[0], name) == Some(s) <==> Fills(ms[0], name, s)
      {
        MatchesExactly(ms[0], name, s);
      }
      NoneFilled(ms[1..], name);
      assert forall j :: 0 < j < |ms| ==> ms[1..][j - 1] == ms[j];
      assert forall j :: 0 <= j < |ms| - 1 ==> ms[1..][j] == ms[j + 1];
      assert Match(ms[0], name).Some? ==> Fills(ms[0], name, Match(ms[0], name).value);
    }
  }

  /* ---------- The graph of fallbacks ---------- */

  // Names of the non-wildcard entries, each with its last entry.
  ghost predicate LastByName(ms: seq<Model>, ix: map<string, nat>) {
    && (forall n :: n in ix ==> ix[n] < |ms| && ms[ix[n]].name == n && !IsWildcard(ms[ix[n]]))
    && (forall i :: 0 <= i < |ms| && !IsWildcard(ms[i]) ==> ms[i].name in ix && i <= ix[ms[i].name])
  }

  function Refs(ms: seq<Model>, ix: map<string, nat>, name: string): seq<string> {
    if name in ix && ix[name] < |ms| then ms[ix[name]].fallbacks else []
  }

  ghost predicate IsPath(ms: seq<Model>, ix: map<string, nat>, path: seq<string>) {
    forall i :: 0 <= i < |path| - 1 ==> path[i + 1] in Refs(ms, ix, path[i])
  }

  ghost predicate IsCycle(ms: seq<Model>, ix: map<string, nat>, path: seq<string>) {
    |path| >= 2 && path[0] == path[|path| - 1] && IsPath(ms, ix, path)
  }

  // Every name stands after the listed names it falls back to.
  ghost predicate Ranked(ms: seq<Model>, ix: map<string, nat>, order: seq<string>) {
    && (forall k :: 0 <= k < |order| ==> order[k] in ix)
    && (forall j, k :: 0 <= j < k < |order| ==> order[j] != order[k])
    && (forall k, r :: 0 <= k < |order| && r in Refs(ms, ix, order[k]) && r in ix ==> r in order[..k])
  }

  ghost predicate RankedAll(ms: seq<Model>, ix: map<string, nat>, order: seq<string>) {
    Ranked(ms, ix, order) && forall n :: n in ix ==> n in order
  }

  // One more than the position of a name, and 0 if it is not there.
  ghost function Rank(order: seq<string>, name: string): (r: nat)
    ensures r == 0 <==> name !in order
    ensures r > 0 ==> r <= |order| && order[r - 1] == name
  {
    if name !in order then 0
    else
      var k :| 0 <= k < |order| && order[k] == name;
      k + 1
  }

  lemma RankFalls(ms: seq<Model>, ix: map<string, nat>, order: seq<string>, name: string, r: string)
    requires Ranked(ms, ix, order) && name in order && r in Refs(ms, ix, name)
    requires r in ix || r !in order
    ensures Rank(order, r) < Rank(order, name)
  {
    if r in ix {
      var k := Rank(order, name) - 1;
      assert r in order[..k];
      var j :| 0 <= j < k && order[j] == r;
      assert Rank(order, r) == j + 1;
    }
  }

  lemma {:induction false} RankFallsAlong(ms: seq<Model>, ix: map<string, nat>, order: seq<string>, path: seq<string>)
    requires RankedAll(ms, ix, order) && IsPath(ms, ix, path) && |path| >= 2
    ensures Rank(order, path[|path| - 1]) < Rank(order, path[0])
    decreases |path|
  {
    assert path[0 + 1] in Refs(ms, ix, path[0]);
    RankFalls(ms, ix, order, path[0], path[1]);
    if |path| > 2 {
      RankFallsAlong(ms, ix, order, path[1..]);
    }
  }

  /** Where a rank exists there is no cycle. */
  lemma RankedHasNoCycle(ms: seq<Model>, ix: map<string, nat>, order: seq<string>)
    requires RankedAll(ms, ix, order)
    ensures forall path :: !IsCycle(ms, ix, path)
  {
    forall path | IsCycle(ms, ix, path)
      ensures false
    {
      RankFallsAlong(ms, ix, order, path);
    }
  }

  /* ---------- The meaning of a name ---------- */

  function Direct(m: Model): Target {
    Target(m.provider, m.upstream, m.metadata)
  }

  // What a name that is not listed stands for: a wildcard target, without its metadata.
  function Derived(ms: seq<Model>, name: string): seq<Target> {
    var w := ResolveWildcard(ms, name);
    if w.None? then [] else [w.value.(metadata := None)]
  }

  // The chain of a name: its own target, or the chains of its fallbacks in order.
  ghost function Meaning(ms: seq<Model>, ix: map<string, nat>, order: seq<string>, name: string): seq<Target>
    requires RankedAll(ms, ix, order)
    decreases Rank(order, name), |Refs(ms, ix, name)| + 1
  {
    if name !in ix || ix[name] >= |ms| then Derived(ms, name)
    else if ms[ix[name]].fallbacks == [] then [Direct(ms[ix[name]])]
    else Expand(ms, ix, order, name, ms[ix[name]].fallbacks)
  }

  ghost function Expand(ms: seq<Model>, ix: map<string, nat>, order: seq<string>, name: string, refs: seq<string>): seq<Target>
    requires RankedAll(ms, ix, order) && name in ix && forall r :: r in refs ==> r in Refs(ms, ix, name)
    decreases Rank(order, name), |refs|
  {
    if refs == [] then []
    else
      var last := refs[|refs| - 1];
      RankFalls(ms, ix, order, name, last);
      Expand(ms, ix, order, name, refs[..|refs| - 1]) + Meaning(ms, ix, order, last)
  }

  /* ---------- The meaning is a property of the model list alone ---------- */

  /** Which ranking the recursion follows makes no difference. */
  lemma {:induction false} MeaningIndependent(ms: seq<Model>, ix: map<string, nat>, o: seq<string>, p: seq<string>, name: string)
    requires RankedAll(ms, ix, o) && RankedAll(ms, ix, p)
    ensures Meaning(ms, ix, o, name) == Meaning(ms, ix, p, name)
    decreases Rank(o, name), |Refs(ms, ix, name)| + 1
  {
    if name in ix && ix[name] < |ms| && ms[ix[name]].fallbacks != [] {
      ExpandIndependent(ms, ix, o, p, name, ms[ix[name]].fallbacks);
    }
  }

  lemma {:induction false} ExpandIndependent(ms: seq<Model>, ix: map<string, nat>, o: seq<string>, p: seq<string>, name: string, refs: seq<string>)
    requires RankedAll(ms, ix, o) && RankedAll(ms, ix, p) && name in ix && forall r :: r in refs ==> r in Refs(ms, ix, name)
    ensures Expand(ms, ix, o, name, refs) == Expand(ms, ix, p, name, refs)
    decreases Rank(o, name), |refs|
  {
    if refs != [] {
      var last := refs[|refs| - 1];
      RankFalls(ms, ix, o, name, last);
      ExpandIndependent(ms, ix, o, p, name, refs[..|refs| - 1]);
      MeaningIndependent(ms, ix, o, p, last);
    }
  }

  // Every fallback is listed or matches a wildcard entry.
  ghost predicate RefsDefined(ms: seq<Model>, ix: map<string, nat>) {
    forall i, r :: 0 <= i < |ms| && r in ms[i].fallbacks ==> r in ix || ResolveWildcard(ms, r).Some?
  }

  /** No chain is empty. */
  lemma {:induction false} ChainsNotEmpty(ms: seq<Model>, ix: map<string, nat>, order: seq<string>, name: string)
    requires RankedAll(ms, ix, order) && LastByName(ms, ix) && RefsDefined(ms, ix)
    requires name in ix || ResolveWildcard(ms, name).Some?
    ensures Meaning(ms, ix, order, name) != []
    decreases Rank(order, name)
  {
    if name in ix && ms[ix[name]].fallbacks != [] {
      var refs := ms[ix[name]].fallbacks;
      var last := refs[|refs| - 1];
      RankFalls(ms, ix, order, name, last);
      ChainsNotEmpty(ms, ix, order, last);
      ExpandLast(ms, ix, order, name, refs);
    }
  }

  lemma ExpandLast(ms: seq<Model>, ix: map<string, nat>, order: seq<string>, name: string, refs: seq<string>)
    requires RankedAll(ms, ix, order) && name in ix && refs != [] && forall r :: r in refs ==> r in Refs(ms, ix, name)
    ensures |Expand(ms, ix, order, name, refs)| >= |Meaning(ms, ix, order, refs[|refs| - 1])|
  {
  }

  // The target is that of this name itself.
  ghost predicate Leaf(ms: seq<Model>, ix: map<string, nat>, name: string, t: Target) {
    if name in ix && ix[name] < |ms| then ms[ix[name]].fallbacks == [] && t == Direct(ms[ix[name]])
    else t in Derived(ms, name)
  }

  ghost predicate LeadsTo(ms: seq<Model>, ix: map<string, nat>, path: seq<string>, name: string, t: Target) {
    |path| > 0 && path[0] == name && IsPath(ms, ix, path) && Leaf(ms, ix, path[|path| - 1], t)
  }

  lemma {:induction false} InExpand(ms: seq<Model>, ix: map<string, nat>, order: seq<string>, name: string, refs: seq<string>, t: Target) returns (r: string)
    requires RankedAll(ms, ix, order) && name in ix && forall r :: r in refs ==> r in Refs(ms, ix, name)
    requires t in Expand(ms, ix, order, name, refs)
    ensures r in refs && t in Meaning(ms, ix, order, r)
    decreases |refs|
  {
    var last := refs[|refs| - 1];
    if t in Meaning(ms, ix, order, last) {
      r := last;
    } else {
      r := InExpand(ms, ix, order, name, refs[..|refs| - 1], t);
    }
  }

  lemma {:induction false} ExpandHolds(ms: seq<Model>, ix: map<string, nat>, order: seq<string>, name: string, refs: seq<string>, r: string, t: Target)
    requires RankedAll(ms, ix, order) && name in ix && forall r :: r in refs ==> r in Refs(ms, ix, name)
    requires r in refs && t in Meaning(ms, ix, order, r)
    ensures t in Expand(ms, ix, order, name, refs)
    decreases |refs|
  {
    if r != refs[|refs| - 1] {
      ExpandHolds(ms, ix, order, name, refs[..|refs| - 1], r, t);
    }
  }

  lemma {:induction false} PathToTarget(ms: seq<Model>, ix: map<string, nat>, order: seq<string>, name: string, t: Target) returns (path: seq<string>)
    requires RankedAll(ms, ix, order) && t in Meaning(ms, ix, order, name)
    ensures LeadsTo(ms, ix, path, name, t)
    decreases Rank(order, name)
  {
    if Leaf(ms, ix, name, t) {
      path := [name];
    } else {
      var refs := Refs(ms, ix, name);
      var r := InExpand(ms, ix, order, name, refs, t);
      RankFalls(ms, ix, order, name, r);
      var rest := PathToTarget(ms, ix, order, r, t);
      path := [name] + rest;
      forall i | 0 <= i < |path| - 1
        ensures path[i + 1] in Refs(ms, ix, path[i])
      {
        if i > 0 {
          assert rest[i - 1 + 1] in Refs(ms, ix, rest[i - 1]);
        }
      }
    }
  }

  lemma {:induction false} TargetOfPath(ms: seq<Model>, ix: map<string, nat>, order: seq<string>, path: seq<string>, name: string, t: Target)
    requires RankedAll(ms, ix, order) && LeadsTo(ms, ix, path, name, t)
    ensures t in Meaning(ms, ix, order, name)
    decreases |path|
  {
    if |path| > 1 {
      assert path[0 + 1] in Refs(ms, ix, path[0]);
      forall i | 0 <= i < |path| - 2
        ensures path[1..][i + 1] in Refs(ms, ix, path[1..][i])
      {
        assert path[i + 1 + 1] in Refs(ms, ix, path[i + 1]);
      }
      TargetOfPath(ms, ix, order, path[1..], path[1], t);
      ExpandHolds(ms, ix, order, name, Refs(ms, ix, name), path[1], t);
    }
  }

  /** The chain of a name holds exactly the targets that some path of fallbacks leads to. */
  lemma TargetsAreReached(ms: seq<Model>, ix: map<string, nat>, order: seq<string>, name: string, t: Target)
    requires RankedAll(ms, ix, order)
    ensures t in Meaning(ms, ix, order, name) <==> exists path :: LeadsTo(ms, ix, path, name, t)
  {
    if t in Meaning(ms, ix, order, name) {
      var path := PathToTarget(ms, ix, order, name, t);
    }
    if path :| LeadsTo(ms, ix, path, name, t) {
      TargetOfPath(ms, ix, order, path, name, t);
    }
  }
}
