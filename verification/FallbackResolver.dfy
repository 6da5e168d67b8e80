/** buildResolvedChains and FindModel (internal/config/config.go): the passes over the
  * model list, with the maps they keep.
  */
module FallbackResolver {
  import opened Options
  import opened FallbackChains

  datatype Mark = Visiting | Visited

  /* ---------- The depth-first search, as a state ---------- */

  // The names marked Visiting are exactly the current path of fallbacks, and the finished
  // names, in the order they were finished, are ranked.
  ghost predicate Searching(ms: seq<Model>, ix: map<string, nat>, state: map<string, Mark>, order: seq<string>, path: seq<string>) {
    && state.Keys <= ix.Keys
    && Marked(state, order, path)
    && IsPath(ms, ix, path)
    && Ranked(ms, ix, order)
  }

  ghost predicate Marked(state: map<string, Mark>, order: seq<string>, path: seq<string>) {
    && (forall n :: n in order ==> n in state && state[n].Visited?)
    && (forall n :: n in path ==> n in state && state[n].Visiting?)
    && (forall n :: n in state ==> if state[n].Visited? then n in order else n in path)
    && (forall j, k :: 0 <= j < k < |path| ==> path[j] != path[k])
  }

  ghost predicate Grown(before: seq<string>, after: seq<string>) {
    forall n :: n in before ==> n in after
  }

  // The listed names among the first k are finished.
  ghost predicate AllFinished(ix: map<string, nat>, order: seq<string>, names: seq<string>, k: nat) {
    k <= |names| && forall j :: 0 <= j < k && names[j] in ix ==> names[j] in order
  }

  lemma FinishedStep(ix: map<string, nat>, before: seq<string>, order: seq<string>, names: seq<string>, k: nat)
    requires AllFinished(ix, before, names, k) && Grown(before, order) && k < |names| && (names[k] in ix ==> names[k] in order)
    ensures AllFinished(ix, order, names, k + 1)
  {
  }

  // The search may go on to this name from the end of the path.
  ghost predicate Follows(ms: seq<Model>, ix: map<string, nat>, path: seq<string>, name: string) {
    path == [] || name in Refs(ms, ix, path[|path| - 1])
  }

  lemma CycleFound(ms: seq<Model>, ix: map<string, nat>, path: seq<string>, i: nat, name: string)
    requires IsPath(ms, ix, path) && Follows(ms, ix, path, name) && i < |path| && path[i] == name
    ensures IsCycle(ms, ix, path[i..] + [name])
  {
    var p := path + [name];
    var c := path[i..] + [name];
    forall j | 0 <= j < |c| - 1
      ensures c[j + 1] in Refs(ms, ix, c[j])
    {
      assert p[i + j + 1] in Refs(ms, ix, p[i + j]);
    }
  }

  lemma Entered(ms: seq<Model>, ix: map<string, nat>, state: map<string, Mark>, order: seq<string>, path: seq<string>, name: string)
    requires Searching(ms, ix, state, order, path) && name in ix && name !in state && Follows(ms, ix, path, name)
    ensures Searching(ms, ix, state[name := Visiting], order, path + [name])
  {
  }

  // All fallbacks of the name are finished, and so is the name.
  lemma RankedOneMore(ms: seq<Model>, ix: map<string, nat>, order: seq<string>, name: string)
    requires Ranked(ms, ix, order) && name in ix && name !in order
    requires forall r :: r in Refs(ms, ix, name) && r in ix ==> r in order
    ensures Ranked(ms, ix, order + [name])
  {
    var o := order + [name];
    forall k, r | 0 <= k < |o| && r in Refs(ms, ix, o[k]) && r in ix
      ensures r in o[..k]
    {
      assert o[..k] == order[..k];
      if k == |order| {
        assert order[..k] == order;
      } else {
        assert r in order[..k];
      }
    }
  }

  lemma Finished(ms: seq<Model>, ix: map<string, nat>, state: map<string, Mark>, order: seq<string>, path: seq<string>, name: string)
    requires Searching(ms, ix, state, order, path + [name]) && name in ix
    requires forall r :: r in Refs(ms, ix, name) && r in ix ==> r in order
    ensures Searching(ms, ix, state[name := Visited], order + [name], path)
  {
    MarkedFinished(state, order, path, name);
    RankedOneMore(ms, ix, order, name);
    PathShortened(ms, ix, path, name);
  }

  lemma MarkedFinished(state: map<string, Mark>, order: seq<string>, path: seq<string>, name: string)
    requires Marked(state, order, path + [name])
    ensures Marked(state[name := Visited], order + [name], path) && name in state && name !in order
  {
    var p := path + [name];
    assert p[|path|] == name && name in p;
    assert forall k :: 0 <= k < |path| ==> path[k] == p[k] && path[k] in p;
    forall n | n in state && n != name && state[n].Visiting?
      ensures n in path
    {
      assert n in p;
    }
  }

  lemma PathShortened(ms: seq<Model>, ix: map<string, nat>, path: seq<string>, name: string)
    requires IsPath(ms, ix, path + [name])
    ensures IsPath(ms, ix, path)
  {
    forall i | 0 <= i < |path| - 1
      ensures path[i + 1] in Refs(ms, ix, path[i])
    {
      assert (path + [name])[i + 1] in Refs(ms, ix, (path + [name])[i]);
    }
  }

  lemma FinishedAtOnce(ms: seq<Model>, ix: map<string, nat>, state: map<string, Mark>, order: seq<string>, path: seq<string>, name: string)
    requires Searching(ms, ix, state, order, path) && name in ix && name !in state && Refs(ms, ix, name) == []
    ensures Searching(ms, ix, state[name := Visited], order + [name], path)
  {
    RankedOneMore(ms, ix, order, name);
  }

  ghost function Names(ms: seq<Model>): (r: seq<string>)
    ensures |r| == |ms|
  {
    seq(|ms|, i requires 0 <= i < |ms| => ms[i].name)
  }

  lemma WildcardUnlisted(ms: seq<Model>, ix: map<string, nat>, i: nat)
    requires LastByName(ms, ix) && i < |ms| && IsWildcard(ms[i])
    ensures ms[i].name !in ix
  {
  }

  lemma EveryNameFinished(ms: seq<Model>, ix: map<string, nat>, order: seq<string>)
    requires LastByName(ms, ix) && Ranked(ms, ix, order) && AllFinished(ix, order, Names(ms), |ms|)
    ensures RankedAll(ms, ix, order)
  {
    forall n | n in ix
      ensures n in order
    {
      assert Names(ms)[ix[n]] == n;
    }
  }

  /* ---------- The memo table ---------- */

  // Every chain in the table is the meaning of its name, which is listed or derived.
  ghost predicate Memoized(ms: seq<Model>, ix: map<string, nat>, order: seq<string>, chains: map<string, seq<Target>>) {
    && RankedAll(ms, ix, order)
    && (forall n :: n in chains ==> chains[n] == Meaning(ms, ix, order, n))
    && (forall n :: n in chains ==> n in ix || ResolveWildcard(ms, n).Some?)
    && Closed(ms, ix, chains)
  }

  // With a name the table holds its fallbacks.
  ghost predicate Closed(ms: seq<Model>, ix: map<string, nat>, chains: map<string, seq<Target>>) {
    forall n :: n in chains ==> Holds(chains, Refs(ms, ix, n))
  }

  ghost predicate Holds(chains: map<string, seq<Target>>, refs: seq<string>) {
    forall k :: 0 <= k < |refs| ==> refs[k] in chains
  }

  lemma HoldsMore(chains: map<string, seq<Target>>, more: map<string, seq<Target>>, refs: seq<string>, i: nat)
    requires i < |refs| && Holds(chains, refs[..i]) && chains.Keys <= more.Keys && refs[i] in more
    ensures Holds(more, refs[..i + 1])
  {
    assert refs[..i + 1] == refs[..i] + [refs[i]];
  }

  lemma ClosedStep(ms: seq<Model>, ix: map<string, nat>, chains: map<string, seq<Target>>, name: string, chain: seq<Target>)
    requires Closed(ms, ix, chains) && Holds(chains, Refs(ms, ix, name))
    ensures Closed(ms, ix, chains[name := chain])
  {
    forall n | n in chains[name := chain]
      ensures Holds(chains[name := chain], Refs(ms, ix, n))
    {
      assert Holds(chains, Refs(ms, ix, n));
    }
  }

  lemma MemoizedStep(ms: seq<Model>, ix: map<string, nat>, order: seq<string>, chains: map<string, seq<Target>>, name: string, chain: seq<Target>)
    requires Memoized(ms, ix, order, chains) && Holds(chains, Refs(ms, ix, name))
    requires chain == Meaning(ms, ix, order, name) && (name in ix || ResolveWildcard(ms, name).Some?)
    ensures Memoized(ms, ix, order, chains[name := chain])
  {
    ClosedStep(ms, ix, chains, name, chain);
  }

  // Where the chain of the i-th fallback begins if the chains stand one after the other.
  function Offset(chains: map<string, seq<Target>>, refs: seq<string>, i: nat): nat
    requires i <= |refs| && Holds(chains, refs)
  {
    if i == 0 then 0 else Offset(chains, refs, i - 1) + |chains[refs[i - 1]]|
  }

  // The chain consists of the chains of the fallbacks, in their order.
  ghost predicate InOrder(chains: map<string, seq<Target>>, refs: seq<string>, chain: seq<Target>)
    requires Holds(chains, refs)
  {
    && |chain| == Offset(chains, refs, |refs|)
    && forall i, k :: 0 <= i < |refs| && 0 <= k < |chains[refs[i]]| ==> Stands(chain, Offset(chains, refs, i) + k, chains[refs[i]][k])
  }

  ghost predicate Stands(chain: seq<Target>, k: int, t: Target) {
    0 <= k < |chain| && chain[k] == t
  }

  /* What the table says of an entry: its own target if it is direct, and otherwise the
   * chains of its fallbacks, which are in the table as well. */
  ghost predicate Laid(m: Model, chains: map<string, seq<Target>>) {
    && m.name in chains
    && (m.fallbacks == [] ==> chains[m.name] == [Target(m.provider, m.upstream, m.metadata)])
    && (m.fallbacks != [] ==> Holds(chains, m.fallbacks) && InOrder(chains, m.fallbacks, chains[m.name]))
  }

  lemma {:induction false} ExpandInOrder(ms: seq<Model>, ix: map<string, nat>, order: seq<string>, chains: map<string, seq<Target>>, name: string, refs: seq<string>)
    requires Memoized(ms, ix, order, chains) && name in ix && forall r :: r in refs ==> r in Refs(ms, ix, name)
    requires Holds(chains, refs)
    ensures InOrder(chains, refs, Expand(ms, ix, order, name, refs))
    decreases |refs|
  {
    if refs != [] {
      var n := |refs| - 1;
      var front := refs[..n];
      ExpandInOrder(ms, ix, order, chains, name, front);
      OffsetsOfFront(chains, refs, n);
      assert chains[refs[n]] == Meaning(ms, ix, order, refs[n]);
      OneMoreInOrder(chains, refs, Expand(ms, ix, order, name, front));
    }
  }

  lemma {:induction false} OffsetsOfFront(chains: map<string, seq<Target>>, refs: seq<string>, n: nat)
    requires n <= |refs| && Holds(chains, refs)
    ensures forall i: nat :: i <= n ==> Offset(chains, refs[..n], i) == Offset(chains, refs, i)
  {
    var i: nat := 0;
    while i < n
      invariant i <= n && forall j: nat :: j <= i ==> Offset(chains, refs[..n], j) == Offset(chains, refs, j)
    {
      i := i + 1;
    }
  }

  lemma OneMoreInOrder(chains: map<string, seq<Target>>, refs: seq<string>, before: seq<Target>)
    requires refs != [] && Holds(chains, refs)
    requires InOrder(chains, refs[..|refs| - 1], before)
    requires forall i: nat :: i <= |refs| - 1 ==> Offset(chains, refs[..|refs| - 1], i) == Offset(chains, refs, i)
    ensures InOrder(chains, refs, before + chains[refs[|refs| - 1]])
  {
    var n := |refs| - 1;
    forall i, k | 0 <= i < |refs| && 0 <= k < |chains[refs[i]]|
      ensures Stands(before + chains[refs[n]], Offset(chains, refs, i) + k, chains[refs[i]][k])
    {
      if i < n {
        assert Stands(before, Offset(chains, refs[..n], i) + k, chains[refs[..n][i]][k]);
      }
    }
  }

  /** The table read off itself: every listed name holds the target of its last entry, or
    * the chains that the table holds for the fallbacks of that entry, one after the other
    * in the order in which the entry lists them. */
  lemma TableLaid(ms: seq<Model>, ix: map<string, nat>, order: seq<string>, chains: map<string, seq<Target>>, name: string)
    requires LastByName(ms, ix) && Memoized(ms, ix, order, chains) && name in ix && name in chains
    ensures Laid(ms[ix[name]], chains)
  {
    var m := ms[ix[name]];
    if m.fallbacks != [] {
      assert m.fallbacks == Refs(ms, ix, name);
      ExpandInOrder(ms, ix, order, chains, name, m.fallbacks);
    }
  }

  // The names of the first k entries have their chains.
  ghost predicate Covered(ms: seq<Model>, names: set<string>, k: nat) {
    k <= |ms| && forall j :: 0 <= j < k && !IsWildcard(ms[j]) ==> ms[j].name in names
  }

  lemma CoveredStep(ms: seq<Model>, before: set<string>, names: set<string>, k: nat)
    requires Covered(ms, before, k) && before <= names && k < |ms| && (!IsWildcard(ms[k]) ==> ms[k].name in names)
    ensures Covered(ms, names, k + 1)
  {
  }

  predicate IsDirect(m: Model) {
    m.provider != "" || m.upstream != ""
  }

  // The first entry that is of both kinds or of neither.
  ghost predicate FirstInvalid(ms: seq<Model>, i: nat, name: string, both: bool) {
    && i < |ms| && KindsValid(ms[..i])
    && ms[i].name == name && !IsWildcard(ms[i]) && IsDirect(ms[i]) == both && (ms[i].fallbacks != []) == both
  }

  predicate Defined(ms: seq<Model>, ix: map<string, nat>, ref: string) {
    ref in ix || ResolveWildcard(ms, ref).Some?
  }

  // The first fallback, in the order of the list, that is not defined.
  ghost predicate FirstUndefined(ms: seq<Model>, ix: map<string, nat>, i: nat, k: nat, name: string, ref: string) {
    && i < |ms| && k < |ms[i].fallbacks| && ms[i].name == name && ms[i].fallbacks[k] == ref && !Defined(ms, ix, ref)
    && (forall j, r :: 0 <= j < i && r in ms[j].fallbacks ==> Defined(ms, ix, r))
    && (forall r :: r in ms[i].fallbacks[..k] ==> Defined(ms, ix, r))
  }

  ghost predicate KindsValid(ms: seq<Model>) {
    forall i :: 0 <= i < |ms| && !IsWildcard(ms[i]) ==>
      ((ms[i].provider != "" || ms[i].upstream != "") <==> ms[i].fallbacks == [])
  }

  // What the resolver accepts: each model is direct or virtual, every fallback is defined,
  // and the fallbacks have no cycle.
  ghost predicate Acceptable(ms: seq<Model>, ix: map<string, nat>) {
    KindsValid(ms) && RefsDefined(ms, ix) && forall path :: !IsCycle(ms, ix, path)
  }

  class Resolver {
    const models: seq<Model>
    var byName: map<string, nat>
    var state: map<string, Mark>
    ghost var order: seq<string>
    var chains: map<string, seq<Target>>

    constructor (models: seq<Model>)
      ensures this.models == models && LastByName(models, byName)
      ensures state == map[] && order == [] && chains == map[]
    {
      this.models := models;
      byName, state, order, chains := map[], map[], [], map[];
      new;
      for i := 0 to |models|
        invariant LastByName(models[..i], byName)
        invariant state == map[] && order == [] && chains == map[]
      {
        assert models[..i + 1] == models[..i] + [models[i]];
        if !IsWildcard(models[i]) {
          byName := byName[models[i].name := i];
        }
      }
      assert models[..|models|] == models;
    }

    // Pass 1.
    method CheckKinds() returns (err: Option<Error>)
      ensures err.None? <==> KindsValid(models)
      ensures err.Some? ==> err.value.BothKinds? || err.value.NeitherKind?
      ensures err.Some? && err.value.BothKinds? ==> exists i :: FirstInvalid(models, i, err.value.name, true)
      ensures err.Some? && err.value.NeitherKind? ==> exists i :: FirstInvalid(models, i, err.value.name, false)
    {
      for i := 0 to |models|
        invariant KindsValid(models[..i])
      {
        var m := models[i];
        if !IsWildcard(m) {
          var isDirect := m.provider != "" || m.upstream != "";
          var isVirtual := |m.fallbacks| > 0;
          if isDirect && isVirtual {
            assert FirstInvalid(models, i, m.name, true);
            return Some(BothKinds(m.name));
          }
          if !isDirect && !isVirtual {
            assert FirstInvalid(models, i, m.name, false);
            return Some(NeitherKind(m.name));
          }
        }
        assert models[..i + 1] == models[..i] + [m];
      }
      assert models[..|models|] == models;
      return None;
    }

    // Pass 2.
    method CheckRefs() returns (err: Option<Error>)
      ensures err.None? <==> RefsDefined(models, byName)
      ensures err.Some? ==> err.value.Undefined? && exists i, k :: FirstUndefined(models, byName, i, k, err.value.name, err.value.ref)
    {
      for i := 0 to |models|
        invariant forall j, r :: 0 <= j < i && r in models[j].fallbacks ==> r in byName || ResolveWildcard(models, r).Some?
      {
        var refs := models[i].fallbacks;
        for k := 0 to |refs|
          invariant forall r :: r in refs[..k] ==> r in byName || ResolveWildcard(models, r).Some?
        {
          if refs[k] !in byName && ResolveWildcard(models, refs[k]).None? {
            assert refs[k] in models[i].fallbacks;
            assert FirstUndefined(models, byName, i, k, models[i].name, refs[k]);
            return Some(Undefined(models[i].name, refs[k]));
          }
          assert refs[..k + 1] == refs[..k] + [refs[k]];
        }
        assert refs[..|refs|] == refs;
      }
      return None;
    }

    // The cycle that ends in a name being visited. Such a name is on the path, so looking
    // for it there cannot fail.
    method CycleAt(name: string, path: seq<string>) returns (cycle: seq<string>)
      requires IsPath(models, byName, path) && Follows(models, byName, path, name) && name in path
      ensures IsCycle(models, byName, cycle)
    {
      for i := 0 to |path|
        invariant forall j :: 0 <= j < i ==> path[j] != name
      {
        if path[i] == name {
          CycleFound(models, byName, path, i, name);
          return path[i..] + [name];
        }
      }
      assert false;
    }

    /** Pass 3: depth-first search from a name at the end of the current path. If it reports
      * an error, that is a real cycle of fallbacks; otherwise the name is finished and the
      * path is as before. */
    method DetectCycle(name: string, path: seq<string>) returns (err: Option<Error>)
      requires LastByName(models, byName) && Searching(models, byName, state, order, path) && Follows(models, byName, path, name)
      modifies this`state, this`order
      ensures err.None? ==> Searching(models, byName, state, order, path) && (name in byName ==> name in order)
      ensures err.None? ==> old(state).Keys <= state.Keys && Grown(old(order), order)
      ensures err.Some? ==> err.value.Cycle? && IsCycle(models, byName, err.value.path)
      decreases byName.Keys - state.Keys, 0
    {
      if name in state {
        if state[name].Visited? {
          return None;
        }
        var cycle := CycleAt(name, path);
        return Some(Cycle(cycle));
      }
      if name !in byName {
        return None;
      }
      var m := models[byName[name]];
      if |m.fallbacks| == 0 {
        FinishedAtOnce(models, byName, state, order, path, name);
        state, order := state[name := Visited], order + [name];
        return None;
      }
      Entered(models, byName, state, order, path, name);
      state := state[name := Visiting];
      err := VisitRefs(name, path, m.fallbacks);
      if err.Some? {
        return;
      }
      Finished(models, byName, state, order, path, name);
      state, order := state[name := Visited], order + [name];
      return None;
    }

    // The loop over the fallbacks of the name at the end of the path.
    method VisitRefs(name: string, path: seq<string>, refs: seq<string>) returns (err: Option<Error>)
      requires LastByName(models, byName) && Searching(models, byName, state, order, path + [name])
      requires refs == Refs(models, byName, name)
      modifies this`state, this`order
      ensures err.None? ==> Searching(models, byName, state, order, path + [name]) && forall r :: r in refs && r in byName ==> r in order
      ensures err.None? ==> old(state).Keys <= state.Keys && Grown(old(order), order)
      ensures err.Some? ==> err.value.Cycle? && IsCycle(models, byName, err.value.path)
      decreases byName.Keys - state.Keys, 1
    {
      for i := 0 to |refs|
        invariant Searching(models, byName, state, order, path + [name])
        invariant old(state).Keys <= state.Keys && Grown(old(order), order)
        invariant AllFinished(byName, order, refs, i)
      {
        assert Follows(models, byName, path + [name], refs[i]);
        ghost var before := order;
        err := DetectCycle(refs[i], path + [name]);
        if err.Some? {
          return;
        }
        FinishedStep(byName, before, order, refs, i);
      }
      return None;
    }

    // Searches from every name.
    method CheckCycles() returns (err: Option<Error>)
      requires LastByName(models, byName) && state == map[] && order == []
      modifies this`state, this`order
      ensures err.None? ==> RankedAll(models, byName, order)
      ensures err.Some? ==> err.value.Cycle? && IsCycle(models, byName, err.value.path)
    {
      ghost var names := Names(models);
      for i := 0 to |models|
        invariant Searching(models, byName, state, order, [])
        invariant AllFinished(byName, order, names, i)
      {
        ghost var before := order;
        if !IsWildcard(models[i]) {
          err := DetectCycle(models[i].name, []);
          if err.Some? {
            return;
          }
        } else {
          WildcardUnlisted(models, byName, i);
        }
        FinishedStep(byName, before, order, names, i);
      }
      EveryNameFinished(models, byName, order);
      return None;
    }

    /** Pass 4: the chain of a name, by way of the memo table. It never fails. */
    method Flatten(name: string) returns (r: Result<seq<Target>>)
      requires LastByName(models, byName) && RefsDefined(models, byName) && Memoized(models, byName, order, chains)
      requires name in byName || ResolveWildcard(models, name).Some?
      modifies this`chains
      ensures Memoized(models, byName, order, chains) && old(chains).Keys <= chains.Keys
      ensures r == Ok(Meaning(models, byName, order, name)) && name in chains
      decreases Rank(order, name)
    {
      if name in chains {
        return Ok(chains[name]);
      }
      var chain: seq<Target> := [];
      if name !in byName {
        var w := ResolveWildcard(models, name);
        if w.None? {
          return Err(NotFound(name));
        }
        chain := [Target(w.value.provider, w.value.upstream, None)];
      } else {
        var m := models[byName[name]];
        if |m.fallbacks| == 0 {
          chain := [Target(m.provider, m.upstream, m.metadata)];
        } else {
          for i := 0 to |m.fallbacks|
            invariant Memoized(models, byName, order, chains) && old(chains).Keys <= chains.Keys
            invariant chain == Expand(models, byName, order, name, m.fallbacks[..i])
            invariant Holds(chains, m.fallbacks[..i])
          {
            assert m.fallbacks[..i + 1][..i] == m.fallbacks[..i];
            RankFalls(models, byName, order, name, m.fallbacks[i]);
            ghost var before := chains;
            var sub := Flatten(m.fallbacks[i]);
            if sub.Err? {
              return sub;
            }
            HoldsMore(before, chains, m.fallbacks, i);
            chain := chain + sub.value;
          }
          assert m.fallbacks[..|m.fallbacks|] == m.fallbacks;
        }
      }
      MemoizedStep(models, byName, order, chains, name, chain);
      chains := chains[name := chain];
      return Ok(chain);
    }

    method FlattenAll() returns (err: Option<Error>)
      requires LastByName(models, byName) && RefsDefined(models, byName) && RankedAll(models, byName, order) && chains == map[]
      modifies this`chains
      ensures err.None? && Memoized(models, byName, order, chains) && byName.Keys <= chains.Keys
    {
      for i := 0 to |models|
        invariant Memoized(models, byName, order, chains)
        invariant Covered(models, chains.Keys, i)
      {
        ghost var before := chains.Keys;
        if !IsWildcard(models[i]) {
          var r := Flatten(models[i].name);
          match r {
            case Ok(_) =>
            case Err(e) => return Some(e);
          }
        }
        CoveredStep(models, before, chains.Keys, i);
      }
      return None;
    }

    /** All passes. The model list is rejected if and only if it is not acceptable, and then
      * with the error of the pass that failed; otherwise the table holds the chain of every
      * listed name. */
    method BuildResolvedChains() returns (err: Option<Error>)
      requires LastByName(models, byName) && state == map[] && order == [] && chains == map[]
      modifies this`state, this`order, this`chains
      ensures err.None? <==> Acceptable(models, byName)
      ensures err.None? ==> Memoized(models, byName, order, chains) && byName.Keys <= chains.Keys
      ensures err.None? ==> forall name :: name in byName ==> Laid(models[byName[name]], chains)
      ensures err.Some? ==> chains == map[]
      ensures err.Some? ==> match err.value
                            case BothKinds(name) => !KindsValid(models) && exists i :: FirstInvalid(models, i, name, true)
                            case NeitherKind(name) => !KindsValid(models) && exists i :: FirstInvalid(models, i, name, false)
                            case Undefined(name, ref) =>
                              KindsValid(models) && !RefsDefined(models, byName) && exists i, k :: FirstUndefined(models, byName, i, k, name, ref)
                            case Cycle(path) => KindsValid(models) && RefsDefined(models, byName) && IsCycle(models, byName, path)
                            case NotFound(_) => false
    {
      err := CheckKinds();
      if err.Some? {
        return;
      }
      err := CheckRefs();
      if err.Some? {
        return;
      }
      err := CheckCycles();
      if err.Some? {
        return;
      }
      RankedHasNoCycle(models, byName, order);
      err := FlattenAll();
      forall name | name in byName
        ensures Laid(models[byName[name]], chains)
      {
        TableLaid(models, byName, order, chains, name);
      }
    }
  }

  /* ---------- Looking a model up ---------- */

  function FindExact(ms: seq<Model>, name: string): Option<Model> {
    if ms == [] then None else if ms[0].name == name then Some(ms[0]) else FindExact(ms[1..], name)
  }

  function FindWildcard(ms: seq<Model>, name: string): Result<seq<Target>> {
    var w := ResolveWildcard(ms, name);
    if w.Some? then Ok([w.value]) else Err(NotFound(name))
  }

  // The table is missing when the configuration was not loaded from a file.
  function FindModel(ms: seq<Model>, chains: Option<map<string, seq<Target>>>, name: string): Result<seq<Target>> {
    if chains.Some? then
      if name in chains.value then Ok(chains.value[name]) else FindWildcard(ms, name)
    else
      var m := FindExact(ms, name);
      if m.Some? then Ok([Direct(m.value)]) else FindWildcard(ms, name)
  }

  predicate SameDestination(t: Target, u: Target) {
    t.provider == u.provider && t.upstream == u.upstream
  }

  /** With the table in place, a listed name is found with its meaning; any other name goes
    * to the first wildcard entry it matches, whether the table remembers it as someone's
    * fallback or not, though a remembered one has lost the entry's metadata; and a name
    * that is neither is not found. */
  lemma FoundAfterBuild(ms: seq<Model>, ix: map<string, nat>, order: seq<string>, chains: map<string, seq<Target>>, name: string)
    requires LastByName(ms, ix) && Memoized(ms, ix, order, chains) && ix.Keys <= chains.Keys
    ensures var r := FindModel(ms, Some(chains), name); var w := ResolveWildcard(ms, name);
            && (name in ix ==> r == Ok(Meaning(ms, ix, order, name)))
            && (name !in ix && w.Some? ==> r.Ok? && |r.value| == 1 && SameDestination(r.value[0], w.value)
                                           && r.value[0].metadata == if name in chains then None else w.value.metadata)
            && (name !in ix && w.None? ==> r == Err(NotFound(name)))
  {
    if name in chains && name !in ix {
      assert chains[name] == Derived(ms, name);
    }
  }

  // The first entry of this name.
  ghost predicate FirstNamed(ms: seq<Model>, name: string, i: int) {
    0 <= i < |ms| && ms[i].name == name && forall j :: 0 <= j < i ==> ms[j].name != name
  }

  lemma {:induction false} ExactIsFirst(ms: seq<Model>, name: string, i: int)
    requires FirstNamed(ms, name, i)
    ensures FindExact(ms, name) == Some(ms[i])
    decreases i
  {
    if i > 0 {
      assert forall j :: 0 <= j < i - 1 ==> ms[1..][j] == ms[j + 1];
      ExactIsFirst(ms[1..], name, i - 1);
    }
  }

  lemma {:induction false} ExactIsMissing(ms: seq<Model>, name: string)
    requires Unnamed(ms, name)
    ensures FindExact(ms, name) == None
    decreases |ms|
  {
    if ms != [] {
      assert forall j :: 0 <= j < |ms| - 1 ==> ms[1..][j] == ms[j + 1];
      ExactIsMissing(ms[1..], name);
    }
  }

  ghost predicate Unnamed(ms: seq<Model>, name: string) {
    forall j :: 0 <= j < |ms| ==> ms[j].name != name
  }

  ghost predicate Unfilled(ms: seq<Model>, name: string) {
    forall j, s :: 0 <= j < |ms| ==> !Fills(ms[j], name, s)
  }

  /** Without a table an entry of the name is found as it stands, the first one if there are
    * more; another name goes to the first wildcard entry it fits, with that entry's metadata,
    * and is not found if it fits none. */
  lemma FoundWithoutTable(ms: seq<Model>, name: string, i: int, suffix: string)
    ensures FirstNamed(ms, name, i) ==> FindModel(ms, None, name) == Ok([Target(ms[i].provider, ms[i].upstream, ms[i].metadata)])
    ensures Unnamed(ms, name) && FirstFilled(ms, name, i, suffix) ==>
              FindModel(ms, None, name) == Ok([Target(ms[i].provider, suffix, ms[i].metadata)])
    ensures FindModel(ms, None, name).Err? <==> Unnamed(ms, name) && Unfilled(ms, name)
  {
    if FirstNamed(ms, name, i) {
      ExactIsFirst(ms, name, i);
    }
    if FirstFilled(ms, name, i, suffix) {
      WildcardExactly(ms, name, Target(ms[i].provider, suffix, ms[i].metadata));
    }
    NoneFilled(ms, name);
    if Unnamed(ms, name) {
      ExactIsMissing(ms, name);
    } else {
      ExactIsThere(ms, name);
    }
  }

  lemma {:induction false} ExactIsThere(ms: seq<Model>, name: string)
    requires !Unnamed(ms, name)
    ensures FindExact(ms, name).Some?
    decreases |ms|
  {
    if ms[0].name != name {
      var j :| 0 <= j < |ms| && ms[j].name == name;
      assert ms[1..][j - 1] == ms[j];
      ExactIsThere(ms[1..], name);
    }
  }

  /** What a client of a successfully built table gets is never an empty chain. */
  lemma FoundNotEmpty(ms: seq<Model>, ix: map<string, nat>, order: seq<string>, chains: map<string, seq<Target>>, name: string)
    requires LastByName(ms, ix) && RefsDefined(ms, ix) && Memoized(ms, ix, order, chains) && ix.Keys <= chains.Keys
    ensures var r := FindModel(ms, Some(chains), name);
            if name in ix || ResolveWildcard(ms, name).Some? then r.Ok? && r.value != [] else r == Err(NotFound(name))
  {
    FoundAfterBuild(ms, ix, order, chains, name);
    if name in ix {
      ChainsNotEmpty(ms, ix, order, name);
    }
  }
}
