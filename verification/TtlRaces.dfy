/** Two races of a cache with a TTL: whether the sweep of stale entries can be noticed, and
  * whether an invalidation can be undone by a fetch under way.
  */
module TtlRaces {
  import opened Options
  import opened TtlCache

  /* ---------- The sweep ---------- */

  // The cache without the sweep.
  ghost function NextKept<T>(ttl: real, s: State<T>, step: Step<T>): State<T>
    requires Can(s, step)
  {
    if step.Recheck? then Looked(ttl, s, step.i, Fetching) else Next(ttl, s, step)
  }

  ghost predicate FreshAt<T>(ttl: real, cache: map<string, Entry<T>>, key: string, now: real) {
    key in cache && now - cache[key].fetchedAt < ttl
  }

  // A look at the key with this clock reading finds the same in both caches.
  ghost predicate AgreeAt<T>(ttl: real, a: map<string, Entry<T>>, b: map<string, Entry<T>>, key: string, now: real) {
    (FreshAt(ttl, a, key, now) <==> FreshAt(ttl, b, key, now)) && (FreshAt(ttl, a, key, now) ==> a[key] == b[key])
  }

  ghost predicate Looks<T>(c: Call<T>) {
    c.phase.Started? || c.phase.Missed?
  }

  ghost predicate AgreeLater<T>(ttl: real, a: map<string, Entry<T>>, b: map<string, Entry<T>>, clock: real) {
    forall k, n :: n >= clock ==> AgreeAt(ttl, a, b, k, n)
  }

  ghost predicate AgreeNow<T>(ttl: real, a: map<string, Entry<T>>, b: map<string, Entry<T>>, calls: seq<Call<T>>) {
    forall i :: 0 <= i < |calls| && Looks(calls[i]) ==> AgreeAt(ttl, a, b, calls[i].key, calls[i].now)
  }

  // The two systems have answered alike, and will for every call under way or to come.
  ghost predicate Same<T>(ttl: real, s: State<T>, t: State<T>) {
    && s.calls == t.calls && s.clock == t.clock
    && (forall i :: 0 <= i < |s.calls| ==> s.calls[i].now <= s.clock)
    && AgreeLater(ttl, s.cache, t.cache, s.clock) && AgreeNow(ttl, s.cache, t.cache, s.calls)
  }

  // No call that still has to look at the cache began more than `stall` before this one.
  ghost predicate NoneStalled<T>(stall: real, s: State<T>, i: nat)
    requires i < |s.calls|
  {
    forall j :: 0 <= j < |s.calls| && Looks(s.calls[j]) ==> s.calls[i].now - s.calls[j].now <= stall
  }

  // It is so whenever a call is about to sweep.
  ghost predicate Prompt<T>(ttl: real, stall: real, s: State<T>, steps: seq<Step<T>>)
    requires Legal(ttl, s, steps)
    decreases |steps|
  {
    steps == [] || ((steps[0].Recheck? ==> NoneStalled(stall, s, steps[0].i)) && Prompt(ttl, stall, Next(ttl, s, steps[0]), steps[1..]))
  }

  lemma SweptAgrees<T>(ttl: real, s: State<T>, b: map<string, Entry<T>>, now: real, key: string, n: real)
    requires ttl > 0.0 && AgreeAt(ttl, s.cache, b, key, n) && n >= now - 9.0 * ttl
    ensures AgreeAt(ttl, Sweep(ttl, s, now).cache, b, key, n)
  {
  }

  lemma SweptSame<T>(ttl: real, s: State<T>, t: State<T>, now: real)
    requires ttl > 0.0 && Same(ttl, s, t) && now <= s.clock
    requires forall j :: 0 <= j < |s.calls| && Looks(s.calls[j]) ==> now - s.calls[j].now <= 9.0 * ttl
    ensures Same(ttl, Sweep(ttl, s, now), t)
  {
    var u := Sweep(ttl, s, now);
    forall k, n | n >= s.clock
      ensures AgreeAt(ttl, u.cache, t.cache, k, n)
    {
      SweptAgrees(ttl, s, t.cache, now, k, n);
    }
    forall i | 0 <= i < |s.calls| && Looks(s.calls[i])
      ensures AgreeAt(ttl, u.cache, t.cache, s.calls[i].key, s.calls[i].now)
    {
      SweptAgrees(ttl, s, t.cache, now, s.calls[i].key, s.calls[i].now);
    }
  }

  lemma CacheSame<T>(ttl: real, s: State<T>, t: State<T>, a: map<string, Entry<T>>, b: map<string, Entry<T>>, key: string)
    requires Same(ttl, s, t) && (key in a <==> key in b) && (key in a ==> a[key] == b[key])
    requires forall k :: k != key ==> (k in a <==> k in s.cache) && (k in a ==> a[k] == s.cache[k])
    requires forall k :: k != key ==> (k in b <==> k in t.cache) && (k in b ==> b[k] == t.cache[k])
    ensures AgreeLater(ttl, a, b, s.clock) && AgreeNow(ttl, a, b, s.calls)
  {
    forall k, n | n >= s.clock
      ensures AgreeAt(ttl, a, b, k, n)
    {
      assert AgreeAt(ttl, s.cache, t.cache, k, n);
    }
    forall i | 0 <= i < |s.calls| && Looks(s.calls[i])
      ensures AgreeAt(ttl, a, b, s.calls[i].key, s.calls[i].now)
    {
      assert AgreeAt(ttl, s.cache, t.cache, s.calls[i].key, s.calls[i].now);
    }
  }

  lemma PutSame<T>(ttl: real, s: State<T>, t: State<T>, i: nat)
    requires Same(ttl, s, t) && i < |s.calls| && s.calls[i].phase.Fetched?
    ensures Same(ttl, Stored(s, i), Stored(t, i))
  {
    var u, v := Stored(s, i), Stored(t, i);
    CacheSame(ttl, s, t, u.cache, v.cache, s.calls[i].key);
  }

  lemma StepSame<T>(ttl: real, s: State<T>, t: State<T>, step: Step<T>)
    requires ttl > 0.0 && Same(ttl, s, t) && Can(s, step) && (step.Recheck? ==> NoneStalled(9.0 * ttl, s, step.i))
    ensures Can(t, step) && Same(ttl, Next(ttl, s, step), NextKept(ttl, t, step))
  {
    match step
    case Recheck(i) => SweptSame(ttl, s, t, s.calls[i].now);
    case Put(i) => PutSame(ttl, s, t, i);
    case Invalidate(key) => CacheSame(ttl, s, t, s.cache - {key}, t.cache - {key}, key);
    case _ =>
  }

  ghost predicate LegalKept<T>(ttl: real, s: State<T>, steps: seq<Step<T>>)
    decreases |steps|
  {
    steps == [] || (Can(s, steps[0]) && LegalKept(ttl, NextKept(ttl, s, steps[0]), steps[1..]))
  }

  ghost function AfterKept<T>(ttl: real, s: State<T>, steps: seq<Step<T>>): State<T>
    requires LegalKept(ttl, s, steps)
    decreases |steps|
  {
    if steps == [] then s else AfterKept(ttl, NextKept(ttl, s, steps[0]), steps[1..])
  }

  lemma {:induction false} RunSame<T>(ttl: real, stall: real, s: State<T>, t: State<T>, steps: seq<Step<T>>)
    requires ttl > 0.0 && stall <= 9.0 * ttl && Same(ttl, s, t) && Legal(ttl, s, steps) && Prompt(ttl, stall, s, steps)
    ensures LegalKept(ttl, t, steps) && Same(ttl, After(ttl, s, steps), AfterKept(ttl, t, steps))
    decreases |steps|
  {
    if steps != [] {
      StepSame(ttl, s, t, steps[0]);
      RunSame(ttl, stall, Next(ttl, s, steps[0]), NextKept(ttl, t, steps[0]), steps[1..]);
    }
  }

  // Without the sweep the same steps are possible, and leave every call in the same phase
  // with the same value.
  ghost predicate Unnoticed<T>(ttl: real, steps: seq<Step<T>>)
    requires Legal(ttl, Init(), steps)
  {
    LegalKept(ttl, Init(), steps) && After(ttl, Init(), steps).calls == AfterKept(ttl, Init(), steps).calls
  }

  // The steps lead from s to t, and are prompt.
  ghost predicate Leads<T>(ttl: real, stall: real, s: State<T>, steps: seq<Step<T>>, t: State<T>) {
    Legal(ttl, s, steps) && Prompt(ttl, stall, s, steps) && After(ttl, s, steps) == t
  }

  ghost predicate LeadsKept<T>(ttl: real, s: State<T>, steps: seq<Step<T>>, t: State<T>) {
    LegalKept(ttl, s, steps) && AfterKept(ttl, s, steps) == t
  }

  lemma Then<T>(ttl: real, stall: real, s: State<T>, a: Step<T>, rest: seq<Step<T>>, t: State<T>)
    requires Can(s, a) && (a.Recheck? ==> NoneStalled(stall, s, a.i)) && Leads(ttl, stall, Next(ttl, s, a), rest, t)
    ensures Leads(ttl, stall, s, [a] + rest, t)
  {
    assert ([a] + rest)[1..] == rest;
  }

  lemma ThenKept<T>(ttl: real, s: State<T>, a: Step<T>, rest: seq<Step<T>>, t: State<T>)
    requires Can(s, a) && LeadsKept(ttl, NextKept(ttl, s, a), rest, t)
    ensures LeadsKept(ttl, s, [a] + rest, t)
  {
    assert ([a] + rest)[1..] == rest;
  }

  lemma {:induction false} Onward<T>(ttl: real, stall: real, s: State<T>, a: seq<Step<T>>, t: State<T>, b: seq<Step<T>>, u: State<T>)
    requires Leads(ttl, stall, s, a, t) && Leads(ttl, stall, t, b, u)
    ensures Leads(ttl, stall, s, a + b, u)
    decreases |a|
  {
    if a == [] {
      assert a + b == b;
    } else {
      assert a + b == [a[0]] + (a[1..] + b);
      Onward(ttl, stall, Next(ttl, s, a[0]), a[1..], t, b, u);
      Then(ttl, stall, s, a[0], a[1..] + b, u);
    }
  }

  lemma {:induction false} OnwardKept<T>(ttl: real, s: State<T>, a: seq<Step<T>>, t: State<T>, b: seq<Step<T>>, u: State<T>)
    requires LeadsKept(ttl, s, a, t) && LeadsKept(ttl, t, b, u)
    ensures LeadsKept(ttl, s, a + b, u)
    decreases |a|
  {
    if a == [] {
      assert a + b == b;
    } else {
      assert a + b == [a[0]] + (a[1..] + b);
      OnwardKept(ttl, NextKept(ttl, s, a[0]), a[1..], t, b, u);
      ThenKept(ttl, s, a[0], a[1..] + b, u);
    }
  }

  /* A run that notices. One call fills the cache at time zero. A second call reads the clock
   * a moment d before the entry goes stale, and stalls. A third call, for another key, comes
   * d after the entry may be swept, and sweeps it. Then the second call looks. */

  ghost function FillRun<T>(v: T): seq<Step<T>> {
    [Start("k")] + ([Look(0)] + ([Recheck(0)] + ([Fetch(0, Some(v))] + [Put(0)])))
  }

  ghost function StallRun<T>(ttl: real, d: real): seq<Step<T>> {
    [Advance(ttl - d)] + ([Start("k")] + ([Advance(10.0 * ttl + d)] + ([Start("other")] + ([Look(2)] + ([Recheck(2)] + [Look(1)])))))
  }

  // With the sweep the second call has to fetch, and the store has changed meanwhile.
  ghost function RefetchRun<T>(w: T): seq<Step<T>> {
    [Recheck(1)] + ([Fetch(1, Some(w))] + [Put(1)])
  }

  ghost function Entry0<T>(v: T): Entry<T> {
    Entry(v, 0.0, 0.0)
  }

  ghost function Call0<T>(v: T): Call<T> {
    Call("k", 0.0, Returned(v, 0.0))
  }

  ghost function Filled<T>(v: T, lastSweep: Option<real>): State<T> {
    State(map["k" := Entry0(v)], lastSweep, [Call0(v)], 0.0)
  }

  // After the second call's look.
  ghost function Stalled<T>(v: T, ttl: real, d: real, cache: map<string, Entry<T>>, lastSweep: Option<real>, phase: Phase<T>): State<T> {
    State(cache, lastSweep, [Call0(v), Call("k", ttl - d, phase), Call("other", 10.0 * ttl + d, Fetching)], 10.0 * ttl + d)
  }

  // Before the third call's second look.
  ghost function Sweeping<T>(v: T, ttl: real, d: real, lastSweep: Option<real>): State<T> {
    State(map["k" := Entry0(v)], lastSweep, [Call0(v), Call("k", ttl - d, Started), Call("other", 10.0 * ttl + d, Missed)], 10.0 * ttl + d)
  }

  lemma Fills<T>(v: T, ttl: real, stall: real)
    requires ttl > 0.0 && stall > 0.0
    ensures Leads(ttl, stall, Init(), FillRun(v), Filled(v, Some(0.0)))
  {
    var s1 := Next(ttl, Init(), Start("k"));
    var s2 := Next(ttl, s1, Look(0));
    var s3 := Next(ttl, s2, Recheck(0));
    var s4 := Next(ttl, s3, Fetch(0, Some(v)));
    assert s3 == State(map[], Some(0.0), [Call("k", 0.0, Fetching)], 0.0);
    assert Next(ttl, s4, Put(0)) == Filled(v, Some(0.0));
    assert [Step<T>.Put(0)] == [Step<T>.Put(0)] + [];
    Then(ttl, stall, s4, Put(0), [], Filled(v, Some(0.0)));
    Then(ttl, stall, s3, Fetch(0, Some(v)), [Put(0)], Filled(v, Some(0.0)));
    Then(ttl, stall, s2, Recheck(0), [Fetch(0, Some(v))] + [Put(0)], Filled(v, Some(0.0)));
    Then(ttl, stall, s1, Look(0), [Recheck(0)] + ([Fetch(0, Some(v))] + [Put(0)]), Filled(v, Some(0.0)));
    Then(ttl, stall, Init(), Start("k"), [Look(0)] + ([Recheck(0)] + ([Fetch(0, Some(v))] + [Put(0)])), Filled(v, Some(0.0)));
  }

  lemma FillsKept<T>(v: T, ttl: real)
    requires ttl > 0.0
    ensures LeadsKept(ttl, Init(), FillRun(v), Filled(v, None))
  {
    var s1 := NextKept(ttl, Init(), Start("k"));
    var s2 := NextKept(ttl, s1, Look(0));
    var s3 := NextKept(ttl, s2, Recheck(0));
    var s4 := NextKept(ttl, s3, Fetch(0, Some(v)));
    assert s3 == State(map[], None, [Call("k", 0.0, Fetching)], 0.0);
    assert NextKept(ttl, s4, Put(0)) == Filled(v, None);
    assert [Step<T>.Put(0)] == [Step<T>.Put(0)] + [];
    ThenKept(ttl, s4, Put(0), [], Filled(v, None));
    ThenKept(ttl, s3, Fetch(0, Some(v)), [Put(0)], Filled(v, None));
    ThenKept(ttl, s2, Recheck(0), [Fetch(0, Some(v))] + [Put(0)], Filled(v, None));
    ThenKept(ttl, s1, Look(0), [Recheck(0)] + ([Fetch(0, Some(v))] + [Put(0)]), Filled(v, None));
    ThenKept(ttl, Init(), Start("k"), [Look(0)] + ([Recheck(0)] + ([Fetch(0, Some(v))] + [Put(0)])), Filled(v, None));
  }

  // The steps up to the third call's second look are the same in both systems.
  lemma ToSweeping<T>(v: T, ttl: real, d: real, lastSweep: Option<real>) returns (s1: State<T>, s2: State<T>, s3: State<T>, s4: State<T>)
    requires 0.0 < d < ttl
    ensures var s := Filled(v, lastSweep);
            && Can(s, Advance(ttl - d)) && Next(ttl, s, Advance(ttl - d)) == s1
            && Next(ttl, s1, Start("k")) == s2
            && Can(s2, Advance(10.0 * ttl + d)) && Next(ttl, s2, Advance(10.0 * ttl + d)) == s3
            && Next(ttl, s3, Start("other")) == s4
            && Can(s4, Look(2)) && Next(ttl, s4, Look(2)) == Sweeping(v, ttl, d, lastSweep)
  {
    s1 := Next(ttl, Filled(v, lastSweep), Advance(ttl - d));
    s2 := Next(ttl, s1, Start("k"));
    s3 := Next(ttl, s2, Advance(10.0 * ttl + d));
    s4 := Next(ttl, s3, Start("other"));
    assert s4.calls == [Call0(v), Call("k", ttl - d, Started), Call("other", 10.0 * ttl + d, Started)];
  }

  lemma Sweeps<T>(v: T, ttl: real, d: real)
    requires 0.0 < d < ttl
    ensures Next(ttl, Sweeping(v, ttl, d, Some(0.0)), Recheck(2)) == Stalled(v, ttl, d, map[], Some(10.0 * ttl + d), Started)
  {
    assert Sweep(ttl, Sweeping(v, ttl, d, Some(0.0)), 10.0 * ttl + d).cache == map[];
  }

  lemma Stalls<T>(v: T, ttl: real, stall: real, d: real)
    requires 0.0 < d < ttl && 9.0 * ttl + 2.0 * d <= stall
    ensures Leads(ttl, stall, Filled(v, Some(0.0)), StallRun(ttl, d), Stalled(v, ttl, d, map[], Some(10.0 * ttl + d), Missed))
  {
    var s1, s2, s3, s4 := ToSweeping(v, ttl, d, Some(0.0));
    var s5 := Sweeping(v, ttl, d, Some(0.0));
    var s6 := Stalled(v, ttl, d, map[], Some(10.0 * ttl + d), Started);
    var t := Stalled(v, ttl, d, map[], Some(10.0 * ttl + d), Missed);
    Sweeps(v, ttl, d);
    assert Next(ttl, s6, Look(1)) == t;
    assert [Step<T>.Look(1)] == [Step<T>.Look(1)] + [];
    Then(ttl, stall, s6, Look(1), [], t);
    Then(ttl, stall, s5, Recheck(2), [Look(1)], t);
    Then(ttl, stall, s4, Look(2), [Recheck(2)] + [Look(1)], t);
    Then(ttl, stall, s3, Start("other"), [Look(2)] + ([Recheck(2)] + [Look(1)]), t);
    Then(ttl, stall, s2, Advance(10.0 * ttl + d), [Start("other")] + ([Look(2)] + ([Recheck(2)] + [Look(1)])), t);
    Then(ttl, stall, s1, Start("k"), [Advance(10.0 * ttl + d)] + ([Start("other")] + ([Look(2)] + ([Recheck(2)] + [Look(1)]))), t);
    Then(ttl, stall, Filled(v, Some(0.0)), Advance(ttl - d),
         [Start("k")] + ([Advance(10.0 * ttl + d)] + ([Start("other")] + ([Look(2)] + ([Recheck(2)] + [Look(1)])))), t);
  }

  lemma StallsKept<T>(v: T, ttl: real, d: real)
    requires 0.0 < d < ttl
    ensures LeadsKept(ttl, Filled(v, None), StallRun(ttl, d), Stalled(v, ttl, d, map["k" := Entry0(v)], None, Returned(v, 0.0)))
  {
    var s1, s2, s3, s4 := ToSweeping(v, ttl, d, None);
    var s5 := Sweeping(v, ttl, d, None);
    var s6 := Stalled(v, ttl, d, map["k" := Entry0(v)], None, Started);
    var t := Stalled(v, ttl, d, map["k" := Entry0(v)], None, Returned(v, 0.0));
    assert NextKept(ttl, s5, Recheck(2)) == s6;
    assert NextKept(ttl, s6, Look(1)) == t;
    assert [Step<T>.Look(1)] == [Step<T>.Look(1)] + [];
    ThenKept(ttl, s6, Look(1), [], t);
    ThenKept(ttl, s5, Recheck(2), [Look(1)], t);
    ThenKept(ttl, s4, Look(2), [Recheck(2)] + [Look(1)], t);
    ThenKept(ttl, s3, Start("other"), [Look(2)] + ([Recheck(2)] + [Look(1)]), t);
    ThenKept(ttl, s2, Advance(10.0 * ttl + d), [Start("other")] + ([Look(2)] + ([Recheck(2)] + [Look(1)])), t);
    ThenKept(ttl, s1, Start("k"), [Advance(10.0 * ttl + d)] + ([Start("other")] + ([Look(2)] + ([Recheck(2)] + [Look(1)]))), t);
    ThenKept(ttl, Filled(v, None), Advance(ttl - d),
             [Start("k")] + ([Advance(10.0 * ttl + d)] + ([Start("other")] + ([Look(2)] + ([Recheck(2)] + [Look(1)])))), t);
  }

  lemma Refetches<T>(v: T, w: T, ttl: real, stall: real, d: real) returns (t: State<T>)
    requires 0.0 < d < ttl && stall > 0.0
    ensures Leads(ttl, stall, Stalled(v, ttl, d, map[], Some(10.0 * ttl + d), Missed), RefetchRun(w), t)
    ensures |t.calls| > 1 && t.calls[1] == Call("k", ttl - d, Returned(w, 10.0 * ttl + d))
  {
    var s := Stalled(v, ttl, d, map[], Some(10.0 * ttl + d), Missed);
    var s1 := Next(ttl, s, Recheck(1));
    assert s1 == Stalled(v, ttl, d, map[], Some(10.0 * ttl + d), Fetching);
    var s2 := Next(ttl, s1, Fetch(1, Some(w)));
    t := Next(ttl, s2, Put(1));
    assert [Step<T>.Put(1)] == [Step<T>.Put(1)] + [];
    Then(ttl, stall, s2, Put(1), [], t);
    Then(ttl, stall, s1, Fetch(1, Some(w)), [Put(1)], t);
    Then(ttl, stall, s, Recheck(1), [Fetch(1, Some(w))] + [Put(1)], t);
  }

  // Both systems take the same steps; without the sweep call j has then returned; with it,
  // the call goes on and returns another value.
  ghost predicate AnswersDiffer<T>(ttl: real, stall: real, steps: seq<Step<T>>, more: seq<Step<T>>, j: nat) {
    && Legal(ttl, Init(), steps) && Prompt(ttl, stall, Init(), steps) && LegalKept(ttl, Init(), steps) && !Unnoticed(ttl, steps)
    && Legal(ttl, Init(), steps + more) && Prompt(ttl, stall, Init(), steps + more)
    && var s, t := After(ttl, Init(), steps + more), AfterKept(ttl, Init(), steps);
       && j < |s.calls| && j < |t.calls| && s.calls[j].phase.Returned? && t.calls[j].phase.Returned?
       && s.calls[j].phase.value != t.calls[j].phase.value
  }

  /** Where calls may stall for longer than nine TTLs, by however little, some call returns
    * another value than it would without the sweep. */
  lemma StalledCallNotices<T>(v: T, w: T, ttl: real, stall: real)
    requires 0.0 < ttl && 9.0 * ttl < stall && v != w
    ensures exists steps: seq<Step<T>>, more: seq<Step<T>>, j :: AnswersDiffer(ttl, stall, steps, more, j)
  {
    var d := if stall - 9.0 * ttl < ttl then (stall - 9.0 * ttl) / 2.0 else ttl / 2.0;
    var steps := FillRun(v) + StallRun(ttl, d);
    var s := Stalled(v, ttl, d, map[], Some(10.0 * ttl + d), Missed);
    Fills(v, ttl, stall);
    Stalls(v, ttl, stall, d);
    Onward(ttl, stall, Init(), FillRun(v), Filled(v, Some(0.0)), StallRun(ttl, d), s);
    FillsKept(v, ttl);
    StallsKept(v, ttl, d);
    OnwardKept(ttl, Init(), FillRun(v), Filled(v, None), StallRun(ttl, d), Stalled(v, ttl, d, map["k" := Entry0(v)], None, Returned(v, 0.0)));
    var t := Refetches(v, w, ttl, stall, d);
    Onward(ttl, stall, Init(), steps, s, RefetchRun(w), t);
    assert s.calls[1].phase == Missed;
    assert AnswersDiffer(ttl, stall, steps, RefetchRun(w), 1);
  }

  /** The sweep changes no answer, on every run in which no call stalls for more than a given
    * time between reading the clock and looking at the cache, if and only if that time is at
    * most nine TTLs. */
  lemma SweepInvisibleExactly<T>(v: T, w: T, ttl: real, stall: real)
    requires ttl > 0.0 && v != w
    ensures stall <= 9.0 * ttl
            <==> forall steps: seq<Step<T>> :: Legal(ttl, Init(), steps) && Prompt(ttl, stall, Init(), steps) ==> Unnoticed(ttl, steps)
  {
    if stall <= 9.0 * ttl {
      forall steps: seq<Step<T>> | Legal(ttl, Init(), steps) && Prompt(ttl, stall, Init(), steps)
        ensures Unnoticed(ttl, steps)
      {
        RunSame(ttl, stall, Init(), Init(), steps);
      }
    } else {
      StalledCallNotices(v, w, ttl, stall);
      var steps: seq<Step<T>>, more: seq<Step<T>>, j :| AnswersDiffer(ttl, stall, steps, more, j);
      assert !Unnoticed(ttl, steps);
    }
  }

  /* ---------- Invalidation ---------- */

  // A call of the key has read the store before now, not stored the value yet, and began
  // less than a TTL ago.
  ghost predicate OldFetchUnderWay<T>(ttl: real, s: State<T>, key: string) {
    exists i :: 0 <= i < |s.calls| && OldFetch(ttl, s, key, s.calls[i])
  }

  ghost predicate OldFetch<T>(ttl: real, s: State<T>, key: string, c: Call<T>) {
    c.key == key && c.phase.Fetched? && c.phase.readAt < s.clock && s.clock - c.now < ttl
  }

  // After the invalidation in s, a call that begins later returns a value read before it.
  ghost predicate StaleAnswer<T>(ttl: real, s: State<T>, key: string, steps: seq<Step<T>>, j: nat) {
    var t := Next(ttl, s, Invalidate(key));
    && Legal(ttl, t, steps)
    && |s.calls| <= j < |After(ttl, t, steps).calls|
    && var c := After(ttl, t, steps).calls[j]; c.key == key && c.phase.Returned? && c.phase.readAt < s.clock
  }

  ghost predicate LateEntry<T>(ttl: real, e: Entry<T>, at: real) {
    e.readAt >= at || at - e.fetchedAt >= ttl
  }

  // Of the first n calls, which began before the invalidation, and the others.
  ghost predicate LateCall<T>(ttl: real, c: Call<T>, earlier: bool, at: real) {
    && (c.phase.Fetched? ==> c.phase.readAt >= at || at - c.now >= ttl)
    && (!earlier ==> c.now >= at && (c.phase.Returned? ==> c.phase.readAt >= at))
  }

  ghost predicate Late<T>(ttl: real, s: State<T>, key: string, n: nat, at: real) {
    && s.clock >= at && n <= |s.calls|
    && (key in s.cache ==> LateEntry(ttl, s.cache[key], at))
    && (forall i :: 0 <= i < |s.calls| && s.calls[i].key == key ==> LateCall(ttl, s.calls[i], i < n, at))
  }

  lemma {:induction false} LateRun<T>(ttl: real, s: State<T>, key: string, n: nat, at: real, steps: seq<Step<T>>)
    requires ttl > 0.0 && Late(ttl, s, key, n, at) && Legal(ttl, s, steps)
    ensures Late(ttl, After(ttl, s, steps), key, n, at)
    decreases |steps|
  {
    if steps != [] {
      LateRun(ttl, Next(ttl, s, steps[0]), key, n, at, steps[1..]);
    }
  }

  lemma {:induction false} TwoParts<T>(ttl: real, s: State<T>, a: seq<Step<T>>, b: seq<Step<T>>)
    requires Legal(ttl, s, a) && Legal(ttl, After(ttl, s, a), b)
    ensures Legal(ttl, s, a + b) && After(ttl, s, a + b) == After(ttl, After(ttl, s, a), b)
    decreases |a|
  {
    if a == [] {
      assert a + b == b;
    } else {
      assert (a + b)[1..] == a[1..] + b;
      TwoParts(ttl, Next(ttl, s, a[0]), a[1..], b);
    }
  }

  lemma StaleAfterOldFetch<T>(ttl: real, s: State<T>, key: string, i: nat)
    requires i < |s.calls| && OldFetch(ttl, s, key, s.calls[i])
    ensures StaleAnswer(ttl, s, key, [Put(i)] + ([Start(key)] + [Look(|s.calls|)]), |s.calls|)
  {
    var n := |s.calls|;
    var t := Next(ttl, s, Invalidate(key));
    var u := Next(ttl, t, Put(i));
    var v := Next(ttl, u, Start(key));
    TwoParts(ttl, u, [Start(key)], [Look(n)]);
    TwoParts(ttl, t, [Put(i)], [Start(key)] + [Look(n)]);
  }

  /** After InvalidateKey a call that begins later can still return a value read before the
    * invalidation if and only if some call of the key, begun less than a TTL ago, has read
    * the store before it and not yet put the value into the cache. */
  lemma InvalidationUndoneExactly<T>(ttl: real, s: State<T>, key: string)
    requires ttl > 0.0 && Sound(ttl, s)
    ensures (exists steps, j :: StaleAnswer(ttl, s, key, steps, j)) <==> OldFetchUnderWay(ttl, s, key)
  {
    if OldFetchUnderWay(ttl, s, key) {
      var i :| 0 <= i < |s.calls| && OldFetch(ttl, s, key, s.calls[i]);
      StaleAfterOldFetch(ttl, s, key, i);
    } else {
      var t := Next(ttl, s, Invalidate(key));
      forall steps, j | StaleAnswer(ttl, s, key, steps, j)
        ensures false
      {
        assert Late(ttl, t, key, |s.calls|, s.clock);
        LateRun(ttl, t, key, |s.calls|, s.clock, steps);
      }
    }
  }
}
