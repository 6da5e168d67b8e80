/** The sweep of stale entries in the per-key limiter, with calls interleaved: exactly when it
  * replaces a limiter too early, and exactly when it can be noticed at all.
  */
module KeyRateSweep {
  import opened Options
  import opened KeyRateSteps
  import opened KeyRefetches
  import opened KeyRateRuns
  import opened KeyRateExactly
  import L = RateLimiter
  import C = TtlCache
  import R = TtlRaces

  /* A run in which a call stalls. Call 0 fetches limiter 0 at time zero and holds it. Call 1
   * reads the clock a moment d before the entry goes stale, and stalls. Call 2, for another
   * key, comes d after the entry may be swept, and sweeps it if there is a sweep. */

  function Entries(): map<string, C.Entry<Handle>> {
    map["k" := C.Entry(Some(0), 0.0, 0.0)]
  }

  function Swept(sweeping: bool, at: real): Option<real> {
    if sweeping then Some(at) else None
  }

  function Solo(config: L.Config, sweeping: bool, phase: C.Phase<Handle>, n: nat): State {
    State(C.State(map[], Swept(sweeping, 0.0), [C.Call("k", 0.0, phase)], 0.0), if n == 0 then [] else [FreshMade(config)], map[], map[], map[])
  }

  function Filled(config: L.Config, sweeping: bool): State {
    Late(config, sweeping, 0.0, [])
  }

  // Later calls have come, and none of them has swept.
  function Late(config: L.Config, sweeping: bool, clock: real, more: seq<C.Call<Handle>>): State {
    State(C.State(Entries(), Swept(sweeping, 0.0), [Holding(0)] + more, clock), [FreshMade(config)], map[], map[], map["k" := Latest(0, 0.0)])
  }

  function FillRun(): seq<Step> {
    [] + [Cache(C.Start("k"))] + [Cache(C.Look(0))] + [Cache(C.Recheck(0))] + [Cache(C.Fetch(0, Some(Some(0))))] + [Cache(C.Put(0))]
  }

  lemma FillMisses(ttl: real, config: L.Config, sweeping: bool, b: Tameness)
    requires ttl > 0.0 && b.stall >= 0.0
    ensures Leads(One(ttl, config, sweeping), "k", b, Init(), [] + [Cache(C.Start("k"))] + [Cache(C.Look(0))] + [Cache(C.Recheck(0))],
                  Solo(config, sweeping, C.Fetching, 0), 0, 0)
  {
    var c := One(ttl, config, sweeping);
    var s1 := State(C.State(map[], None, [C.Call("k", 0.0, C.Started)], 0.0), [], map[], map[], map[]);
    var s2 := State(C.State(map[], None, [C.Call("k", 0.0, C.Missed)], 0.0), [], map[], map[], map[]);
    Nothing(c, "k", b, Init());
    ThenLook(c, "k", b, Init(), [], Init(), 0, 0, C.Start("k"), s1);
    ThenLook(c, "k", b, Init(), [] + [Cache(C.Start("k"))], s1, 0, 0, C.Look(0), s2);
    assert Fetchers(s2, "k") == {};
    ThenLook(c, "k", b, Init(), [] + [Cache(C.Start("k"))] + [Cache(C.Look(0))], s2, 0, 0, C.Recheck(0), Solo(config, sweeping, C.Fetching, 0));
  }

  lemma FillPuts(ttl: real, config: L.Config, sweeping: bool, b: Tameness)
    requires ttl > 0.0
    ensures var c, s := One(ttl, config, sweeping), Solo(config, sweeping, C.Fetched(Some(0), 0.0), 1);
            StepAllowed(c, "k", b, s, Cache(C.Put(0))) && Next(c, s, Cache(C.Put(0))) == Filled(config, sweeping) && !Replaces(s, "k", Cache(C.Put(0)))
  {
    var s := Solo(config, sweeping, C.Fetched(Some(0), 0.0), 1);
    assert Holders(s, "k") == {};
    assert s.cache.calls[0 := Holding(0)] == Filled(config, sweeping).cache.calls;
  }

  lemma Fills(ttl: real, config: L.Config, sweeping: bool, b: Tameness)
    requires ttl > 0.0 && b.stall >= 0.0
    ensures Leads(One(ttl, config, sweeping), "k", b, Init(), FillRun(), Filled(config, sweeping), 0, 0)
  {
    var c := One(ttl, config, sweeping);
    var x := [] + [Cache(C.Start("k"))] + [Cache(C.Look(0))] + [Cache(C.Recheck(0))];
    var s, t := Solo(config, sweeping, C.Fetching, 0), Solo(config, sweeping, C.Fetched(Some(0), 0.0), 1);
    FillMisses(ttl, config, sweeping, b);
    ThenLook(c, "k", b, Init(), x, s, 0, 0, C.Fetch(0, Some(Some(0))), t);
    FillPuts(ttl, config, sweeping, b);
    Then(c, "k", b, Init(), x + [Cache(C.Fetch(0, Some(Some(0))))], t, 0, 0, Cache(C.Put(0)), Filled(config, sweeping));
  }

  function Stalled(ttl: real, d: real, phase: C.Phase<Handle>): C.Call<Handle> {
    C.Call("k", ttl - d, phase)
  }

  function Other(ttl: real, d: real, phase: C.Phase<Handle>): C.Call<Handle> {
    C.Call("other", 10.0 * ttl + d, phase)
  }

  function End(ttl: real, d: real): real {
    10.0 * ttl + d
  }

  function WaitRun(ttl: real, d: real): seq<Step> {
    FillRun() + [Cache(C.Advance(ttl - d))] + [Cache(C.Start("k"))] + [Cache(C.Advance(End(ttl, d)))]
  }

  lemma Reads(ttl: real, d: real, config: L.Config, sweeping: bool, b: Tameness)
    requires 0.0 < d < ttl && b.stall >= 0.0
    ensures Leads(One(ttl, config, sweeping), "k", b, Init(), FillRun() + [Cache(C.Advance(ttl - d))] + [Cache(C.Start("k"))],
                  Late(config, sweeping, ttl - d, [Stalled(ttl, d, C.Started)]), 0, 0)
  {
    var c, x := One(ttl, config, sweeping), FillRun() + [Cache(C.Advance(ttl - d))];
    var s1, s2 := Late(config, sweeping, ttl - d, []), Late(config, sweeping, ttl - d, [Stalled(ttl, d, C.Started)]);
    TimePasses(ttl, d, config, sweeping, b);
    assert s1.cache.calls + [Stalled(ttl, d, C.Started)] == s2.cache.calls;
    ThenLook(c, "k", b, Init(), x, s1, 0, 0, C.Start("k"), s2);
  }

  lemma TimePasses(ttl: real, d: real, config: L.Config, sweeping: bool, b: Tameness)
    requires 0.0 < d < ttl && b.stall >= 0.0
    ensures Leads(One(ttl, config, sweeping), "k", b, Init(), FillRun() + [Cache(C.Advance(ttl - d))], Late(config, sweeping, ttl - d, []), 0, 0)
  {
    Fills(ttl, config, sweeping, b);
    ThenLook(One(ttl, config, sweeping), "k", b, Init(), FillRun(), Filled(config, sweeping), 0, 0, C.Advance(ttl - d),
             Late(config, sweeping, ttl - d, []));
  }

  lemma Waits(ttl: real, d: real, config: L.Config, sweeping: bool, b: Tameness)
    requires 0.0 < d < ttl && b.stall >= 0.0
    ensures Leads(One(ttl, config, sweeping), "k", b, Init(), WaitRun(ttl, d), Late(config, sweeping, End(ttl, d), [Stalled(ttl, d, C.Started)]), 0, 0)
  {
    var c, x := One(ttl, config, sweeping), FillRun();
    var s2 := Late(config, sweeping, ttl - d, [Stalled(ttl, d, C.Started)]);
    Reads(ttl, d, config, sweeping, b);
    ThenLook(c, "k", b, Init(), x + [Cache(C.Advance(ttl - d))] + [Cache(C.Start("k"))], s2, 0, 0, C.Advance(End(ttl, d)),
             Late(config, sweeping, End(ttl, d), [Stalled(ttl, d, C.Started)]));
  }

  function ArriveRun(ttl: real, d: real): seq<Step> {
    WaitRun(ttl, d) + [Cache(C.Start("other"))] + [Cache(C.Look(2))]
  }

  lemma Arrives(ttl: real, d: real, config: L.Config, sweeping: bool, b: Tameness)
    requires 0.0 < d < ttl && b.stall >= 0.0
    ensures Leads(One(ttl, config, sweeping), "k", b, Init(), ArriveRun(ttl, d),
                  Late(config, sweeping, End(ttl, d), [Stalled(ttl, d, C.Started), Other(ttl, d, C.Missed)]), 0, 0)
  {
    var c, x := One(ttl, config, sweeping), WaitRun(ttl, d);
    var s := Late(config, sweeping, End(ttl, d), [Stalled(ttl, d, C.Started)]);
    var t := Late(config, sweeping, End(ttl, d), [Stalled(ttl, d, C.Started), Other(ttl, d, C.Started)]);
    var u := Late(config, sweeping, End(ttl, d), [Stalled(ttl, d, C.Started), Other(ttl, d, C.Missed)]);
    Waits(ttl, d, config, sweeping, b);
    assert s.cache.calls + [Other(ttl, d, C.Started)] == t.cache.calls;
    ThenLook(c, "k", b, Init(), x, s, 0, 0, C.Start("other"), t);
    assert t.cache.calls[2 := Other(ttl, d, C.Missed)] == u.cache.calls;
    ThenLook(c, "k", b, Init(), x + [Cache(C.Start("other"))], t, 0, 0, C.Look(2), u);
  }

  // Call 2 has looked again, with or without a sweep.
  function Split(ttl: real, d: real, config: L.Config, sweeping: bool, phase: C.Phase<Handle>): State {
    State(C.State(if sweeping then map[] else Entries(), Swept(sweeping, End(ttl, d)),
                  [Holding(0), Stalled(ttl, d, phase), Other(ttl, d, C.Fetching)], End(ttl, d)),
          [FreshMade(config)], map[], map[], map["k" := Latest(0, 0.0)])
  }

  function LookRun(ttl: real, d: real): seq<Step> {
    ArriveRun(ttl, d) + [Cache(C.Recheck(2))] + [Cache(C.Look(1))]
  }

  // Call 1's look, in its phase with the sweep or without it.
  function Found(sweeping: bool): C.Phase<Handle> {
    if sweeping then C.Missed else C.Returned(Some(0), 0.0)
  }

  lemma LooksAgain(ttl: real, d: real, config: L.Config, sweeping: bool, b: Tameness)
    requires 0.0 < d < ttl && 9.0 * ttl + 2.0 * d <= b.stall
    ensures var c, s := One(ttl, config, sweeping), Late(config, sweeping, End(ttl, d), [Stalled(ttl, d, C.Started), Other(ttl, d, C.Missed)]);
            && StepTame(c, s, "k", b.overlap, b.stall, Cache(C.Recheck(2))) && Can(c, s, Cache(C.Recheck(2)))
            && Next(c, s, Cache(C.Recheck(2))) == Split(ttl, d, config, sweeping, C.Started)
  {
    var s := Late(config, sweeping, End(ttl, d), [Stalled(ttl, d, C.Started), Other(ttl, d, C.Missed)]);
    var t := C.Sweep(ttl, s.cache, End(ttl, d));
    assert s.cache.calls == [Holding(0), Stalled(ttl, d, C.Started), Other(ttl, d, C.Missed)];
    assert sweeping ==> t.cache == map[];
    assert s.cache.calls[2 := Other(ttl, d, C.Fetching)] == Split(ttl, d, config, sweeping, C.Started).cache.calls;
  }

  lemma Looks(ttl: real, d: real, config: L.Config, sweeping: bool, b: Tameness)
    requires 0.0 < d < ttl && 9.0 * ttl + 2.0 * d <= b.stall
    ensures Leads(One(ttl, config, sweeping), "k", b, Init(), LookRun(ttl, d), Split(ttl, d, config, sweeping, Found(sweeping)), 0, 0)
  {
    var c, x := One(ttl, config, sweeping), ArriveRun(ttl, d);
    var s := Late(config, sweeping, End(ttl, d), [Stalled(ttl, d, C.Started), Other(ttl, d, C.Missed)]);
    var t, u := Split(ttl, d, config, sweeping, C.Started), Split(ttl, d, config, sweeping, Found(sweeping));
    Arrives(ttl, d, config, sweeping, b);
    LooksAgain(ttl, d, config, sweeping, b);
    ThenLook(c, "k", b, Init(), x, s, 0, 0, C.Recheck(2), t);
    assert t.cache.calls[1 := Stalled(ttl, d, Found(sweeping))] == u.cache.calls;
    ThenLook(c, "k", b, Init(), x + [Cache(C.Recheck(2))], t, 0, 0, C.Look(1), u);
  }

  /* ---------- A limiter replaced too early ---------- */

  // Call 1, which found nothing, fetches again.
  function Again(ttl: real, d: real, config: L.Config, phase: C.Phase<Handle>, n: nat): State {
    State(C.State(map[], Some(End(ttl, d)), [Holding(0), Stalled(ttl, d, phase), Other(ttl, d, C.Fetching)], End(ttl, d)),
          if n == 0 then [FreshMade(config)] else [FreshMade(config), FreshMade(config)], map[], map[], map["k" := Latest(0, 0.0)])
  }

  function LookupOf1(): seq<Step> {
    [Cache(C.Recheck(1)), Cache(C.Fetch(1, Some(Some(1))))]
  }

  lemma FetchesAgain(ttl: real, d: real, config: L.Config, b: Tameness)
    requires 0.0 < d < ttl && 9.0 * ttl + 2.0 * d <= b.stall
    ensures Leads(One(ttl, config, true), "k", b, Init(), LookRun(ttl, d) + LookupOf1(), Again(ttl, d, config, C.Fetched(Some(1), End(ttl, d)), 1), 0, 0)
  {
    var c, x := One(ttl, config, true), LookRun(ttl, d);
    var s, t := Split(ttl, d, config, true, C.Missed), Again(ttl, d, config, C.Fetching, 0);
    Looks(ttl, d, config, true, b);
    assert Fetchers(s, "k") == {};
    assert s.cache.calls[1 := Stalled(ttl, d, C.Fetching)] == t.cache.calls;
    ThenLook(c, "k", b, Init(), x, s, 0, 0, C.Recheck(1), t);
    var u := Again(ttl, d, config, C.Fetched(Some(1), End(ttl, d)), 1);
    assert t.cache.calls[1 := Stalled(ttl, d, C.Fetched(Some(1), End(ttl, d)))] == u.cache.calls;
    ThenLook(c, "k", b, Init(), x + [Cache(C.Recheck(1))], t, 0, 0, C.Fetch(1, Some(Some(1))), u);
    assert x + [Cache(C.Recheck(1))] + [Cache(C.Fetch(1, Some(Some(1))))] == x + LookupOf1();
  }

  // And puts its limiter, and asks nobody yet.
  function Anew(ttl: real, d: real, config: L.Config): State {
    State(C.State(map["k" := C.Entry(Some(1), End(ttl, d), ttl - d)], Some(End(ttl, d)),
                  [Holding(0), Stalled(ttl, d, C.Returned(Some(1), End(ttl, d))), Other(ttl, d, C.Fetching)], End(ttl, d)),
          [FreshMade(config), FreshMade(config)], map[], map[], map["k" := Latest(1, ttl - d)])
  }

  lemma PutsAgain(ttl: real, d: real, config: L.Config, b: Tameness)
    requires 0.0 < d < ttl && b.holders >= 1
    ensures var c, s := One(ttl, config, true), Again(ttl, d, config, C.Fetched(Some(1), End(ttl, d)), 1);
            && StepAllowed(c, "k", b, s, Cache(C.Put(1))) && Next(c, s, Cache(C.Put(1))) == Anew(ttl, d, config)
            && Replaces(s, "k", Cache(C.Put(1))) && !ByTimes(c, s, "k", Cache(C.Put(1)))
  {
    var s := Again(ttl, d, config, C.Fetched(Some(1), End(ttl, d)), 1);
    assert Holders(s, "k") == {0};
    assert s.cache.calls[1 := Stalled(ttl, d, C.Returned(Some(1), End(ttl, d)))] == Anew(ttl, d, config).cache.calls;
  }

  function NewRun(ttl: real, d: real): seq<Step> {
    LookRun(ttl, d) + LookupOf1() + [Cache(C.Put(1))]
  }

  lemma IsAnew(ttl: real, d: real, config: L.Config, b: Tameness)
    requires 0.0 < d < ttl && 9.0 * ttl + 2.0 * d <= b.stall && b.holders >= 1
    ensures Leads(One(ttl, config, true), "k", b, Init(), NewRun(ttl, d), Anew(ttl, d, config), 0, 1)
  {
    FetchesAgain(ttl, d, config, b);
    PutsAgain(ttl, d, config, b);
    Then(One(ttl, config, true), "k", b, Init(), LookRun(ttl, d) + LookupOf1(), Again(ttl, d, config, C.Fetched(Some(1), End(ttl, d)), 1), 0, 0,
         Cache(C.Put(1)), Anew(ttl, d, config));
  }

  // A moment before the entry goes stale, long enough for the stall.
  function Moment(ttl: real, stall: real): (d: real)
    requires 0.0 < ttl && 9.0 * ttl < stall
    ensures 0.0 < d < ttl && 9.0 * ttl + 2.0 * d <= stall
  {
    if stall - 9.0 * ttl < ttl then (stall - 9.0 * ttl) / 2.0 else ttl / 2.0
  }

  lemma StallReplaces(ttl: real, overlap: nat, stall: real)
    requires 0.0 < ttl && 9.0 * ttl < stall
    ensures !ByTimesOnly(ttl, overlap, stall)
  {
    var d, config, b := Moment(ttl, stall), L.New(60, 1, 900.0), Tameness(1, overlap, stall);
    FetchesAgain(ttl, d, config, b);
    PutsAgain(ttl, d, config, b);
    IsAnew(ttl, d, config, b);
    NotByTimesOnly(ttl, config, b, LookRun(ttl, d) + LookupOf1(), Again(ttl, d, config, C.Fetched(Some(1), End(ttl, d)), 1), Cache(C.Put(1)),
                   Anew(ttl, d, config), 0, 1);
  }

  /** On all runs in which so many calls of the key are fetching when another one misses, and no
    * call stalls for longer than that before looking: a limiter is replaced only a TTL or more
    * after the fetch of the one before it, if and only if no two calls of the key fetch at once
    * and no call stalls for more than nine TTLs. */
  lemma RefetchesExactly(ttl: real, overlap: nat, stall: real)
    requires ttl > 0.0 && stall >= 0.0
    ensures ByTimesOnly(ttl, overlap, stall) <==> overlap == 0 && stall <= 9.0 * ttl
  {
    if overlap > 0 {
      OverlapReplaces(ttl, overlap, stall);
    } else if stall > 9.0 * ttl {
      StallReplaces(ttl, overlap, stall);
    } else {
      forall c: Setup, key, steps | c.Valid() && c.ttl == ttl && key in c.limits && Legal(c, Init(), steps) && Tame(c, Init(), key, overlap, stall, steps)
        ensures AllByTimes(c, Init(), key, steps)
      {
        RefetchesOnly(c, key, stall, steps);
      }
    }
  }

  /* ---------- The sweep noticed ---------- */

  ghost predicate Sweeps(c: Setup, ttl: real) {
    c.Valid() && c.ttl == ttl && c.sweeping
  }

  function Kept(c: Setup): Setup {
    c.(sweeping := false)
  }

  ghost predicate StepPrompt(stall: real, s: State, a: Step) {
    a.Cache? && a.step.Recheck? && C.Can(s.cache, a.step) ==> R.NoneStalled(stall, s.cache, a.step.i)
  }

  // When a call is about to sweep, no call that still has to look began so much earlier.
  ghost predicate Prompt(c: Setup, stall: real, s: State, steps: seq<Step>)
    requires Legal(c, s, steps)
    decreases |steps|
  {
    steps == [] || (StepPrompt(stall, s, steps[0]) && Prompt(c, stall, Next(c, s, steps[0]), steps[1..]))
  }

  ghost predicate Same(ttl: real, s: State, t: State) {
    R.Same(ttl, s.cache, t.cache) && s.limiters == t.limiters && s.readings == t.readings && s.answers == t.answers && s.latest == t.latest
  }

  lemma StepSame(c: Setup, s: State, t: State, a: Step)
    requires c.Valid() && c.sweeping && Same(c.ttl, s, t) && Can(c, s, a) && StepPrompt(9.0 * c.ttl, s, a)
    ensures Can(Kept(c), t, a) && Same(c.ttl, Next(c, s, a), Next(Kept(c), t, a))
  {
    if a.Cache? {
      R.StepSame(c.ttl, s.cache, t.cache, a.step);
    }
  }

  lemma {:induction false} RunSame(c: Setup, stall: real, s: State, t: State, steps: seq<Step>)
    requires c.Valid() && c.sweeping && stall <= 9.0 * c.ttl && Same(c.ttl, s, t) && Legal(c, s, steps) && Prompt(c, stall, s, steps)
    ensures Legal(Kept(c), t, steps) && Same(c.ttl, After(c, s, steps), After(Kept(c), t, steps))
    decreases |steps|
  {
    if steps != [] {
      StepSame(c, s, t, steps[0]);
      RunSame(c, stall, Next(c, s, steps[0]), Next(Kept(c), t, steps[0]), steps[1..]);
    }
  }

  // Without the sweep the same steps are possible and give every call the same limiter and
  // answer.
  ghost predicate Unnoticed(c: Setup, steps: seq<Step>)
    requires Legal(c, Init(), steps)
  {
    && Legal(Kept(c), Init(), steps)
    && var s, t := After(c, Init(), steps), After(Kept(c), Init(), steps); s.cache.calls == t.cache.calls && s.answers == t.answers
  }

  lemma {:induction false} TameIsPrompt(c: Setup, s: State, key: string, overlap: nat, stall: real, steps: seq<Step>)
    requires Legal(c, s, steps) && Tame(c, s, key, overlap, stall, steps)
    ensures Prompt(c, stall, s, steps)
    decreases |steps|
  {
    if steps != [] {
      TameIsPrompt(c, Next(c, s, steps[0]), key, overlap, stall, steps[1..]);
    }
  }

  // After the same steps call j finds its limiter without the sweep, and with it goes on to
  // fetch another one; then the same calls ask, and call j is answered otherwise.
  ghost predicate AnswersDiffer(c: Setup, stall: real, steps: seq<Step>, lookup: seq<Step>, asks: seq<Step>, j: nat) {
    && (forall a :: a in asks ==> a.Read? || a.Ask?) && (forall a :: a in lookup ==> a.Cache?)
    && Legal(c, Init(), steps + lookup + asks) && Prompt(c, stall, Init(), steps + lookup + asks)
    && Legal(Kept(c), Init(), steps + asks)
    && var s, t := After(c, Init(), steps + lookup + asks), After(Kept(c), Init(), steps + asks);
       j in s.answers && j in t.answers && s.answers[j] != t.answers[j]
  }

  // One request a second, and no more than one at once.
  function Single(): L.Config {
    L.New(60, 1, 900.0)
  }

  function Used(at: real): L.State {
    L.State(map["k" := L.Entry(0.0, at, at)], Some(at))
  }

  // A call reads the clock and asks at once.
  function AskNow(s: State, i: nat): State
    requires Holds(s, i)
  {
    Asked(s.(readings := s.readings[i := s.cache.clock]), i)
  }

  function Asks(): seq<Step> {
    [] + [Read(0)] + [Ask(0)] + [Read(1)] + [Ask(1)]
  }

  lemma FreshAdmits(s: State, i: nat, id: nat)
    requires HoldsOf(s, id, i) && id < |s.limiters| && s.limiters[id] == FreshMade(Single())
    ensures AskNow(s, i) == s.(limiters := s.limiters[id := Made("k", Single(), Used(s.cache.clock))],
                               readings := s.readings[i := s.cache.clock], answers := s.answers[i := true])
  {
    assert L.Swept(Single(), L.Empty, s.cache.clock).entries == map[];
  }

  lemma UsedDenies(s: State, i: nat, id: nat)
    requires HoldsOf(s, id, i) && id < |s.limiters| && s.limiters[id] == Made("k", Single(), Used(s.cache.clock))
    ensures i in AskNow(s, i).answers && !AskNow(s, i).answers[i]
  {
  }

  lemma OneAsks(c: Setup, b: Tameness, s: State, x: seq<Step>, t: State, m: nat, i: nat) returns (n: nat)
    requires Leads(c, "k", b, s, x, t, m, 0) && Holds(t, i) && i !in t.readings && c.wait >= 0.0
    ensures Leads(c, "k", b, s, x + [Read(i)] + [Ask(i)], AskNow(t, i), n, 0)
  {
    var u := t.(readings := t.readings[i := t.cache.clock]);
    Then(c, "k", b, s, x, t, m, 0, Read(i), u);
    Then(c, "k", b, s, x + [Read(i)], u, m, 0, Ask(i), AskNow(t, i));
    n := m + AdmitsOne(c, u, "k", Ask(i));
  }

  lemma BothAsk(c: Setup, b: Tameness, s: State) returns (m: nat)
    requires Holds(s, 0) && Holds(s, 1) && s.readings == map[] && c.wait >= 0.0
    ensures Leads(c, "k", b, s, Asks(), AskNow(AskNow(s, 0), 1), m, 0)
  {
    Nothing(c, "k", b, s);
    m := OneAsks(c, b, s, [], s, 0, 0);
    m := OneAsks(c, b, s, [] + [Read(0)] + [Ask(0)], AskNow(s, 0), m, 1);
  }

  lemma AdmittedSwept(ttl: real, d: real, b: Tameness) returns (t: State, m: nat)
    requires 0.0 < d < ttl && 9.0 * ttl + 2.0 * d <= b.stall && b.holders >= 1
    ensures Leads(One(ttl, Single(), true), "k", b, Init(), NewRun(ttl, d) + Asks(), t, m, 1) && 1 in t.answers && t.answers[1]
  {
    var c, s := One(ttl, Single(), true), Anew(ttl, d, Single());
    IsAnew(ttl, d, Single(), b);
    m := BothAsk(c, b, s);
    FreshAdmits(s, 0, 0);
    FreshAdmits(AskNow(s, 0), 1, 1);
    t := AskNow(AskNow(s, 0), 1);
    Onward(c, "k", b, Init(), NewRun(ttl, d), s, 0, 1, Asks(), t, m, 0);
  }

  lemma DeniedKept(ttl: real, d: real, b: Tameness) returns (t: State, m: nat)
    requires 0.0 < d < ttl && 9.0 * ttl + 2.0 * d <= b.stall
    ensures Leads(One(ttl, Single(), false), "k", b, Init(), LookRun(ttl, d) + Asks(), t, m, 0) && 1 in t.answers && !t.answers[1]
  {
    var c, s := One(ttl, Single(), false), Split(ttl, d, Single(), false, Found(false));
    Looks(ttl, d, Single(), false, b);
    m := BothAsk(c, b, s);
    FreshAdmits(s, 0, 0);
    UsedDenies(AskNow(s, 0), 1, 0);
    t := AskNow(AskNow(s, 0), 1);
    Onward(c, "k", b, Init(), LookRun(ttl, d), s, 0, 0, Asks(), t, m, 0);
  }

  function LookupAndPut(): seq<Step> {
    LookupOf1() + [Cache(C.Put(1))]
  }

  /** Where calls may stall for longer than nine TTLs, by however little, some request is admitted
    * that without the sweep would be denied. */
  lemma StalledCallAdmitted(ttl: real, stall: real)
    requires 0.0 < ttl && 9.0 * ttl < stall
    ensures exists c: Setup, steps, lookup, asks, j: nat :: Sweeps(c, ttl) && AnswersDiffer(c, stall, steps, lookup, asks, j)
  {
    var d, b, c := Moment(ttl, stall), Tameness(1, 0, stall), One(ttl, Single(), true);
    var t, m := AdmittedSwept(ttl, d, b);
    var t', m' := DeniedKept(ttl, d, b);
    assert NewRun(ttl, d) == LookRun(ttl, d) + LookupAndPut();
    assert Kept(c) == One(ttl, Single(), false);
    TameIsPrompt(c, Init(), "k", 0, stall, NewRun(ttl, d) + Asks());
    assert Sweeps(c, ttl) && AnswersDiffer(c, stall, LookRun(ttl, d), LookupAndPut(), Asks(), 1);
  }

  lemma StallNoticed(ttl: real, stall: real)
    requires 0.0 < ttl && 9.0 * ttl < stall
    ensures exists c: Setup, steps :: Sweeps(c, ttl) && Legal(c, Init(), steps) && Prompt(c, stall, Init(), steps) && !Unnoticed(c, steps)
  {
    var d, b, c, k := Moment(ttl, stall), Tameness(1, 0, stall), One(ttl, Single(), true), One(ttl, Single(), false);
    Looks(ttl, d, Single(), true, b);
    Looks(ttl, d, Single(), false, b);
    TameIsPrompt(c, Init(), "k", 0, stall, LookRun(ttl, d));
    assert Kept(c) == k;
    assert After(c, Init(), LookRun(ttl, d)).cache.calls[1].phase == C.Missed;
    assert !Unnoticed(c, LookRun(ttl, d));
  }

  /** The sweep changes no limiter and no answer, on every run in which no call stalls for more
    * than a given time between reading the clock and looking for its entry, if and only if that
    * time is at most nine TTLs. */
  lemma SweepUnnoticedExactly(ttl: real, stall: real)
    requires ttl > 0.0
    ensures stall <= 9.0 * ttl
            <==> forall c: Setup, steps :: Sweeps(c, ttl) && Legal(c, Init(), steps) && Prompt(c, stall, Init(), steps) ==> Unnoticed(c, steps)
  {
    if stall <= 9.0 * ttl {
      forall c: Setup, steps | Sweeps(c, ttl) && Legal(c, Init(), steps) && Prompt(c, stall, Init(), steps)
        ensures Unnoticed(c, steps)
      {
        RunSame(c, stall, Init(), Init(), steps);
      }
    } else {
      StallNoticed(ttl, stall);
    }
  }
}
