/** How to build runs of the per-key limiter and keep count of what they admit and replace; among
  * them what a sequence of requests cannot do, two cold fetches of one key at once.
  */
module KeyRateRuns {
  import opened Options
  import opened KeyRateSteps
  import opened KeyRefetches
  import L = RateLimiter
  import C = TtlCache
  import KB = KeyRateBounds

  /* ---------- Runs and what they amount to ---------- */

  datatype Tameness = Tameness(holders: nat, overlap: nat, stall: real)

  ghost predicate StepAllowed(c: Setup, key: string, b: Tameness, s: State, a: Step) {
    Can(c, s, a) && (Puts(s, key, a) ==> |Holders(s, key)| <= b.holders) && StepTame(c, s, key, b.overlap, b.stall, a)
  }

  // The steps lead from s to t, so tamely, and admit and replace so often.
  ghost predicate Leads(c: Setup, key: string, b: Tameness, s: State, steps: seq<Step>, t: State, admitted: nat, replaced: nat) {
    && Legal(c, s, steps) && HoldersAtMost(c, s, key, b.holders, steps) && Tame(c, s, key, b.overlap, b.stall, steps)
    && After(c, s, steps) == t && Admitted(c, s, key, steps) == admitted && Replaced(c, s, key, steps) == replaced
  }

  ghost function AdmitsOne(c: Setup, s: State, key: string, a: Step): nat {
    if Admits(c, s, key, a) then 1 else 0
  }

  ghost function ReplacesOne(s: State, key: string, a: Step): nat {
    if Replaces(s, key, a) then 1 else 0
  }

  lemma First(c: Setup, key: string, b: Tameness, s: State, a: Step, rest: seq<Step>, t: State, admitted: nat, replaced: nat)
    requires StepAllowed(c, key, b, s, a) && Leads(c, key, b, Next(c, s, a), rest, t, admitted, replaced)
    ensures Leads(c, key, b, s, [a] + rest, t, AdmitsOne(c, s, key, a) + admitted, ReplacesOne(s, key, a) + replaced)
  {
    assert ([a] + rest)[1..] == rest;
  }

  lemma {:induction false} Onward(c: Setup, key: string, b: Tameness, s: State, x: seq<Step>, t: State, m: nat, r: nat,
                                  y: seq<Step>, u: State, m': nat, r': nat)
    requires Leads(c, key, b, s, x, t, m, r) && Leads(c, key, b, t, y, u, m', r')
    ensures Leads(c, key, b, s, x + y, u, m + m', r + r')
    decreases |x|
  {
    if x == [] {
      assert x + y == y;
    } else {
      var a, rest := x[0], x[1..];
      assert x + y == [a] + (rest + y);
      var n := Next(c, s, a);
      Onward(c, key, b, n, rest, t, m - AdmitsOne(c, s, key, a), r - ReplacesOne(s, key, a), y, u, m', r');
      First(c, key, b, s, a, rest + y, u, m - AdmitsOne(c, s, key, a) + m', r - ReplacesOne(s, key, a) + r');
    }
  }

  lemma Nothing(c: Setup, key: string, b: Tameness, s: State)
    ensures Leads(c, key, b, s, [], s, 0, 0)
  {
  }

  lemma Then(c: Setup, key: string, b: Tameness, s: State, x: seq<Step>, t: State, m: nat, r: nat, a: Step, u: State)
    requires Leads(c, key, b, s, x, t, m, r) && StepAllowed(c, key, b, t, a) && Next(c, t, a) == u
    ensures Leads(c, key, b, s, x + [a], u, m + AdmitsOne(c, t, key, a), r + ReplacesOne(t, key, a))
  {
    Nothing(c, key, b, u);
    First(c, key, b, t, a, [], u, 0, 0);
    assert [a] + [] == [a];
    Onward(c, key, b, s, x, t, m, r, [a], u, AdmitsOne(c, t, key, a), ReplacesOne(t, key, a));
  }

  // A step of a lookup that puts nothing.
  lemma ThenLook(c: Setup, key: string, b: Tameness, s: State, x: seq<Step>, t: State, m: nat, r: nat, step: C.Step<Handle>, u: State)
    requires Leads(c, key, b, s, x, t, m, r) && Can(c, t, Cache(step)) && !step.Put? && Next(c, t, Cache(step)) == u
    requires step.Recheck? ==> StepTame(c, t, key, b.overlap, b.stall, Cache(step))
    ensures Leads(c, key, b, s, x + [Cache(step)], u, m, r)
  {
    Then(c, key, b, s, x, t, m, r, Cache(step), u);
  }

  /* ---------- Two cold fetches at once ---------- */

  function One(ttl: real, config: L.Config, sweeping: bool): Setup {
    Setup(ttl, map["k" := config], sweeping, 0.0)
  }

  function Pair(p: C.Phase<Handle>, q: C.Phase<Handle>, limiters: seq<Made>, swept: Option<real>): State {
    State(C.State(map[], swept, [C.Call("k", 0.0, p), C.Call("k", 0.0, q)], 0.0), limiters, map[], map[], map[])
  }

  function FreshMade(config: L.Config): Made {
    Made("k", config, L.Empty)
  }

  function ColdRun(): seq<Step> {
    BothStarted() + [Cache(C.Look(0))] + [Cache(C.Look(1))] + [Cache(C.Recheck(0))] + [Cache(C.Recheck(1))]
  }

  function BothFetch(): seq<Step> {
    ColdRun() + [Cache(C.Fetch(0, Some(Some(0))))] + [Cache(C.Fetch(1, Some(Some(1))))]
  }

  function BothStarted(): seq<Step> {
    [] + [Cache(C.Start("k"))] + [Cache(C.Start("k"))]
  }

  lemma ColdStarts(ttl: real, config: L.Config, b: Tameness)
    requires ttl > 0.0
    ensures Leads(One(ttl, config, true), "k", b, Init(), BothStarted(), Pair(C.Started, C.Started, [], None), 0, 0)
  {
    var c := One(ttl, config, true);
    var s1 := State(C.State(map[], None, [C.Call("k", 0.0, C.Started)], 0.0), [], map[], map[], map[]);
    Nothing(c, "k", b, Init());
    ThenLook(c, "k", b, Init(), [], Init(), 0, 0, C.Start("k"), s1);
    ThenLook(c, "k", b, Init(), [] + [Cache(C.Start("k"))], s1, 0, 0, C.Start("k"), Pair(C.Started, C.Started, [], None));
  }

  lemma ColdLooks(ttl: real, config: L.Config, b: Tameness)
    requires ttl > 0.0
    ensures Leads(One(ttl, config, true), "k", b, Init(), BothStarted() + [Cache(C.Look(0))] + [Cache(C.Look(1))], Pair(C.Missed, C.Missed, [], None), 0, 0)
  {
    var c := One(ttl, config, true);
    var s, t := Pair(C.Started, C.Started, [], None), Pair(C.Missed, C.Started, [], None);
    ColdStarts(ttl, config, b);
    ThenLook(c, "k", b, Init(), BothStarted(), s, 0, 0, C.Look(0), t);
    ThenLook(c, "k", b, Init(), BothStarted() + [Cache(C.Look(0))], t, 0, 0, C.Look(1), Pair(C.Missed, C.Missed, [], None));
  }

  lemma ColdMisses(ttl: real, config: L.Config, b: Tameness)
    requires ttl > 0.0 && b.overlap >= 1 && b.stall >= 0.0
    ensures Leads(One(ttl, config, true), "k", b, Init(), ColdRun(), Pair(C.Fetching, C.Fetching, [], Some(0.0)), 0, 0)
  {
    var c := One(ttl, config, true);
    var s, t := Pair(C.Missed, C.Missed, [], None), Pair(C.Fetching, C.Missed, [], Some(0.0));
    var x := BothStarted() + [Cache(C.Look(0))] + [Cache(C.Look(1))];
    ColdLooks(ttl, config, b);
    assert Fetchers(s, "k") == {} && Fetchers(t, "k") == {0};
    ThenLook(c, "k", b, Init(), x, s, 0, 0, C.Recheck(0), t);
    ThenLook(c, "k", b, Init(), x + [Cache(C.Recheck(0))], t, 0, 0, C.Recheck(1), Pair(C.Fetching, C.Fetching, [], Some(0.0)));
  }

  function BothFetchedState(config: L.Config): State {
    Pair(C.Fetched(Some(0), 0.0), C.Fetched(Some(1), 0.0), [FreshMade(config), FreshMade(config)], Some(0.0))
  }

  lemma OneFetched(ttl: real, config: L.Config, b: Tameness)
    requires ttl > 0.0 && b.overlap >= 1 && b.stall >= 0.0
    ensures Leads(One(ttl, config, true), "k", b, Init(), ColdRun() + [Cache(C.Fetch(0, Some(Some(0))))],
                  Pair(C.Fetched(Some(0), 0.0), C.Fetching, [FreshMade(config)], Some(0.0)), 0, 0)
  {
    var s := Pair(C.Fetching, C.Fetching, [], Some(0.0));
    ColdMisses(ttl, config, b);
    ThenLook(One(ttl, config, true), "k", b, Init(), ColdRun(), s, 0, 0, C.Fetch(0, Some(Some(0))),
             Pair(C.Fetched(Some(0), 0.0), C.Fetching, [FreshMade(config)], Some(0.0)));
  }

  lemma BothFetched(ttl: real, config: L.Config, b: Tameness)
    requires ttl > 0.0 && b.overlap >= 1 && b.stall >= 0.0
    ensures Leads(One(ttl, config, true), "k", b, Init(), BothFetch(), BothFetchedState(config), 0, 0)
  {
    OneFetched(ttl, config, b);
    ThenLook(One(ttl, config, true), "k", b, Init(), ColdRun() + [Cache(C.Fetch(0, Some(Some(0))))],
             Pair(C.Fetched(Some(0), 0.0), C.Fetching, [FreshMade(config)], Some(0.0)), 0, 0, C.Fetch(1, Some(Some(1))), BothFetchedState(config));
  }

  /* ---------- With an entry in place ---------- */

  function Copies<X>(x: X, n: nat): (r: seq<X>)
    ensures |r| == n && forall k :: 0 <= k < n ==> r[k] == x
  {
    if n == 0 then [] else [x] + Copies(x, n - 1)
  }

  function Holding(id: nat): C.Call<Handle> {
    C.Call("k", 0.0, C.Returned(Some(id), 0.0))
  }

  // The entry holds limiter `id`; after the two calls `more` calls have found it.
  function Board(id: nat, p: C.Phase<Handle>, q: C.Phase<Handle>, more: nat, limiters: seq<Made>, answers: map<nat, bool>, clock: real): State {
    State(C.State(map["k" := C.Entry(Some(id), 0.0, 0.0)], Some(0.0), [C.Call("k", 0.0, p), C.Call("k", 0.0, q)] + Copies(Holding(id), more), clock),
          limiters, map[], answers, map["k" := Latest(id, 0.0)])
  }

  function HoldSteps(n: nat, more: nat): seq<Step>
    decreases more
  {
    if more == 0 then [] else [Cache(C.Start("k"))] + ([Cache(C.Look(n))] + HoldSteps(n + 1, more - 1))
  }

  lemma {:induction false} CopiesMore<X>(x: X, n: nat)
    ensures Copies(x, n) + [x] == Copies(x, n + 1)
  {
  }

  lemma OneMoreHolds(c: Setup, b: Tameness, id: nat, p: C.Phase<Handle>, q: C.Phase<Handle>, n: nat, limiters: seq<Made>, answers: map<nat, bool>,
                     rest: seq<Step>, t: State)
    requires c.ttl > 0.0 && Leads(c, "k", b, Board(id, p, q, n + 1, limiters, answers, 0.0), rest, t, 0, 0)
    ensures Leads(c, "k", b, Board(id, p, q, n, limiters, answers, 0.0), [Cache(C.Start("k"))] + ([Cache(C.Look(2 + n))] + rest), t, 0, 0)
  {
    var s := Board(id, p, q, n, limiters, answers, 0.0);
    var s1 := s.(cache := s.cache.(calls := s.cache.calls + [C.Call("k", 0.0, C.Started)]));
    CopiesMore(Holding(id), n);
    assert Next(c, s, Cache(C.Start("k"))) == s1;
    assert s.cache.calls + [Holding(id)] == Board(id, p, q, n + 1, limiters, answers, 0.0).cache.calls;
    assert s1.cache.calls[2 + n := Holding(id)] == s.cache.calls + [Holding(id)];
    assert Next(c, s1, Cache(C.Look(2 + n))) == Board(id, p, q, n + 1, limiters, answers, 0.0);
    First(c, "k", b, s1, Cache(C.Look(2 + n)), rest, t, 0, 0);
    First(c, "k", b, s, Cache(C.Start("k")), [Cache(C.Look(2 + n))] + rest, t, 0, 0);
  }

  // More calls of the key find the entry.
  lemma {:induction false} MoreHold(c: Setup, b: Tameness, id: nat, p: C.Phase<Handle>, q: C.Phase<Handle>, n: nat, more: nat,
                                    limiters: seq<Made>, answers: map<nat, bool>)
    requires c.ttl > 0.0
    ensures Leads(c, "k", b, Board(id, p, q, n, limiters, answers, 0.0), HoldSteps(2 + n, more), Board(id, p, q, n + more, limiters, answers, 0.0), 0, 0)
    decreases more
  {
    if more == 0 {
      Nothing(c, "k", b, Board(id, p, q, n, limiters, answers, 0.0));
    } else {
      MoreHold(c, b, id, p, q, n + 1, more - 1, limiters, answers);
      OneMoreHolds(c, b, id, p, q, n, limiters, answers, HoldSteps(2 + n + 1, more - 1), Board(id, p, q, n + more, limiters, answers, 0.0));
    }
  }

  // The calls i, i + 1, ... read the clock; they ask; or both, one after the other.
  function ReadSteps(i: nat, k: nat): seq<Step>
    decreases k
  {
    if k == 0 then [] else [Read(i)] + ReadSteps(i + 1, k - 1)
  }

  function LockSteps(i: nat, k: nat): seq<Step>
    decreases k
  {
    if k == 0 then [] else [Ask(i)] + LockSteps(i + 1, k - 1)
  }

  function AskSteps(i: nat, k: nat): seq<Step> {
    ReadSteps(i, k) + LockSteps(i, k)
  }

  function AllAt(readings: map<nat, real>, i: nat, k: nat, at: real): map<nat, real>
    decreases k
  {
    if k == 0 then readings else AllAt(readings[i := at], i + 1, k - 1, at)
  }

  lemma {:induction false} AllAtIs(readings: map<nat, real>, i: nat, k: nat, at: real)
    ensures forall j: nat :: j in AllAt(readings, i, k, at) <==> j in readings || i <= j < i + k
    ensures forall j: nat :: i <= j < i + k ==> AllAt(readings, i, k, at)[j] == at
    ensures forall j: nat :: j in readings && !(i <= j < i + k) ==> AllAt(readings, i, k, at)[j] == readings[j]
    decreases k
  {
    if k > 0 {
      AllAtIs(readings[i := at], i + 1, k - 1, at);
    }
  }

  function AllTrue(answers: map<nat, bool>, i: nat, k: nat): map<nat, bool>
    decreases k
  {
    if k == 0 then answers else AllTrue(answers[i := true], i + 1, k - 1)
  }

  lemma {:induction false} AllTrueIs(answers: map<nat, bool>, i: nat, k: nat)
    ensures forall j: nat :: j in AllTrue(answers, i, k) <==> j in answers || i <= j < i + k
    decreases k
  {
    if k > 0 {
      AllTrueIs(answers[i := true], i + 1, k - 1);
    }
  }

  predicate HoldsOf(s: State, id: nat, j: nat) {
    Holds(s, j) && s.cache.calls[j].key == "k" && s.cache.calls[j].phase.value == Some(id)
  }

  // The calls i, i + 1, ... hold limiter `id` and have not read the clock.
  ghost predicate AllHold(s: State, id: nat, i: nat, k: nat) {
    i + k <= |s.cache.calls| && forall j :: i <= j < i + k ==> HoldsOf(s, id, j) && j !in s.readings
  }

  // They have read it at this time.
  ghost predicate HaveRead(s: State, id: nat, i: nat, k: nat, at: real) {
    i + k <= |s.cache.calls| && forall j :: i <= j < i + k ==> HoldsOf(s, id, j) && j in s.readings && s.readings[j] == at
  }

  function AfterReads(s: State, i: nat, k: nat): State {
    s.(readings := AllAt(s.readings, i, k, s.cache.clock))
  }

  lemma {:induction false} AllRead(c: Setup, b: Tameness, s: State, id: nat, i: nat, k: nat)
    requires AllHold(s, id, i, k)
    ensures Leads(c, "k", b, s, ReadSteps(i, k), AfterReads(s, i, k), 0, 0)
    decreases k
  {
    if k == 0 {
      Nothing(c, "k", b, s);
    } else {
      var t := s.(readings := s.readings[i := s.cache.clock]);
      assert HoldsOf(s, id, i);
      forall j | i + 1 <= j < i + k
        ensures HoldsOf(t, id, j) && j !in t.readings
      {
        assert HoldsOf(s, id, j);
      }
      AllRead(c, b, t, id, i + 1, k - 1);
      First(c, "k", b, s, Read(i), ReadSteps(i + 1, k - 1), AfterReads(s, i, k), 0, 0);
    }
  }

  lemma ReadsRead(s: State, id: nat, i: nat, k: nat)
    requires AllHold(s, id, i, k)
    ensures HaveRead(AfterReads(s, i, k), id, i, k, s.cache.clock)
  {
    AllAtIs(s.readings, i, k, s.cache.clock);
    var t := AfterReads(s, i, k);
    forall j | i <= j < i + k
      ensures HoldsOf(t, id, j) && j in t.readings && t.readings[j] == s.cache.clock
    {
      assert HoldsOf(s, id, j);
    }
  }

  // The limiter as it stands, for the bounds by request times.
  function OwnOf(m: Made): KB.Own {
    KB.Own(Some(0.0), m.bucket)
  }

  function AfterLocks(s: State, life: real, id: nat, i: nat, k: nat, at: real): State
    requires id < |s.limiters|
  {
    var m := s.limiters[id];
    s.(limiters := s.limiters[id := m.(bucket := KB.OwnAfter(life, m.config, "k", OwnOf(m), KB.Volley(at, k)).bucket)],
       answers := AllTrue(s.answers, i, k))
  }

  function AfterAsks(s: State, life: real, id: nat, i: nat, k: nat): State
    requires id < |s.limiters|
  {
    AfterLocks(AfterReads(s, i, k), life, id, i, k, s.cache.clock)
  }

  lemma {:induction false} VolleyAtMost(life: real, config: L.Config, o: KB.Own, t: real, k: nat)
    ensures KB.OwnAdmitted(life, config, "k", o, KB.Volley(t, k)) <= k
    decreases k
  {
    if k > 0 {
      assert KB.Volley(t, k)[1..] == KB.Volley(t, k - 1);
      VolleyAtMost(life, config, KB.Then(life, config, "k", o, t), t, k - 1);
    }
  }

  // One call asks and is admitted.
  lemma AskOne(c: Setup, b: Tameness, s: State, life: real, id: nat, i: nat, k: nat, at: real)
    requires id < |s.limiters| && k > 0 && HaveRead(s, id, i, k, at) && at < life && s.cache.clock - at <= c.wait
    requires KB.OwnAdmitted(life, s.limiters[id].config, "k", OwnOf(s.limiters[id]), KB.Volley(at, k)) == k
    ensures i in s.readings && Holds(s, i)
    ensures var t := Asked(s, i); var m := s.limiters[id];
            && Can(c, s, Ask(i)) && Admits(c, s, "k", Ask(i)) && t.limiters == s.limiters[id := t.limiters[id]] && t.limiters[id].config == m.config
            && t.answers == s.answers[i := true] && t == s.(limiters := t.limiters, answers := t.answers)
            && OwnOf(t.limiters[id]) == KB.Then(life, m.config, "k", OwnOf(m), at)
            && HaveRead(t, id, i + 1, k - 1, at)
            && KB.OwnAdmitted(life, m.config, "k", OwnOf(t.limiters[id]), KB.Volley(at, k - 1)) == k - 1
  {
    var m := s.limiters[id];
    assert HoldsOf(s, id, i) && s.readings[i] == at;
    assert KB.Volley(at, k)[1..] == KB.Volley(at, k - 1);
    VolleyAtMost(life, m.config, KB.Then(life, m.config, "k", OwnOf(m), at), at, k - 1);
    forall j | i + 1 <= j < i + k
      ensures HoldsOf(Asked(s, i), id, j) && Asked(s, i).readings[j] == at
    {
      assert HoldsOf(s, id, j);
    }
  }

  // They ask one after the other, as far as the tokens go.
  lemma {:induction false} AllLock(c: Setup, b: Tameness, s: State, life: real, id: nat, i: nat, k: nat, at: real)
    requires id < |s.limiters| && HaveRead(s, id, i, k, at) && at < life && s.cache.clock - at <= c.wait
    requires KB.OwnAdmitted(life, s.limiters[id].config, "k", OwnOf(s.limiters[id]), KB.Volley(at, k)) == k
    ensures Leads(c, "k", b, s, LockSteps(i, k), AfterLocks(s, life, id, i, k, at), k, 0)
    decreases k
  {
    if k == 0 {
      Nothing(c, "k", b, s);
      assert s.limiters[id := s.limiters[id]] == s.limiters;
    } else {
      AskOne(c, b, s, life, id, i, k, at);
      var t := Asked(s, i);
      AllLock(c, b, t, life, id, i + 1, k - 1, at);
      assert KB.Volley(at, k)[1..] == KB.Volley(at, k - 1);
      assert t.limiters[id := AfterLocks(s, life, id, i, k, at).limiters[id]] == AfterLocks(s, life, id, i, k, at).limiters;
      assert AfterLocks(t, life, id, i + 1, k - 1, at) == AfterLocks(s, life, id, i, k, at);
      First(c, "k", b, s, Ask(i), LockSteps(i + 1, k - 1), AfterLocks(s, life, id, i, k, at), k - 1, 0);
    }
  }

  lemma AllAsk(c: Setup, b: Tameness, s: State, life: real, id: nat, i: nat, k: nat)
    requires id < |s.limiters| && AllHold(s, id, i, k) && s.cache.clock < life && c.wait >= 0.0
    requires KB.OwnAdmitted(life, s.limiters[id].config, "k", OwnOf(s.limiters[id]), KB.Volley(s.cache.clock, k)) == k
    ensures Leads(c, "k", b, s, AskSteps(i, k), AfterAsks(s, life, id, i, k), k, 0)
  {
    AllRead(c, b, s, id, i, k);
    ReadsRead(s, id, i, k);
    AllLock(c, b, AfterReads(s, i, k), life, id, i, k, s.cache.clock);
    Onward(c, "k", b, s, ReadSteps(i, k), AfterReads(s, i, k), 0, 0, LockSteps(i, k), AfterAsks(s, life, id, i, k), k, 0);
  }

  // The same, after more calls have found the entry.
  lemma HoldAndAsk(c: Setup, b: Tameness, id: nat, p: C.Phase<Handle>, q: C.Phase<Handle>, more: nat, limiters: seq<Made>,
                   life: real, i: nat, k: nat) returns (x: seq<Step>)
    requires c.ttl > 0.0 && c.wait >= 0.0 && id < |limiters| && 0.0 < life && AllHold(Board(id, p, q, more, limiters, map[], 0.0), id, i, k)
    requires KB.OwnAdmitted(life, limiters[id].config, "k", OwnOf(limiters[id]), KB.Volley(0.0, k)) == k
    ensures Leads(c, "k", b, Board(id, p, q, 0, limiters, map[], 0.0), x, AfterAsks(Board(id, p, q, more, limiters, map[], 0.0), life, id, i, k), k, 0)
  {
    var s, t := Board(id, p, q, 0, limiters, map[], 0.0), Board(id, p, q, more, limiters, map[], 0.0);
    MoreHold(c, b, id, p, q, 0, more, limiters, map[]);
    var asks := SomeAsk(c, b, t, life, id, i, k);
    Onward(c, "k", b, s, HoldSteps(2, more), t, 0, 0, asks, AfterAsks(t, life, id, i, k), k, 0);
    x := HoldSteps(2, more) + asks;
  }

  lemma SomeAsk(c: Setup, b: Tameness, s: State, life: real, id: nat, i: nat, k: nat) returns (x: seq<Step>)
    requires id < |s.limiters| && AllHold(s, id, i, k) && s.cache.clock < life && c.wait >= 0.0
    requires KB.OwnAdmitted(life, s.limiters[id].config, "k", OwnOf(s.limiters[id]), KB.Volley(s.cache.clock, k)) == k
    ensures Leads(c, "k", b, s, x, AfterAsks(s, life, id, i, k), k, 0)
  {
    AllAsk(c, b, s, life, id, i, k);
    x := AskSteps(i, k);
  }

  /* ---------- A longer wait ---------- */

  // What is possible within a wait is possible within a longer one.
  lemma {:induction false} WaitsLonger(c: Setup, key: string, b: Tameness, s: State, steps: seq<Step>, t: State, m: nat, r: nat, wait: real)
    requires Leads(c, key, b, s, steps, t, m, r) && c.wait <= wait
    ensures Leads(c.(wait := wait), key, b, s, steps, t, m, r)
    decreases |steps|
  {
    var d := c.(wait := wait);
    if steps == [] {
      Nothing(d, key, b, s);
    } else {
      var a, rest := steps[0], steps[1..];
      var n := Next(c, s, a);
      assert steps == [a] + rest;
      assert Next(d, s, a) == n && AdmitsOne(d, s, key, a) == AdmitsOne(c, s, key, a) && StepAllowed(d, key, b, s, a);
      WaitsLonger(c, key, b, n, rest, t, m - AdmitsOne(c, s, key, a), r - ReplacesOne(s, key, a), wait);
      First(d, key, b, s, a, rest, t, m - AdmitsOne(c, s, key, a), r - ReplacesOne(s, key, a));
    }
  }
}
