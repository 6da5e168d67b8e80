/** How much a key's own limit admits when its calls interleave: a bound for every run, a
  * better one for runs in which no limiter is replaced while a call still holds it, and
  * exactly which runs meet the bound of a single token bucket.
  */
module KeyRateRaces {
  import opened Options
  import opened KeyRateSteps
  import L = RateLimiter
  import Late = LateReadings
  import C = TtlCache
  import KB = KeyRateBounds

  /* ---------- One limiter ---------- */

  ghost predicate AdmitsBy(c: Setup, s: State, key: string, id: nat, a: Step) {
    Admits(c, s, key, a) && s.cache.calls[a.i].phase.value == Some(id)
  }

  // What the limiter may still admit of the key without gaining, at the earliest time that a
  // reading can still have.
  function Left(c: Setup, s: State, key: string, id: nat): real
    requires key in c.limits
  {
    var config := c.limits[key];
    if id >= |s.limiters| then config.burst as real
    else if s.limiters[id].key != key then 0.0
    else Late.Credit(config, c.wait, s.limiters[id].bucket, L.Bucket(key), s.cache.clock)
  }

  ghost predicate Follows(c: Setup, s: State, key: string) {
    c.Valid() && Sound(c, s) && key in c.limits && Late.KeepsFor(c.limits[key], c.wait)
  }

  // What the rate yields in the window, and in the wait before it.
  function Yield(c: Setup, key: string, s: State, t: State): real
    requires key in c.limits
  {
    L.Gain(c.limits[key].rate, s.cache.clock - c.wait, t.cache.clock)
  }

  lemma YieldIs(c: Setup, key: string, s: State, t: State)
    requires key in c.limits
    ensures Yield(c, key, s, t) == L.Gain(c.limits[key].rate, s.cache.clock, t.cache.clock) + L.Gain(c.limits[key].rate, 0.0, c.wait)
  {
    KB.GainAdds(c.limits[key].rate, s.cache.clock - c.wait, s.cache.clock, t.cache.clock);
  }

  lemma LeftLater(c: Setup, s: State, t: State, key: string, id: nat)
    requires Follows(c, s, key) && t.limiters == s.limiters && s.cache.clock <= t.cache.clock
    ensures Left(c, t, key, id) <= Left(c, s, key, id) + L.Gain(c.limits[key].rate, s.cache.clock, t.cache.clock)
  {
    L.GainNonNegative(c.limits[key].rate, s.cache.clock, t.cache.clock);
    if id < |s.limiters| {
      Late.CreditLater(c.limits[key], c.wait, s.limiters[id].bucket, L.Bucket(key), s.cache.clock, t.cache.clock);
    }
  }

  lemma AskedLeft(c: Setup, s: State, key: string, id: nat, i: nat)
    requires Follows(c, s, key) && CanAsk(c, s, i)
    ensures var t := Asked(s, i);
            (if AdmitsBy(c, s, key, id, Ask(i)) then 1.0 else 0.0) + Left(c, t, key, id) <= Left(c, s, key, id)
  {
    var call := s.cache.calls[i];
    assert CallOk(c, s, call);
    if call.phase.value == Some(id) && call.key == key {
      var m := s.limiters[id];
      assert LimiterOk(c, m, s.cache.clock);
      Late.AdmitPays(m.config, c.wait, m.bucket, L.Call(key, s.readings[i]), s.cache.clock);
    }
  }

  lemma StepLeft(c: Setup, s: State, key: string, id: nat, a: Step)
    requires Follows(c, s, key) && Can(c, s, a)
    ensures var t := Next(c, s, a);
            (if AdmitsBy(c, s, key, id, a) then 1.0 else 0.0) + Left(c, t, key, id)
            <= Left(c, s, key, id) + L.Gain(c.limits[key].rate, s.cache.clock, t.cache.clock)
  {
    StepSound(c, s, a);
    var t := Next(c, s, a);
    match a
    case Read(_) => L.GainNow(c.limits[key].rate, s.cache.clock);
    case Ask(i) => AskedLeft(c, s, key, id, i); L.GainNow(c.limits[key].rate, s.cache.clock);
    case Cache(step) =>
      if step.Fetch? {
        L.GainNow(c.limits[key].rate, s.cache.clock);
      } else {
        LeftLater(c, s, t, key, id);
      }
  }

  ghost function AdmittedBy(c: Setup, s: State, key: string, id: nat, steps: seq<Step>): nat
    requires Legal(c, s, steps)
    decreases |steps|
  {
    if steps == [] then 0
    else (if AdmitsBy(c, s, key, id, steps[0]) then 1 else 0) + AdmittedBy(c, Next(c, s, steps[0]), key, id, steps[1..])
  }

  lemma LeftBounds(c: Setup, s: State, key: string, id: nat)
    requires Follows(c, s, key)
    ensures -L.Gain(c.limits[key].rate, 0.0, c.wait) <= Left(c, s, key, id) <= c.limits[key].burst as real
  {
    L.GainNonNegative(c.limits[key].rate, 0.0, c.wait);
    if id < |s.limiters| && s.limiters[id].key == key {
      assert LimiterOk(c, s.limiters[id], s.cache.clock);
      Late.CreditBounds(c.limits[key], c.wait, s.limiters[id].bucket, L.Bucket(key), s.cache.clock);
    }
  }

  lemma {:induction false} OneLimiter(c: Setup, s: State, key: string, id: nat, steps: seq<Step>)
    requires Follows(c, s, key) && Legal(c, s, steps)
    ensures AdmittedBy(c, s, key, id, steps) as real
            <= Left(c, s, key, id) + Yield(c, key, s, After(c, s, steps))
    decreases |steps|
  {
    LeftBounds(c, s, key, id);
    YieldIs(c, key, s, After(c, s, steps));
    if steps == [] {
      L.GainNow(c.limits[key].rate, s.cache.clock);
    } else {
      var t := Next(c, s, steps[0]);
      StepSound(c, s, steps[0]);
      StepLeft(c, s, key, id, steps[0]);
      OneLimiter(c, t, key, id, steps[1..]);
      YieldIs(c, key, t, After(c, s, steps));
      KB.GainAdds(c.limits[key].rate, s.cache.clock, t.cache.clock, After(c, s, steps).cache.clock);
    }
  }

  /* ---------- Every run ---------- */

  ghost predicate Uses(s: State, key: string, id: nat, a: Step) {
    a.Ask? && Holds(s, a.i) && s.cache.calls[a.i].key == key && s.cache.calls[a.i].phase.value == Some(id)
  }

  // Some call of the key asks the limiter.
  ghost predicate Used(c: Setup, s: State, key: string, id: nat, steps: seq<Step>)
    requires Legal(c, s, steps)
    decreases |steps|
  {
    steps != [] && (Uses(s, key, id, steps[0]) || Used(c, Next(c, s, steps[0]), key, id, steps[1..]))
  }

  // How many of the first n limiters calls of the key ask.
  ghost function UsedCount(c: Setup, s: State, key: string, steps: seq<Step>, n: nat): nat
    requires Legal(c, s, steps)
  {
    if n == 0 then 0 else UsedCount(c, s, key, steps, n - 1) + if Used(c, s, key, n - 1, steps) then 1 else 0
  }

  ghost function SumBy(c: Setup, s: State, key: string, steps: seq<Step>, n: nat): nat
    requires Legal(c, s, steps)
  {
    if n == 0 then 0 else SumBy(c, s, key, steps, n - 1) + AdmittedBy(c, s, key, n - 1, steps)
  }

  lemma {:induction false} UnusedAdmitsNone(c: Setup, s: State, key: string, id: nat, steps: seq<Step>)
    requires Legal(c, s, steps) && !Used(c, s, key, id, steps)
    ensures AdmittedBy(c, s, key, id, steps) == 0
    decreases |steps|
  {
    if steps != [] {
      UnusedAdmitsNone(c, Next(c, s, steps[0]), key, id, steps[1..]);
    }
  }

  lemma {:induction false} SumOfNone(c: Setup, s: State, key: string, n: nat)
    ensures SumBy(c, s, key, [], n) == 0
  {
    if n > 0 {
      SumOfNone(c, s, key, n - 1);
    }
  }

  // The first step's share of the sum.
  lemma {:induction false} SumStep(c: Setup, s: State, key: string, steps: seq<Step>, n: nat)
    requires Legal(c, s, steps) && steps != []
    ensures var a := steps[0];
            SumBy(c, s, key, steps, n)
            == SumBy(c, Next(c, s, a), key, steps[1..], n)
               + if Admits(c, s, key, a) && s.cache.calls[a.i].phase.value.Some? && s.cache.calls[a.i].phase.value.value < n then 1 else 0
  {
    if n > 0 {
      SumStep(c, s, key, steps, n - 1);
    }
  }

  lemma {:induction false} LimitersGrow(c: Setup, s: State, steps: seq<Step>)
    requires c.Valid() && Sound(c, s) && Legal(c, s, steps)
    ensures |s.limiters| <= |After(c, s, steps).limiters|
    decreases |steps|
  {
    if steps != [] {
      StepSound(c, s, steps[0]);
      LimitersGrow(c, Next(c, s, steps[0]), steps[1..]);
    }
  }

  lemma {:induction false} AdmittedIsSum(c: Setup, s: State, key: string, steps: seq<Step>, n: nat)
    requires c.Valid() && Sound(c, s) && Legal(c, s, steps) && key in c.limits && |After(c, s, steps).limiters| <= n
    ensures Admitted(c, s, key, steps) == SumBy(c, s, key, steps, n)
    decreases |steps|
  {
    if steps == [] {
      SumOfNone(c, s, key, n);
    } else {
      var a := steps[0];
      StepSound(c, s, a);
      LimitersGrow(c, s, steps);
      AdmittedIsSum(c, Next(c, s, a), key, steps[1..], n);
      SumStep(c, s, key, steps, n);
      if Admits(c, s, key, a) {
        assert CallOk(c, s, s.cache.calls[a.i]);
      }
    }
  }

  function Times(n: nat, x: real): real {
    if n == 0 then 0.0 else Times(n - 1, x) + x
  }

  lemma {:induction false} SumBounded(c: Setup, s: State, key: string, steps: seq<Step>, n: nat)
    requires Follows(c, s, key) && Legal(c, s, steps)
    ensures SumBy(c, s, key, steps, n) as real
            <= Times(UsedCount(c, s, key, steps, n),
                     c.limits[key].burst as real + Yield(c, key, s, After(c, s, steps)))
  {
    if n > 0 {
      SumBounded(c, s, key, steps, n - 1);
      if Used(c, s, key, n - 1, steps) {
        OneLimiter(c, s, key, n - 1, steps);
        LeftBounds(c, s, key, n - 1);
      } else {
        UnusedAdmitsNone(c, s, key, n - 1, steps);
      }
    }
  }

  /** In every interleaving, and every window of it, a key gets at most burst + rate * (wait +
    * length) from each limiter that its calls ask in the window. */
  lemma EveryRunBounded(c: Setup, before: seq<Step>, key: string, window: seq<Step>)
    requires c.Valid() && key in c.limits && Late.KeepsFor(c.limits[key], c.wait)
    requires Legal(c, Init(), before) && Legal(c, After(c, Init(), before), window)
    ensures var s := After(c, Init(), before); var t := After(c, s, window);
            Admitted(c, s, key, window) as real
            <= Times(UsedCount(c, s, key, window, |t.limiters|),
                     c.limits[key].burst as real + Yield(c, key, s, t))
  {
    var s := After(c, Init(), before);
    StartsSound(c);
    RunSound(c, Init(), before);
    AdmittedIsSum(c, s, key, window, |After(c, s, window).limiters|);
    SumBounded(c, s, key, window, |After(c, s, window).limiters|);
  }

  // A call of the key holds the limiter or has it to put, or the next one finds it.
  ghost predicate InUse(s: State, key: string, id: nat) {
    || (key in s.cache.cache && s.cache.cache[key].value == Some(id))
    || exists i :: 0 <= i < |s.cache.calls| && Has(s, key, id, i)
  }

  predicate Has(s: State, key: string, id: nat, i: nat) {
    && i < |s.cache.calls| && s.cache.calls[i].key == key && (s.cache.calls[i].phase.Fetched? || Holds(s, i))
    && s.cache.calls[i].phase.value == Some(id)
  }

  lemma WasHeld(c: Setup, s: State, key: string, id: nat, a: Step, i: nat)
    requires Can(c, s, a) && id < |s.limiters| && Has(Next(c, s, a), key, id, i)
    ensures InUse(s, key, id)
  {
    var t := Next(c, s, a);
    if i < |s.cache.calls| && t.cache.calls[i] == s.cache.calls[i] {
      assert Has(s, key, id, i);
    } else if a.Cache? && a.step.Put? {
      assert Has(s, key, id, a.step.i);
    }
  }

  lemma WasInUse(c: Setup, s: State, key: string, id: nat, a: Step)
    requires Can(c, s, a) && id < |s.limiters| && InUse(Next(c, s, a), key, id)
    ensures InUse(s, key, id)
  {
    var t := Next(c, s, a);
    if key in t.cache.cache && t.cache.cache[key].value == Some(id) {
      if a.Cache? && a.step.Put? && s.cache.calls[a.step.i].key == key {
        assert Has(s, key, id, a.step.i);
      }
    } else {
      var i :| 0 <= i < |t.cache.calls| && Has(t, key, id, i);
      WasHeld(c, s, key, id, a, i);
    }
  }

  lemma {:induction false} UsedWasInUse(c: Setup, s: State, key: string, id: nat, steps: seq<Step>)
    requires c.Valid() && Sound(c, s) && Legal(c, s, steps) && id < |s.limiters| && Used(c, s, key, id, steps)
    ensures InUse(s, key, id)
    decreases |steps|
  {
    if Uses(s, key, id, steps[0]) {
      assert Has(s, key, id, steps[0].i);
    } else {
      StepSound(c, s, steps[0]);
      UsedWasInUse(c, Next(c, s, steps[0]), key, id, steps[1..]);
      WasInUse(c, s, key, id, steps[0]);
    }
  }

  lemma {:induction false} KeysStay(c: Setup, s: State, steps: seq<Step>)
    requires c.Valid() && Sound(c, s) && Legal(c, s, steps)
    ensures Grown(s, After(c, s, steps))
    decreases |steps|
  {
    if steps != [] {
      StepSound(c, s, steps[0]);
      KeysStay(c, Next(c, s, steps[0]), steps[1..]);
    }
  }

  lemma {:induction false} UsedIsOfKey(c: Setup, s: State, key: string, id: nat, steps: seq<Step>)
    requires c.Valid() && Sound(c, s) && key in c.limits && Legal(c, s, steps) && Used(c, s, key, id, steps)
    ensures var t := After(c, s, steps); id < |t.limiters| && t.limiters[id].key == key
    decreases |steps|
  {
    if Uses(s, key, id, steps[0]) {
      assert CallOk(c, s, s.cache.calls[steps[0].i]);
      KeysStay(c, s, steps);
    } else {
      StepSound(c, s, steps[0]);
      UsedIsOfKey(c, Next(c, s, steps[0]), key, id, steps[1..]);
    }
  }

  // The limiters of the key that can still be asked, and those made on the way from s to t.
  ghost function Usable(s: State, key: string): set<nat> {
    set id: nat | id < |s.limiters| && InUse(s, key, id)
  }

  function MadeOnTheWay(s: State, t: State, key: string): set<nat> {
    set id: nat | id < |t.limiters| && |s.limiters| <= id && t.limiters[id].key == key
  }

  ghost function UsedSet(c: Setup, s: State, key: string, steps: seq<Step>, n: nat): set<nat>
    requires Legal(c, s, steps)
  {
    set id: nat | id < n && Used(c, s, key, id, steps)
  }

  lemma {:induction false} CountIsSize(c: Setup, s: State, key: string, steps: seq<Step>, n: nat)
    requires Legal(c, s, steps)
    ensures UsedCount(c, s, key, steps, n) == |UsedSet(c, s, key, steps, n)|
  {
    if n > 0 {
      CountIsSize(c, s, key, steps, n - 1);
      var less := UsedSet(c, s, key, steps, n - 1);
      assert UsedSet(c, s, key, steps, n) == if Used(c, s, key, n - 1, steps) then less + {n - 1} else less;
    }
  }

  lemma {:induction false} Smaller(a: set<nat>, b: set<nat>)
    requires a <= b
    ensures |a| <= |b|
    decreases |a|
  {
    if a != {} {
      var x :| x in a;
      Smaller(a - {x}, b - {x});
    }
  }

  lemma {:induction false} MoreTimes(n: nat, m: nat, x: real)
    requires n <= m && x >= 0.0
    ensures Times(n, x) <= Times(m, x)
    decreases m
  {
    if n < m {
      MoreTimes(n, m - 1, x);
    }
  }

  lemma UsedAtMost(c: Setup, s: State, key: string, steps: seq<Step>)
    requires c.Valid() && Sound(c, s) && key in c.limits && Legal(c, s, steps)
    ensures var t := After(c, s, steps);
            UsedCount(c, s, key, steps, |t.limiters|) <= |Usable(s, key)| + |MadeOnTheWay(s, t, key)|
  {
    var t := After(c, s, steps);
    var used := UsedSet(c, s, key, steps, |t.limiters|);
    forall id | id in used
      ensures id in Usable(s, key) + MadeOnTheWay(s, t, key)
    {
      UsedIsOfKey(c, s, key, id, steps);
      if id < |s.limiters| {
        UsedWasInUse(c, s, key, id, steps);
      }
    }
    CountIsSize(c, s, key, steps, |t.limiters|);
    Smaller(used, Usable(s, key) + MadeOnTheWay(s, t, key));
  }

  /** In every interleaving, and every window of it, a key gets at most burst + rate * (wait +
    * length) from each of its limiters that is in use when the window begins or made in it. */
  lemma LimitersMadeBound(c: Setup, before: seq<Step>, key: string, window: seq<Step>)
    requires c.Valid() && key in c.limits && Late.KeepsFor(c.limits[key], c.wait)
    requires Legal(c, Init(), before) && Legal(c, After(c, Init(), before), window)
    ensures var s := After(c, Init(), before); var t := After(c, s, window);
            Admitted(c, s, key, window) as real
            <= Times(|Usable(s, key)| + |MadeOnTheWay(s, t, key)|,
                     c.limits[key].burst as real + Yield(c, key, s, t))
  {
    var s := After(c, Init(), before);
    var t := After(c, s, window);
    StartsSound(c);
    RunSound(c, Init(), before);
    RunSound(c, s, window);
    EveryRunBounded(c, before, key, window);
    UsedAtMost(c, s, key, window);
    L.GainNonNegative(c.limits[key].rate, s.cache.clock - c.wait, t.cache.clock);
    MoreTimes(UsedCount(c, s, key, window, |t.limiters|), |Usable(s, key)| + |MadeOnTheWay(s, t, key)|,
              c.limits[key].burst as real + Yield(c, key, s, t));
  }

  /* ---------- Runs without holders of an old limiter ---------- */

  // Calls of the key hold the limiter last put, which is the one in the map; those put next
  // have not been asked.
  ghost predicate Current(s: State, key: string) {
    && (forall i :: 0 <= i < |s.cache.calls| && Holds(s, i) && s.cache.calls[i].key == key ==> IsLatest(s, key, s.cache.calls[i].phase.value))
    && (key in s.cache.cache ==> IsLatest(s, key, s.cache.cache[key].value))
    && (forall i :: 0 <= i < |s.cache.calls| && s.cache.calls[i].phase.Fetched? && s.cache.calls[i].key == key ==> Unasked(s, key, s.cache.calls[i].phase.value))
  }

  predicate IsLatest(s: State, key: string, value: Handle) {
    key in s.latest && value == Some(s.latest[key].id)
  }

  // A limiter nobody has been given yet.
  predicate Unasked(s: State, key: string, value: Handle) {
    && value.Some? && value.value < |s.limiters| && s.limiters[value.value].bucket == L.Empty
    && (key in s.latest ==> s.latest[key].id != value.value)
  }

  // Fetched limiters are different ones.
  ghost predicate Apart(s: State) {
    forall i, j :: 0 <= i < j < |s.cache.calls| ==> NotBoth(s.cache.calls[i], s.cache.calls[j])
  }

  predicate NotBoth(a: C.Call<Handle>, b: C.Call<Handle>) {
    a.phase.Fetched? && b.phase.Fetched? && a.phase.value.Some? ==> a.phase.value != b.phase.value
  }

  lemma ApartStep(c: Setup, s: State, a: Step)
    requires Sound(c, s) && Apart(s) && Can(c, s, a)
    ensures Apart(Next(c, s, a))
  {
    var t := Next(c, s, a);
    forall i, j | 0 <= i < j < |t.cache.calls|
      ensures NotBoth(t.cache.calls[i], t.cache.calls[j])
    {
      if a.Cache? && a.step.Fetch? {
        ApartFetch(c, s, a.step.i, a.step.answer, i, j);
      } else {
        OnlyKept(c, s, a, i);
        OnlyKept(c, s, a, j);
        assert i < |s.cache.calls| && j < |s.cache.calls| ==> NotBoth(s.cache.calls[i], s.cache.calls[j]);
      }
    }
  }

  // Only a fetch gives a call a limiter to put.
  lemma OnlyKept(c: Setup, s: State, a: Step, i: nat)
    requires Can(c, s, a) && !(a.Cache? && a.step.Fetch?) && i < |Next(c, s, a).cache.calls|
    ensures Next(c, s, a).cache.calls[i].phase.Fetched? ==> i < |s.cache.calls| && s.cache.calls[i] == Next(c, s, a).cache.calls[i]
  {
  }

  lemma ApartFetch(c: Setup, s: State, n: nat, answer: Option<Handle>, i: nat, j: nat)
    requires Sound(c, s) && Apart(s) && Can(c, s, Cache(C.Fetch(n, answer))) && i < j < |s.cache.calls|
    ensures var t := Next(c, s, Cache(C.Fetch(n, answer))); NotBoth(t.cache.calls[i], t.cache.calls[j])
  {
    assert NotBoth(s.cache.calls[i], s.cache.calls[j]) && CallOk(c, s, s.cache.calls[i]) && CallOk(c, s, s.cache.calls[j]);
  }

  lemma CurrentFetch(c: Setup, s: State, key: string, i: nat, answer: Option<Handle>)
    requires Sound(c, s) && Current(s, key) && key in c.limits && Can(c, s, Cache(C.Fetch(i, answer)))
    ensures Current(Next(c, s, Cache(C.Fetch(i, answer))), key)
  {
    var t := Next(c, s, Cache(C.Fetch(i, answer)));
    assert key in s.latest ==> HandleOf(c, s, key, Some(s.latest[key].id));
    forall j | 0 <= j < |t.cache.calls| && t.cache.calls[j].phase.Fetched? && t.cache.calls[j].key == key
      ensures Unasked(t, key, t.cache.calls[j].phase.value)
    {
      if j != i {
        assert Unasked(s, key, s.cache.calls[j].phase.value);
      }
    }
    assert forall j :: 0 <= j < |t.cache.calls| && Holds(t, j) ==> Holds(s, j) && t.cache.calls[j] == s.cache.calls[j];
  }

  lemma CurrentPut(c: Setup, s: State, key: string, i: nat)
    requires Sound(c, s) && Apart(s) && Current(s, key) && key in c.limits && Can(c, s, Cache(C.Put(i)))
    requires s.cache.calls[i].key == key ==> Holders(s, key) == {}
    ensures Current(Next(c, s, Cache(C.Put(i))), key)
  {
    var t := Next(c, s, Cache(C.Put(i)));
    assert CallOk(c, s, s.cache.calls[i]);
    assert forall j :: 0 <= j < |s.cache.calls| && Holds(s, j) && s.cache.calls[j].key == key ==> j in Holders(s, key);
    forall j | 0 <= j < |t.cache.calls| && t.cache.calls[j].phase.Fetched? && t.cache.calls[j].key == key
      ensures Unasked(t, key, t.cache.calls[j].phase.value)
    {
      StillUnasked(c, s, key, i, j);
    }
  }

  lemma StillUnasked(c: Setup, s: State, key: string, i: nat, j: nat)
    requires Sound(c, s) && Apart(s) && Current(s, key) && key in c.limits && Can(c, s, Cache(C.Put(i)))
    requires j < |s.cache.calls| && j != i && s.cache.calls[j].phase.Fetched? && s.cache.calls[j].key == key
    ensures Unasked(Next(c, s, Cache(C.Put(i))), key, s.cache.calls[j].phase.value)
  {
    assert CallOk(c, s, s.cache.calls[i]) && Unasked(s, key, s.cache.calls[j].phase.value);
    assert j < i ==> NotBoth(s.cache.calls[j], s.cache.calls[i]);
    assert i < j ==> NotBoth(s.cache.calls[i], s.cache.calls[j]);
  }

  lemma CurrentAsk(c: Setup, s: State, key: string, i: nat)
    requires Sound(c, s) && Current(s, key) && CanAsk(c, s, i)
    ensures Current(Asked(s, i), key)
  {
    var t := Asked(s, i);
    assert CallOk(c, s, s.cache.calls[i]);
    forall j | 0 <= j < |t.cache.calls| && t.cache.calls[j].phase.Fetched? && t.cache.calls[j].key == key
      ensures Unasked(t, key, t.cache.calls[j].phase.value)
    {
      assert Unasked(s, key, s.cache.calls[j].phase.value);
      assert CallOk(c, s, s.cache.calls[j]);
    }
  }

  lemma CurrentLook(c: Setup, s: State, key: string, a: Step)
    requires Sound(c, s) && Current(s, key) && Can(c, s, a) && a.Cache? && !a.step.Fetch? && !a.step.Put?
    ensures Current(Next(c, s, a), key)
  {
    var t := Next(c, s, a);
    forall j | 0 <= j < |t.cache.calls| && Holds(t, j) && t.cache.calls[j].key == key
      ensures IsLatest(t, key, t.cache.calls[j].phase.value)
    {
      LookHolds(c, s, key, a, j);
    }
    forall j | 0 <= j < |t.cache.calls| && t.cache.calls[j].phase.Fetched? && t.cache.calls[j].key == key
      ensures Unasked(t, key, t.cache.calls[j].phase.value)
    {
      assert j < |s.cache.calls| && s.cache.calls[j] == t.cache.calls[j];
    }
  }

  // Who holds a limiter after a look held it before, or found it in the map.
  lemma LookHolds(c: Setup, s: State, key: string, a: Step, j: nat)
    requires Current(s, key) && Can(c, s, a) && a.Cache? && !a.step.Fetch? && !a.step.Put?
    requires j < |Next(c, s, a).cache.calls| && Holds(Next(c, s, a), j) && Next(c, s, a).cache.calls[j].key == key
    ensures IsLatest(s, key, Next(c, s, a).cache.calls[j].phase.value)
  {
    assert j < |s.cache.calls|;
    assert Holds(s, j) ==> IsLatest(s, key, s.cache.calls[j].phase.value);
  }

  lemma CurrentRead(c: Setup, s: State, key: string, i: nat)
    requires Current(s, key) && Can(c, s, Read(i))
    ensures Current(Next(c, s, Read(i)), key)
  {
    var t := Next(c, s, Read(i));
    forall j | 0 <= j < |t.cache.calls| && t.cache.calls[j].phase.Fetched? && t.cache.calls[j].key == key
      ensures Unasked(t, key, t.cache.calls[j].phase.value)
    {
      assert Unasked(s, key, s.cache.calls[j].phase.value);
    }
  }

  lemma CurrentStep(c: Setup, s: State, key: string, a: Step)
    requires Sound(c, s) && Apart(s) && Current(s, key) && key in c.limits && Can(c, s, a)
    requires Puts(s, key, a) ==> Holders(s, key) == {}
    ensures Current(Next(c, s, a), key)
  {
    if a.Ask? {
      CurrentAsk(c, s, key, a.i);
    } else if a.Read? {
      CurrentRead(c, s, key, a.i);
    } else if a.step.Fetch? {
      CurrentFetch(c, s, key, a.step.i, a.step.answer);
    } else if a.step.Put? {
      CurrentPut(c, s, key, a.step.i);
    } else {
      CurrentLook(c, s, key, a);
    }
  }

  // What the key may still get without gaining or a new limiter.
  ghost function KeyLeft(c: Setup, s: State, key: string): real
    requires key in c.limits
  {
    if key in s.latest then Left(c, s, key, s.latest[key].id) else c.limits[key].burst as real
  }

  lemma AdmitsLatest(c: Setup, s: State, key: string, a: Step)
    requires Current(s, key) && Admits(c, s, key, a)
    ensures key in s.latest && AdmitsBy(c, s, key, s.latest[key].id, a)
  {
    assert IsLatest(s, key, s.cache.calls[a.i].phase.value);
  }

  // What one limiter can admit at once: a burst, and what the rate yields in the wait.
  function Share(c: Setup, key: string): real
    requires key in c.limits
  {
    c.limits[key].burst as real + L.Gain(c.limits[key].rate, 0.0, c.wait)
  }

  lemma FreshLeft(c: Setup, s: State, key: string, value: Handle)
    requires key in c.limits && value.Some? && value.value < |s.limiters|
    requires s.limiters[value.value].key == key && s.limiters[value.value].bucket == L.Empty
    ensures Left(c, s, key, value.value) == c.limits[key].burst as real
  {
  }

  lemma PutLeft(c: Setup, s: State, key: string, a: Step)
    requires Follows(c, s, key) && Current(s, key) && Can(c, s, a) && Puts(s, key, a)
    ensures KeyLeft(c, Next(c, s, a), key) <= KeyLeft(c, s, key) + if Replaces(s, key, a) then Share(c, key) else 0.0
  {
    var value := s.cache.calls[a.step.i].phase.value;
    assert Unasked(s, key, value) && CallOk(c, s, s.cache.calls[a.step.i]);
    FreshLeft(c, Next(c, s, a), key, value);
    if key in s.latest {
      LeftBounds(c, s, key, s.latest[key].id);
    }
  }

  lemma KeyStep(c: Setup, s: State, key: string, a: Step)
    requires Follows(c, s, key) && Current(s, key) && Can(c, s, a)
    ensures var t := Next(c, s, a);
            (if Admits(c, s, key, a) then 1.0 else 0.0) + KeyLeft(c, t, key)
            <= KeyLeft(c, s, key) + L.Gain(c.limits[key].rate, s.cache.clock, t.cache.clock)
               + if Replaces(s, key, a) then Share(c, key) else 0.0
  {
    StepSound(c, s, a);
    var t := Next(c, s, a);
    L.GainNonNegative(c.limits[key].rate, s.cache.clock, t.cache.clock);
    if Puts(s, key, a) {
      PutLeft(c, s, key, a);
    } else {
      LatestKept(c, s, key, a);
      if key in s.latest {
        StepLeft(c, s, key, s.latest[key].id, a);
      }
      if Admits(c, s, key, a) {
        AdmitsLatest(c, s, key, a);
      }
    }
  }

  lemma LatestKept(c: Setup, s: State, key: string, a: Step)
    requires Can(c, s, a) && !Puts(s, key, a)
    ensures var t := Next(c, s, a); (key in t.latest <==> key in s.latest) && (key in s.latest ==> t.latest[key] == s.latest[key])
  {
  }

  lemma {:induction false} RunLeft(c: Setup, s: State, key: string, steps: seq<Step>)
    requires Follows(c, s, key) && Current(s, key) && Apart(s) && Legal(c, s, steps) && HoldersAtMost(c, s, key, 0, steps)
    ensures Admitted(c, s, key, steps) as real
            <= KeyLeft(c, s, key) + L.Gain(c.limits[key].rate, 0.0, c.wait) + Times(Replaced(c, s, key, steps), Share(c, key))
               + L.Gain(c.limits[key].rate, s.cache.clock, After(c, s, steps).cache.clock)
    decreases |steps|
  {
    if steps == [] {
      L.GainNow(c.limits[key].rate, s.cache.clock);
      KeyLeftBounds(c, s, key);
    } else {
      var a := steps[0];
      var t := Next(c, s, a);
      StepKept(c, s, key, a);
      KeyStep(c, s, key, a);
      RunLeft(c, t, key, steps[1..]);
      KB.GainAdds(c.limits[key].rate, s.cache.clock, t.cache.clock, After(c, s, steps).cache.clock);
    }
  }

  lemma StepKept(c: Setup, s: State, key: string, a: Step)
    requires Follows(c, s, key) && Current(s, key) && Apart(s) && Can(c, s, a) && (Puts(s, key, a) ==> |Holders(s, key)| <= 0)
    ensures var t := Next(c, s, a); Follows(c, t, key) && Current(t, key) && Apart(t)
  {
    StepSound(c, s, a);
    ApartStep(c, s, a);
    CurrentStep(c, s, key, a);
  }

  lemma {:induction false} RunKept(c: Setup, s: State, key: string, steps: seq<Step>)
    requires Follows(c, s, key) && Current(s, key) && Apart(s) && Legal(c, s, steps) && HoldersAtMost(c, s, key, 0, steps)
    ensures var t := After(c, s, steps); Follows(c, t, key) && Current(t, key) && Apart(t)
    decreases |steps|
  {
    if steps != [] {
      StepKept(c, s, key, steps[0]);
      RunKept(c, Next(c, s, steps[0]), key, steps[1..]);
    }
  }

  lemma KeyLeftBounds(c: Setup, s: State, key: string)
    requires Follows(c, s, key)
    ensures -L.Gain(c.limits[key].rate, 0.0, c.wait) <= KeyLeft(c, s, key) <= c.limits[key].burst as real
  {
    L.GainNonNegative(c.limits[key].rate, 0.0, c.wait);
    if key in s.latest {
      LeftBounds(c, s, key, s.latest[key].id);
    }
  }

  // A run and a window of it.
  ghost predicate Window(c: Setup, key: string, holders: nat, before: seq<Step>, window: seq<Step>) {
    && Legal(c, Init(), before) && HoldersAtMost(c, Init(), key, holders, before)
    && Legal(c, After(c, Init(), before), window) && HoldersAtMost(c, After(c, Init(), before), key, holders, window)
  }

  /** Where no limiter is put while another call still holds one: in any window the key gets at
    * most burst + rate * (wait + length), and burst + rate * wait more for each limiter replaced
    * in it. */
  lemma WindowBound(c: Setup, key: string, before: seq<Step>, window: seq<Step>)
    requires c.Valid() && key in c.limits && Late.KeepsFor(c.limits[key], c.wait) && Window(c, key, 0, before, window)
    ensures var s := After(c, Init(), before); var t := After(c, s, window);
            Admitted(c, s, key, window) as real
            <= Share(c, key) + Times(Replaced(c, s, key, window), Share(c, key)) + L.Gain(c.limits[key].rate, s.cache.clock, t.cache.clock)
  {
    StartsCurrent(c, key);
    RunKept(c, Init(), key, before);
    WindowLeft(c, After(c, Init(), before), key, window);
  }

  lemma StartsCurrent(c: Setup, key: string)
    requires c.Valid() && key in c.limits && Late.KeepsFor(c.limits[key], c.wait)
    ensures Follows(c, Init(), key) && Current(Init(), key) && Apart(Init())
  {
    StartsSound(c);
  }

  lemma WindowLeft(c: Setup, s: State, key: string, window: seq<Step>)
    requires Follows(c, s, key) && Current(s, key) && Apart(s) && Legal(c, s, window) && HoldersAtMost(c, s, key, 0, window)
    ensures Admitted(c, s, key, window) as real
            <= Share(c, key) + Times(Replaced(c, s, key, window), Share(c, key))
               + L.Gain(c.limits[key].rate, s.cache.clock, After(c, s, window).cache.clock)
  {
    RunLeft(c, s, key, window);
    KeyLeftBounds(c, s, key);
  }
}
