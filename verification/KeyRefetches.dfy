/** When a key's limiter is replaced: only at a refetch by the request times, or also in races
  * of interleaved calls.
  */
module KeyRefetches {
  import opened KeyRateSteps
  import C = TtlCache
  import R = TtlRaces

  predicate Fetches(call: C.Call<Handle>) {
    call.phase.Fetching? || call.phase.Fetched?
  }

  // The calls of the key between their miss and their put.
  ghost function Fetchers(s: State, key: string): set<nat> {
    set i | 0 <= i < |s.cache.calls| && s.cache.calls[i].key == key && Fetches(s.cache.calls[i])
  }

  ghost predicate Misses(c: Setup, s: State, key: string, a: Step) {
    && a.Cache? && a.step.Recheck? && C.Can(s.cache, a.step)
    && s.cache.calls[a.step.i].key == key && !C.Hits(c.ttl, s.cache.cache, s.cache.calls[a.step.i])
  }

  // When a call of the key misses, at most so many others are fetching; and no call stalls
  // for longer than that between reading the clock and looking.
  ghost predicate StepTame(c: Setup, s: State, key: string, overlap: nat, stall: real, a: Step) {
    && (Misses(c, s, key, a) ==> |Fetchers(s, key)| <= overlap)
    && (a.Cache? && a.step.Recheck? && C.Can(s.cache, a.step) ==> R.NoneStalled(stall, s.cache, a.step.i))
  }

  ghost predicate Tame(c: Setup, s: State, key: string, overlap: nat, stall: real, steps: seq<Step>)
    requires Legal(c, s, steps)
    decreases |steps|
  {
    steps == [] || (StepTame(c, s, key, overlap, stall, steps[0]) && Tame(c, Next(c, s, steps[0]), key, overlap, stall, steps[1..]))
  }

  // A limiter is put only for the first time, or a TTL or more after the fetch of the one
  // before it, by the clocks that the two calls had read.
  ghost predicate ByTimes(c: Setup, s: State, key: string, a: Step) {
    Replaces(s, key, a) ==> s.cache.calls[a.step.i].now - s.latest[key].fetchedAt >= c.ttl
  }

  ghost predicate AllByTimes(c: Setup, s: State, key: string, steps: seq<Step>)
    requires Legal(c, s, steps)
    decreases |steps|
  {
    steps == [] || (ByTimes(c, s, key, steps[0]) && AllByTimes(c, Next(c, s, steps[0]), key, steps[1..]))
  }

  /* ---------- Without overlap and stalls ---------- */

  predicate Old(c: Setup, s: State, key: string, now: real) {
    key in s.latest ==> now - s.latest[key].fetchedAt >= c.ttl
  }

  // Whoever is to fetch, or can no longer find the entry, comes a TTL or more after it.
  ghost predicate InOrder(c: Setup, s: State, key: string) {
    && (forall i :: 0 <= i < |s.cache.calls| ==> s.cache.calls[i].now <= s.cache.clock)
    && (key in s.cache.cache ==> key in s.latest && s.cache.cache[key].fetchedAt == s.latest[key].fetchedAt)
    && (key !in s.cache.cache ==>
          && Old(c, s, key, s.cache.clock)
          && forall i :: 0 <= i < |s.cache.calls| && s.cache.calls[i].key == key && R.Looks(s.cache.calls[i]) ==> Old(c, s, key, s.cache.calls[i].now))
    && (forall i :: 0 <= i < |s.cache.calls| && s.cache.calls[i].key == key && Fetches(s.cache.calls[i]) ==> Old(c, s, key, s.cache.calls[i].now))
    && (forall i, j :: 0 <= i < j < |s.cache.calls| && s.cache.calls[i].key == key && s.cache.calls[j].key == key
          ==> !Fetches(s.cache.calls[i]) || !Fetches(s.cache.calls[j]))
  }

  lemma SweepInOrder(c: Setup, s: State, key: string, i: nat)
    requires c.Valid() && InOrder(c, s, key) && i < |s.cache.calls| && R.NoneStalled(9.0 * c.ttl, s.cache, i)
    ensures InOrder(c, s.(cache := C.Sweep(c.ttl, s.cache, s.cache.calls[i].now)), key)
  {
    var now := s.cache.calls[i].now;
    var t := s.(cache := C.Sweep(c.ttl, s.cache, now));
    if key in s.cache.cache && key !in t.cache.cache {
      assert now - s.latest[key].fetchedAt > 10.0 * c.ttl;
      forall j | 0 <= j < |t.cache.calls| && t.cache.calls[j].key == key && R.Looks(t.cache.calls[j])
        ensures Old(c, t, key, t.cache.calls[j].now)
      {
        assert now - s.cache.calls[j].now <= 9.0 * c.ttl;
      }
    }
  }

  lemma LookInOrder(c: Setup, s: State, key: string, i: nat, phase: C.Phase<Handle>)
    requires InOrder(c, s, key) && i < |s.cache.calls| && R.Looks(s.cache.calls[i]) && !phase.Fetched? && !phase.Started?
    requires phase.Fetching? && s.cache.calls[i].key == key ==> Fetchers(s, key) == {} && Old(c, s, key, s.cache.calls[i].now)
    ensures InOrder(c, s.(cache := C.WithPhase(s.cache, i, phase)), key)
  {
    var t := s.(cache := C.WithPhase(s.cache, i, phase));
    assert forall j :: 0 <= j < |s.cache.calls| && s.cache.calls[j].key == key && Fetches(s.cache.calls[j]) ==> j in Fetchers(s, key);
    assert forall j :: 0 <= j < |t.cache.calls| && j != i ==> t.cache.calls[j] == s.cache.calls[j];
  }

  lemma RecheckInOrder(c: Setup, s: State, key: string, i: nat)
    requires c.Valid() && InOrder(c, s, key) && C.Can(s.cache, C.Recheck(i)) && StepTame(c, s, key, 0, 9.0 * c.ttl, Cache(C.Recheck(i)))
    ensures InOrder(c, s.(cache := CacheNext(c, s.cache, C.Recheck(i))), key)
  {
    var call := s.cache.calls[i];
    assert R.Looks(call);
    if C.Hits(c.ttl, s.cache.cache, call) {
      LookInOrder(c, s, key, i, C.Returned(s.cache.cache[call.key].value, s.cache.cache[call.key].readAt));
    } else {
      assert call.key == key ==> Old(c, s, key, call.now);
      assert Misses(c, s, key, Cache(C.Recheck(i))) <==> call.key == key;
      var u := if c.sweeping then s.(cache := C.Sweep(c.ttl, s.cache, call.now)) else s;
      SweepInOrder(c, s, key, i);
      assert Fetchers(u, key) == Fetchers(s, key);
      LookInOrder(c, u, key, i, C.Fetching);
      assert s.(cache := CacheNext(c, s.cache, C.Recheck(i))) == u.(cache := C.WithPhase(u.cache, i, C.Fetching));
    }
  }

  lemma PutInOrder(c: Setup, s: State, key: string, i: nat)
    requires Sound(c, s) && key in c.limits && InOrder(c, s, key) && Can(c, s, Cache(C.Put(i)))
    ensures InOrder(c, Next(c, s, Cache(C.Put(i))), key)
  {
    var t := Next(c, s, Cache(C.Put(i)));
    assert CallOk(c, s, s.cache.calls[i]);
    assert forall j :: 0 <= j < |t.cache.calls| && j != i ==> t.cache.calls[j] == s.cache.calls[j];
  }

  lemma OtherInOrder(c: Setup, s: State, key: string, step: C.Step<Handle>)
    requires InOrder(c, s, key) && Can(c, s, Cache(step)) && (step.Advance? || step.Start? || step.Fetch?)
    ensures InOrder(c, Next(c, s, Cache(step)), key)
  {
    var t := Next(c, s, Cache(step));
    forall i | 0 <= i < |t.cache.calls| && t.cache.calls[i].key == key && Fetches(t.cache.calls[i])
      ensures i < |s.cache.calls| && s.cache.calls[i].key == key && Fetches(s.cache.calls[i]) && s.cache.calls[i].now == t.cache.calls[i].now
    {
    }
  }

  lemma CacheInOrder(c: Setup, s: State, key: string, step: C.Step<Handle>)
    requires c.Valid() && Sound(c, s) && key in c.limits && InOrder(c, s, key) && Can(c, s, Cache(step))
    requires StepTame(c, s, key, 0, 9.0 * c.ttl, Cache(step))
    ensures InOrder(c, Next(c, s, Cache(step)), key)
  {
    if step.Put? {
      PutInOrder(c, s, key, step.i);
    } else if step.Recheck? {
      RecheckInOrder(c, s, key, step.i);
    } else if step.Look? {
      LookInOrder(c, s, key, step.i, Next(c, s, Cache(step)).cache.calls[step.i].phase);
    } else {
      OtherInOrder(c, s, key, step);
    }
  }

  lemma StepInOrder(c: Setup, s: State, key: string, a: Step)
    requires c.Valid() && Sound(c, s) && key in c.limits && InOrder(c, s, key) && Can(c, s, a)
    requires StepTame(c, s, key, 0, 9.0 * c.ttl, a)
    ensures InOrder(c, Next(c, s, a), key) && ByTimes(c, s, key, a)
  {
    if a.Cache? {
      CacheInOrder(c, s, key, a.step);
    }
  }

  lemma SetMonotone(small: real, large: real, s: State, i: nat)
    requires small <= large && i < |s.cache.calls| && R.NoneStalled(small, s.cache, i)
    ensures R.NoneStalled(large, s.cache, i)
  {
  }

  lemma {:induction false} RunInOrder(c: Setup, s: State, key: string, stall: real, steps: seq<Step>)
    requires c.Valid() && Sound(c, s) && key in c.limits && InOrder(c, s, key) && Legal(c, s, steps)
    requires stall <= 9.0 * c.ttl && Tame(c, s, key, 0, stall, steps)
    ensures AllByTimes(c, s, key, steps)
    decreases |steps|
  {
    if steps != [] {
      var a := steps[0];
      if a.Cache? && a.step.Recheck? {
        SetMonotone(stall, 9.0 * c.ttl, s, a.step.i);
      }
      StepSound(c, s, a);
      StepInOrder(c, s, key, a);
      RunInOrder(c, Next(c, s, a), key, stall, steps[1..]);
    }
  }

  lemma RefetchesOnly(c: Setup, key: string, stall: real, steps: seq<Step>)
    requires c.Valid() && key in c.limits && Legal(c, Init(), steps)
    requires stall <= 9.0 * c.ttl && Tame(c, Init(), key, 0, stall, steps)
    ensures AllByTimes(c, Init(), key, steps)
  {
    StartsSound(c);
    RunInOrder(c, Init(), key, stall, steps);
  }
}
