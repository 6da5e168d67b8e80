/** KeyAwareRateLimiter (internal/proxy/key_rate_limiter.go) in lock-sized steps. The calls
  * that pass the global limiter look for the key's entry, fetch and put a new limiter if it
  * is missing or stale, and ask the limiter they hold, in any order: they read the clock for
  * it, and later get its lock. The lookup takes the steps of the TTL cache; what it caches is
  * which limiter was made.
  */
module KeyRateSteps {
  import opened Options
  import L = RateLimiter
  import Late = LateReadings
  import C = TtlCache
  import R = TtlRaces

  // The number of a limiter, or that the key has no limit.
  type Handle = Option<nat>

  datatype Made = Made(key: string, config: L.Config, bucket: L.State)

  // The limiter last put for a key, and the clock its call had read.
  datatype Latest = Latest(id: nat, fetchedAt: real)

  // Limiters are shared objects, numbered in the order they are made; `readings` are those of
  // the calls that have read the clock to ask, `answers` those of the calls that have ended.
  datatype State = State(cache: C.State<Handle>, limiters: seq<Made>, readings: map<nat, real>, answers: map<nat, bool>,
                         latest: map<string, Latest>)

  datatype Step = Cache(step: C.Step<Handle>) | Read(i: nat) | Ask(i: nat)

  // The limits the store has for the keys; `sweeping` says whether stale entries are swept;
  // `wait` is how long a call may wait for a limiter's lock, its clock reading growing old.
  datatype Setup = Setup(ttl: real, limits: map<string, L.Config>, sweeping: bool, wait: real) {
    ghost predicate Valid() {
      ttl > 0.0 && wait >= 0.0 && forall k :: k in limits ==> limits[k].Valid()
    }
  }

  ghost function Init(): State {
    State(C.Init(), [], map[], map[], map[])
  }

  function NewHandle(c: Setup, s: State, key: string): Handle {
    if key in c.limits then Some(|s.limiters|) else None
  }

  predicate Holds(s: State, i: nat) {
    i < |s.cache.calls| && s.cache.calls[i].phase.Returned? && i !in s.answers
  }

  predicate CanAsk(c: Setup, s: State, i: nat) {
    Holds(s, i) && i in s.readings && s.cache.clock - s.readings[i] <= c.wait
  }

  // The store has a limit of its own for each key, and keys are never invalidated.
  ghost predicate Can(c: Setup, s: State, a: Step) {
    match a
    case Read(i) => Holds(s, i) && i !in s.readings
    case Ask(i) => CanAsk(c, s, i)
    case Cache(step) =>
      && C.Can(s.cache, step) && !step.Invalidate?
      && (step.Fetch? ==> step.answer == Some(NewHandle(c, s, s.cache.calls[step.i].key)))
  }

  ghost function CacheNext(c: Setup, s: C.State<Handle>, step: C.Step<Handle>): C.State<Handle>
    requires C.Can(s, step)
  {
    if c.sweeping then C.Next(c.ttl, s, step) else R.NextKept(c.ttl, s, step)
  }

  ghost function LimitersNext(c: Setup, s: State, step: C.Step<Handle>): seq<Made>
    requires C.Can(s.cache, step)
  {
    if step.Fetch? && s.cache.calls[step.i].key in c.limits
    then s.limiters + [Made(s.cache.calls[step.i].key, c.limits[s.cache.calls[step.i].key], L.Empty)]
    else s.limiters
  }

  ghost function LatestNext(s: State, step: C.Step<Handle>): map<string, Latest>
    requires C.Can(s.cache, step)
  {
    if step.Put? && s.cache.calls[step.i].phase.value.Some?
    then s.latest[s.cache.calls[step.i].key := Latest(s.cache.calls[step.i].phase.value.value, s.cache.calls[step.i].now)]
    else s.latest
  }

  // limiter.Allow under its lock, with the time the call has read.
  function Asked(s: State, i: nat): State
    requires Holds(s, i) && i in s.readings
  {
    var call := s.cache.calls[i];
    if call.phase.value.None? || call.phase.value.value >= |s.limiters| then s.(answers := s.answers[i := true])
    else
      var id := call.phase.value.value;
      var m := s.limiters[id];
      var a := L.Admit(m.config, m.bucket, L.Call(call.key, s.readings[i]));
      s.(limiters := s.limiters[id := m.(bucket := a.s)], answers := s.answers[i := a.ok])
  }

  ghost function Next(c: Setup, s: State, a: Step): State
    requires Can(c, s, a)
  {
    match a
    case Read(i) => s.(readings := s.readings[i := s.cache.clock])
    case Ask(i) => Asked(s, i)
    case Cache(step) => s.(cache := CacheNext(c, s.cache, step), limiters := LimitersNext(c, s, step), latest := LatestNext(s, step))
  }

  ghost predicate Legal(c: Setup, s: State, steps: seq<Step>)
    decreases |steps|
  {
    steps == [] || (Can(c, s, steps[0]) && Legal(c, Next(c, s, steps[0]), steps[1..]))
  }

  ghost function After(c: Setup, s: State, steps: seq<Step>): State
    requires Legal(c, s, steps)
    decreases |steps|
  {
    if steps == [] then s else After(c, Next(c, s, steps[0]), steps[1..])
  }

  /* ---------- What a run amounts to for one key ---------- */

  // The step admits a request of the key, with the limiter `id` if one is given.
  ghost predicate Admits(c: Setup, s: State, key: string, a: Step) {
    a.Ask? && CanAsk(c, s, a.i) && s.cache.calls[a.i].key == key && a.i in Asked(s, a.i).answers && Asked(s, a.i).answers[a.i]
  }

  ghost predicate Puts(s: State, key: string, a: Step) {
    a.Cache? && a.step.Put? && C.Can(s.cache, a.step) && s.cache.calls[a.step.i].key == key
  }

  // It puts a limiter in place of one put before.
  ghost predicate Replaces(s: State, key: string, a: Step) {
    Puts(s, key, a) && key in s.latest
  }

  // The calls of the key that hold a limiter and have not asked it yet.
  ghost function Holders(s: State, key: string): set<nat> {
    set i | 0 <= i < |s.cache.calls| && Holds(s, i) && s.cache.calls[i].key == key
  }

  ghost function Admitted(c: Setup, s: State, key: string, steps: seq<Step>): nat
    requires Legal(c, s, steps)
    decreases |steps|
  {
    if steps == [] then 0
    else (if Admits(c, s, key, steps[0]) then 1 else 0) + Admitted(c, Next(c, s, steps[0]), key, steps[1..])
  }

  ghost function Replaced(c: Setup, s: State, key: string, steps: seq<Step>): nat
    requires Legal(c, s, steps)
    decreases |steps|
  {
    if steps == [] then 0
    else (if Replaces(s, key, steps[0]) then 1 else 0) + Replaced(c, Next(c, s, steps[0]), key, steps[1..])
  }

  // Whenever a limiter is put, at most so many calls hold one they have not asked.
  ghost predicate HoldersAtMost(c: Setup, s: State, key: string, holders: nat, steps: seq<Step>)
    requires Legal(c, s, steps)
    decreases |steps|
  {
    steps == []
    || ((Puts(s, key, steps[0]) ==> |Holders(s, key)| <= holders) && HoldersAtMost(c, Next(c, s, steps[0]), key, holders, steps[1..]))
  }

  lemma {:induction false} TwoParts(c: Setup, s: State, a: seq<Step>, b: seq<Step>)
    requires Legal(c, s, a) && Legal(c, After(c, s, a), b)
    ensures Legal(c, s, a + b) && After(c, s, a + b) == After(c, After(c, s, a), b)
    decreases |a|
  {
    if a == [] {
      assert a + b == b;
    } else {
      assert (a + b)[0] == a[0] && (a + b)[1..] == a[1..] + b;
      var n := Next(c, s, a[0]);
      TwoParts(c, n, a[1..], b);
    }
  }

  /* ---------- What every run keeps ---------- */

  // A handle is that of a limiter made for its key, if the key has a limit.
  predicate HandleOf(c: Setup, s: State, key: string, value: Handle) {
    if key in c.limits then value.Some? && value.value < |s.limiters| && s.limiters[value.value].key == key else value.None?
  }

  predicate CallOk(c: Setup, s: State, call: C.Call<Handle>) {
    (call.phase.Fetched? || call.phase.Returned?) ==> HandleOf(c, s, call.key, call.phase.value)
  }

  ghost predicate LimiterOk(c: Setup, m: Made, clock: real) {
    m.key in c.limits && m.config == c.limits[m.key] && Late.Valid(m.config, c.wait, m.bucket, clock)
  }

  ghost predicate Sound(c: Setup, s: State) {
    && (forall i :: 0 <= i < |s.cache.calls| ==> CallOk(c, s, s.cache.calls[i]))
    && (forall k :: k in s.cache.cache ==> HandleOf(c, s, k, s.cache.cache[k].value))
    && (forall k :: k in s.latest ==> HandleOf(c, s, k, Some(s.latest[k].id)))
    && (forall id :: 0 <= id < |s.limiters| ==> LimiterOk(c, s.limiters[id], s.cache.clock))
    && (forall i :: i in s.readings ==> s.readings[i] <= s.cache.clock)
  }

  // More limiters, or later ones, of the same keys.
  predicate Grown(s: State, t: State) {
    |s.limiters| <= |t.limiters| && forall id :: 0 <= id < |s.limiters| ==> t.limiters[id].key == s.limiters[id].key
  }

  lemma LimitersSound(c: Setup, s: State, a: Step)
    requires c.Valid() && Sound(c, s) && Can(c, s, a)
    ensures var t := Next(c, s, a);
            Grown(s, t) && s.cache.clock <= t.cache.clock && forall id :: 0 <= id < |t.limiters| ==> LimiterOk(c, t.limiters[id], t.cache.clock)
  {
    match a
    case Read(_) =>
    case Cache(_) =>
      forall id | 0 <= id < |s.limiters|
        ensures LimiterOk(c, s.limiters[id], Next(c, s, a).cache.clock)
      {
        assert LimiterOk(c, s.limiters[id], s.cache.clock);
      }
    case Ask(i) =>
      var call := s.cache.calls[i];
      assert CallOk(c, s, call);
      if call.phase.value.Some? {
        var m := s.limiters[call.phase.value.value];
        assert LimiterOk(c, m, s.cache.clock);
        Late.UsePays(m.config, c.wait, L.Swept(m.config, m.bucket, s.readings[i]), L.Call(call.key, s.readings[i]), s.cache.clock);
      }
  }

  lemma CallsSound(c: Setup, s: State, step: C.Step<Handle>)
    requires Sound(c, s) && Can(c, s, Cache(step))
    ensures var t := Next(c, s, Cache(step)); forall i :: 0 <= i < |t.cache.calls| ==> CallOk(c, t, t.cache.calls[i])
  {
    var t := Next(c, s, Cache(step));
    forall i | 0 <= i < |t.cache.calls|
      ensures CallOk(c, t, t.cache.calls[i])
    {
      if i < |s.cache.calls| {
        assert CallOk(c, s, s.cache.calls[i]);
        CallSound(c, s, step, i);
      }
    }
  }

  lemma CallSound(c: Setup, s: State, step: C.Step<Handle>, i: nat)
    requires Sound(c, s) && Can(c, s, Cache(step)) && i < |s.cache.calls| && CallOk(c, s, s.cache.calls[i])
    ensures var t := Next(c, s, Cache(step)); i < |t.cache.calls| && CallOk(c, t, t.cache.calls[i])
  {
    var t, call := Next(c, s, Cache(step)), s.cache.calls[i];
    if call.phase.Fetched? || call.phase.Returned? {
      HandleStays(c, s, step, call.key, call.phase.value);
    } else if (step.Look? || step.Recheck?) && step.i == i && call.key in s.cache.cache {
      HandleStays(c, s, step, call.key, s.cache.cache[call.key].value);
    }
  }

  lemma HandleStays(c: Setup, s: State, step: C.Step<Handle>, key: string, value: Handle)
    requires Can(c, s, Cache(step)) && HandleOf(c, s, key, value)
    ensures HandleOf(c, Next(c, s, Cache(step)), key, value)
  {
  }

  lemma EntriesSound(c: Setup, s: State, step: C.Step<Handle>)
    requires Sound(c, s) && Can(c, s, Cache(step))
    ensures var t := Next(c, s, Cache(step));
            && (forall k :: k in t.cache.cache ==> HandleOf(c, t, k, t.cache.cache[k].value))
            && (forall k :: k in t.latest ==> HandleOf(c, t, k, Some(t.latest[k].id)))
  {
    var t := Next(c, s, Cache(step));
    if step.Put? {
      assert CallOk(c, s, s.cache.calls[step.i]);
    }
  }

  lemma StepSound(c: Setup, s: State, a: Step)
    requires c.Valid() && Sound(c, s) && Can(c, s, a)
    ensures Sound(c, Next(c, s, a)) && Grown(s, Next(c, s, a)) && s.cache.clock <= Next(c, s, a).cache.clock
  {
    LimitersSound(c, s, a);
    match a
    case Cache(step) => CallsSound(c, s, step); EntriesSound(c, s, step);
    case Read(i) =>
      var t := Next(c, s, a);
      assert forall j :: 0 <= j < |t.cache.calls| ==> CallOk(c, s, s.cache.calls[j]);
    case Ask(i) =>
      var t := Next(c, s, a);
      assert forall j :: 0 <= j < |t.cache.calls| ==> CallOk(c, s, s.cache.calls[j]);
  }

  lemma {:induction false} RunSound(c: Setup, s: State, steps: seq<Step>)
    requires c.Valid() && Sound(c, s) && Legal(c, s, steps)
    ensures Sound(c, After(c, s, steps)) && s.cache.clock <= After(c, s, steps).cache.clock
    decreases |steps|
  {
    if steps != [] {
      StepSound(c, s, steps[0]);
      RunSound(c, Next(c, s, steps[0]), steps[1..]);
    }
  }

  lemma StartsSound(c: Setup)
    ensures Sound(c, Init())
  {
  }
}
