/** A cache with a TTL as a state machine: lookups and invalidations take lock-sized steps in
  * any order, under one clock. It is the allowlist cache (internal/proxy/model_checker.go),
  * with getPatterns and InvalidateKey, and the lookup of a key's limiter
  * (internal/proxy/key_rate_limiter.go), which takes the same steps.
  */
module TtlCache {
  import opened Options

  // `readAt` is when the value was read from the store, `fetchedAt` the clock the
  // fetching call had read when it began.
  datatype Entry<T> = Entry(value: T, readAt: real, fetchedAt: real)

  // A lookup: it has read the clock; it has missed under the read lock; it
  // has missed under the write lock; it has read the store; it has returned.
  datatype Phase<T> =
    | Started | Missed | Fetching | Fetched(value: T, readAt: real)
    | Returned(value: T, readAt: real) | Errored

  datatype Call<T> = Call(key: string, now: real, phase: Phase<T>)

  datatype State<T> = State(cache: map<string, Entry<T>>, lastSweep: Option<real>, calls: seq<Call<T>>, clock: real)

  ghost function Init<T>(): State<T> {
    State(map[], None, [], 0.0)
  }

  datatype Step<T> =
    | Advance(to: real) | Start(key: string) | Look(i: nat) | Recheck(i: nat)
    | Fetch(i: nat, answer: Option<T>) | Put(i: nat) | Invalidate(key: string)

  ghost predicate IsAt<T>(s: State<T>, i: nat, phase: Phase<T>) {
    i < |s.calls| && s.calls[i].phase == phase
  }

  ghost predicate Can<T>(s: State<T>, step: Step<T>) {
    match step
    case Advance(to) => s.clock <= to
    case Start(_) => true
    case Look(i) => IsAt(s, i, Started)
    case Recheck(i) => IsAt(s, i, Missed)
    case Fetch(i, _) => IsAt(s, i, Fetching)
    case Put(i) => i < |s.calls| && s.calls[i].phase.Fetched?
    case Invalidate(_) => true
  }

  ghost predicate Hits<T>(ttl: real, cache: map<string, Entry<T>>, c: Call<T>) {
    c.key in cache && c.now - cache[c.key].fetchedAt < ttl
  }

  ghost function WithPhase<T>(s: State<T>, i: nat, phase: Phase<T>): State<T>
    requires i < |s.calls|
  {
    s.(calls := s.calls[i := s.calls[i].(phase := phase)])
  }

  // A look at the cache: the call returns with the cached value, or goes on.
  ghost function Looked<T>(ttl: real, s: State<T>, i: nat, otherwise: Phase<T>): State<T>
    requires i < |s.calls|
  {
    if Hits(ttl, s.cache, s.calls[i])
    then WithPhase(s, i, Returned(s.cache[s.calls[i].key].value, s.cache[s.calls[i].key].readAt))
    else WithPhase(s, i, otherwise)
  }

  // evictStaleLocked
  ghost function Sweep<T>(ttl: real, s: State<T>, now: real): State<T> {
    if s.lastSweep.Some? && now - s.lastSweep.value < 5.0 * ttl then s
    else s.(lastSweep := Some(now), cache := map k | k in s.cache && now - s.cache[k].fetchedAt <= 10.0 * ttl :: s.cache[k])
  }

  ghost function Next<T>(ttl: real, s: State<T>, step: Step<T>): State<T>
    requires Can(s, step)
  {
    match step
    case Advance(to) => s.(clock := to)
    case Start(key) => s.(calls := s.calls + [Call(key, s.clock, Started)])
    case Look(i) => Looked(ttl, s, i, Missed)
    case Recheck(i) => if Hits(ttl, s.cache, s.calls[i]) then Looked(ttl, s, i, Fetching) else Looked(ttl, Sweep(ttl, s, s.calls[i].now), i, Fetching)
    case Fetch(i, answer) => WithPhase(s, i, if answer.Some? then Fetched(answer.value, s.clock) else Errored)
    case Put(i) => Stored(s, i)
    case Invalidate(key) => s.(cache := s.cache - {key})
  }

  ghost function Stored<T>(s: State<T>, i: nat): State<T>
    requires i < |s.calls| && s.calls[i].phase.Fetched?
  {
    var c := s.calls[i];
    WithPhase(s, i, Returned(c.phase.value, c.phase.readAt)).(cache := s.cache[c.key := Entry(c.phase.value, c.phase.readAt, c.now)])
  }

  ghost predicate Legal<T>(ttl: real, s: State<T>, steps: seq<Step<T>>)
    decreases |steps|
  {
    steps == [] || (Can(s, steps[0]) && Legal(ttl, Next(ttl, s, steps[0]), steps[1..]))
  }

  ghost function After<T>(ttl: real, s: State<T>, steps: seq<Step<T>>): State<T>
    requires Legal(ttl, s, steps)
    decreases |steps|
  {
    if steps == [] then s else After(ttl, Next(ttl, s, steps[0]), steps[1..])
  }

  /* ---------- How old an answer can be ---------- */

  ghost predicate EntrySound<T>(e: Entry<T>, clock: real) {
    e.fetchedAt <= e.readAt <= clock
  }

  ghost predicate CallSound<T>(ttl: real, c: Call<T>, clock: real) {
    && c.now <= clock
    && (c.phase.Fetched? ==> c.now <= c.phase.readAt <= clock)
    && (c.phase.Returned? ==> c.now - ttl < c.phase.readAt <= clock)
  }

  ghost predicate Sound<T>(ttl: real, s: State<T>) {
    && (forall k :: k in s.cache ==> EntrySound(s.cache[k], s.clock))
    && (forall i :: 0 <= i < |s.calls| ==> CallSound(ttl, s.calls[i], s.clock))
  }

  lemma LookSound<T>(ttl: real, s: State<T>, i: nat, otherwise: Phase<T>)
    requires Sound(ttl, s) && i < |s.calls| && (otherwise.Missed? || otherwise.Fetching?)
    ensures Sound(ttl, Looked(ttl, s, i, otherwise))
  {
    var c := s.calls[i];
    assert CallSound(ttl, c, s.clock);
    if Hits(ttl, s.cache, c) {
      assert EntrySound(s.cache[c.key], s.clock);
    }
  }

  lemma StepSound<T>(ttl: real, s: State<T>, step: Step<T>)
    requires ttl > 0.0 && Sound(ttl, s) && Can(s, step)
    ensures Sound(ttl, Next(ttl, s, step))
  {
    match step
    case Look(i) => LookSound(ttl, s, i, Missed);
    case Recheck(i) =>
      LookSound(ttl, s, i, Fetching);
      LookSound(ttl, Sweep(ttl, s, s.calls[i].now), i, Fetching);
    case Fetch(i, answer) =>
      assert CallSound(ttl, s.calls[i], s.clock);
    case Put(i) =>
      assert CallSound(ttl, s.calls[i], s.clock);
    case _ =>
  }

  lemma {:induction false} RunSound<T>(ttl: real, s: State<T>, steps: seq<Step<T>>)
    requires ttl > 0.0 && Sound(ttl, s) && Legal(ttl, s, steps)
    ensures Sound(ttl, After(ttl, s, steps))
    decreases |steps|
  {
    if steps != [] {
      StepSound(ttl, s, steps[0]);
      RunSound(ttl, Next(ttl, s, steps[0]), steps[1..]);
    }
  }

  /** In every interleaving, invalidations included, the value a call returns was read
    * from the store less than a TTL before the clock reading the call began with. */
  lemma AnswersAreRecent<T>(ttl: real, steps: seq<Step<T>>, i: nat)
    requires ttl > 0.0 && Legal(ttl, Init(), steps)
    requires i < |After(ttl, Init(), steps).calls| && After(ttl, Init(), steps).calls[i].phase.Returned?
    ensures var c := After(ttl, Init(), steps).calls[i]; c.now - ttl < c.phase.readAt
  {
    RunSound(ttl, Init(), steps);
    assert CallSound(ttl, After(ttl, Init(), steps).calls[i], After(ttl, Init(), steps).clock);
  }
}
