/** The keyed token-bucket limiter (internal/ratelimit/limiter.go). Tokens and times are
  * real numbers and the clock is monotone. `Level` is what a bucket holds at a time, a
  * bucket that is not in the table being full; the answers of the limiter depend on it alone.
  */
module RateLimiter {
  import opened Options

  datatype Config = Config(rate: real, burst: int, idleTTL: real) {
    predicate Valid() {
      rate > 0.0 && burst >= 1 && idleTTL > 0.0
    }

    // An empty bucket fills up in less than the time an idle one is kept.
    predicate KeepsIdleLongEnough() {
      burst as real <= idleTTL * rate
    }
  }

  const CleanupEvery := 60.0

  /** Times are in seconds; a missing idle time means 15 minutes. */
  function New(perMinute: int, burst: int, idleTTL: real): (c: Config)
    ensures c.Valid()
  {
    Config((if perMinute <= 0 then 1 else perMinute) as real / 60.0, if burst <= 0 then 1 else burst,
           if idleTTL <= 0.0 then 900.0 else idleTTL)
  }

  datatype Entry = Entry(tokens: real, lastSeen: real, lastRefill: real)

  datatype State = State(entries: map<string, Entry>, lastCleanup: Option<real>)

  const Empty := State(map[], None)

  datatype Call = Call(key: string, at: real)

  datatype Answer = Answer(s: State, ok: bool)

  function Bucket(key: string): string {
    if key == "" then "unknown" else key
  }

  predicate CleanupDue(s: State, now: real) {
    s.lastCleanup.None? || now - s.lastCleanup.value >= CleanupEvery
  }

  function Cleanup(c: Config, s: State, now: real): State {
    State(map k | k in s.entries && now - s.entries[k].lastSeen <= c.idleTTL :: s.entries[k], Some(now))
  }

  function Swept(c: Config, s: State, now: real): State {
    if CleanupDue(s, now) then Cleanup(c, s, now) else s
  }

  function Min(a: real, b: real): real {
    if a < b then a else b
  }

  // What a bucket gains between two times.
  function Gain(rate: real, before: real, now: real): real {
    (now - before) * rate
  }

  function Refill(c: Config, e: Entry, now: real): Entry {
    if now - e.lastRefill > 0.0
    then Entry(Min(e.tokens + Gain(c.rate, e.lastRefill, now), c.burst as real), now, now)
    else e.(lastSeen := now)
  }

  function Take(e: Entry): Entry {
    if e.tokens < 1.0 then e else e.(tokens := e.tokens - 1.0)
  }

  function Found(c: Config, s: State, key: string, now: real): Entry {
    if key in s.entries then s.entries[key] else Entry(c.burst as real, now, now)
  }

  // A call once the table is swept.
  function Use(c: Config, s: State, call: Call): Answer {
    var key := Bucket(call.key);
    var e := Refill(c, Found(c, s, key, call.at), call.at);
    Answer(s.(entries := s.entries[key := Take(e)]), e.tokens >= 1.0)
  }

  function Admit(c: Config, s: State, call: Call): Answer {
    Use(c, Swept(c, s, call.at), call)
  }

  /** The limiter's own fields and loop. */
  class Limiter {
    const config: Config
    var entries: map<string, Entry>
    var lastCleanupAt: Option<real>

    ghost function Abs(): State reads this {
      State(entries, lastCleanupAt)
    }

    constructor (perMinute: int, burst: int, idleTTL: real)
      ensures config == New(perMinute, burst, idleTTL) && Abs() == Empty
    {
      config := New(perMinute, burst, idleTTL);
      entries, lastCleanupAt := map[], None;
    }

    method CleanupLocked(now: real)
      modifies this
      ensures Abs() == Cleanup(config, old(Abs()), now)
    {
      var todo := entries.Keys;
      while todo != {}
        invariant forall k :: k in entries ==> k in old(entries) && entries[k] == old(entries)[k]
        invariant forall k :: k in old(entries) && k in todo ==> k in entries
        invariant forall k :: k in old(entries) && k !in todo ==> (k in entries <==> now - old(entries)[k].lastSeen <= config.idleTTL)
        decreases |todo|
      {
        var key :| key in todo;
        if key in entries && now - entries[key].lastSeen > config.idleTTL {
          entries := entries - {key};
        }
        todo := todo - {key};
      }
      lastCleanupAt := Some(now);
    }

    method Allow(name: string, now: real) returns (ok: bool)
      modifies this
      ensures Answer(Abs(), ok) == Admit(config, old(Abs()), Call(name, now))
    {
      var key := if name == "" then "unknown" else name;
      if lastCleanupAt.None? || now - lastCleanupAt.value >= CleanupEvery {
        CleanupLocked(now);
      }
      assert Abs() == Swept(config, old(Abs()), now);
      ghost var found := Found(config, Abs(), key, now);
      var e := if key in entries then entries[key] else Entry(config.burst as real, now, now);
      assert e == found;
      e := e.(lastSeen := now);
      var elapsed := now - e.lastRefill;
      if elapsed > 0.0 {
        e := e.(tokens := e.tokens + elapsed * config.rate);
        if e.tokens > config.burst as real {
          e := e.(tokens := config.burst as real);
        }
        e := e.(lastRefill := now);
      }
      assert e == Refill(config, found, now);
      ok := e.tokens >= 1.0;
      if ok {
        e := e.(tokens := e.tokens - 1.0);
      }
      entries := entries[key := e];
    }
  }

  /* ---------- Levels ---------- */

  // Every bucket holds between 0 and burst tokens and was refilled when it was last seen.
  ghost predicate Valid(c: Config, s: State, now: real) {
    forall k :: k in s.entries ==>
      0.0 <= s.entries[k].tokens <= c.burst as real && s.entries[k].lastSeen == s.entries[k].lastRefill <= now
  }

  function Level(c: Config, s: State, key: string, t: real): real {
    if key in s.entries then Min(s.entries[key].tokens + Gain(c.rate, s.entries[key].lastRefill, t), c.burst as real)
    else c.burst as real
  }

  lemma GainNonNegative(rate: real, before: real, now: real)
    requires rate > 0.0 && before <= now
    ensures Gain(rate, before, now) >= 0.0
  {
  }

  lemma GainNow(rate: real, now: real)
    ensures Gain(rate, now, now) == 0.0
  {
  }

  lemma GainAtLeast(rate: real, before: real, now: real, time: real)
    requires rate > 0.0 && time <= now - before
    ensures time * rate <= Gain(rate, before, now)
  {
  }

  // Levels rise at the rate, up to the burst.
  lemma LevelLater(c: Config, s: State, key: string, t: real, u: real)
    requires c.Valid() && t <= u
    ensures Level(c, s, key, u) == Min(Level(c, s, key, t) + Gain(c.rate, t, u), c.burst as real)
  {
    GainNonNegative(c.rate, t, u);
  }

  /** A call is admitted if and only if the level of its bucket is at least one, and then
    * takes one; all other levels stay. */
  lemma UseByLevel(c: Config, s: State, call: Call)
    requires c.Valid() && Valid(c, s, call.at)
    ensures var key, a := Bucket(call.key), Use(c, s, call);
            && (a.ok <==> Level(c, s, key, call.at) >= 1.0)
            && Level(c, a.s, key, call.at) == Level(c, s, key, call.at) - (if a.ok then 1.0 else 0.0)
            && (forall k :: k != key ==> Level(c, a.s, k, call.at) == Level(c, s, k, call.at))
            && Valid(c, a.s, call.at)
  {
    RefillIsLevel(c, s, Bucket(call.key), call.at);
    GainNow(c.rate, call.at);
  }

  lemma RefillIsLevel(c: Config, s: State, key: string, now: real)
    requires c.Valid() && Valid(c, s, now)
    ensures var e := Refill(c, Found(c, s, key, now), now);
            e.tokens == Level(c, s, key, now) && 0.0 <= e.tokens <= c.burst as real && e.lastSeen == now && e.lastRefill == now
  {
    GainNow(c.rate, now);
    if key in s.entries {
      GainNonNegative(c.rate, s.entries[key].lastRefill, now);
    }
  }

  lemma ValidLater(c: Config, s: State, t: real, u: real)
    requires Valid(c, s, t) && t <= u
    ensures Valid(c, s, u)
  {
  }

  /* ---------- Eviction ---------- */

  // A bucket idle for longer than idleTTL is full again, if idleTTL is long enough.
  lemma EvictedIsFull(c: Config, e: Entry, now: real)
    requires c.Valid() && c.KeepsIdleLongEnough()
    requires 0.0 <= e.tokens && e.lastSeen == e.lastRefill && now - e.lastSeen > c.idleTTL
    ensures Min(e.tokens + Gain(c.rate, e.lastRefill, now), c.burst as real) == c.burst as real
  {
    GainAtLeast(c.rate, e.lastRefill, now, c.idleTTL);
  }

  lemma SweptLevels(c: Config, s: State, now: real)
    requires c.Valid() && Valid(c, s, now) && c.KeepsIdleLongEnough()
    ensures Valid(c, Swept(c, s, now), now)
    ensures forall k :: Level(c, Swept(c, s, now), k, now) == Level(c, s, k, now)
  {
    forall k
      ensures Level(c, Swept(c, s, now), k, now) == Level(c, s, k, now)
    {
      if k in s.entries && k !in Swept(c, s, now).entries {
        EvictedIsFull(c, s.entries[k], now);
      }
    }
  }

  // The answers to a sequence of calls, with and without eviction.
  function Answers(c: Config, s: State, calls: seq<Call>): seq<bool>
    decreases |calls|
  {
    if calls == [] then [] else var a := Admit(c, s, calls[0]); [a.ok] + Answers(c, a.s, calls[1..])
  }

  function AnswersKept(c: Config, s: State, calls: seq<Call>): seq<bool>
    decreases |calls|
  {
    if calls == [] then [] else var a := Use(c, s, calls[0]); [a.ok] + AnswersKept(c, a.s, calls[1..])
  }

  // The clock does not go back.
  ghost predicate Monotone(now: real, calls: seq<Call>)
    decreases |calls|
  {
    calls == [] || (now <= calls[0].at && Monotone(calls[0].at, calls[1..]))
  }

  ghost predicate SameLevels(c: Config, s: State, t: State, now: real) {
    forall k :: Level(c, s, k, now) == Level(c, t, k, now)
  }

  lemma SameLevelsLater(c: Config, s: State, t: State, now: real, later: real)
    requires c.Valid() && SameLevels(c, s, t, now) && now <= later
    ensures SameLevels(c, s, t, later)
  {
    forall k
      ensures Level(c, s, k, later) == Level(c, t, k, later)
    {
      LevelLater(c, s, k, now, later);
      LevelLater(c, t, k, now, later);
    }
  }

  lemma SameAfterCall(c: Config, s: State, t: State, call: Call)
    requires c.Valid() && Valid(c, s, call.at) && Valid(c, t, call.at) && SameLevels(c, s, t, call.at)
    requires c.KeepsIdleLongEnough()
    ensures var a, b := Admit(c, s, call), Use(c, t, call);
            a.ok == b.ok && SameLevels(c, a.s, b.s, call.at) && Valid(c, a.s, call.at) && Valid(c, b.s, call.at)
  {
    SweptLevels(c, s, call.at);
    UseByLevel(c, Swept(c, s, call.at), call);
    UseByLevel(c, t, call);
  }

  lemma {:induction false} EvictionInvisible(c: Config, s: State, t: State, now: real, calls: seq<Call>)
    requires c.Valid() && c.KeepsIdleLongEnough()
    requires Valid(c, s, now) && Valid(c, t, now) && SameLevels(c, s, t, now) && Monotone(now, calls)
    ensures Answers(c, s, calls) == AnswersKept(c, t, calls)
    decreases |calls|
  {
    if calls != [] {
      var later := calls[0].at;
      SameLevelsLater(c, s, t, now, later);
      SameAfterCall(c, s, t, calls[0]);
      EvictionInvisible(c, Admit(c, s, calls[0]).s, Use(c, t, calls[0]).s, later, calls[1..]);
    }
  }
}
