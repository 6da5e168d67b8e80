/** What the token-bucket limiter guarantees over whole runs, and when its eviction of idle
  * buckets can be noticed.
  */
module RateBounds {
  import opened Options
  import opened RateLimiter
  import opened Sequences

  function After(c: Config, s: State, calls: seq<Call>): State
    decreases |calls|
  {
    if calls == [] then s else After(c, Admit(c, s, calls[0]).s, calls[1..])
  }

  // The clock when these calls are over.
  function Clock(now: real, calls: seq<Call>): real {
    if calls == [] then now else calls[|calls| - 1].at
  }

  /** However the calls come, with whatever idle time, no bucket ever holds less than no
    * token or more than the burst. */
  lemma {:induction false} TokensInRange(c: Config, s: State, now: real, calls: seq<Call>)
    requires c.Valid() && Valid(c, s, now) && Monotone(now, calls)
    ensures Valid(c, After(c, s, calls), Clock(now, calls))
    decreases |calls|
  {
    if calls != [] {
      var t := calls[0].at;
      ValidLater(c, s, now, t);
      UseByLevel(c, Swept(c, s, t), calls[0]);
      TokensInRange(c, Admit(c, s, calls[0]).s, t, calls[1..]);
    }
  }

  /* ---------- The bound on admissions ---------- */

  function Admitted(c: Config, s: State, key: string, calls: seq<Call>): nat
    decreases |calls|
  {
    if calls == [] then 0
    else
      var a := Admit(c, s, calls[0]);
      (if Bucket(calls[0].key) == key && a.ok then 1 else 0) + Admitted(c, a.s, key, calls[1..])
  }

  lemma AdmitByLevel(c: Config, s: State, key: string, call: Call)
    requires c.Valid() && c.KeepsIdleLongEnough() && Valid(c, s, call.at)
    ensures var a := Admit(c, s, call);
            && Valid(c, a.s, call.at)
            && Level(c, a.s, key, call.at) == Level(c, s, key, call.at) - (if Bucket(call.key) == key && a.ok then 1.0 else 0.0)
  {
    SweptLevels(c, s, call.at);
    UseByLevel(c, Swept(c, s, call.at), call);
  }

  lemma LevelRises(c: Config, s: State, key: string, t: real, u: real)
    requires c.Valid() && t <= u
    ensures Level(c, s, key, u) <= Level(c, s, key, t) + Gain(c.rate, t, u)
  {
    LevelLater(c, s, key, t, u);
  }

  lemma {:induction false} AdmittedByLevel(c: Config, s: State, key: string, now: real, end: real, calls: seq<Call>)
    requires c.Valid() && c.KeepsIdleLongEnough()
    requires Valid(c, s, now) && Monotone(now, calls) && Clock(now, calls) <= end
    ensures Admitted(c, s, key, calls) as real <= Level(c, s, key, now) + Gain(c.rate, now, end)
    decreases |calls|
  {
    if calls == [] {
      GainNonNegative(c.rate, now, end);
      LevelAtLeastZero(c, s, key, now);
    } else {
      var t := calls[0].at;
      ValidLater(c, s, now, t);
      AdmitByLevel(c, s, key, calls[0]);
      LevelRises(c, s, key, now, t);
      ClockAhead(t, calls[1..]);
      AdmittedByLevel(c, Admit(c, s, calls[0]).s, key, t, end, calls[1..]);
    }
  }

  lemma LevelAtLeastZero(c: Config, s: State, key: string, now: real)
    requires c.Valid() && Valid(c, s, now)
    ensures 0.0 <= Level(c, s, key, now) <= c.burst as real
  {
    if key in s.entries {
      GainNonNegative(c.rate, s.entries[key].lastRefill, now);
    }
  }

  lemma {:induction false} ClockAhead(now: real, calls: seq<Call>)
    requires Monotone(now, calls)
    ensures now <= Clock(now, calls)
    decreases |calls|
  {
    if calls != [] {
      ClockAhead(calls[0].at, calls[1..]);
    }
  }

  /** In any window of a run, a bucket admits at most burst + rate * length calls, if idle
    * buckets are kept at least as long as it takes to fill one. */
  lemma WindowBound(c: Config, before: seq<Call>, window: seq<Call>, key: string, begin: real, end: real)
    requires c.Valid() && c.KeepsIdleLongEnough()
    requires Monotone(0.0, before) && Clock(0.0, before) <= begin && Monotone(begin, window) && Clock(begin, window) <= end
    ensures Admitted(c, After(c, Empty, before), key, window) as real <= c.burst as real + Gain(c.rate, begin, end)
  {
    TokensInRange(c, Empty, 0.0, before);
    var s := After(c, Empty, before);
    ValidLater(c, s, Clock(0.0, before), begin);
    AdmittedByLevel(c, s, key, begin, end, window);
    LevelAtLeastZero(c, s, key, begin);
  }

  /* ---------- Spaced calls ---------- */

  // Successive calls of the key are at least the time of one token apart.
  ghost predicate Spaced(c: Config, last: Option<real>, key: string, calls: seq<Call>)
    decreases |calls|
  {
    calls == []
    || if Bucket(calls[0].key) != key then Spaced(c, last, key, calls[1..])
       else (last.Some? ==> Gain(c.rate, last.value, calls[0].at) >= 1.0) && Spaced(c, Some(calls[0].at), key, calls[1..])
  }

  // The bucket was last refilled at the last call of its key.
  ghost predicate LastCalled(s: State, key: string, last: Option<real>) {
    key in s.entries ==> last == Some(s.entries[key].lastRefill)
  }

  lemma SpacedCall(c: Config, s: State, key: string, last: Option<real>, call: Call)
    requires c.Valid() && Valid(c, s, call.at) && LastCalled(s, key, last)
    requires Bucket(call.key) == key && last.Some? ==> Gain(c.rate, last.value, call.at) >= 1.0
    ensures var a := Admit(c, s, call);
            && Valid(c, a.s, call.at)
            && LastCalled(a.s, key, if Bucket(call.key) == key then Some(call.at) else last)
            && (Bucket(call.key) == key ==> a.ok)
  {
    var swept := Swept(c, s, call.at);
    UseByLevel(c, swept, call);
    RefillIsLevel(c, swept, Bucket(call.key), call.at);
  }

  /** Calls of one key that are at least 1/rate apart are never denied, whatever the other
    * keys do and whatever is evicted. */
  lemma {:induction false} SpacedNeverDenied(c: Config, s: State, key: string, last: Option<real>, now: real, calls: seq<Call>)
    requires c.Valid() && Valid(c, s, now) && LastCalled(s, key, last) && Monotone(now, calls) && Spaced(c, last, key, calls)
    ensures forall i :: 0 <= i < |calls| && Bucket(calls[i].key) == key ==> i < |Answers(c, s, calls)| && Answers(c, s, calls)[i]
    decreases |calls|
  {
    if calls != [] {
      var t := calls[0].at;
      ValidLater(c, s, now, t);
      SpacedCall(c, s, key, last, calls[0]);
      var a := Admit(c, s, calls[0]);
      var rest := Answers(c, a.s, calls[1..]);
      SpacedNeverDenied(c, a.s, key, if Bucket(calls[0].key) == key then Some(t) else last, t, calls[1..]);
      forall i | 0 <= i < |calls| && Bucket(calls[i].key) == key
        ensures i < |Answers(c, s, calls)| && Answers(c, s, calls)[i]
      {
        if i > 0 {
          assert calls[1..][i - 1] == calls[i];
        }
      }
    }
  }

  /* ---------- When eviction shows ---------- */

  // n calls of one key at one instant.
  function Volley(key: string, at: real, n: nat): seq<Call> {
    if n == 0 then [] else [Call(key, at)] + Volley(key, at, n - 1)
  }

  function AfterKept(c: Config, s: State, calls: seq<Call>): State
    decreases |calls|
  {
    if calls == [] then s else AfterKept(c, Use(c, s, calls[0]).s, calls[1..])
  }

  lemma {:induction false} KeptAppend(c: Config, s: State, a: seq<Call>, b: seq<Call>)
    ensures AnswersKept(c, s, a + b) == AnswersKept(c, s, a) + AnswersKept(c, AfterKept(c, s, a), b)
    ensures |AnswersKept(c, s, a)| == |a|
    decreases |a|
  {
    if a == [] {
      assert a + b == b;
    } else {
      assert (a + b)[1..] == a[1..] + b;
      KeptAppend(c, Use(c, s, a[0]).s, a[1..], b);
    }
  }

  lemma {:induction false} AnswersAppend(c: Config, s: State, a: seq<Call>, b: seq<Call>)
    ensures Answers(c, s, a + b) == Answers(c, s, a) + Answers(c, After(c, s, a), b)
    ensures |Answers(c, s, a)| == |a|
    decreases |a|
  {
    if a == [] {
      assert a + b == b;
    } else {
      assert (a + b)[1..] == a[1..] + b;
      AnswersAppend(c, Admit(c, s, a[0]).s, a[1..], b);
    }
  }

  // Without eviction the n-th call at one instant is admitted if and only if the level
  // was at least n.
  lemma {:induction false} VolleyKept(c: Config, s: State, key: string, at: real, n: nat)
    requires c.Valid() && Valid(c, s, at) && key != "" && n > 0
    ensures |AnswersKept(c, s, Volley(key, at, n))| == n
    ensures AnswersKept(c, s, Volley(key, at, n))[n - 1] <==> Level(c, s, key, at) >= n as real
    ensures var t := AfterKept(c, s, Volley(key, at, n));
            && Valid(c, t, at) && t.lastCleanup == s.lastCleanup && key in t.entries && t.entries[key].lastSeen == at
            && (Level(c, s, key, at) >= n as real ==> Level(c, t, key, at) == Level(c, s, key, at) - n as real)
    decreases n
  {
    var call := Call(key, at);
    var a := Use(c, s, call);
    UseByLevel(c, s, call);
    RefillIsLevel(c, s, key, at);
    assert Volley(key, at, n)[1..] == Volley(key, at, n - 1);
    if n > 1 {
      VolleyKept(c, a.s, key, at, n - 1);
    } else {
      assert Volley(key, at, 0) == [];
    }
  }

  // Where no cleanup falls due, both limiters do the same.
  lemma {:induction false} VolleySame(c: Config, s: State, key: string, at: real, n: nat)
    requires !CleanupDue(s, at)
    ensures Answers(c, s, Volley(key, at, n)) == AnswersKept(c, s, Volley(key, at, n))
    ensures After(c, s, Volley(key, at, n)) == AfterKept(c, s, Volley(key, at, n))
    decreases n
  {
    if n > 0 {
      assert Volley(key, at, n)[1..] == Volley(key, at, n - 1);
      VolleySame(c, Use(c, s, Call(key, at)).s, key, at, n - 1);
    }
  }

  // Idle for longer than idleTTL, and still not full.
  ghost predicate ShortStay(c: Config, idle: real) {
    idle > c.idleTTL && idle * c.rate < c.burst as real
  }

  // A first call sets the cleanup clock; at 60 a volley empties a bucket; after the idle
  // time a second volley asks for a full one.
  function Probe(c: Config, idle: real): seq<Call>
    requires c.Valid()
  {
    [Call("other", Min(c.idleTTL, 30.0))] + (Volley("key", 60.0, c.burst) + Volley("key", 60.0 + idle, c.burst))
  }

  lemma MonotoneFirst(now: real, call: Call, rest: seq<Call>)
    requires now <= call.at && Monotone(call.at, rest)
    ensures Monotone(now, [call] + rest)
  {
    assert ([call] + rest)[1..] == rest;
  }

  lemma {:induction false} VolleyMonotone(now: real, key: string, at: real, n: nat, rest: seq<Call>)
    requires now <= at && Monotone(at, rest)
    ensures Monotone(now, Volley(key, at, n) + rest)
    decreases n
  {
    if n == 0 {
      assert Volley(key, at, n) + rest == rest;
    } else {
      VolleyMonotone(at, key, at, n - 1, rest);
      MonotoneFirst(now, Call(key, at), Volley(key, at, n - 1) + rest);
      Assoc([Call(key, at)], Volley(key, at, n - 1), rest);
    }
  }

  lemma ProbeMonotone(c: Config, idle: real)
    requires c.Valid() && idle > 0.0
    ensures Monotone(0.0, Probe(c, idle))
  {
    var second := Volley("key", 60.0 + idle, c.burst);
    assert second + [] == second;
    VolleyMonotone(60.0, "key", 60.0 + idle, c.burst, []);
    VolleyMonotone(Min(c.idleTTL, 30.0), "key", 60.0, c.burst, second);
    assert Probe(c, idle)[1..] == Volley("key", 60.0, c.burst) + second;
  }

  // The state after the first call, with the last cleanup as given.
  function Started(c: Config, cleaned: Option<real>): State
    requires c.Valid()
  {
    Use(c, State(map[], cleaned), Call("other", Min(c.idleTTL, 30.0))).s
  }

  lemma NotFullYet(c: Config, s: State, at: real, idle: real)
    requires c.Valid() && ShortStay(c, idle) && Level(c, s, "key", at) == 0.0
    ensures Level(c, s, "key", at + idle) < c.burst as real
  {
    LevelLater(c, s, "key", at, at + idle);
    assert Gain(c.rate, at, at + idle) == idle * c.rate;
  }

  // Without eviction the last call of the probe is denied.
  lemma ProbeKept(c: Config, idle: real)
    requires c.Valid() && ShortStay(c, idle)
    ensures |AnswersKept(c, Empty, Probe(c, idle))| == 1 + 2 * c.burst && !AnswersKept(c, Empty, Probe(c, idle))[2 * c.burst]
  {
    var s := Started(c, None);
    VolleyKept(c, s, "key", 60.0, c.burst);
    var t := AfterKept(c, s, Volley("key", 60.0, c.burst));
    NotFullYet(c, t, 60.0, idle);
    ValidLater(c, t, 60.0, 60.0 + idle);
    VolleyKept(c, t, "key", 60.0 + idle, c.burst);
    KeptAppend(c, s, Volley("key", 60.0, c.burst), Volley("key", 60.0 + idle, c.burst));
    assert Probe(c, idle)[1..] == Volley("key", 60.0, c.burst) + Volley("key", 60.0 + idle, c.burst);
  }

  // With eviction it is admitted: the bucket was dropped and is full again.
  lemma ProbeEvicted(c: Config, idle: real)
    requires c.Valid() && ShortStay(c, idle)
    ensures |Answers(c, Empty, Probe(c, idle))| == 1 + 2 * c.burst && Answers(c, Empty, Probe(c, idle))[2 * c.burst]
  {
    var first := Min(c.idleTTL, 30.0);
    var s := Started(c, Some(first));
    assert Cleanup(c, Empty, first) == State(map[], Some(first));
    VolleySame(c, s, "key", 60.0, c.burst);
    VolleyKept(c, s, "key", 60.0, c.burst);
    var t := After(c, s, Volley("key", 60.0, c.burst));
    SecondVolley(c, t, 60.0 + idle);
    AnswersAppend(c, s, Volley("key", 60.0, c.burst), Volley("key", 60.0 + idle, c.burst));
    assert Probe(c, idle)[1..] == Volley("key", 60.0, c.burst) + Volley("key", 60.0 + idle, c.burst);
  }

  // A volley at which a cleanup is due that drops the bucket.
  lemma SecondVolley(c: Config, t: State, at: real)
    requires c.Valid() && Valid(c, t, at) && CleanupDue(t, at) && "key" in t.entries && at - t.entries["key"].lastSeen > c.idleTTL
    ensures var n: nat := c.burst; |Answers(c, t, Volley("key", at, n))| == n && Answers(c, t, Volley("key", at, n))[n - 1]
  {
    var n: nat := c.burst;
    var u := Cleanup(c, t, at);
    assert "key" !in u.entries;
    VolleySame(c, u, "key", at, n);
    VolleyKept(c, u, "key", at, n);
  }

  /** Eviction is invisible, on every run, if and only if idle buckets are kept at least as
    * long as an empty one takes to fill. */
  lemma EvictionInvisibleExactly(c: Config)
    requires c.Valid()
    ensures c.KeepsIdleLongEnough()
            <==> forall calls :: Monotone(0.0, calls) ==> Answers(c, Empty, calls) == AnswersKept(c, Empty, calls)
  {
    if c.KeepsIdleLongEnough() {
      forall calls | Monotone(0.0, calls)
        ensures Answers(c, Empty, calls) == AnswersKept(c, Empty, calls)
      {
        EvictionInvisible(c, Empty, Empty, 0.0, calls);
      }
    } else {
      var idle := BetweenTimes(c);
      ProbeMonotone(c, idle);
      ProbeKept(c, idle);
      ProbeEvicted(c, idle);
      assert Answers(c, Empty, Probe(c, idle)) != AnswersKept(c, Empty, Probe(c, idle));
    }
  }

  // An idle time between idleTTL and the time to fill a bucket.
  lemma BetweenTimes(c: Config) returns (idle: real)
    requires c.Valid() && !c.KeepsIdleLongEnough()
    ensures ShortStay(c, idle)
  {
    var full := c.burst as real / c.rate;
    assert full * c.rate == c.burst as real;
    Ordered(c.rate, c.idleTTL, full);
    idle := (c.idleTTL + full) / 2.0;
    Strictly(c.rate, idle, full);
  }

  lemma Ordered(rate: real, a: real, b: real)
    requires rate > 0.0 && a * rate < b * rate
    ensures a < b
  {
  }

  lemma Strictly(rate: real, a: real, b: real)
    requires rate > 0.0 && a < b
    ensures a * rate < b * rate
  {
  }

  /* ---------- As it is configured ---------- */

  lemma OneMinute(perMinute: int, burst: int, idleTTL: real, begin: real)
    requires perMinute >= 1
    ensures Gain(New(perMinute, burst, idleTTL).rate, begin, begin + 60.0) == perMinute as real
  {
    var rate := perMinute as real / 60.0;
    assert rate * 60.0 == perMinute as real;
    assert begin + 60.0 - begin == 60.0;
  }

  // Without an idle time of its own, a limiter keeps idle buckets for 15 minutes.
  lemma IdleLongEnough(perMinute: int, burst: int, idleTTL: real)
    requires perMinute >= 1 && burst >= 1
    ensures New(perMinute, burst, idleTTL).KeepsIdleLongEnough()
            <==> if idleTTL <= 0.0 then burst <= 15 * perMinute else burst as real * 60.0 <= idleTTL * perMinute as real
  {
    var rate := perMinute as real / 60.0;
    assert rate * 60.0 == perMinute as real;
    assert 900.0 * rate == 15.0 * perMinute as real;
    assert idleTTL * rate * 60.0 == idleTTL * perMinute as real;
  }

  // What settings that are missing stand for.
  lemma UnsetMeans(perMinute: int, burst: int, idleTTL: real)
    ensures perMinute <= 0 ==> New(perMinute, burst, idleTTL) == New(1, burst, idleTTL)
    ensures burst <= 0 ==> New(perMinute, burst, idleTTL) == New(perMinute, 1, idleTTL)
    ensures idleTTL <= 0.0 ==> New(perMinute, burst, idleTTL) == New(perMinute, burst, 900.0)
  {
  }

  /** In any minute a client has at most the burst and the requests of one minute admitted, by
    * the numbers the limiter was made with. */
  lemma MinuteBound(perMinute: int, burst: int, idleTTL: real, before: seq<Call>, window: seq<Call>, key: string, begin: real)
    requires perMinute >= 1 && burst >= 1
    requires if idleTTL <= 0.0 then burst <= 15 * perMinute else burst as real * 60.0 <= idleTTL * perMinute as real
    requires Monotone(0.0, before) && Clock(0.0, before) <= begin && Monotone(begin, window) && Clock(begin, window) <= begin + 60.0
    ensures var c := New(perMinute, burst, idleTTL); Admitted(c, After(c, Empty, before), key, window) <= burst + perMinute
  {
    var c := New(perMinute, burst, idleTTL);
    IdleLongEnough(perMinute, burst, idleTTL);
    OneMinute(perMinute, burst, idleTTL, begin);
    WindowBound(c, before, window, key, begin, begin + 60.0);
  }

  /* ---------- The table ---------- */

  /** When a bucket other than the one asked leaves the table: when it has been idle for longer
    * than the idle time, at the first call a minute or more after the last sweep. */
  lemma SweptExactly(c: Config, s: State, call: Call, k: string)
    requires k in s.entries && k != Bucket(call.key)
    ensures k !in Admit(c, s, call).s.entries
            <==> call.at - s.entries[k].lastSeen > c.idleTTL && (s.lastCleanup.None? || call.at - s.lastCleanup.value >= 60.0)
  {
  }

  // What was last seen before the last sweep had not been idle for too long then.
  ghost predicate Trimmed(c: Config, s: State, now: real) {
    && (s.lastCleanup.None? ==> s.entries == map[])
    && (s.lastCleanup.Some? ==> s.lastCleanup.value <= now && forall k :: k in s.entries ==> s.entries[k].lastSeen >= s.lastCleanup.value - c.idleTTL)
  }

  lemma TrimmedStep(c: Config, s: State, now: real, call: Call)
    requires c.Valid() && Trimmed(c, s, now) && now <= call.at
    ensures var t := Admit(c, s, call).s;
            Trimmed(c, t, call.at) && t.lastCleanup.Some? && call.at - t.lastCleanup.value < 60.0
  {
  }

  lemma {:induction false} TrimmedRun(c: Config, s: State, now: real, calls: seq<Call>)
    requires c.Valid() && Trimmed(c, s, now) && Monotone(now, calls)
    ensures Trimmed(c, After(c, s, calls), Clock(now, calls))
    ensures calls != [] ==> var t := After(c, s, calls); t.lastCleanup.Some? && Clock(now, calls) - t.lastCleanup.value < 60.0
    decreases |calls|
  {
    if calls != [] {
      TrimmedStep(c, s, now, calls[0]);
      TrimmedRun(c, Admit(c, s, calls[0]).s, calls[0].at, calls[1..]);
    }
  }

  /** The table does not grow with the clients of the past: after any call it holds only those
    * seen within the idle time and one minute. */
  lemma TableIsRecent(c: Config, calls: seq<Call>, k: string)
    requires c.Valid() && Monotone(0.0, calls) && calls != [] && k in After(c, Empty, calls).entries
    ensures Clock(0.0, calls) - After(c, Empty, calls).entries[k].lastSeen < c.idleTTL + 60.0
  {
    TrimmedRun(c, Empty, 0.0, calls);
  }

  /** A client without an address shares the bucket of the name "unknown". */
  lemma AnonymousShare(c: Config, s: State, at: real)
    ensures Admit(c, s, Call("", at)) == Admit(c, s, Call("unknown", at))
    ensures forall key :: key != "" && key != "unknown" ==> Bucket(key) == key
  {
  }
}
