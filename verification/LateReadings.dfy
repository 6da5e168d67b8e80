/** The limiter with late clock readings: a call reads the clock before it gets the lock
  * (internal/ratelimit/limiter.go:55-58), so the readings of the calls one after the other in
  * the lock can go back, by as much as a call may wait for it.
  */
module LateReadings {
  import opened Options
  import opened RateLimiter

  // An empty bucket fills up in less time than an idle one is kept, less the wait, by which a
  // reading can set back when the bucket was seen.
  predicate KeepsFor(c: Config, wait: real) {
    c.burst as real <= (c.idleTTL - wait) * c.rate
  }

  // `clock` is what the clock says now. A bucket can have been refilled up to a later time than
  // it was seen last.
  predicate InBounds(c: Config, wait: real, e: Entry, clock: real) {
    0.0 <= e.tokens <= c.burst as real && e.lastSeen <= clock && e.lastRefill <= clock && e.lastRefill <= e.lastSeen + wait
  }

  ghost predicate Valid(c: Config, wait: real, s: State, clock: real) {
    forall k :: k in s.entries ==> InBounds(c, wait, s.entries[k], clock)
  }

  // The level at the earliest time a reading can still have; tokens for later times are owed.
  function Credit(c: Config, wait: real, s: State, key: string, clock: real): real {
    Level(c, s, key, clock - wait)
  }

  lemma GainSplit(rate: real, a: real, b: real, d: real)
    ensures Gain(rate, a, b) + Gain(rate, b, d) == Gain(rate, a, d)
  {
  }

  lemma GainBack(rate: real, a: real, b: real)
    requires rate > 0.0 && a <= b
    ensures Gain(rate, b, a) <= 0.0 <= Gain(rate, a, b)
  {
  }

  // Refilled up to the reading and asked, the bucket has less than before by a token, if that
  // was there, as seen from any earlier time.
  lemma EntryPays(c: Config, e: Entry, at: real, m: real)
    requires c.Valid() && 0.0 <= e.tokens <= c.burst as real && m <= at
    ensures var f := Refill(c, e, at);
            && 0.0 <= Take(f).tokens <= c.burst as real
            && (if f.tokens >= 1.0 then 1.0 else 0.0) + Min(Take(f).tokens + Gain(c.rate, f.lastRefill, m), c.burst as real)
               <= Min(e.tokens + Gain(c.rate, e.lastRefill, m), c.burst as real)
  {
    var f := Refill(c, e, at);
    GainBack(c.rate, m, at);
    if at > e.lastRefill {
      GainSplit(c.rate, e.lastRefill, at, m);
      GainBack(c.rate, e.lastRefill, at);
    } else {
      GainBack(c.rate, m, e.lastRefill);
    }
  }

  lemma UsePays(c: Config, wait: real, s: State, call: Call, clock: real)
    requires c.Valid() && Valid(c, wait, s, clock) && clock - wait <= call.at <= clock
    ensures var a := Use(c, s, call); var key := Bucket(call.key);
            && Valid(c, wait, a.s, clock)
            && (if a.ok then 1.0 else 0.0) + Credit(c, wait, a.s, key, clock) <= Credit(c, wait, s, key, clock)
  {
    var key := Bucket(call.key);
    var e := Found(c, s, key, call.at);
    assert key in s.entries ==> InBounds(c, wait, s.entries[key], clock);
    EntryPays(c, e, call.at, clock - wait);
    GainBack(c.rate, clock - wait, call.at);
    var f := Refill(c, e, call.at);
    assert f.lastSeen == call.at && f.lastRefill <= clock;
    assert InBounds(c, wait, Take(f), clock);
  }

  // A bucket evicted by a call of its own key was full again at that call's reading.
  lemma EvictedPays(c: Config, wait: real, e: Entry, at: real, clock: real)
    requires c.Valid() && KeepsFor(c, wait) && InBounds(c, wait, e, clock) && clock - wait <= at && at - e.lastSeen > c.idleTTL
    ensures c.burst as real + Gain(c.rate, at, clock - wait) <= Min(e.tokens + Gain(c.rate, e.lastRefill, clock - wait), c.burst as real)
  {
    GainAtLeast(c.rate, e.lastRefill, at, c.idleTTL - wait);
    GainSplit(c.rate, e.lastRefill, at, clock - wait);
    GainBack(c.rate, clock - wait, at);
  }

  lemma SweptValid(c: Config, wait: real, s: State, at: real, clock: real)
    requires Valid(c, wait, s, clock)
    ensures Valid(c, wait, Swept(c, s, at), clock)
  {
  }

  // A call that finds no bucket.
  lemma FirstPays(c: Config, wait: real, s: State, call: Call, clock: real)
    requires c.Valid() && Valid(c, wait, s, clock) && clock - wait <= call.at <= clock && Bucket(call.key) !in s.entries
    ensures var a := Use(c, s, call);
            a.ok && Credit(c, wait, a.s, Bucket(call.key), clock) + 1.0 <= c.burst as real + Gain(c.rate, call.at, clock - wait)
  {
    GainBack(c.rate, clock - wait, call.at);
  }

  /** One call of a key: whatever its reading, within the wait, an admission is paid for by the
    * credit of the key's bucket. */
  lemma AdmitPays(c: Config, wait: real, s: State, call: Call, clock: real)
    requires c.Valid() && KeepsFor(c, wait) && Valid(c, wait, s, clock) && clock - wait <= call.at <= clock
    ensures var a := Admit(c, s, call); var key := Bucket(call.key);
            Valid(c, wait, a.s, clock) && (if a.ok then 1.0 else 0.0) + Credit(c, wait, a.s, key, clock) <= Credit(c, wait, s, key, clock)
  {
    var key, t := Bucket(call.key), Swept(c, s, call.at);
    SweptValid(c, wait, s, call.at, clock);
    UsePays(c, wait, t, call, clock);
    if key in s.entries && key !in t.entries {
      EvictedPays(c, wait, s.entries[key], call.at, clock);
      FirstPays(c, wait, t, call, clock);
    }
  }

  lemma CreditLater(c: Config, wait: real, s: State, key: string, clock: real, later: real)
    requires c.Valid() && clock <= later
    ensures Credit(c, wait, s, key, later) <= Credit(c, wait, s, key, clock) + Gain(c.rate, clock, later)
    ensures Valid(c, wait, s, clock) ==> Valid(c, wait, s, later)
  {
    LevelLater(c, s, key, clock - wait, later - wait);
  }

  lemma CreditBounds(c: Config, wait: real, s: State, key: string, clock: real)
    requires c.Valid() && wait >= 0.0 && Valid(c, wait, s, clock)
    ensures -Gain(c.rate, 0.0, wait) <= Credit(c, wait, s, key, clock) <= c.burst as real
  {
    GainBack(c.rate, 0.0, wait);
    if key in s.entries {
      var e := s.entries[key];
      assert InBounds(c, wait, e, clock);
      GainAtLeast(c.rate, clock - wait, clock, wait);
      GainSplit(c.rate, e.lastRefill, clock, clock - wait);
      GainBack(c.rate, e.lastRefill, clock);
    }
  }

  /* ---------- Eviction before a bucket is full ---------- */

  // A call, and what the clock says when it gets the lock.
  datatype Locked = Locked(call: Call, clock: real)

  ghost predicate Timely(wait: real, now: real, run: seq<Locked>)
    decreases |run|
  {
    run == [] || (now <= run[0].clock && run[0].clock - wait <= run[0].call.at <= run[0].clock && Timely(wait, run[0].clock, run[1..]))
  }

  function AfterRun(c: Config, s: State, run: seq<Locked>): State
    decreases |run|
  {
    if run == [] then s else AfterRun(c, Admit(c, s, run[0].call).s, run[1..])
  }

  // Every bucket the call evicts is full by its reading.
  ghost predicate EvictsFull(c: Config, s: State, call: Call) {
    forall k :: k in s.entries && k !in Swept(c, s, call.at).entries ==> Level(c, s, k, call.at) == c.burst as real
  }

  ghost predicate AllEvictFull(c: Config, s: State, run: seq<Locked>)
    decreases |run|
  {
    run == [] || (EvictsFull(c, s, run[0].call) && AllEvictFull(c, Admit(c, s, run[0].call).s, run[1..]))
  }

  lemma CallEvictsFull(c: Config, wait: real, s: State, call: Call, clock: real)
    requires c.Valid() && KeepsFor(c, wait) && Valid(c, wait, s, clock) && clock - wait <= call.at <= clock
    ensures EvictsFull(c, s, call)
  {
    forall k | k in s.entries && k !in Swept(c, s, call.at).entries
      ensures Level(c, s, k, call.at) == c.burst as real
    {
      assert InBounds(c, wait, s.entries[k], clock);
      IdleIsFull(c, wait, s.entries[k], call.at, clock);
    }
  }

  lemma IdleIsFull(c: Config, wait: real, e: Entry, at: real, clock: real)
    requires c.Valid() && KeepsFor(c, wait) && InBounds(c, wait, e, clock) && at - e.lastSeen > c.idleTTL
    ensures Min(e.tokens + Gain(c.rate, e.lastRefill, at), c.burst as real) == c.burst as real
  {
    GainAtLeast(c.rate, e.lastRefill, at, c.idleTTL - wait);
  }

  lemma {:induction false} RunEvictsFull(c: Config, wait: real, s: State, now: real, run: seq<Locked>)
    requires c.Valid() && KeepsFor(c, wait) && Valid(c, wait, s, now) && Timely(wait, now, run)
    ensures AllEvictFull(c, s, run)
    decreases |run|
  {
    if run != [] {
      var call, clock := run[0].call, run[0].clock;
      CreditLater(c, wait, s, "", now, clock);
      CallEvictsFull(c, wait, s, call, clock);
      AdmitPays(c, wait, s, call, clock);
      RunEvictsFull(c, wait, Admit(c, s, call).s, clock, run[1..]);
    }
  }

  lemma {:induction false} LastNotFull(c: Config, s: State, run: seq<Locked>, last: Locked)
    requires !EvictsFull(c, AfterRun(c, s, run), last.call)
    ensures !AllEvictFull(c, s, run + [last])
    decreases |run|
  {
    if run == [] {
      assert run + [last] == [last];
    } else {
      assert (run + [last])[1..] == run[1..] + [last];
      LastNotFull(c, Admit(c, s, run[0].call).s, run[1..], last);
    }
  }

  lemma {:induction false} OneMore(c: Config, wait: real, s: State, now: real, run: seq<Locked>, clock: real, last: Locked)
    requires Timely(wait, now, run) && (run == [] ==> now <= clock) && (run != [] ==> run[|run| - 1].clock <= clock)
    requires last.clock == clock && clock - wait <= last.call.at <= clock
    ensures Timely(wait, now, run + [last]) && AfterRun(c, s, run + [last]) == Admit(c, AfterRun(c, s, run), last.call).s
    decreases |run|
  {
    if run == [] {
      assert run + [last] == [last] && [last][1..] == [];
    } else {
      assert (run + [last])[1..] == run[1..] + [last];
      OneMore(c, wait, Admit(c, s, run[0].call).s, run[0].clock, run[1..], clock, last);
    }
  }

  // The bucket has had so many tokens taken at time t, and the table was last swept less than
  // CleanupEvery before.
  ghost predicate Taken(c: Config, s: State, t: real, swept: real, n: nat) {
    "k" in s.entries && s.entries["k"] == Entry((c.burst - n) as real, t, t) && s.lastCleanup == Some(swept)
  }

  // Another key's call, which sweeps, and then so many calls at time t.
  function Calls(t: real, swept: real, n: nat): seq<Locked> {
    if n == 0 then [Locked(Call("other", swept), swept)] else Calls(t, swept, n - 1) + [Locked(Call("k", t), t)]
  }

  lemma {:induction false} CallsTake(c: Config, wait: real, t: real, swept: real, n: nat)
    requires c.Valid() && wait >= 0.0 && 0.0 <= swept <= t && t - swept < CleanupEvery && n <= c.burst
    ensures Timely(wait, 0.0, Calls(t, swept, n)) && Calls(t, swept, n)[|Calls(t, swept, n)| - 1].clock == if n == 0 then swept else t
    ensures var s := AfterRun(c, Empty, Calls(t, swept, n)); s.lastCleanup == Some(swept) && if n == 0 then "k" !in s.entries else Taken(c, s, t, swept, n)
  {
    if n == 0 {
      var one := Locked(Call("other", swept), swept);
      assert [one][1..] == [];
      assert Swept(c, Empty, swept).entries == map[];
    } else {
      CallsTake(c, wait, t, swept, n - 1);
      OneMore(c, wait, Empty, 0.0, Calls(t, swept, n - 1), t, Locked(Call("k", t), t));
    }
  }

  // A bucket emptied at t, its last call having read the clock `wait` before that, is evicted
  // at r.
  lemma SetBackEvicts(c: Config, wait: real, t: real, swept: real, r: real) returns (run: seq<Locked>)
    requires c.Valid() && wait >= 0.0 && 0.0 <= swept <= t <= r && t - swept < CleanupEvery
    requires r - swept >= CleanupEvery && r - (t - wait) > c.idleTTL && (r - t) * c.rate < c.burst as real
    ensures Timely(wait, 0.0, run) && !AllEvictFull(c, Empty, run)
  {
    var calls, back, last := Calls(t, swept, c.burst), Locked(Call("k", t - wait), t), Locked(Call("k", r), r);
    CallsTake(c, wait, t, swept, c.burst);
    OneMore(c, wait, Empty, 0.0, calls, t, back);
    OneMore(c, wait, Empty, 0.0, calls + [back], r, last);
    var s := AfterRun(c, Empty, calls + [back]);
    BackIsSeen(c, AfterRun(c, Empty, calls), wait, t, swept);
    EvictedShort(c, s, wait, t, swept, r);
    LastNotFull(c, Empty, calls + [back], last);
    run := calls + [back] + [last];
  }

  lemma EvictedShort(c: Config, s: State, wait: real, t: real, swept: real, r: real)
    requires c.Valid() && "k" in s.entries && s.entries["k"] == Entry(0.0, t - wait, t) && s.lastCleanup == Some(swept)
    requires r - swept >= CleanupEvery && r - (t - wait) > c.idleTTL && (r - t) * c.rate < c.burst as real
    ensures !EvictsFull(c, s, Call("k", r))
  {
    assert "k" !in Swept(c, s, r).entries && Level(c, s, "k", r) == (r - t) * c.rate;
  }

  lemma BackIsSeen(c: Config, s: State, wait: real, t: real, swept: real)
    requires c.Valid() && wait >= 0.0 && t - swept < CleanupEvery && Taken(c, s, t, swept, c.burst)
    ensures var u := Admit(c, s, Call("k", t - wait)).s;
            "k" in u.entries && u.entries["k"] == Entry(0.0, t - wait, t) && u.lastCleanup == Some(swept)
  {
  }

  // A time at which such a bucket is evicted but not full.
  function TooEarly(c: Config, wait: real, t: real): (r: real)
    requires c.Valid() && wait >= 0.0 && !KeepsFor(c, wait)
    ensures t < r && r - (t - wait) > c.idleTTL && (r - t) * c.rate < c.burst as real
  {
    var least, full := if c.idleTTL > wait then c.idleTTL - wait else 0.0, c.burst as real / c.rate;
    Between(c, wait, least, full);
    t + (least + full) / 2.0
  }

  lemma Between(c: Config, wait: real, least: real, full: real)
    requires c.Valid() && wait >= 0.0 && !KeepsFor(c, wait) && full == c.burst as real / c.rate
    requires least == if c.idleTTL > wait then c.idleTTL - wait else 0.0
    ensures least < full && ((least + full) / 2.0) * c.rate < c.burst as real
  {
    assert full * c.rate == c.burst as real;
    assert least * c.rate < c.burst as real;
    assert least < full by {
      if least >= full {
        GainAtLeast(c.rate, 0.0, least, full);
      }
    }
    assert (full - (least + full) / 2.0) * c.rate > 0.0;
  }

  /** On all runs in which calls wait at most so long for the lock, no bucket is evicted before it
    * is full; if and only if an empty bucket fills up in less time than an idle one is kept, less
    * the wait. */
  lemma EvictedFullExactly(c: Config, wait: real)
    requires c.Valid() && wait >= 0.0
    ensures (forall run :: Timely(wait, 0.0, run) ==> AllEvictFull(c, Empty, run)) <==> KeepsFor(c, wait)
  {
    if KeepsFor(c, wait) {
      forall run | Timely(wait, 0.0, run)
        ensures AllEvictFull(c, Empty, run)
      {
        RunEvictsFull(c, wait, Empty, 0.0, run);
      }
    } else {
      var t := CleanupEvery + wait;
      var r := TooEarly(c, wait, t);
      var run := SetBackEvicts(c, wait, t, Min(t, r - CleanupEvery), r);
    }
  }
}
