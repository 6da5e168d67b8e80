/** What a key's own limit guarantees (internal/proxy/key_rate_limiter.go). Its limiter is
  * thrown away and made anew whenever its entry goes stale; how many requests it admits
  * depends on the times of the key's own requests alone.
  */
module KeyRateBounds {
  import opened Options
  import opened RateLimiter
  import opened KeyRateLimiter
  import RateBounds

  /* ---------- The key's own limiter, by the times of its requests ---------- */

  // When the entry was fetched, and the limiter made then.
  datatype Own = Own(fetchedAt: Option<real>, bucket: State)

  const Unfetched := Own(None, Empty)

  predicate IsCurrent(ttl: real, o: Own, t: real) {
    o.fetchedAt.Some? && t - o.fetchedAt.value < ttl
  }

  function Ready(ttl: real, o: Own, t: real): Own {
    if IsCurrent(ttl, o, t) then o else Own(Some(t), Empty)
  }

  function Ok(ttl: real, c: Config, key: string, o: Own, t: real): bool {
    Admit(c, Ready(ttl, o, t).bucket, Call(key, t)).ok
  }

  function Then(ttl: real, c: Config, key: string, o: Own, t: real): Own {
    var r := Ready(ttl, o, t);
    r.(bucket := Admit(c, r.bucket, Call(key, t)).s)
  }

  function OwnAdmitted(ttl: real, c: Config, key: string, o: Own, ts: seq<real>): nat
    decreases |ts|
  {
    if ts == [] then 0 else (if Ok(ttl, c, key, o, ts[0]) then 1 else 0) + OwnAdmitted(ttl, c, key, Then(ttl, c, key, o, ts[0]), ts[1..])
  }

  function OwnAfter(ttl: real, c: Config, key: string, o: Own, ts: seq<real>): Own
    decreases |ts|
  {
    if ts == [] then o else OwnAfter(ttl, c, key, Then(ttl, c, key, o, ts[0]), ts[1..])
  }

  // How often a request comes a TTL or more after the fetch before it, read off the times.
  function Refetches(ttl: real, fetchedAt: Option<real>, ts: seq<real>): nat
    decreases |ts|
  {
    if ts == [] then 0
    else if fetchedAt.Some? && ts[0] - fetchedAt.value < ttl then Refetches(ttl, fetchedAt, ts[1..])
    else (if fetchedAt.Some? then 1 else 0) + Refetches(ttl, Some(ts[0]), ts[1..])
  }

  function FetchedAfter(ttl: real, fetchedAt: Option<real>, ts: seq<real>): Option<real>
    decreases |ts|
  {
    if ts == [] then fetchedAt
    else FetchedAfter(ttl, if fetchedAt.Some? && ts[0] - fetchedAt.value < ttl then fetchedAt else Some(ts[0]), ts[1..])
  }

  lemma {:induction false} FetchedByTimes(ttl: real, c: Config, key: string, o: Own, ts: seq<real>)
    ensures OwnAfter(ttl, c, key, o, ts).fetchedAt == FetchedAfter(ttl, o.fetchedAt, ts)
    decreases |ts|
  {
    if ts != [] {
      FetchedByTimes(ttl, c, key, Then(ttl, c, key, o, ts[0]), ts[1..]);
    }
  }

  ghost predicate InTime(now: real, ts: seq<real>)
    decreases |ts|
  {
    ts == [] || (now <= ts[0] && InTime(ts[0], ts[1..]))
  }

  function End(now: real, ts: seq<real>): real {
    if ts == [] then now else ts[|ts| - 1]
  }

  lemma {:induction false} EndAhead(now: real, ts: seq<real>)
    requires InTime(now, ts)
    ensures now <= End(now, ts)
    decreases |ts|
  {
    if ts != [] {
      EndAhead(ts[0], ts[1..]);
    }
  }

  /* ---------- The whole limiter does the same ---------- */

  // The store always has the same limit for the key.
  ghost predicate Steady(key: string, stored: (int, int), rs: seq<Request>) {
    forall i :: 0 <= i < |rs| && rs[i].key == key ==> rs[i].stored == Some(stored)
  }

  function LimitOf(stored: (int, int)): Config {
    New(stored.0, stored.1, 900.0)
  }

  // The key's entry is the limiter followed, unless both are stale.
  ghost predicate Follows(ttl: real, c: Config, s: KeyState, key: string, o: Own, now: real) {
    if IsCurrent(ttl, o, now) then key in s.perKey && s.perKey[key] == Cached(Some(Lim(c, o.bucket)), o.fetchedAt.value)
    else !IsFresh(ttl, s, key, now)
  }

  // The times at which a request of the key passes the global limiter.
  function PassTimes(s: KeyState, key: string, rs: seq<Request>): seq<real>
    decreases |rs|
  {
    if rs == [] then []
    else
      var g := AskGlobal(s, rs[0]);
      (if g.ok && rs[0].key == key then [rs[0].at] else []) + PassTimes(g.s, key, rs[1..])
  }

  function KeyAdmitted(ttl: real, s: KeyState, key: string, rs: seq<Request>): nat
    decreases |rs|
  {
    if rs == [] then 0
    else (if rs[0].key == key && Ask(ttl, s, rs[0]).ok then 1 else 0) + KeyAdmitted(ttl, Ask(ttl, s, rs[0]).s, key, rs[1..])
  }

  lemma FollowsLater(ttl: real, c: Config, s: KeyState, key: string, o: Own, now: real, later: real)
    requires now <= later && Follows(ttl, c, s, key, o, now)
    ensures Follows(ttl, c, s, key, o, later)
  {
  }

  lemma OtherKey(ttl: real, c: Config, s: KeyState, key: string, o: Own, r: Request)
    requires ttl > 0.0 && Follows(ttl, c, s, key, o, r.at) && r.key != key
    ensures Follows(ttl, c, Ask(ttl, s, r).s, key, o, r.at)
  {
    var g := AskGlobal(s, r);
    if g.ok {
      var t := WithEntry(ttl, g.s, r);
      assert IsFresh(ttl, s, key, r.at) ==> key in t.perKey && t.perKey[key] == s.perKey[key];
    }
  }

  lemma OwnKey(ttl: real, stored: (int, int), s: KeyState, o: Own, r: Request)
    requires ttl > 0.0 && Follows(ttl, LimitOf(stored), s, r.key, o, r.at) && r.stored == Some(stored) && AskGlobal(s, r).ok
    ensures var c := LimitOf(stored);
            && Ask(ttl, s, r).ok == Ok(ttl, c, r.key, o, r.at)
            && Follows(ttl, c, Ask(ttl, s, r).s, r.key, Then(ttl, c, r.key, o, r.at), r.at)
  {
    var c := LimitOf(stored);
    var g := AskGlobal(s, r).s;
    var q := Ready(ttl, o, r.at);
    assert WithEntry(ttl, g, r).perKey[r.key] == Cached(Some(Lim(c, q.bucket)), q.fetchedAt.value);
  }

  lemma {:induction false} AskedGlobal(s: KeyState, t: KeyState, key: string, rs: seq<Request>)
    requires s.global == t.global
    ensures PassTimes(s, key, rs) == PassTimes(t, key, rs)
    decreases |rs|
  {
    if rs != [] {
      AskedGlobal(AskGlobal(s, rs[0]).s, AskGlobal(t, rs[0]).s, key, rs[1..]);
    }
  }

  /** What both limiters together admit of a key is what its own limiter makes of the times
    * at which the key passes the global one: other keys, their sweeps and the map do not
    * matter. Without a global limiter these are all its request times. */
  lemma {:induction false} OwnTimesDecide(ttl: real, stored: (int, int), s: KeyState, key: string, o: Own, now: real, rs: seq<Request>)
    requires ttl > 0.0 && InOrder(now, rs) && Steady(key, stored, rs) && Follows(ttl, LimitOf(stored), s, key, o, now)
    ensures KeyAdmitted(ttl, s, key, rs) == OwnAdmitted(ttl, LimitOf(stored), key, o, PassTimes(s, key, rs))
    decreases |rs|
  {
    if rs != [] {
      var c, r := LimitOf(stored), rs[0];
      var g, a := AskGlobal(s, r), Ask(ttl, s, r);
      assert forall i :: 0 < i < |rs| ==> rs[i] == rs[1..][i - 1];
      FollowsLater(ttl, c, s, key, o, now, r.at);
      AskedGlobal(g.s, a.s, key, rs[1..]);
      if r.key == key && g.ok {
        OwnKey(ttl, stored, s, o, r);
        OwnTimesDecide(ttl, stored, a.s, key, Then(ttl, c, key, o, r.at), r.at, rs[1..]);
        assert ([r.at] + PassTimes(g.s, key, rs[1..]))[1..] == PassTimes(g.s, key, rs[1..]);
      } else {
        if r.key != key {
          OtherKey(ttl, c, s, key, o, r);
        }
        OwnTimesDecide(ttl, stored, a.s, key, o, r.at, rs[1..]);
        assert [] + PassTimes(g.s, key, rs[1..]) == PassTimes(g.s, key, rs[1..]);
      }
    }
  }

  /* ---------- Levels ---------- */

  function OwnLevel(c: Config, key: string, o: Own, t: real): real {
    Level(c, o.bucket, Bucket(key), t)
  }

  ghost predicate ValidOwn(c: Config, o: Own, now: real) {
    && Valid(c, o.bucket, now) && (o.bucket.lastCleanup.Some? ==> o.bucket.lastCleanup.value <= now)
    && (o.fetchedAt.Some? ==> o.fetchedAt.value <= now && forall k :: k in o.bucket.entries ==> o.fetchedAt.value <= o.bucket.entries[k].lastSeen)
  }

  // The limiter's eviction of idle buckets cannot show before its entry goes stale.
  predicate EvictionHidden(ttl: real, c: Config) {
    ttl <= c.idleTTL || c.KeepsIdleLongEnough()
  }

  // Eviction never takes tokens away.
  lemma SweptLevel(ttl: real, c: Config, key: string, o: Own, t: real)
    requires c.Valid() && ValidOwn(c, o, t)
    ensures Level(c, Swept(c, o.bucket, t), key, t) >= Level(c, o.bucket, key, t)
    ensures EvictionHidden(ttl, c) && IsCurrent(ttl, o, t) ==> Level(c, Swept(c, o.bucket, t), key, t) == Level(c, o.bucket, key, t)
  {
    if c.KeepsIdleLongEnough() {
      SweptLevels(c, o.bucket, t);
    }
  }

  lemma OneRequest(ttl: real, c: Config, key: string, o: Own, t: real)
    requires ttl > 0.0 && c.Valid() && ValidOwn(c, o, t)
    ensures var r, q := Ready(ttl, o, t), Then(ttl, c, key, o, t);
            var level := Level(c, Swept(c, r.bucket, t), Bucket(key), t);
            && ValidOwn(c, r, t) && ValidOwn(c, q, t) && IsCurrent(ttl, q, t) && q.fetchedAt == r.fetchedAt
            && (Ok(ttl, c, key, o, t) <==> level >= 1.0)
            && OwnLevel(c, key, q, t) == level - (if Ok(ttl, c, key, o, t) then 1.0 else 0.0)
            && Bucket(key) in q.bucket.entries && q.bucket.entries[Bucket(key)].lastSeen == t && q.bucket.lastCleanup.Some?
  {
    var r := Ready(ttl, o, t);
    UseByLevel(c, Swept(c, r.bucket, t), Call(key, t));
    RefillIsLevel(c, Swept(c, r.bucket, t), Bucket(key), t);
  }

  /* ---------- The bound ---------- */

  // What may still be admitted without gaining or fetching.
  function Left(ttl: real, c: Config, key: string, o: Own, t: real): real {
    if o.fetchedAt.None? then c.burst as real else if IsCurrent(ttl, o, t) then OwnLevel(c, key, o, t) else 0.0
  }

  function Bursts(n: nat, burst: int): real {
    if n == 0 then 0.0 else Bursts(n - 1, burst) + burst as real
  }

  lemma OneMore(n: nat, burst: int)
    ensures Bursts(n + 1, burst) == Bursts(n, burst) + burst as real
  {
  }

  lemma LeftBounds(ttl: real, c: Config, key: string, o: Own, t: real)
    requires c.Valid() && ValidOwn(c, o, t)
    ensures 0.0 <= Left(ttl, c, key, o, t) <= c.burst as real
  {
    if Bucket(key) in o.bucket.entries {
      GainNonNegative(c.rate, o.bucket.entries[Bucket(key)].lastRefill, t);
    }
  }

  // One request uses up at most what is left, what was gained, and a burst if it refetches.
  lemma RequestUses(ttl: real, c: Config, key: string, o: Own, now: real, t: real)
    requires ttl > 0.0 && c.Valid() && EvictionHidden(ttl, c) && ValidOwn(c, o, now) && now <= t
    ensures var q := Then(ttl, c, key, o, t);
            && ValidOwn(c, q, t) && q.fetchedAt == (if IsCurrent(ttl, o, t) then o.fetchedAt else Some(t))
            && (if Ok(ttl, c, key, o, t) then 1.0 else 0.0) + Left(ttl, c, key, q, t)
               <= Left(ttl, c, key, o, now) + Gain(c.rate, now, t) + (if o.fetchedAt.Some? && !IsCurrent(ttl, o, t) then c.burst as real else 0.0)
  {
    GainNonNegative(c.rate, now, t);
    OneRequest(ttl, c, key, o, t);
    LeftBounds(ttl, c, key, o, now);
    var r := Ready(ttl, o, t);
    SweptLevel(ttl, c, Bucket(key), r, t);
    if IsCurrent(ttl, o, t) {
      LevelLater(c, o.bucket, Bucket(key), now, t);
    }
  }

  lemma {:induction false} UsesAtMost(ttl: real, c: Config, key: string, o: Own, now: real, end: real, ts: seq<real>)
    requires ttl > 0.0 && c.Valid() && EvictionHidden(ttl, c)
    requires ValidOwn(c, o, now) && InTime(now, ts) && End(now, ts) <= end
    ensures OwnAdmitted(ttl, c, key, o, ts) as real
            <= Left(ttl, c, key, o, now) + Bursts(Refetches(ttl, o.fetchedAt, ts), c.burst) + Gain(c.rate, now, end)
    decreases |ts|
  {
    if ts == [] {
      GainNonNegative(c.rate, now, end);
      LeftBounds(ttl, c, key, o, now);
    } else {
      var t := ts[0];
      var q := Then(ttl, c, key, o, t);
      RequestUses(ttl, c, key, o, now, t);
      EndAhead(t, ts[1..]);
      UsesAtMost(ttl, c, key, q, t, end, ts[1..]);
      OneMore(Refetches(ttl, q.fetchedAt, ts[1..]), c.burst);
    }
  }

  lemma {:induction false} StaysValid(ttl: real, c: Config, key: string, o: Own, now: real, ts: seq<real>)
    requires ttl > 0.0 && c.Valid() && ValidOwn(c, o, now) && InTime(now, ts)
    ensures ValidOwn(c, OwnAfter(ttl, c, key, o, ts), End(now, ts))
    decreases |ts|
  {
    if ts != [] {
      OneRequest(ttl, c, key, o, ts[0]);
      StaysValid(ttl, c, key, Then(ttl, c, key, o, ts[0]), ts[0], ts[1..]);
    }
  }

  // Requests of the key before a window of time and in it.
  ghost predicate InWindow(before: seq<real>, begin: real, window: seq<real>, end: real) {
    InTime(0.0, before) && End(0.0, before) <= begin && InTime(begin, window) && End(begin, window) <= end
  }

  function AdmittedIn(ttl: real, c: Config, key: string, before: seq<real>, window: seq<real>): nat {
    OwnAdmitted(ttl, c, key, OwnAfter(ttl, c, key, Unfetched, before), window)
  }

  // How often the key's limiter is made anew in the window, from the request times.
  function RefetchesIn(ttl: real, before: seq<real>, window: seq<real>): nat {
    Refetches(ttl, FetchedAfter(ttl, None, before), window)
  }

  /** In any window the key's own limit admits at most burst + rate * length requests, and
    * one more burst for each time its entry is refetched. */
  lemma OwnWindowBound(ttl: real, c: Config, key: string, before: seq<real>, begin: real, window: seq<real>, end: real)
    requires ttl > 0.0 && c.Valid() && EvictionHidden(ttl, c) && InWindow(before, begin, window, end)
    ensures AdmittedIn(ttl, c, key, before, window) as real
            <= Bursts(RefetchesIn(ttl, before, window) + 1, c.burst) + Gain(c.rate, begin, end)
  {
    var o := OwnAfter(ttl, c, key, Unfetched, before);
    StaysValid(ttl, c, key, Unfetched, 0.0, before);
    FetchedByTimes(ttl, c, key, Unfetched, before);
    LeftBounds(ttl, c, key, o, begin);
    UsesAtMost(ttl, c, key, o, begin, end, window);
    OneMore(RefetchesIn(ttl, before, window), c.burst);
  }

  /* ---------- Where one request a TTL is the limit itself ---------- */

  // One token, which takes just the TTL to come back.
  predicate OneATTL(ttl: real, c: Config) {
    c.burst == 1 && ttl * c.rate == 1.0
  }

  // Between two fetches the bucket holds what it gained since the last one.
  ghost predicate SinceFetch(ttl: real, c: Config, key: string, o: Own, t: real) {
    IsCurrent(ttl, o, t) ==> OwnLevel(c, key, o, t) == Gain(c.rate, o.fetchedAt.value, t)
  }

  function Token(c: Config, o: Own, t: real): real {
    if o.fetchedAt.None? then 1.0 else Min(1.0, Gain(c.rate, o.fetchedAt.value, t))
  }

  lemma LessThanAToken(rate: real, a: real, b: real, ttl: real)
    requires rate > 0.0 && ttl * rate == 1.0
    ensures Gain(rate, a, b) < 1.0 <==> b - a < ttl
  {
    assert Gain(rate, a, b) - 1.0 == (b - a - ttl) * rate;
  }

  lemma GainAdds(rate: real, a: real, b: real, c: real)
    ensures Gain(rate, a, b) + Gain(rate, b, c) == Gain(rate, a, c)
  {
  }

  lemma SinceFetchLater(ttl: real, c: Config, key: string, o: Own, now: real, t: real)
    requires c.Valid() && OneATTL(ttl, c) && now <= t && SinceFetch(ttl, c, key, o, now)
    ensures SinceFetch(ttl, c, key, o, t)
  {
    if IsCurrent(ttl, o, t) {
      LevelLater(c, o.bucket, Bucket(key), now, t);
      GainAdds(c.rate, o.fetchedAt.value, now, t);
      LessThanAToken(c.rate, o.fetchedAt.value, t, ttl);
    }
  }

  // At a fetch the token is back, and taken.
  lemma TokenTaken(ttl: real, c: Config, key: string, o: Own, now: real, t: real)
    requires ttl > 0.0 && c.Valid() && OneATTL(ttl, c) && ValidOwn(c, o, now) && now <= t && !IsCurrent(ttl, o, t)
    ensures var q := Then(ttl, c, key, o, t); q.fetchedAt == Some(t) && OwnLevel(c, key, q, t) == 0.0
    ensures Ok(ttl, c, key, o, t) && Token(c, o, now) + Gain(c.rate, now, t) >= 1.0
  {
    OneRequest(ttl, c, key, o, t);
    assert Swept(c, Empty, t).entries == map[];
    GainNonNegative(c.rate, now, t);
    if o.fetchedAt.Some? {
      GainAdds(c.rate, o.fetchedAt.value, now, t);
      LessThanAToken(c.rate, o.fetchedAt.value, t, ttl);
    }
  }

  // Between two fetches it is on its way.
  lemma TokenLevel(ttl: real, c: Config, key: string, o: Own, now: real, t: real)
    requires ttl > 0.0 && c.Valid() && EvictionHidden(ttl, c) && OneATTL(ttl, c)
    requires ValidOwn(c, o, t) && now <= t && SinceFetch(ttl, c, key, o, now) && IsCurrent(ttl, o, t)
    ensures Level(c, Swept(c, o.bucket, t), Bucket(key), t) == Gain(c.rate, o.fetchedAt.value, t) < 1.0
  {
    SweptLevel(ttl, c, Bucket(key), o, t);
    SinceFetchLater(ttl, c, key, o, now, t);
    assert OwnLevel(c, key, o, t) == Gain(c.rate, o.fetchedAt.value, t);
    CurrentIsLess(ttl, c, o, t);
  }

  lemma CurrentIsLess(ttl: real, c: Config, o: Own, t: real)
    requires c.Valid() && OneATTL(ttl, c) && IsCurrent(ttl, o, t)
    ensures Gain(c.rate, o.fetchedAt.value, t) < 1.0
  {
    LessThanAToken(c.rate, o.fetchedAt.value, t, ttl);
  }

  lemma TokenMissing(ttl: real, c: Config, key: string, o: Own, now: real, t: real)
    requires ttl > 0.0 && c.Valid() && EvictionHidden(ttl, c) && OneATTL(ttl, c)
    requires ValidOwn(c, o, now) && now <= t && SinceFetch(ttl, c, key, o, now) && IsCurrent(ttl, o, t)
    ensures var q := Then(ttl, c, key, o, t);
            q.fetchedAt == o.fetchedAt && OwnLevel(c, key, q, t) == Gain(c.rate, o.fetchedAt.value, t) && !Ok(ttl, c, key, o, t)
  {
    OneRequest(ttl, c, key, o, t);
    ValidLater(c, o.bucket, now, t);
    TokenLevel(ttl, c, key, o, now, t);
  }

  lemma TokenRequest(ttl: real, c: Config, key: string, o: Own, now: real, t: real)
    requires ttl > 0.0 && c.Valid() && EvictionHidden(ttl, c) && OneATTL(ttl, c)
    requires ValidOwn(c, o, now) && now <= t && SinceFetch(ttl, c, key, o, now)
    ensures var q := Then(ttl, c, key, o, t);
            && ValidOwn(c, q, t) && SinceFetch(ttl, c, key, q, t)
            && (if Ok(ttl, c, key, o, t) then 1.0 else 0.0) + Token(c, q, t) <= Token(c, o, now) + Gain(c.rate, now, t)
  {
    OneRequest(ttl, c, key, o, t);
    GainNow(c.rate, t);
    GainNonNegative(c.rate, now, t);
    if IsCurrent(ttl, o, t) {
      TokenMissing(ttl, c, key, o, now, t);
      GainAdds(c.rate, o.fetchedAt.value, now, t);
    } else {
      TokenTaken(ttl, c, key, o, now, t);
    }
  }

  lemma {:induction false} TokensUsed(ttl: real, c: Config, key: string, o: Own, now: real, end: real, ts: seq<real>)
    requires ttl > 0.0 && c.Valid() && EvictionHidden(ttl, c) && OneATTL(ttl, c)
    requires ValidOwn(c, o, now) && SinceFetch(ttl, c, key, o, now) && InTime(now, ts) && End(now, ts) <= end
    ensures OwnAdmitted(ttl, c, key, o, ts) as real <= Token(c, o, now) + Gain(c.rate, now, end)
    decreases |ts|
  {
    if ts == [] {
      GainNonNegative(c.rate, now, end);
      if o.fetchedAt.Some? {
        GainNonNegative(c.rate, o.fetchedAt.value, now);
      }
    } else {
      var t := ts[0];
      TokenRequest(ttl, c, key, o, now, t);
      EndAhead(t, ts[1..]);
      TokensUsed(ttl, c, key, Then(ttl, c, key, o, t), t, end, ts[1..]);
      GainAdds(c.rate, now, t, end);
    }
  }

  lemma {:induction false} StaysSinceFetch(ttl: real, c: Config, key: string, o: Own, now: real, ts: seq<real>)
    requires ttl > 0.0 && c.Valid() && EvictionHidden(ttl, c) && OneATTL(ttl, c)
    requires ValidOwn(c, o, now) && SinceFetch(ttl, c, key, o, now) && InTime(now, ts)
    ensures var p, end := OwnAfter(ttl, c, key, o, ts), End(now, ts); ValidOwn(c, p, end) && SinceFetch(ttl, c, key, p, end)
    decreases |ts|
  {
    if ts != [] {
      TokenRequest(ttl, c, key, o, now, ts[0]);
      StaysSinceFetch(ttl, c, key, Then(ttl, c, key, o, ts[0]), ts[0], ts[1..]);
    }
  }

  lemma OneATTLBound(ttl: real, c: Config, key: string, before: seq<real>, begin: real, window: seq<real>, end: real)
    requires ttl > 0.0 && c.Valid() && EvictionHidden(ttl, c) && OneATTL(ttl, c) && InWindow(before, begin, window, end)
    ensures AdmittedIn(ttl, c, key, before, window) as real <= 1.0 + Gain(c.rate, begin, end)
  {
    var o := OwnAfter(ttl, c, key, Unfetched, before);
    StaysSinceFetch(ttl, c, key, Unfetched, 0.0, before);
    SinceFetchLater(ttl, c, key, o, End(0.0, before), begin);
    TokensUsed(ttl, c, key, o, begin, end, window);
  }

  /* ---------- Runs that break the bound ---------- */

  // n requests at one time.
  function Volley(t: real, n: nat): seq<real> {
    if n == 0 then [] else [t] + Volley(t, n - 1)
  }

  lemma {:induction false} AdmittedAppend(ttl: real, c: Config, key: string, o: Own, a: seq<real>, b: seq<real>)
    ensures OwnAdmitted(ttl, c, key, o, a + b) == OwnAdmitted(ttl, c, key, o, a) + OwnAdmitted(ttl, c, key, OwnAfter(ttl, c, key, o, a), b)
    decreases |a|
  {
    if a == [] {
      assert a + b == b;
    } else {
      assert (a + b)[1..] == a[1..] + b;
      AdmittedAppend(ttl, c, key, Then(ttl, c, key, o, a[0]), a[1..], b);
    }
  }

  lemma {:induction false} RefetchesAppend(ttl: real, f: Option<real>, a: seq<real>, b: seq<real>)
    ensures Refetches(ttl, f, a + b) == Refetches(ttl, f, a) + Refetches(ttl, FetchedAfter(ttl, f, a), b)
    decreases |a|
  {
    if a == [] {
      assert a + b == b;
    } else {
      assert (a + b)[1..] == a[1..] + b;
      RefetchesAppend(ttl, if f.Some? && a[0] - f.value < ttl then f else Some(a[0]), a[1..], b);
    }
  }

  lemma {:induction false} VolleyInTime(now: real, t: real, n: nat, rest: seq<real>)
    requires now <= t && InTime(t, rest)
    ensures InTime(now, Volley(t, n) + rest)
    decreases n
  {
    if n == 0 {
      assert Volley(t, n) + rest == rest;
    } else {
      assert (Volley(t, n) + rest)[1..] == Volley(t, n - 1) + rest;
      VolleyInTime(t, t, n - 1, rest);
    }
  }

  lemma {:induction false} VolleyEnd(now: real, t: real, n: nat)
    requires now <= t
    ensures now <= End(now, Volley(t, n)) <= t && (n > 0 ==> End(now, Volley(t, n)) == t)
  {
    if n > 0 {
      VolleyEnd(now, t, n - 1);
    }
  }

  lemma {:induction false} VolleyFetches(ttl: real, f: Option<real>, t: real, n: nat)
    requires ttl > 0.0
    ensures var current := f.Some? && t - f.value < ttl;
            && Refetches(ttl, f, Volley(t, n)) == (if n > 0 && f.Some? && !current then 1 else 0)
            && FetchedAfter(ttl, f, Volley(t, n)) == if n == 0 || current then f else Some(t)
    decreases n
  {
    if n > 0 {
      assert Volley(t, n)[1..] == Volley(t, n - 1);
      VolleyFetches(ttl, if f.Some? && t - f.value < ttl then f else Some(t), t, n - 1);
    }
  }

  // A volley is admitted as far as the bucket's level goes.
  lemma {:induction false} VolleyAdmitted(ttl: real, c: Config, key: string, o: Own, t: real, n: nat)
    requires ttl > 0.0 && c.Valid() && ValidOwn(c, o, t) && IsCurrent(ttl, o, t)
    requires Level(c, Swept(c, o.bucket, t), Bucket(key), t) >= n as real
    ensures OwnAdmitted(ttl, c, key, o, Volley(t, n)) == n
    ensures n > 0 ==> Used(ttl, c, key, OwnAfter(ttl, c, key, o, Volley(t, n)), o.fetchedAt, t)
    ensures n > 0 ==> OwnLevel(c, key, OwnAfter(ttl, c, key, o, Volley(t, n)), t) >= Level(c, Swept(c, o.bucket, t), Bucket(key), t) - n as real
    decreases n
  {
    if n > 0 {
      assert Volley(t, n)[1..] == Volley(t, n - 1);
      OneRequest(ttl, c, key, o, t);
      var q := Then(ttl, c, key, o, t);
      SweptLevel(ttl, c, Bucket(key), q, t);
      VolleyAdmitted(ttl, c, key, q, t, n - 1);
    }
  }

  // Just used at t.
  ghost predicate Used(ttl: real, c: Config, key: string, o: Own, fetchedAt: Option<real>, t: real) {
    && ValidOwn(c, o, t) && o.fetchedAt == fetchedAt
    && Bucket(key) in o.bucket.entries && o.bucket.entries[Bucket(key)].lastSeen == t
    && o.bucket.lastCleanup.Some?
  }

  // At a fetch a whole burst is admitted, whatever was admitted before.
  lemma FetchAdmitsBurst(ttl: real, c: Config, key: string, o: Own, t: real)
    requires ttl > 0.0 && c.Valid() && ValidOwn(c, o, t) && !IsCurrent(ttl, o, t)
    ensures var n: nat := c.burst;
            && OwnAdmitted(ttl, c, key, o, Volley(t, n)) == n
            && Used(ttl, c, key, OwnAfter(ttl, c, key, o, Volley(t, n)), Some(t), t)
  {
    var n: nat := c.burst;
    var r := Own(Some(t), Empty);
    assert Ready(ttl, o, t) == r == Ready(ttl, r, t);
    assert Volley(t, n)[1..] == Volley(t, n - 1);
    assert Swept(c, Empty, t).entries == map[];
    VolleyAdmitted(ttl, c, key, r, t, n);
  }

  // The requests of a window: a first volley at its begin, a whole burst at its end.
  function Twice(c: Config, begin: real, first: nat, end: real): seq<real>
    requires c.Valid()
  {
    Volley(begin, first) + Volley(end, c.burst)
  }

  lemma TwiceInWindow(c: Config, before: seq<real>, begin: real, first: nat, end: real)
    requires c.Valid() && InTime(0.0, before) && End(0.0, before) <= begin <= end
    ensures InWindow(before, begin, Twice(c, begin, first, end), end)
  {
    var n: nat := c.burst;
    var second := Volley(end, n);
    assert second + [] == second;
    VolleyInTime(begin, end, n, []);
    VolleyInTime(begin, begin, first, second);
    VolleyEnd(begin, end, n);
    assert Twice(c, begin, first, end)[first as int + n - 1] == second[n - 1] by {
      VolleyLength(begin, first);
      VolleyLength(end, n);
    }
    VolleyLength(begin, first);
    VolleyLength(end, n);
  }

  lemma {:induction false} VolleyLength(t: real, n: nat)
    ensures |Volley(t, n)| == n && (forall k :: 0 <= k < n ==> Volley(t, n)[k] == t)
  {
    if n > 0 {
      VolleyLength(t, n - 1);
    }
  }

  /** Around a refetch the key gets its burst twice. Its first request comes at time zero;
    * then, in a window of length w ending at the refetch, one burst less one token, or a whole
    * one if the token is back, and at the refetch another. */
  lemma DoubleBurst(ttl: real, c: Config, key: string, w: real, first: nat)
    requires c.Valid() && 0.0 < w < ttl
    requires first == if Gain(c.rate, 0.0, ttl - w) >= 1.0 then c.burst else c.burst - 1
    ensures var window := Twice(c, ttl - w, first, ttl);
            && InWindow([0.0], ttl - w, window, ttl) && RefetchesIn(ttl, [0.0], window) == 1
            && AdmittedIn(ttl, c, key, [0.0], window) == first + c.burst
  {
    var begin := ttl - w;
    TwiceInWindow(c, [0.0], begin, first, ttl);
    assert [0.0][1..] == [];
    assert RefetchesIn(ttl, [0.0], Twice(c, begin, first, ttl)) == Refetches(ttl, Some(0.0), Twice(c, begin, first, ttl));
    RefetchesAppend(ttl, Some(0.0), Volley(begin, first), Volley(ttl, c.burst));
    VolleyFetches(ttl, Some(0.0), begin, first);
    VolleyFetches(ttl, Some(0.0), ttl, c.burst);
    FirstVolley(ttl, c, key, begin, first);
    var o := Then(ttl, c, key, Unfetched, 0.0);
    assert OwnAfter(ttl, c, key, Unfetched, [0.0]) == o;
    FetchAdmitsBurst(ttl, c, key, OwnAfter(ttl, c, key, o, Volley(begin, first)), ttl);
    AdmittedAppend(ttl, c, key, o, Volley(begin, first), Volley(ttl, c.burst));
  }

  lemma FirstVolley(ttl: real, c: Config, key: string, begin: real, first: nat)
    requires c.Valid() && 0.0 < begin < ttl
    requires first == if Gain(c.rate, 0.0, begin) >= 1.0 then c.burst else c.burst - 1
    ensures var o := Then(ttl, c, key, Unfetched, 0.0); var q := OwnAfter(ttl, c, key, o, Volley(begin, first));
            && OwnAdmitted(ttl, c, key, o, Volley(begin, first)) == first
            && ValidOwn(c, q, ttl) && q.fetchedAt == Some(0.0)
  {
    var o := Then(ttl, c, key, Unfetched, 0.0);
    OneRequest(ttl, c, key, Unfetched, 0.0);
    assert Swept(c, Empty, 0.0).entries == map[];
    GainNonNegative(c.rate, 0.0, begin);
    LevelLater(c, o.bucket, Bucket(key), 0.0, begin);
    ValidLater(c, o.bucket, 0.0, begin);
    SweptLevel(ttl, c, Bucket(key), o, begin);
    VolleyAdmitted(ttl, c, key, o, begin, first);
  }

  // A whole burst at the start and another one at the given time.
  lemma FromTheStart(ttl: real, c: Config, key: string, later: real)
    requires ttl > 0.0 && c.Valid() && later > 0.0
    requires later >= ttl || (later > c.idleTTL && later >= CleanupEvery)
    ensures var window := Twice(c, 0.0, c.burst, later);
            && InWindow([], 0.0, window, later) && RefetchesIn(ttl, [], window) == (if later >= ttl then 1 else 0)
            && AdmittedIn(ttl, c, key, [], window) == 2 * c.burst
  {
    var n: nat := c.burst;
    TwiceInWindow(c, [], 0.0, n, later);
    RefetchesAppend(ttl, None, Volley(0.0, n), Volley(later, n));
    VolleyFetches(ttl, None, 0.0, n);
    VolleyFetches(ttl, Some(0.0), later, n);
    FetchAdmitsBurst(ttl, c, key, Unfetched, 0.0);
    var q := OwnAfter(ttl, c, key, Unfetched, Volley(0.0, n));
    ValidLater(c, q.bucket, 0.0, later);
    if later >= ttl {
      FetchAdmitsBurst(ttl, c, key, q, later);
    } else {
      assert Bucket(key) !in Swept(c, q.bucket, later).entries;
      VolleyAdmitted(ttl, c, key, q, later, n);
    }
    AdmittedAppend(ttl, c, key, Unfetched, Volley(0.0, n), Volley(later, n));
  }

  // No window with at most so many refetches has more than a burst and what was gained.
  ghost predicate Bounded(ttl: real, c: Config, key: string, refetches: nat) {
    forall before, begin, window, end :: InWindow(before, begin, window, end) && RefetchesIn(ttl, before, window) <= refetches
      ==> AdmittedIn(ttl, c, key, before, window) as real <= c.burst as real + Gain(c.rate, begin, end)
  }

  lemma Unbounded(ttl: real, c: Config, key: string, refetches: nat, before: seq<real>, begin: real, window: seq<real>, end: real)
    requires InWindow(before, begin, window, end) && RefetchesIn(ttl, before, window) <= refetches
    requires AdmittedIn(ttl, c, key, before, window) as real > c.burst as real + Gain(c.rate, begin, end)
    ensures !Bounded(ttl, c, key, refetches)
  {
  }

  lemma EvictionShows(ttl: real, c: Config, key: string, refetches: nat)
    requires ttl > 0.0 && c.Valid() && c.idleTTL >= CleanupEvery && !EvictionHidden(ttl, c)
    ensures !Bounded(ttl, c, key, refetches)
  {
    var full := TimeToGain(c.rate, c.burst as real);
    RateBounds.Ordered(c.rate, c.idleTTL, full);
    var later := (c.idleTTL + Min(full, ttl)) / 2.0;
    RateBounds.Strictly(c.rate, later, full);
    FromTheStart(ttl, c, key, later);
    assert Gain(c.rate, 0.0, later) == later * c.rate;
    Unbounded(ttl, c, key, refetches, [], 0.0, Twice(c, 0.0, c.burst, later), later);
  }

  lemma TwiceShows(ttl: real, c: Config, key: string, refetches: nat, w: real, first: nat)
    requires c.Valid() && refetches > 0 && 0.0 < w < ttl && Gain(c.rate, ttl - w, ttl) < 1.0 && first > 0
    requires first == if Gain(c.rate, 0.0, ttl - w) >= 1.0 then c.burst else c.burst - 1
    ensures !Bounded(ttl, c, key, refetches)
  {
    DoubleBurst(ttl, c, key, w, first);
    Unbounded(ttl, c, key, refetches, [0.0], ttl - w, Twice(c, ttl - w, first, ttl), ttl);
  }

  lemma ShortWindowShows(ttl: real, c: Config, key: string, refetches: nat)
    requires ttl > 0.0 && c.Valid() && refetches > 0 && (ttl * c.rate > 1.0 || c.burst > 1)
    ensures !Bounded(ttl, c, key, refetches)
  {
    var w := ShortWindow(ttl, c.rate, 1.0);
    GainOver(c.rate, ttl - w, ttl, w);
    GainOver(c.rate, 0.0, ttl - w, ttl - w);
    TwiceShows(ttl, c, key, refetches, w, if Gain(c.rate, 0.0, ttl - w) >= 1.0 then c.burst else c.burst - 1);
  }

  lemma RefetchShows(ttl: real, c: Config, key: string, refetches: nat)
    requires ttl > 0.0 && c.Valid() && refetches > 0 && !OneATTL(ttl, c)
    ensures !Bounded(ttl, c, key, refetches)
  {
    if ttl * c.rate > 1.0 || c.burst > 1 {
      ShortWindowShows(ttl, c, key, refetches);
    } else {
      FromTheStart(ttl, c, key, ttl);
      assert Gain(c.rate, 0.0, ttl) == ttl * c.rate;
      Unbounded(ttl, c, key, refetches, [], 0.0, Twice(c, 0.0, c.burst, ttl), ttl);
    }
  }

  // Short enough that fewer than the given tokens are gained in it; and if the TTL more than
  // suffices for them, so does what is left of it before the window.
  lemma ShortWindow(ttl: real, rate: real, tokens: real) returns (w: real)
    requires ttl > 0.0 && rate > 0.0 && tokens > 0.0
    ensures 0.0 < w < ttl && w * rate < tokens && (ttl * rate > tokens ==> (ttl - w) * rate >= tokens)
  {
    if ttl * rate > tokens {
      w := WindowAfterToken(ttl, rate, tokens);
    } else {
      w := ttl / 2.0;
      assert w * rate + w * rate == ttl * rate;
    }
  }

  lemma WindowAfterToken(ttl: real, rate: real, tokens: real) returns (w: real)
    requires ttl > 0.0 && rate > 0.0 && tokens > 0.0 && ttl * rate > tokens
    ensures 0.0 < w < ttl && w * rate < tokens && (ttl - w) * rate >= tokens
  {
    var time := TimeToGain(rate, tokens);
    var half := TimeToGain(rate, tokens / 2.0);
    RateBounds.Ordered(rate, time, ttl);
    var spare := ttl - time;
    assert spare * rate == ttl * rate - tokens;
    if spare < half {
      w := spare;
      Times(rate, w, half);
    } else {
      w := half;
      Times(rate, half, spare);
      assert (ttl - w) * rate == ttl * rate - w * rate;
    }
  }

  lemma GainOver(rate: real, before: real, now: real, time: real)
    requires now - before == time
    ensures Gain(rate, before, now) == time * rate
  {
  }

  lemma TimeToGain(rate: real, tokens: real) returns (time: real)
    requires rate > 0.0 && tokens > 0.0
    ensures time > 0.0 && time * rate == tokens
  {
    time := tokens / rate;
  }

  lemma Times(rate: real, a: real, b: real)
    requires rate > 0.0 && a <= b
    ensures a * rate <= b * rate
  {
  }

  /** So the key's own limit is a bound on its windows, allowing some number of refetches, if
    * and only if its idle eviction stays hidden and there is no refetch in the window, or the
    * limit is one request a TTL, which refetching cannot break. */
  lemma OwnLimitBoundsExactly(ttl: real, stored: (int, int), key: string, refetches: nat)
    requires ttl > 0.0
    ensures var c := LimitOf(stored);
            Bounded(ttl, c, key, refetches) <==> EvictionHidden(ttl, c) && (refetches == 0 || OneATTL(ttl, c))
  {
    var c := LimitOf(stored);
    if !EvictionHidden(ttl, c) {
      EvictionShows(ttl, c, key, refetches);
    } else if refetches > 0 && !OneATTL(ttl, c) {
      RefetchShows(ttl, c, key, refetches);
    } else {
      forall before, begin, window, end | InWindow(before, begin, window, end) && RefetchesIn(ttl, before, window) <= refetches
        ensures AdmittedIn(ttl, c, key, before, window) as real <= c.burst as real + Gain(c.rate, begin, end)
      {
        if OneATTL(ttl, c) {
          OneATTLBound(ttl, c, key, before, begin, window, end);
        } else {
          OwnWindowBound(ttl, c, key, before, begin, window, end);
        }
      }
    }
  }
}
