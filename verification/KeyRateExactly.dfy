/** Exactly when the runs of the per-key limiter meet the bound of a token bucket. Runs that do
  * not: a cold-key race, a limiter replaced while it is held, a bucket evicted too early.
  */
module KeyRateExactly {
  import opened Options
  import opened KeyRateSteps
  import opened KeyRefetches
  import opened KeyRateRuns
  import L = RateLimiter
  import C = TtlCache
  import KB = KeyRateBounds
  import KR = KeyRateRaces
  import RateBounds

  /* ---------- The bound ---------- */

  ghost predicate WithinBound(c: Setup, key: string, before: seq<Step>, window: seq<Step>)
    requires Legal(c, Init(), before) && Legal(c, After(c, Init(), before), window) && key in c.limits
  {
    var s := After(c, Init(), before);
    Admitted(c, s, key, window) as real
    <= c.limits[key].burst as real + L.Gain(c.limits[key].rate, s.cache.clock, After(c, s, window).cache.clock)
  }

  // A run and a window of it in which so many limiters of the key are replaced, none of them
  // while more than so many calls hold one they have not asked.
  ghost predicate Run(c: Setup, key: string, holders: nat, replaced: nat, before: seq<Step>, window: seq<Step>) {
    KR.Window(c, key, holders, before, window) && Replaced(c, After(c, Init(), before), key, window) <= replaced
  }

  // The key has this limit, and calls wait at most so long for its limiter.
  ghost predicate Limits(c: Setup, ttl: real, wait: real, key: string, config: L.Config) {
    c.Valid() && c.ttl == ttl && c.wait <= wait && key in c.limits && c.limits[key] == config
  }

  ghost predicate Bounded(ttl: real, wait: real, config: L.Config, holders: nat, replaced: nat) {
    forall c: Setup, key, before, window :: Limits(c, ttl, wait, key, config) && Run(c, key, holders, replaced, before, window)
      ==> WithinBound(c, key, before, window)
  }

  lemma Breaks(c: Setup, ttl: real, wait: real, config: L.Config, b: Tameness, replaced: nat,
               before: seq<Step>, r': nat, s: State, window: seq<Step>, t: State, m: nat, r: nat)
    requires Limits(c, ttl, wait, "k", config)
    requires Leads(c, "k", b, Init(), before, s, 0, r') && Leads(c, "k", b, s, window, t, m, r) && r <= replaced
    requires m as real > config.burst as real + L.Gain(config.rate, s.cache.clock, t.cache.clock)
    ensures !Bounded(ttl, wait, config, b.holders, replaced)
  {
    assert Run(c, "k", b.holders, replaced, before, window) && !WithinBound(c, "k", before, window);
  }

  // A whole burst, and what the bucket is like then.
  lemma BurstAdmitted(life: real, config: L.Config)
    requires life > 0.0 && config.Valid()
    ensures var n: nat := config.burst; var o := KB.Own(Some(0.0), L.Empty);
            && KB.OwnAdmitted(life, config, "k", o, KB.Volley(0.0, n)) == n
            && KB.Used(life, config, "k", KB.OwnAfter(life, config, "k", o, KB.Volley(0.0, n)), Some(0.0), 0.0)
            && KB.OwnAdmitted(life, config, "k", o, KB.Volley(0.0, 1)) == 1
  {
    var n: nat := config.burst;
    var o := KB.Own(Some(0.0), L.Empty);
    assert L.Swept(config, L.Empty, 0.0).entries == map[];
    KB.VolleyAdmitted(life, config, "k", o, 0.0, n);
    KB.VolleyAdmitted(life, config, "k", o, 0.0, 1);
  }

  // Call 1 puts its limiter; call 0 has made one, too.
  function FirstPut(config: L.Config, more: nat): State {
    Board(1, C.Fetched(Some(0), 0.0), C.Returned(Some(1), 0.0), more, [FreshMade(config), FreshMade(config)], map[], 0.0)
  }

  function FirstRun(): seq<Step> {
    BothFetch() + [Cache(C.Put(1))]
  }

  lemma PutFirst(ttl: real, config: L.Config, b: Tameness)
    requires ttl > 0.0
    ensures var c, s := One(ttl, config, true), BothFetchedState(config);
            StepAllowed(c, "k", b, s, Cache(C.Put(1))) && Next(c, s, Cache(C.Put(1))) == FirstPut(config, 0) && !Replaces(s, "k", Cache(C.Put(1)))
  {
    var s := BothFetchedState(config);
    assert Holders(s, "k") == {};
    assert s.cache.calls[1 := Holding(1)] == FirstPut(config, 0).cache.calls;
  }

  lemma FirstPuts(ttl: real, config: L.Config, b: Tameness)
    requires ttl > 0.0 && b.overlap >= 1 && b.stall >= 0.0
    ensures Leads(One(ttl, config, true), "k", b, Init(), FirstRun(), FirstPut(config, 0), 0, 0)
  {
    BothFetched(ttl, config, b);
    PutFirst(ttl, config, b);
    Then(One(ttl, config, true), "k", b, Init(), BothFetch(), BothFetchedState(config), 0, 0, Cache(C.Put(1)), FirstPut(config, 0));
  }

  lemma HeldBy(config: L.Config, more: nat, i: nat, k: nat)
    requires 1 <= i && i + k <= more + 2
    ensures AllHold(FirstPut(config, more), 1, i, k)
  {
    var s := FirstPut(config, more);
    forall j | i <= j < i + k
      ensures HoldsOf(s, 1, j)
    {
      if j > 1 {
        assert s.cache.calls[j] == Copies(Holding(1), more)[j - 2];
      }
    }
  }

  // All calls that hold limiter 1 ask it, a whole burst.
  function AllAsked(config: L.Config): State
    requires config.Valid()
  {
    AfterAsks(FirstPut(config, config.burst - 1), 1.0, 1, 1, config.burst)
  }

  function BurstRun(config: L.Config): seq<Step>
    requires config.Valid()
  {
    HoldSteps(2, config.burst - 1) + AskSteps(1, config.burst)
  }

  lemma BurstHolds(ttl: real, config: L.Config, b: Tameness)
    requires ttl > 0.0 && config.Valid()
    ensures Leads(One(ttl, config, true), "k", b, FirstPut(config, 0), HoldSteps(2, config.burst - 1), FirstPut(config, config.burst - 1), 0, 0)
  {
    MoreHold(One(ttl, config, true), b, 1, C.Fetched(Some(0), 0.0), C.Returned(Some(1), 0.0), 0, config.burst - 1,
             [FreshMade(config), FreshMade(config)], map[]);
  }

  lemma HoldersAsk(ttl: real, config: L.Config, b: Tameness)
    requires ttl > 0.0 && config.Valid()
    ensures Leads(One(ttl, config, true), "k", b, FirstPut(config, config.burst - 1), AskSteps(1, config.burst), AllAsked(config), config.burst, 0)
  {
    HeldBy(config, config.burst - 1, 1, config.burst);
    BurstAdmitted(1.0, config);
    AllAsk(One(ttl, config, true), b, FirstPut(config, config.burst - 1), 1.0, 1, 1, config.burst);
  }

  lemma BurstAsks(ttl: real, config: L.Config, b: Tameness)
    requires ttl > 0.0 && config.Valid()
    ensures Leads(One(ttl, config, true), "k", b, FirstPut(config, 0), BurstRun(config), AllAsked(config), config.burst, 0)
  {
    BurstHolds(ttl, config, b);
    HoldersAsk(ttl, config, b);
    Onward(One(ttl, config, true), "k", b, FirstPut(config, 0), HoldSteps(2, config.burst - 1), FirstPut(config, config.burst - 1), 0, 0,
           AskSteps(1, config.burst), AllAsked(config), config.burst, 0);
  }

  // Then call 0 puts its limiter in place of the other, and asks it.
  function SecondPut(config: L.Config): State
    requires config.Valid()
  {
    var s := AllAsked(config);
    s.(cache := s.cache.(cache := map["k" := C.Entry(Some(0), 0.0, 0.0)], calls := s.cache.calls[0 := C.Call("k", 0.0, C.Returned(Some(0), 0.0))]),
       latest := map["k" := Latest(0, 0.0)])
  }

  lemma NoHolders(config: L.Config)
    requires config.Valid()
    ensures Holders(AllAsked(config), "k") == {}
  {
    AllTrueIs(map[], 1, config.burst);
    var s := AllAsked(config);
    assert |s.cache.calls| == config.burst + 1 && !s.cache.calls[0].phase.Returned?;
  }

  lemma SecondPuts(ttl: real, config: L.Config, b: Tameness)
    requires ttl > 0.0 && config.Valid()
    ensures var c, s := One(ttl, config, true), AllAsked(config);
            StepAllowed(c, "k", b, s, Cache(C.Put(0))) && Next(c, s, Cache(C.Put(0))) == SecondPut(config) && Replaces(s, "k", Cache(C.Put(0)))
  {
    NoHolders(config);
  }

  lemma LateAsk(ttl: real, config: L.Config, b: Tameness)
    requires ttl > 0.0 && config.Valid()
    ensures Leads(One(ttl, config, true), "k", b, SecondPut(config), AskSteps(0, 1), AfterAsks(SecondPut(config), 1.0, 0, 0, 1), 1, 0)
  {
    var s := SecondPut(config);
    AllTrueIs(map[], 1, config.burst);
    AllAtIs(map[], 1, config.burst, 0.0);
    BurstAdmitted(1.0, config);
    assert HoldsOf(s, 0, 0) && 0 !in s.readings;
    assert AllHold(s, 0, 0, 1);
    AllAsk(One(ttl, config, true), b, s, 1.0, 0, 0, 1);
  }

  function RaceRun(config: L.Config): seq<Step>
    requires config.Valid()
  {
    (FirstRun() + BurstRun(config)) + [Cache(C.Put(0))] + AskSteps(0, 1)
  }

  lemma RaceStarts(ttl: real, config: L.Config, b: Tameness)
    requires ttl > 0.0 && config.Valid() && b.overlap >= 1 && b.stall >= 0.0
    ensures Leads(One(ttl, config, true), "k", b, Init(), FirstRun() + BurstRun(config), AllAsked(config), config.burst, 0)
  {
    FirstPuts(ttl, config, b);
    BurstAsks(ttl, config, b);
    Onward(One(ttl, config, true), "k", b, Init(), FirstRun(), FirstPut(config, 0), 0, 0, BurstRun(config), AllAsked(config), config.burst, 0);
  }

  /** The cold-key race: two calls of a key without an entry miss and fetch at once, and neither
    * holds its limiter when the other one is put. More than a burst is admitted at one instant;
    * for a limit of one request, two requests. */
  lemma ColdRace(ttl: real, config: L.Config) returns (t: State)
    requires ttl > 0.0 && config.Valid()
    ensures Leads(One(ttl, config, true), "k", Tameness(0, 1, 0.0), Init(), RaceRun(config), t, config.burst + 1, 1) && t.cache.clock == 0.0
  {
    var c, b, n := One(ttl, config, true), Tameness(0, 1, 0.0), config.burst;
    var x := FirstRun() + BurstRun(config);
    t := AfterAsks(SecondPut(config), 1.0, 0, 0, 1);
    RaceStarts(ttl, config, b);
    SecondPuts(ttl, config, b);
    Then(c, "k", b, Init(), x, AllAsked(config), n, 0, Cache(C.Put(0)), SecondPut(config));
    LateAsk(ttl, config, b);
    Onward(c, "k", b, Init(), x + [Cache(C.Put(0))], SecondPut(config), n, 1, AskSteps(0, 1), t, 1, 0);
  }

  lemma ReplacingBreaks(ttl: real, wait: real, config: L.Config, replaced: nat)
    requires ttl > 0.0 && wait >= 0.0 && config.Valid() && replaced > 0
    ensures !Bounded(ttl, wait, config, 0, replaced)
  {
    var t := ColdRace(ttl, config);
    Nothing(One(ttl, config, true), "k", Tameness(0, 1, 0.0), Init());
    L.GainNow(config.rate, 0.0);
    Breaks(One(ttl, config, true), ttl, wait, config, Tameness(0, 1, 0.0), replaced, [], 0, Init(), RaceRun(config), t, config.burst + 1, 1);
  }

  /* ---------- A limiter replaced while it is held ---------- */

  // Both calls have put their limiters; call 0 still holds the first one.
  function BothPut(config: L.Config, more: nat): State {
    Board(1, C.Returned(Some(0), 0.0), C.Returned(Some(1), 0.0), more, [FreshMade(config), FreshMade(config)], map[], 0.0)
  }

  function HeldRun(): seq<Step> {
    BothFetch() + [Cache(C.Put(0))] + [Cache(C.Put(1))]
  }

  function OnePut(config: L.Config): State {
    Board(0, C.Returned(Some(0), 0.0), C.Fetched(Some(1), 0.0), 0, [FreshMade(config), FreshMade(config)], map[], 0.0)
  }

  lemma PutZero(ttl: real, config: L.Config, b: Tameness)
    requires ttl > 0.0
    ensures var c, s := One(ttl, config, true), BothFetchedState(config);
            StepAllowed(c, "k", b, s, Cache(C.Put(0))) && Next(c, s, Cache(C.Put(0))) == OnePut(config) && !Replaces(s, "k", Cache(C.Put(0)))
  {
    var s := BothFetchedState(config);
    assert Holders(s, "k") == {};
    assert s.cache.calls[0 := Holding(0)] == OnePut(config).cache.calls;
  }

  lemma PutOver(ttl: real, config: L.Config, b: Tameness)
    requires ttl > 0.0 && b.holders >= 1
    ensures var c, s := One(ttl, config, true), OnePut(config);
            StepAllowed(c, "k", b, s, Cache(C.Put(1))) && Next(c, s, Cache(C.Put(1))) == BothPut(config, 0) && Replaces(s, "k", Cache(C.Put(1)))
  {
    var s := OnePut(config);
    assert Holders(s, "k") == {0};
    assert s.cache.calls[1 := Holding(1)] == BothPut(config, 0).cache.calls;
  }

  lemma BothArePut(ttl: real, config: L.Config, b: Tameness)
    requires ttl > 0.0 && b.holders >= 1 && b.overlap >= 1 && b.stall >= 0.0
    ensures Leads(One(ttl, config, true), "k", b, Init(), HeldRun(), BothPut(config, 0), 0, 1)
  {
    var c := One(ttl, config, true);
    BothFetched(ttl, config, b);
    PutZero(ttl, config, b);
    Then(c, "k", b, Init(), BothFetch(), BothFetchedState(config), 0, 0, Cache(C.Put(0)), OnePut(config));
    PutOver(ttl, config, b);
    Then(c, "k", b, Init(), BothFetch() + [Cache(C.Put(0))], OnePut(config), 0, 0, Cache(C.Put(1)), BothPut(config, 0));
  }

  function NewAsked(config: L.Config): State
    requires config.Valid()
  {
    AfterAsks(BothPut(config, config.burst - 1), 1.0, 1, 1, config.burst)
  }

  lemma HeldByBoth(config: L.Config, more: nat, k: nat)
    requires 1 + k <= more + 2
    ensures AllHold(BothPut(config, more), 1, 1, k)
  {
    var s := BothPut(config, more);
    forall j | 1 <= j < 1 + k
      ensures HoldsOf(s, 1, j)
    {
      if j > 1 {
        assert s.cache.calls[j] == Copies(Holding(1), more)[j - 2];
      }
    }
  }

  lemma NewAsks(ttl: real, config: L.Config, b: Tameness) returns (x: seq<Step>)
    requires ttl > 0.0 && config.Valid()
    ensures Leads(One(ttl, config, true), "k", b, BothPut(config, 0), x, NewAsked(config), config.burst, 0)
  {
    HeldByBoth(config, config.burst - 1, config.burst);
    BurstAdmitted(1.0, config);
    x := HoldAndAsk(One(ttl, config, true), b, 1, C.Returned(Some(0), 0.0), C.Returned(Some(1), 0.0), config.burst - 1,
                    [FreshMade(config), FreshMade(config)], 1.0, 1, config.burst);
  }

  lemma OldAsk(ttl: real, config: L.Config, b: Tameness)
    requires ttl > 0.0 && config.Valid()
    ensures Leads(One(ttl, config, true), "k", b, NewAsked(config), AskSteps(0, 1), AfterAsks(NewAsked(config), 1.0, 0, 0, 1), 1, 0)
  {
    var s := NewAsked(config);
    AllTrueIs(map[], 1, config.burst);
    AllAtIs(map[], 1, config.burst, 0.0);
    BurstAdmitted(1.0, config);
    assert HoldsOf(s, 0, 0) && 0 !in s.readings;
    assert AllHold(s, 0, 0, 1);
    AllAsk(One(ttl, config, true), b, s, 1.0, 0, 0, 1);
  }

  lemma HoldingBreaks(ttl: real, wait: real, config: L.Config, holders: nat, replaced: nat)
    requires ttl > 0.0 && wait >= 0.0 && config.Valid() && holders > 0
    ensures !Bounded(ttl, wait, config, holders, replaced)
  {
    var c, b, n := One(ttl, config, true), Tameness(holders, 1, 0.0), config.burst;
    var t := AfterAsks(NewAsked(config), 1.0, 0, 0, 1);
    BothArePut(ttl, config, b);
    var x := NewAsks(ttl, config, b);
    OldAsk(ttl, config, b);
    Onward(c, "k", b, BothPut(config, 0), x, NewAsked(config), n, 0, AskSteps(0, 1), t, 1, 0);
    L.GainNow(config.rate, 0.0);
    Breaks(c, ttl, wait, config, b, replaced, HeldRun(), 1, BothPut(config, 0), x + AskSteps(0, 1), t, n + 1, 0);
  }

  /* ---------- A limiter that evicts too early ---------- */

  // An idle time after which the bucket is evicted although it is not full.
  ghost predicate TooShort(config: L.Config, idle: real) {
    idle > config.idleTTL && idle >= L.CleanupEvery && idle * config.rate < config.burst as real
  }

  function Idle(s: State, clock: real): State {
    s.(cache := s.cache.(clock := clock))
  }

  // Twice as many calls hold the limiter as it admits at once; half of them ask.
  function HalfAsked(config: L.Config, idle: real): State
    requires config.Valid()
  {
    AfterAsks(FirstPut(config, 2 * config.burst - 1), idle + 1.0, 1, 1, config.burst)
  }

  lemma HalfAsks(ttl: real, config: L.Config, b: Tameness, idle: real) returns (x: seq<Step>)
    requires ttl > 0.0 && config.Valid() && idle > 0.0
    ensures Leads(One(ttl, config, true), "k", b, FirstPut(config, 0), x, HalfAsked(config, idle), config.burst, 0)
  {
    HeldBy(config, 2 * config.burst - 1, 1, config.burst);
    BurstAdmitted(idle + 1.0, config);
    x := HoldAndAsk(One(ttl, config, true), b, 1, C.Fetched(Some(0), 0.0), C.Returned(Some(1), 0.0), 2 * config.burst - 1,
                    [FreshMade(config), FreshMade(config)], idle + 1.0, 1, config.burst);
  }

  lemma OtherHalf(config: L.Config, idle: real)
    requires config.Valid() && idle > 0.0
    ensures AllHold(Idle(HalfAsked(config, idle), idle), 1, 1 + config.burst, config.burst)
  {
    var n := config.burst;
    var s := Idle(HalfAsked(config, idle), idle);
    HeldBy(config, 2 * n - 1, 1 + n, n);
    AllTrueIs(map[], 1, n);
    AllAtIs(map[], 1, n, 0.0);
    forall j | 1 + n <= j < 1 + n + n
      ensures HoldsOf(s, 1, j) && j !in s.readings
    {
      assert HoldsOf(FirstPut(config, 2 * n - 1), 1, j);
    }
  }

  // After the idle time the bucket is full again.
  lemma EvictedAdmits(config: L.Config, idle: real)
    requires config.Valid() && TooShort(config, idle)
    ensures var o := OwnOf(HalfAsked(config, idle).limiters[1]);
            KB.OwnAdmitted(idle + 1.0, config, "k", o, KB.Volley(idle, config.burst)) == config.burst
  {
    var n: nat := config.burst;
    BurstAdmitted(idle + 1.0, config);
    var o := KB.OwnAfter(idle + 1.0, config, "k", KB.Own(Some(0.0), L.Empty), KB.Volley(0.0, n));
    assert OwnOf(HalfAsked(config, idle).limiters[1]) == o;
    L.ValidLater(config, o.bucket, 0.0, idle);
    assert L.Bucket("k") !in L.Swept(config, o.bucket, idle).entries;
    KB.VolleyAdmitted(idle + 1.0, config, "k", o, idle, n);
  }

  lemma Idles(ttl: real, config: L.Config, b: Tameness, idle: real) returns (x: seq<Step>)
    requires ttl > 0.0 && config.Valid() && idle > 0.0
    ensures Leads(One(ttl, config, true), "k", b, FirstPut(config, 0), x, Idle(HalfAsked(config, idle), idle), config.burst, 0)
  {
    var half := HalfAsks(ttl, config, b, idle);
    ThenLook(One(ttl, config, true), "k", b, FirstPut(config, 0), half, HalfAsked(config, idle), config.burst, 0, C.Advance(idle),
             Idle(HalfAsked(config, idle), idle));
    x := half + [Cache(C.Advance(idle))];
  }

  function IdleEnd(config: L.Config, idle: real): State
    requires config.Valid()
  {
    AfterAsks(Idle(HalfAsked(config, idle), idle), idle + 1.0, 1, 1 + config.burst, config.burst)
  }

  lemma OtherHalfAsks(ttl: real, config: L.Config, b: Tameness, idle: real) returns (y: seq<Step>)
    requires ttl > 0.0 && config.Valid() && TooShort(config, idle)
    ensures Leads(One(ttl, config, true), "k", b, Idle(HalfAsked(config, idle), idle), y, IdleEnd(config, idle), config.burst, 0)
  {
    OtherHalf(config, idle);
    EvictedAdmits(config, idle);
    y := SomeAsk(One(ttl, config, true), b, Idle(HalfAsked(config, idle), idle), idle + 1.0, 1, 1 + config.burst, config.burst);
  }

  lemma IdleAsks(ttl: real, config: L.Config, b: Tameness, idle: real) returns (x: seq<Step>)
    requires ttl > 0.0 && config.Valid() && TooShort(config, idle)
    ensures Leads(One(ttl, config, true), "k", b, FirstPut(config, 0), x, IdleEnd(config, idle), 2 * config.burst, 0)
  {
    var half := Idles(ttl, config, b, idle);
    var other := OtherHalfAsks(ttl, config, b, idle);
    TwoHalves(One(ttl, config, true), b, FirstPut(config, 0), half, Idle(HalfAsked(config, idle), idle), other, IdleEnd(config, idle), config.burst);
    x := half + other;
  }

  lemma TwoHalves(c: Setup, b: Tameness, s: State, x: seq<Step>, t: State, y: seq<Step>, u: State, n: nat)
    requires Leads(c, "k", b, s, x, t, n, 0) && Leads(c, "k", b, t, y, u, n, 0)
    ensures Leads(c, "k", b, s, x + y, u, 2 * n, 0)
  {
    Onward(c, "k", b, s, x, t, n, 0, y, u, n, 0);
  }

  lemma TwiceIsMore(config: L.Config, idle: real)
    requires config.Valid() && idle * config.rate < config.burst as real
    ensures (2 * config.burst) as real > config.burst as real + L.Gain(config.rate, 0.0, idle)
  {
    KB.GainOver(config.rate, 0.0, idle, idle);
  }

  lemma EvictionBreaks(ttl: real, wait: real, config: L.Config, holders: nat, replaced: nat)
    requires ttl > 0.0 && wait >= 0.0 && config.Valid() && config.idleTTL >= L.CleanupEvery && !config.KeepsIdleLongEnough()
    ensures !Bounded(ttl, wait, config, holders, replaced)
  {
    var b := Tameness(holders, 1, 0.0);
    var idle := RateBounds.BetweenTimes(config);
    FirstPuts(ttl, config, b);
    var x := IdleAsks(ttl, config, b, idle);
    TwiceIsMore(config, idle);
    assert IdleEnd(config, idle).cache.clock == idle && FirstPut(config, 0).cache.clock == 0.0;
    Breaks(One(ttl, config, true), ttl, wait, config, b, replaced, FirstRun(), 0, FirstPut(config, 0), x, IdleEnd(config, idle),
           2 * config.burst, 0);
  }

  /* ---------- A call that waits for the limiter ---------- */

  // How late the first burst gets the lock; a token takes longer to come back.
  function Delay(wait: real, config: L.Config): (d: real)
    requires wait > 0.0 && config.Valid()
    ensures 0.0 < d <= wait && d <= 1.0 / config.rate
  {
    L.Min(wait, 1.0 / config.rate)
  }

  function Waiting(ttl: real, wait: real, config: L.Config): Setup {
    One(ttl, config, true).(wait := wait)
  }

  // A burst of calls has read the clock at time zero, and one more holds the limiter.
  function BurstRead(config: L.Config, clock: real): State
    requires config.Valid()
  {
    Idle(AfterReads(FirstPut(config, config.burst), 1, config.burst), clock)
  }

  lemma WaitStarts(ttl: real, wait: real, config: L.Config, b: Tameness) returns (x: seq<Step>)
    requires ttl > 0.0 && wait > 0.0 && config.Valid() && b.overlap >= 1 && b.stall >= 0.0
    ensures Leads(Waiting(ttl, wait, config), "k", b, Init(), x, FirstPut(config, 0), 0, 0)
  {
    FirstPuts(ttl, config, b);
    x := FirstRun();
    WaitsLonger(One(ttl, config, true), "k", b, Init(), x, FirstPut(config, 0), 0, 0, wait);
  }

  lemma WaitHolds(ttl: real, wait: real, config: L.Config, b: Tameness) returns (x: seq<Step>)
    requires ttl > 0.0 && wait > 0.0 && config.Valid() && b.overlap >= 1 && b.stall >= 0.0
    ensures Leads(Waiting(ttl, wait, config), "k", b, Init(), x, FirstPut(config, config.burst), 0, 0)
  {
    var c, n := Waiting(ttl, wait, config), config.burst;
    var first := WaitStarts(ttl, wait, config, b);
    MoreHold(c, b, 1, C.Fetched(Some(0), 0.0), C.Returned(Some(1), 0.0), 0, n, [FreshMade(config), FreshMade(config)], map[]);
    Onward(c, "k", b, Init(), first, FirstPut(config, 0), 0, 0, HoldSteps(2, n), FirstPut(config, n), 0, 0);
    x := first + HoldSteps(2, n);
  }

  lemma WaitReads(ttl: real, wait: real, config: L.Config, b: Tameness) returns (x: seq<Step>)
    requires ttl > 0.0 && wait > 0.0 && config.Valid()
    ensures Leads(Waiting(ttl, wait, config), "k", b, FirstPut(config, config.burst), x, BurstRead(config, Delay(wait, config)), 0, 0)
  {
    var c, n := Waiting(ttl, wait, config), config.burst;
    var s := FirstPut(config, n);
    HeldBy(config, n, 1, n);
    AllRead(c, b, s, 1, 1, n);
    ThenLook(c, "k", b, s, ReadSteps(1, n), AfterReads(s, 1, n), 0, 0, C.Advance(Delay(wait, config)), BurstRead(config, Delay(wait, config)));
    x := ReadSteps(1, n) + [Cache(C.Advance(Delay(wait, config)))];
  }

  lemma WaitRuns(ttl: real, wait: real, config: L.Config, b: Tameness) returns (x: seq<Step>)
    requires ttl > 0.0 && wait > 0.0 && config.Valid() && b.overlap >= 1 && b.stall >= 0.0
    ensures Leads(Waiting(ttl, wait, config), "k", b, Init(), x, BurstRead(config, Delay(wait, config)), 0, 0)
  {
    var held := WaitHolds(ttl, wait, config, b);
    var read := WaitReads(ttl, wait, config, b);
    Onward(Waiting(ttl, wait, config), "k", b, Init(), held, FirstPut(config, config.burst), 0, 0, read, BurstRead(config, Delay(wait, config)), 0, 0);
    x := held + read;
  }

  function BurstLocked(wait: real, config: L.Config): State
    requires wait > 0.0 && config.Valid()
  {
    AfterLocks(BurstRead(config, Delay(wait, config)), 1.0, 1, 1, config.burst, 0.0)
  }

  lemma BurstLocks(ttl: real, wait: real, config: L.Config, b: Tameness) returns (x: seq<Step>)
    requires ttl > 0.0 && wait > 0.0 && config.Valid()
    ensures Leads(Waiting(ttl, wait, config), "k", b, BurstRead(config, Delay(wait, config)), x, TokenBack(wait, config), config.burst, 0)
  {
    var n, s := config.burst, BurstRead(config, Delay(wait, config));
    HeldBy(config, n, 1, n);
    ReadsRead(FirstPut(config, n), 1, 1, n);
    var t := AfterReads(FirstPut(config, n), 1, n);
    forall j | 1 <= j < 1 + n
      ensures HoldsOf(s, 1, j) && j in s.readings && s.readings[j] == 0.0
    {
      assert HoldsOf(t, 1, j);
    }
    BurstAdmitted(1.0, config);
    AllLock(Waiting(ttl, wait, config), b, s, 1.0, 1, 1, n, 0.0);
    x := LockSteps(1, n);
    ThenLook(Waiting(ttl, wait, config), "k", b, s, x, BurstLocked(wait, config), n, 0, C.Advance(1.0 / config.rate), TokenBack(wait, config));
    x := x + [Cache(C.Advance(1.0 / config.rate))];
  }

  // A token later the one more call asks.
  function TokenBack(wait: real, config: L.Config): State
    requires wait > 0.0 && config.Valid()
  {
    Idle(BurstLocked(wait, config), 1.0 / config.rate)
  }

  lemma TokenIsBack(wait: real, config: L.Config)
    requires wait > 0.0 && config.Valid() && config.KeepsIdleLongEnough()
    ensures var at := 1.0 / config.rate; var o := OwnOf(TokenBack(wait, config).limiters[1]);
            KB.OwnAdmitted(at + 1.0, config, "k", o, KB.Volley(at, 1)) == 1
  {
    var n: nat := config.burst;
    var at, bucket := 1.0 / config.rate, TokenBack(wait, config).limiters[1].bucket;
    var o := KB.Own(Some(0.0), L.Empty);
    BurstAdmitted(1.0, config);
    assert OwnOf(TokenBack(wait, config).limiters[1]) == KB.OwnAfter(1.0, config, "k", o, KB.Volley(0.0, n));
    TokenGained(config, bucket, at);
    KB.VolleyAdmitted(at + 1.0, config, "k", KB.Own(Some(0.0), bucket), at, 1);
  }

  lemma TokenGained(config: L.Config, bucket: L.State, at: real)
    requires config.Valid() && config.KeepsIdleLongEnough() && at == 1.0 / config.rate && L.Valid(config, bucket, 0.0)
    ensures L.Valid(config, bucket, at) && L.Level(config, L.Swept(config, bucket, at), "k", at) >= 1.0
  {
    L.ValidLater(config, bucket, 0.0, at);
    L.SweptLevels(config, bucket, at);
    L.LevelLater(config, bucket, "k", 0.0, at);
    LevelAtLeast(config, bucket);
    OneToken(config);
  }

  lemma LevelAtLeast(config: L.Config, bucket: L.State)
    requires config.Valid() && L.Valid(config, bucket, 0.0)
    ensures L.Level(config, bucket, "k", 0.0) >= 0.0
  {
    if "k" in bucket.entries {
      L.GainNonNegative(config.rate, bucket.entries["k"].lastRefill, 0.0);
    }
  }

  // In the time a token takes to come back, one comes back.
  lemma OneToken(config: L.Config)
    requires config.Valid()
    ensures L.Gain(config.rate, 0.0, 1.0 / config.rate) == 1.0
  {
  }

  lemma OneMoreAsks(ttl: real, wait: real, config: L.Config, b: Tameness) returns (x: seq<Step>, t: State)
    requires ttl > 0.0 && wait > 0.0 && config.Valid() && config.KeepsIdleLongEnough()
    ensures Leads(Waiting(ttl, wait, config), "k", b, TokenBack(wait, config), x, t, 1, 0) && t.cache.clock == 1.0 / config.rate
  {
    var at, s, n := 1.0 / config.rate, TokenBack(wait, config), config.burst;
    HeldBy(config, n, 1 + n, 1);
    AllAtIs(map[], 1, n, 0.0);
    AllTrueIs(map[], 1, n);
    assert HoldsOf(FirstPut(config, n), 1, 1 + n);
    assert AllHold(s, 1, 1 + n, 1);
    TokenIsBack(wait, config);
    AllAsk(Waiting(ttl, wait, config), b, s, at + 1.0, 1, 1 + n, 1);
    x, t := AskSteps(1 + n, 1), AfterAsks(s, at + 1.0, 1, 1 + n, 1);
  }

  lemma LateBurst(wait: real, config: L.Config)
    requires wait > 0.0 && config.Valid()
    ensures (config.burst + 1) as real > config.burst as real + L.Gain(config.rate, Delay(wait, config), 1.0 / config.rate)
  {
    var d, at := Delay(wait, config), 1.0 / config.rate;
    KB.GainAdds(config.rate, 0.0, d, at);
    OneToken(config);
    assert L.Gain(config.rate, 0.0, d) == d * config.rate > 0.0;
  }

  /** A burst of calls that have to wait for the limiter, and one call after the token is back:
    * from the time the first one gets the lock, one more than the bound. */
  lemma WaitingBreaks(ttl: real, wait: real, config: L.Config, holders: nat, replaced: nat)
    requires ttl > 0.0 && wait > 0.0 && config.Valid() && config.KeepsIdleLongEnough()
    ensures !Bounded(ttl, wait, config, holders, replaced)
  {
    var c, b := Waiting(ttl, wait, config), Tameness(holders, 1, 0.0);
    var s := BurstRead(config, Delay(wait, config));
    var before := WaitRuns(ttl, wait, config, b);
    var window, t := LateWindow(ttl, wait, config, b);
    LateBurst(wait, config);
    Breaks(c, ttl, wait, config, b, replaced, before, 0, s, window, t, config.burst + 1, 0);
  }

  // From the locks of the burst to one more request.
  lemma LateWindow(ttl: real, wait: real, config: L.Config, b: Tameness) returns (x: seq<Step>, t: State)
    requires ttl > 0.0 && wait > 0.0 && config.Valid() && config.KeepsIdleLongEnough()
    ensures Leads(Waiting(ttl, wait, config), "k", b, BurstRead(config, Delay(wait, config)), x, t, config.burst + 1, 0)
    ensures t.cache.clock == 1.0 / config.rate
  {
    var c, s := Waiting(ttl, wait, config), BurstRead(config, Delay(wait, config));
    var locked := BurstLocks(ttl, wait, config, b);
    var last;
    last, t := OneMoreAsks(ttl, wait, config, b);
    Onward(c, "k", b, s, locked, TokenBack(wait, config), config.burst, 0, last, t, 1, 0);
    x := locked + last;
  }

  /** In every interleaving, and every window of it in which so many limiters are replaced, none
    * while more than so many calls hold one they have not asked, the key gets at most burst +
    * rate * length; if and only if idle buckets are kept until they are full, no limiter is
    * replaced in the window, none is ever replaced while it is held, and no call waits for a
    * limiter's lock after it has read the clock. */
  lemma KeyBoundedExactly(ttl: real, wait: real, stored: (int, int), holders: nat, replaced: nat)
    requires ttl > 0.0 && wait >= 0.0
    ensures var config := KB.LimitOf(stored);
            Bounded(ttl, wait, config, holders, replaced) <==> config.KeepsIdleLongEnough() && holders == 0 && replaced == 0 && wait == 0.0
  {
    var config := KB.LimitOf(stored);
    if !config.KeepsIdleLongEnough() {
      EvictionBreaks(ttl, wait, config, holders, replaced);
    } else if holders > 0 {
      HoldingBreaks(ttl, wait, config, holders, replaced);
    } else if replaced > 0 {
      ReplacingBreaks(ttl, wait, config, replaced);
    } else if wait > 0.0 {
      WaitingBreaks(ttl, wait, config, holders, replaced);
    } else {
      forall c: Setup, key, before, window | Limits(c, ttl, wait, key, config) && Run(c, key, 0, 0, before, window)
        ensures WithinBound(c, key, before, window)
      {
        KR.WindowBound(c, key, before, window);
        L.GainNow(config.rate, 0.0);
      }
    }
  }

  ghost predicate WithinBursts(c: Setup, key: string, before: seq<Step>, window: seq<Step>)
    requires Legal(c, Init(), before) && Legal(c, After(c, Init(), before), window) && key in c.limits
  {
    var s := After(c, Init(), before);
    Admitted(c, s, key, window) as real
    <= c.limits[key].burst as real + KR.Times(Replaced(c, s, key, window), c.limits[key].burst as real)
       + L.Gain(c.limits[key].rate, s.cache.clock, After(c, s, window).cache.clock)
  }

  /** With one more burst for each limiter replaced in the window the bound holds, on all runs in
    * which none is replaced while more than so many calls hold one they have not asked, if and
    * only if idle buckets are kept until they are full, none is ever replaced while it is held,
    * and no call waits for a limiter's lock after it has read the clock. */
  lemma BurstsExactly(ttl: real, wait: real, stored: (int, int), holders: nat)
    requires ttl > 0.0 && wait >= 0.0
    ensures var config := KB.LimitOf(stored);
            (forall c: Setup, key, before, window :: Limits(c, ttl, wait, key, config) && KR.Window(c, key, holders, before, window)
               ==> WithinBursts(c, key, before, window))
            <==> config.KeepsIdleLongEnough() && holders == 0 && wait == 0.0
  {
    var config := KB.LimitOf(stored);
    if config.KeepsIdleLongEnough() && holders == 0 && wait == 0.0 {
      forall c: Setup, key, before, window | Limits(c, ttl, wait, key, config) && KR.Window(c, key, holders, before, window)
        ensures WithinBursts(c, key, before, window)
      {
        KR.WindowBound(c, key, before, window);
        L.GainNow(config.rate, 0.0);
      }
    } else {
      KeyBoundedExactly(ttl, wait, stored, holders, 0);
      var c: Setup, key, before, window :| Limits(c, ttl, wait, key, config) && Run(c, key, holders, 0, before, window) && !WithinBound(c, key, before, window);
      assert !WithinBursts(c, key, before, window);
    }
  }

  /* ---------- What a replacement is ---------- */

  ghost predicate ByTimesOnly(ttl: real, overlap: nat, stall: real) {
    forall c: Setup, key, steps :: c.Valid() && c.ttl == ttl && key in c.limits && Legal(c, Init(), steps) && Tame(c, Init(), key, overlap, stall, steps)
      ==> AllByTimes(c, Init(), key, steps)
  }

  lemma {:induction false} LastNotByTimes(c: Setup, s: State, key: string, x: seq<Step>, a: Step)
    requires Legal(c, s, x) && Legal(c, s, x + [a]) && !ByTimes(c, After(c, s, x), key, a)
    ensures !AllByTimes(c, s, key, x + [a])
    decreases |x|
  {
    if x == [] {
      assert x + [a] == [a];
    } else {
      assert (x + [a])[1..] == x[1..] + [a];
      LastNotByTimes(c, Next(c, s, x[0]), key, x[1..], a);
    }
  }

  lemma NotByTimesOnly(ttl: real, config: L.Config, b: Tameness, x: seq<Step>, s: State, a: Step, t: State, m: nat, r: nat)
    requires ttl > 0.0 && config.Valid()
    requires Leads(One(ttl, config, true), "k", b, Init(), x, s, 0, 0) && Leads(One(ttl, config, true), "k", b, Init(), x + [a], t, m, r)
    requires !ByTimes(One(ttl, config, true), s, "k", a)
    ensures !ByTimesOnly(ttl, b.overlap, b.stall)
  {
    LastNotByTimes(One(ttl, config, true), Init(), "k", x, a);
  }

  lemma OverlapReplaces(ttl: real, overlap: nat, stall: real)
    requires ttl > 0.0 && overlap > 0 && stall >= 0.0
    ensures !ByTimesOnly(ttl, overlap, stall)
  {
    var config, b := L.New(60, 1, 900.0), Tameness(1, overlap, stall);
    var c := One(ttl, config, true);
    BothFetched(ttl, config, b);
    PutZero(ttl, config, b);
    var x := BothFetch() + [Cache(C.Put(0))];
    Then(c, "k", b, Init(), BothFetch(), BothFetchedState(config), 0, 0, Cache(C.Put(0)), OnePut(config));
    PutOver(ttl, config, b);
    Then(c, "k", b, Init(), x, OnePut(config), 0, 0, Cache(C.Put(1)), BothPut(config, 0));
    NotByTimesOnly(ttl, config, b, x, OnePut(config), Cache(C.Put(1)), BothPut(config, 0), 0, 1);
  }
}
