/** KeyAwareRateLimiter (internal/proxy/key_rate_limiter.go): a global limiter and a limiter
  * per key that is fetched from the store and cached for a while. A request carries what
  * the store would answer; requests come one after the other.
  */
module KeyRateLimiter {
  import opened Options
  import opened RateLimiter
  import RateBounds

  datatype Lim = Lim(config: Config, state: State)

  // The limiter of a key, or that it has none, and when that was fetched.
  datatype Cached = Cached(limiter: Option<Lim>, fetchedAt: real)

  datatype KeyState = KeyState(global: Option<Lim>, perKey: map<string, Cached>, lastSweep: Option<real>)

  // `stored` is (perMinute, burst), or None if the store has no limit or fails.
  datatype Request = Request(key: string, at: real, stored: Option<(int, int)>)

  datatype KeyAnswer = KeyAnswer(s: KeyState, ok: bool)

  function DefaultTTL(ttl: real): (r: real)
    ensures r > 0.0
  {
    if ttl <= 0.0 then 30.0 else ttl
  }

  predicate IsFresh(ttl: real, s: KeyState, key: string, now: real) {
    key in s.perKey && now - s.perKey[key].fetchedAt < ttl
  }

  function Sweep(ttl: real, s: KeyState, now: real): KeyState {
    if s.lastSweep.Some? && now - s.lastSweep.value < 5.0 * ttl then s
    else s.(lastSweep := Some(now), perKey := map k | k in s.perKey && now - s.perKey[k].fetchedAt <= 10.0 * ttl :: s.perKey[k])
  }

  function Fetched(r: Request): Option<Lim> {
    if r.stored.None? then None else Some(Lim(New(r.stored.value.0, r.stored.value.1, 900.0), Empty))
  }

  // The state with the key's entry in place.
  function WithEntry(ttl: real, s: KeyState, r: Request): (t: KeyState)
    ensures r.key in t.perKey && t.global == s.global
  {
    if IsFresh(ttl, s, r.key, r.at) then s
    else
      var swept := Sweep(ttl, s, r.at);
      swept.(perKey := swept.perKey[r.key := Cached(Fetched(r), r.at)])
  }

  // The same without ever sweeping.
  function WithEntryKept(ttl: real, s: KeyState, r: Request): (t: KeyState)
    ensures r.key in t.perKey && t.global == s.global
  {
    if IsFresh(ttl, s, r.key, r.at) then s else s.(perKey := s.perKey[r.key := Cached(Fetched(r), r.at)])
  }

  function CallOf(r: Request): Call {
    Call(r.key, r.at)
  }

  // The global limiter's part.
  function AskGlobal(s: KeyState, r: Request): KeyAnswer {
    if s.global.None? then KeyAnswer(s, true)
    else
      var a := Admit(s.global.value.config, s.global.value.state, CallOf(r));
      KeyAnswer(s.(global := Some(Lim(s.global.value.config, a.s))), a.ok)
  }

  // The part of the key's own limiter.
  function AskKey(s: KeyState, r: Request): KeyAnswer
    requires r.key in s.perKey
  {
    var e := s.perKey[r.key];
    if e.limiter.None? then KeyAnswer(s, true)
    else
      var a := Admit(e.limiter.value.config, e.limiter.value.state, CallOf(r));
      KeyAnswer(s.(perKey := s.perKey[r.key := e.(limiter := Some(Lim(e.limiter.value.config, a.s)))]), a.ok)
  }

  function Ask(ttl: real, s: KeyState, r: Request): KeyAnswer {
    var g := AskGlobal(s, r);
    if !g.ok then g else AskKey(WithEntry(ttl, g.s, r), r)
  }

  function AskKept(ttl: real, s: KeyState, r: Request): KeyAnswer {
    var g := AskGlobal(s, r);
    if !g.ok then g else AskKey(WithEntryKept(ttl, g.s, r), r)
  }

  function KeyAnswers(ttl: real, s: KeyState, rs: seq<Request>): (answers: seq<bool>)
    ensures |answers| == |rs|
    decreases |rs|
  {
    if rs == [] then [] else var a := Ask(ttl, s, rs[0]); [a.ok] + KeyAnswers(ttl, a.s, rs[1..])
  }

  function KeyAnswersKept(ttl: real, s: KeyState, rs: seq<Request>): (answers: seq<bool>)
    ensures |answers| == |rs|
    decreases |rs|
  {
    if rs == [] then [] else var a := AskKept(ttl, s, rs[0]); [a.ok] + KeyAnswersKept(ttl, a.s, rs[1..])
  }

  /** The limiter's own fields. */
  class KeyAwareRateLimiter {
    const ttl: real
    var global: Option<Lim>
    var perKey: map<string, Cached>
    var lastSweep: Option<real>

    ghost function Abs(): KeyState reads this {
      KeyState(global, perKey, lastSweep)
    }

    constructor (global: Option<Lim>, ttl: real)
      ensures this.ttl == DefaultTTL(ttl) && Abs() == KeyState(global, map[], None)
    {
      this.global, this.ttl := global, DefaultTTL(ttl);
      perKey, lastSweep := map[], None;
    }

    method EvictStaleLocked(now: real)
      modifies this`perKey, this`lastSweep
      ensures Abs() == Sweep(ttl, old(Abs()), now)
    {
      if lastSweep.Some? && now - lastSweep.value < 5.0 * ttl {
        return;
      }
      lastSweep := Some(now);
      var todo := perKey.Keys;
      while todo != {}
        invariant lastSweep == Some(now)
        invariant forall k :: k in perKey ==> k in old(perKey) && perKey[k] == old(perKey)[k]
        invariant forall k :: k in old(perKey) && k in todo ==> k in perKey
        invariant forall k :: k in old(perKey) && k !in todo ==> (k in perKey <==> now - old(perKey)[k].fetchedAt <= 10.0 * ttl)
        decreases |todo|
      {
        var k :| k in todo;
        if k in perKey && now - perKey[k].fetchedAt > 10.0 * ttl {
          perKey := perKey - {k};
        }
        todo := todo - {k};
      }
    }

    method GetKeyLimiter(r: Request)
      modifies this`perKey, this`lastSweep
      ensures Abs() == WithEntry(ttl, old(Abs()), r)
    {
      if r.key in perKey && r.at - perKey[r.key].fetchedAt < ttl {
        return;
      }
      EvictStaleLocked(r.at);
      perKey := perKey[r.key := Cached(Fetched(r), r.at)];
    }

    method Allow(r: Request) returns (ok: bool)
      modifies this
      ensures KeyAnswer(Abs(), ok) == Ask(ttl, old(Abs()), r)
    {
      if global.Some? {
        var a := Admit(global.value.config, global.value.state, CallOf(r));
        global := Some(Lim(global.value.config, a.s));
        if !a.ok {
          return false;
        }
      }
      GetKeyLimiter(r);
      var e := perKey[r.key];
      if e.limiter.None? {
        return true;
      }
      var a := Admit(e.limiter.value.config, e.limiter.value.state, CallOf(r));
      perKey := perKey[r.key := e.(limiter := Some(Lim(e.limiter.value.config, a.s)))];
      return a.ok;
    }
  }

  /* ---------- The bound of the global limiter ---------- */

  function CallsOf(rs: seq<Request>): (calls: seq<Call>)
    ensures |calls| == |rs|
  {
    if rs == [] then [] else [CallOf(rs[0])] + CallsOf(rs[1..])
  }

  /** The global limiter sees every request and nothing else: whatever passes both limiters
    * has passed it alone. */
  lemma {:induction false} PassedTheGlobal(ttl: real, s: KeyState, rs: seq<Request>)
    requires s.global.Some?
    ensures |Answers(s.global.value.config, s.global.value.state, CallsOf(rs))| == |rs|
    ensures forall i :: 0 <= i < |rs| && KeyAnswers(ttl, s, rs)[i] ==> Answers(s.global.value.config, s.global.value.state, CallsOf(rs))[i]
    decreases |rs|
  {
    if rs != [] {
      var g, a := s.global.value, Ask(ttl, s, rs[0]);
      GlobalFirst(ttl, s, rs[0]);
      AnswersFirst(g.config, g.state, rs);
      PassedTheGlobal(ttl, a.s, rs[1..]);
      var own, all := KeyAnswers(ttl, a.s, rs[1..]), Answers(g.config, a.s.global.value.state, CallsOf(rs[1..]));
      assert forall i :: 0 < i < |rs| ==> KeyAnswers(ttl, s, rs)[i] == own[i - 1];
    }
  }

  lemma GlobalFirst(ttl: real, s: KeyState, r: Request)
    requires s.global.Some?
    ensures var a, b := Ask(ttl, s, r), Admit(s.global.value.config, s.global.value.state, CallOf(r));
            && a.s.global.Some? && a.s.global.value.config == s.global.value.config && a.s.global.value.state == b.s && (a.ok ==> b.ok)
  {
  }

  lemma AnswersFirst(c: Config, s: State, rs: seq<Request>)
    requires rs != []
    ensures var a := Admit(c, s, CallOf(rs[0])); Answers(c, s, CallsOf(rs)) == [a.ok] + Answers(c, a.s, CallsOf(rs[1..]))
  {
    assert CallsOf(rs)[1..] == CallsOf(rs[1..]);
  }

  function AdmittedByBoth(ttl: real, s: KeyState, key: string, rs: seq<Request>): nat
    decreases |rs|
  {
    if rs == [] then 0
    else
      var a := Ask(ttl, s, rs[0]);
      (if Bucket(rs[0].key) == key && a.ok then 1 else 0) + AdmittedByBoth(ttl, a.s, key, rs[1..])
  }

  lemma {:induction false} FewerThanGlobal(ttl: real, s: KeyState, key: string, rs: seq<Request>)
    requires s.global.Some?
    ensures AdmittedByBoth(ttl, s, key, rs) <= RateBounds.Admitted(s.global.value.config, s.global.value.state, key, CallsOf(rs))
    decreases |rs|
  {
    if rs != [] {
      assert CallsOf(rs)[1..] == CallsOf(rs[1..]);
      FewerThanGlobal(ttl, Ask(ttl, s, rs[0]).s, key, rs[1..]);
    }
  }

  /** So the window bound of the global limiter holds for both together, from any state the
    * global limiter can be in. */
  lemma GlobalWindowBound(ttl: real, s: KeyState, c: Config, before: seq<Call>, key: string, rs: seq<Request>, begin: real, end: real)
    requires c.Valid() && c.KeepsIdleLongEnough() && s.global == Some(Lim(c, RateBounds.After(c, Empty, before)))
    requires Monotone(0.0, before) && RateBounds.Clock(0.0, before) <= begin
    requires Monotone(begin, CallsOf(rs)) && RateBounds.Clock(begin, CallsOf(rs)) <= end
    ensures AdmittedByBoth(ttl, s, key, rs) as real <= c.burst as real + Gain(c.rate, begin, end)
  {
    FewerThanGlobal(ttl, s, key, rs);
    RateBounds.WindowBound(c, before, CallsOf(rs), key, begin, end);
  }

  /** At the first request after its entry has gone stale the key gets a new, full bucket, and
    * only the global limiter can deny. */
  lemma StaleEntryAdmits(ttl: real, s: KeyState, r: Request)
    requires !IsFresh(ttl, s, r.key, r.at)
    ensures Ask(ttl, s, r).ok == AskGlobal(s, r).ok
  {
    var g := AskGlobal(s, r);
    if g.ok && r.stored.Some? {
      var c := New(r.stored.value.0, r.stored.value.1, 900.0);
      assert WithEntry(ttl, g.s, r).perKey[r.key] == Cached(Some(Lim(c, Empty)), r.at);
      assert Swept(c, Empty, r.at).entries == map[];
    }
  }

  /* ---------- The sweep ---------- */

  // What a lookup can see is the same.
  ghost predicate SameFresh(ttl: real, s: KeyState, t: KeyState, now: real) {
    && s.global == t.global
    && forall k :: (IsFresh(ttl, s, k, now) <==> IsFresh(ttl, t, k, now)) && (IsFresh(ttl, s, k, now) ==> s.perKey[k] == t.perKey[k])
  }

  lemma SameFreshLater(ttl: real, s: KeyState, t: KeyState, now: real, later: real)
    requires SameFresh(ttl, s, t, now) && now <= later
    ensures SameFresh(ttl, s, t, later)
  {
    forall k
      ensures (IsFresh(ttl, s, k, later) <==> IsFresh(ttl, t, k, later)) && (IsFresh(ttl, s, k, later) ==> s.perKey[k] == t.perKey[k])
    {
      assert IsFresh(ttl, s, k, later) ==> IsFresh(ttl, s, k, now);
      assert IsFresh(ttl, t, k, later) ==> IsFresh(ttl, t, k, now);
    }
  }

  lemma SameAsk(ttl: real, s: KeyState, t: KeyState, r: Request)
    requires ttl > 0.0 && SameFresh(ttl, s, t, r.at)
    ensures Ask(ttl, s, r).ok == AskKept(ttl, t, r).ok && SameFresh(ttl, Ask(ttl, s, r).s, AskKept(ttl, t, r).s, r.at)
  {
    var g, h := AskGlobal(s, r).s, AskGlobal(t, r).s;
    assert SameFresh(ttl, g, h, r.at) by {
      forall k
        ensures (IsFresh(ttl, g, k, r.at) <==> IsFresh(ttl, h, k, r.at)) && (IsFresh(ttl, g, k, r.at) ==> g.perKey[k] == h.perKey[k])
      {
        assert IsFresh(ttl, s, k, r.at) <==> IsFresh(ttl, t, k, r.at);
      }
    }
    SameEntry(ttl, g, h, r);
    SameAskKey(ttl, WithEntry(ttl, g, r), WithEntryKept(ttl, h, r), r);
  }

  lemma SameEntry(ttl: real, s: KeyState, t: KeyState, r: Request)
    requires ttl > 0.0 && SameFresh(ttl, s, t, r.at)
    ensures SameFresh(ttl, WithEntry(ttl, s, r), WithEntryKept(ttl, t, r), r.at)
    ensures IsFresh(ttl, WithEntry(ttl, s, r), r.key, r.at)
  {
    var u, v := WithEntry(ttl, s, r), WithEntryKept(ttl, t, r);
    forall k
      ensures (IsFresh(ttl, u, k, r.at) <==> IsFresh(ttl, v, k, r.at)) && (IsFresh(ttl, u, k, r.at) ==> u.perKey[k] == v.perKey[k])
    {
      assert IsFresh(ttl, s, k, r.at) <==> IsFresh(ttl, t, k, r.at);
      assert IsFresh(ttl, Sweep(ttl, s, r.at), k, r.at) <==> IsFresh(ttl, s, k, r.at);
    }
  }

  lemma SameAskKey(ttl: real, s: KeyState, t: KeyState, r: Request)
    requires r.key in s.perKey && r.key in t.perKey && SameFresh(ttl, s, t, r.at) && IsFresh(ttl, s, r.key, r.at)
    ensures AskKey(s, r).ok == AskKey(t, r).ok && SameFresh(ttl, AskKey(s, r).s, AskKey(t, r).s, r.at)
  {
    var u, v := AskKey(s, r).s, AskKey(t, r).s;
    assert IsFresh(ttl, t, r.key, r.at);
    forall k
      ensures (IsFresh(ttl, u, k, r.at) <==> IsFresh(ttl, v, k, r.at)) && (IsFresh(ttl, u, k, r.at) ==> u.perKey[k] == v.perKey[k])
    {
      assert IsFresh(ttl, s, k, r.at) <==> IsFresh(ttl, t, k, r.at);
    }
  }

  ghost predicate InOrder(now: real, rs: seq<Request>)
    decreases |rs|
  {
    rs == [] || (now <= rs[0].at && InOrder(rs[0].at, rs[1..]))
  }

  lemma {:induction false} SweepsUnseen(ttl: real, s: KeyState, t: KeyState, now: real, rs: seq<Request>)
    requires ttl > 0.0 && SameFresh(ttl, s, t, now) && InOrder(now, rs)
    ensures KeyAnswers(ttl, s, rs) == KeyAnswersKept(ttl, t, rs)
    decreases |rs|
  {
    if rs != [] {
      SameFreshLater(ttl, s, t, now, rs[0].at);
      SameAsk(ttl, s, t, rs[0]);
      SweepsUnseen(ttl, Ask(ttl, s, rs[0]).s, AskKept(ttl, t, rs[0]).s, rs[0].at, rs[1..]);
    }
  }

  /** The sweep of stale entries never changes an answer. */
  lemma SweepInvisible(ttl: real, s: KeyState, now: real, rs: seq<Request>)
    requires ttl > 0.0 && InOrder(now, rs)
    ensures KeyAnswers(ttl, s, rs) == KeyAnswersKept(ttl, s, rs)
  {
    SweepsUnseen(ttl, s, s, now, rs);
  }

  /* ---------- The table of keys ---------- */

  /** When a key's limit is fetched again: when the entry is missing, or as old as the TTL the
    * limiter was made with, which is half a minute if none was given. */
  lemma RefetchedExactly(ttl: real, s: KeyState, r: Request)
    ensures var e := WithEntry(DefaultTTL(ttl), s, r).perKey[r.key];
            if r.key in s.perKey && r.at - s.perKey[r.key].fetchedAt < (if ttl > 0.0 then ttl else 30.0) then e == s.perKey[r.key]
            else e == Cached(Fetched(r), r.at)
  {
  }

  /** When the entry of another key leaves the table: at a fetch, when it is older than ten TTLs
    * and the last sweep is five TTLs or more ago. */
  lemma KeySweptExactly(ttl: real, s: KeyState, r: Request, k: string)
    requires k in s.perKey && k != r.key
    ensures k !in Ask(ttl, s, r).s.perKey
            <==> && AskGlobal(s, r).ok && !IsFresh(ttl, s, r.key, r.at)
                 && r.at > s.perKey[k].fetchedAt + 10.0 * ttl
                 && (s.lastSweep.None? || r.at >= s.lastSweep.value + 5.0 * ttl)
  {
  }
}
