/** The three-state circuit breaker (internal/circuitbreaker/breaker.go) as a function of its
  * history: the questions it was asked, with the answers it gave, and the outcomes recorded.
  */
module CircuitBreaker {

  datatype Mode = Closed | Open | HalfOpen

  datatype State = State(mode: Mode, consecutiveFailures: nat, totalTrips: nat, lastStateChange: real, probeInFlight: bool)

  datatype Config = Config(threshold: int, cooldown: real) {
    predicate Valid() {
      threshold >= 1 && cooldown > 0.0
    }
  }

  function NewConfig(threshold: int, cooldown: real): (c: Config)
    ensures c.Valid()
  {
    Config(if threshold <= 0 then 5 else threshold, if cooldown <= 0.0 then 30.0 else cooldown)
  }

  function Init(now: real): State {
    State(Closed, 0, 0, now, false)
  }

  datatype Answer = Answer(s: State, ok: bool)

  function Allow(c: Config, s: State, now: real): Answer {
    match s.mode
    case Closed => Answer(s, true)
    case Open =>
      if now - s.lastStateChange < c.cooldown then Answer(s, false)
      else Answer(s.(mode := HalfOpen, lastStateChange := now, probeInFlight := true), true)
    case HalfOpen => if s.probeInFlight then Answer(s, false) else Answer(s.(probeInFlight := true), true)
  }

  function RecordSuccess(s: State, now: real): State {
    var t := s.(consecutiveFailures := 0, probeInFlight := false);
    if s.mode.Closed? then t else t.(mode := Closed, lastStateChange := now)
  }

  function Tripped(s: State, now: real): State {
    s.(mode := Open, lastStateChange := now, totalTrips := s.totalTrips + 1)
  }

  function RecordFailure(c: Config, s: State, now: real): State {
    var t := s.(consecutiveFailures := s.consecutiveFailures + 1, probeInFlight := false);
    match s.mode
    case Closed => if t.consecutiveFailures >= c.threshold then Tripped(t, now) else t
    case HalfOpen => Tripped(t, now)
    case Open => t
  }

  /** The breaker's own fields. */
  class Breaker {
    const config: Config
    var mode: Mode
    var consecutiveFailures: nat
    var totalTrips: nat
    var lastStateChange: real
    var probeInFlight: bool

    ghost function Abs(): State reads this {
      State(mode, consecutiveFailures, totalTrips, lastStateChange, probeInFlight)
    }

    constructor (threshold: int, cooldown: real, now: real)
      ensures config == NewConfig(threshold, cooldown) && Abs() == Init(now)
    {
      config := NewConfig(threshold, cooldown);
      mode, consecutiveFailures, totalTrips, lastStateChange, probeInFlight := Closed, 0, 0, now, false;
    }

    method Ask(now: real) returns (ok: bool)
      modifies this
      ensures Answer(Abs(), ok) == Allow(config, old(Abs()), now)
    {
      match mode {
        case Closed =>
          return true;
        case Open =>
          if now - lastStateChange < config.cooldown {
            return false;
          }
          mode, lastStateChange, probeInFlight := HalfOpen, now, true;
          return true;
        case HalfOpen =>
          if probeInFlight {
            return false;
          }
          probeInFlight := true;
          return true;
      }
    }

    method Succeed(now: real)
      modifies this
      ensures Abs() == RecordSuccess(old(Abs()), now)
    {
      consecutiveFailures := 0;
      probeInFlight := false;
      if !mode.Closed? {
        mode := Closed;
        lastStateChange := now;
      }
    }

    method Fail(now: real)
      modifies this
      ensures Abs() == RecordFailure(config, old(Abs()), now)
    {
      consecutiveFailures := consecutiveFailures + 1;
      probeInFlight := false;
      match mode {
        case Closed =>
          if consecutiveFailures >= config.threshold {
            mode, lastStateChange, totalTrips := Open, now, totalTrips + 1;
          }
        case HalfOpen =>
          mode, lastStateChange, totalTrips := Open, now, totalTrips + 1;
        case Open =>
      }
    }
  }

  /* ---------- Histories ---------- */

  datatype Event = Asked(at: real, granted: bool) | Succeeded(at: real) | Failed(at: real)

  predicate IsOutcome(e: Event) {
    e.Succeeded? || e.Failed?
  }

  predicate IsProbe(e: Event) {
    e.Asked? && e.granted
  }

  function Next(c: Config, s: State, e: Event): State {
    match e
    case Asked(at, _) => Allow(c, s, at).s
    case Succeeded(at) => RecordSuccess(s, at)
    case Failed(at) => RecordFailure(c, s, at)
  }

  function Butlast<T>(h: seq<T>): seq<T>
    requires h != []
  {
    h[..|h| - 1]
  }

  function Last<T>(h: seq<T>): T
    requires h != []
  {
    h[|h| - 1]
  }

  function After(c: Config, start: real, h: seq<Event>): State {
    if h == [] then Init(start) else Next(c, After(c, start, Butlast(h)), Last(h))
  }

  // The answers in the history are the breaker's, and the clock does not go back.
  ghost predicate Real(c: Config, start: real, h: seq<Event>) {
    h == []
    || (&& Real(c, start, Butlast(h))
        && (if |h| == 1 then start else h[|h| - 2].at) <= Last(h).at
        && (Last(h).Asked? ==> Last(h).granted == Allow(c, After(c, start, Butlast(h)), Last(h).at).ok))
  }

  // The failures recorded since the last success.
  function Trailing(h: seq<Event>): nat {
    if h == [] || Last(h).Succeeded? then 0
    else Trailing(Butlast(h)) + if Last(h).Failed? then 1 else 0
  }

  // No outcome was recorded since the last granted request.
  predicate AwaitsOutcome(h: seq<Event>) {
    h != [] && (IsProbe(Last(h)) || (Last(h).Asked? && AwaitsOutcome(Butlast(h))))
  }

  // The failures that open the breaker: the one that reaches the threshold, and each that
  // ends a probe.
  predicate Opens(c: Config, pre: seq<Event>, e: Event) {
    e.Failed? && (Trailing(pre) + 1 == c.threshold || (Trailing(pre) >= c.threshold && AwaitsOutcome(pre)))
  }

  function Openings(c: Config, h: seq<Event>): nat {
    if h == [] then 0 else Openings(c, Butlast(h)) + if Opens(c, Butlast(h), Last(h)) then 1 else 0
  }

  // When the last of them was recorded.
  function OpenedAt(c: Config, start: real, h: seq<Event>): real {
    if h == [] then start else if Opens(c, Butlast(h), Last(h)) then Last(h).at else OpenedAt(c, start, Butlast(h))
  }

  /** The state as a function of the history: the breaker is not closed if and only if the
    * trailing run of failures has reached the threshold; it is half-open if and only if
    * then a request was granted whose outcome is not recorded, which is when the probe mark
    * is set; and it counts every opening. */
  lemma {:induction false} StateIsHistory(c: Config, start: real, h: seq<Event>)
    requires c.Valid() && Real(c, start, h)
    ensures var s := After(c, start, h);
            && s.consecutiveFailures == Trailing(h)
            && (!s.mode.Closed? <==> Trailing(h) >= c.threshold)
            && (s.mode.HalfOpen? <==> Trailing(h) >= c.threshold && AwaitsOutcome(h))
            && (s.mode.HalfOpen? <==> s.probeInFlight)
            && s.totalTrips == Openings(c, h)
  {
    if h != [] {
      StateIsHistory(c, start, Butlast(h));
    }
  }

  lemma {:induction false} OpenSince(c: Config, start: real, h: seq<Event>)
    requires c.Valid() && Real(c, start, h)
    ensures After(c, start, h).mode.Open? ==> After(c, start, h).lastStateChange == OpenedAt(c, start, h)
  {
    if h != [] {
      OpenSince(c, start, Butlast(h));
      StateIsHistory(c, start, Butlast(h));
    }
  }

  /** When a request is granted, by the history alone: always below the threshold, never while
    * a probe awaits its outcome, and else when the cooldown has passed since the failure that
    * last opened the breaker. The branch that grants a second request in the half-open state
    * is never taken. */
  lemma GrantedByHistory(c: Config, start: real, h: seq<Event>, at: real)
    requires c.Valid() && Real(c, start, h)
    ensures var s := After(c, start, h);
            && (Allow(c, s, at).ok
                <==> Trailing(h) < c.threshold || (!AwaitsOutcome(h) && at - OpenedAt(c, start, h) >= c.cooldown))
            && (s.mode.HalfOpen? ==> s.probeInFlight)
  {
    StateIsHistory(c, start, h);
    OpenSince(c, start, h);
  }

  /** The same by the numbers the breaker was made with: it opens at the fifth failure in a row,
    * for half a minute, if they are missing. */
  lemma GrantedAsConfigured(threshold: int, cooldown: real, start: real, h: seq<Event>, at: real)
    requires Real(NewConfig(threshold, cooldown), start, h)
    ensures var c := NewConfig(threshold, cooldown); var granted := Allow(c, After(c, start, h), at).ok;
            && (threshold >= 1 && Trailing(h) < threshold ==> granted)
            && (threshold < 1 && Trailing(h) < 5 ==> granted)
            && (Trailing(h) >= (if threshold >= 1 then threshold else 5) ==>
                  (granted <==> !AwaitsOutcome(h) && at - OpenedAt(c, start, h) >= if cooldown > 0.0 then cooldown else 30.0))
  {
    GrantedByHistory(NewConfig(threshold, cooldown), start, h, at);
  }

  /* ---------- One probe an episode ---------- */

  ghost predicate NoOutcome(h: seq<Event>, i: nat) {
    forall k :: i < k < |h| ==> !IsOutcome(h[k])
  }

  lemma {:induction false} TrailingKept(h: seq<Event>, i: nat)
    requires i < |h| && h[i].Asked? && NoOutcome(h, i)
    ensures Trailing(h) == Trailing(h[..i])
    ensures h[i].granted ==> AwaitsOutcome(h)
  {
    if i == |h| - 1 {
      assert Butlast(h) == h[..i];
    } else {
      var pre := Butlast(h);
      assert forall k :: i < k < |pre| ==> pre[k] == h[k];
      TrailingKept(pre, i);
      assert pre[..i] == h[..i];
      assert !IsOutcome(Last(h));
    }
  }

  /** After a request is granted at or above the threshold, every request is denied until an
    * outcome is recorded: for ever, if none ever is. */
  lemma OneProbe(c: Config, start: real, h: seq<Event>, i: nat, j: nat)
    requires c.Valid() && Real(c, start, h) && i < j < |h| && IsProbe(h[i]) && h[j].Asked?
    requires Trailing(h[..i]) >= c.threshold && forall k :: i < k < j ==> !IsOutcome(h[k])
    ensures !h[j].granted
  {
    RealPrefix(c, start, h, j + 1);
    var pre := h[..j];
    assert Butlast(h[..j + 1]) == pre && Last(h[..j + 1]) == h[j];
    assert pre[..i] == h[..i];
    TrailingKept(pre, i);
    GrantedByHistory(c, start, pre, h[j].at);
  }

  lemma {:induction false} RealPrefix(c: Config, start: real, h: seq<Event>, n: nat)
    requires Real(c, start, h) && n <= |h|
    ensures Real(c, start, h[..n])
  {
    if n < |h| {
      RealPrefix(c, start, Butlast(h), n);
      assert Butlast(h)[..n] == h[..n];
    } else {
      assert h[..n] == h;
    }
  }

  /* ---------- The pace of probes ---------- */

  function Probes(h: seq<Event>): nat {
    if h == [] then 0 else Probes(Butlast(h)) + if IsProbe(Last(h)) then 1 else 0
  }

  // The length of k cooldowns.
  function Times(k: nat, cooldown: real): real {
    if k == 0 then 0.0 else Times(k - 1, cooldown) + cooldown
  }

  lemma {:induction false} TimesIsProduct(k: nat, cooldown: real)
    ensures Times(k, cooldown) == k as real * cooldown
  {
    if k > 0 {
      TimesIsProduct(k - 1, cooldown);
    }
  }

  // The history `pre + more` from a moment when the breaker opened at time `trip`.
  lemma {:induction false} Paced(c: Config, start: real, pre: seq<Event>, more: seq<Event>, trip: real)
    requires c.Valid() && Real(c, start, pre + more)
    requires After(c, start, pre).mode.Open? && After(c, start, pre).lastStateChange == trip
    requires forall k :: 0 <= k < |more| ==> !more[k].Succeeded?
    ensures var s := After(c, start, pre + more);
            !s.mode.Closed? && s.lastStateChange >= trip + Times(Probes(more), c.cooldown)
            && (s.mode.HalfOpen? ==> s.probeInFlight) && (more != [] && IsProbe(Last(more)) ==> s.lastStateChange == Last(more).at)
            && (pre + more != [] ==> s.lastStateChange <= (pre + more)[|pre + more| - 1].at)
    decreases |more|
  {
    var h := pre + more;
    if more == [] {
      assert h == pre;
      LastChangeIsPast(c, start, pre);
    } else {
      var shorter := Butlast(more);
      assert Butlast(h) == pre + shorter && Last(h) == Last(more);
      Paced(c, start, pre, shorter, trip);
      LastChangeIsPast(c, start, h);
    }
  }

  lemma {:induction false} LastChangeIsPast(c: Config, start: real, h: seq<Event>)
    requires c.Valid() && Real(c, start, h)
    ensures After(c, start, h).lastStateChange <= if h == [] then start else Last(h).at
  {
    if h != [] {
      LastChangeIsPast(c, start, Butlast(h));
    }
  }

  /** Without a success, the k-th probe after the breaker opened comes no earlier than k
    * cooldowns after that. */
  lemma ProbesArePaced(c: Config, start: real, pre: seq<Event>, more: seq<Event>, trip: real)
    requires c.Valid() && Real(c, start, pre + more)
    requires After(c, start, pre).mode.Open? && After(c, start, pre).lastStateChange == trip
    requires more != [] && IsProbe(Last(more)) && forall k :: 0 <= k < |more| ==> !more[k].Succeeded?
    ensures Last(more).at >= trip + Times(Probes(more), c.cooldown)
  {
    Paced(c, start, pre, more, trip);
  }
}
