/** The fallback pipeline (internal/proxy/pipeline.go): it walks the dispatch chain,
  * consults the circuit breakers, sends to one provider after another and answers the
  * client. What the providers do is part of the input, and what other requests make of the
  * shared breakers meanwhile; what the pipeline does is logged.
  */
module FallbackPipeline {
  import opened Options
  import CB = CircuitBreaker

  // What sending to a provider brings.
  datatype Reply = NetworkError | Replied(status: int)

  // No route for the provider's format, a route builder that answers the client itself,
  // or a request to send.
  datatype Route = Unsupported | Stopped | Planned(reply: Reply)

  // `name` is what the provider calls itself.
  datatype Fate = Missing | Present(name: string, route: Route)

  type Registry = map<string, CB.State>

  // The breakers as other requests have left them when the entry's breaker is asked, and when
  // the outcome of its request is recorded; nothing if they have left them alone.
  datatype Others = Others(asked: Option<Registry>, answered: Option<Registry>)

  datatype Entry = Entry(provider: string, at: real, fate: Fate, others: Others)

  datatype Effect =
    | MissingProvider | UnsupportedFormat | RouteError | NetworkFailure | Exhausted(status: int) | Handled(status: int)
    | Granted(provider: string) | Sent(provider: string) | Recorded(provider: string, success: bool)

  predicate IsFallbackStatus(code: int) {
    code >= 500 || code == 429
  }

  // The registry of breakers, if there is one, and what was done so far.
  datatype State = State(breakers: Option<Registry>, effects: seq<Effect>)

  datatype Verdict = NotThere | Skipped | Failed | Finished

  datatype Visit = Visit(s: State, verdict: Verdict)

  function Logged(s: State, e: Effect): State {
    s.(effects := s.effects + [e])
  }

  // A breaker is created when it is first asked for.
  function BreakerOf(m: Registry, name: string, now: real): CB.State {
    if name in m then m[name] else CB.Init(now)
  }

  function Meanwhile(m: Registry, others: Option<Registry>): Registry {
    if others.Some? then others.value else m
  }

  function AfterOthers(s: State, others: Option<Registry>): State {
    if s.breakers.None? then s else s.(breakers := Some(Meanwhile(s.breakers.value, others)))
  }

  function AnswerTo(c: CB.Config, m: Registry, e: Entry): CB.Answer {
    CB.Allow(c, BreakerOf(Meanwhile(m, e.others.asked), e.provider, e.at), e.at)
  }

  predicate IsAllowed(c: CB.Config, s: State, e: Entry) {
    s.breakers.None? || AnswerTo(c, s.breakers.value, e).ok
  }

  function AfterAsking(c: CB.Config, m: Registry, e: Entry): Registry {
    Meanwhile(m, e.others.asked)[e.provider := AnswerTo(c, m, e).s]
  }

  function Consulted(c: CB.Config, s: State, e: Entry): State {
    if s.breakers.None? then s
    else
      var t := s.(breakers := Some(AfterAsking(c, s.breakers.value, e)));
      if AnswerTo(c, s.breakers.value, e).ok then Logged(t, Granted(e.provider)) else t
  }

  function Record(c: CB.Config, s: State, name: string, success: bool, now: real): State {
    if s.breakers.None? then s
    else
      var b := BreakerOf(s.breakers.value, name, now);
      var b' := if success then CB.RecordSuccess(b, now) else CB.RecordFailure(c, b, now);
      Logged(s.(breakers := Some(s.breakers.value[name := b'])), Recorded(name, success))
  }

  predicate Fails(reply: Reply) {
    reply.NetworkError? || IsFallbackStatus(reply.status)
  }

  function ErrorFor(reply: Reply): Effect {
    if reply.NetworkError? then NetworkFailure else Exhausted(reply.status)
  }

  // executeProviderAttempt
  function Send(c: CB.Config, s: State, name: string, reply: Reply, at: real, more: bool): Visit {
    var t := Record(c, Logged(s, Sent(name)), name, !Fails(reply), at);
    if !Fails(reply) then Visit(Logged(t, Handled(reply.status)), Finished)
    else if more then Visit(t, Failed)
    else Visit(Logged(t, ErrorFor(reply)), Finished)
  }

  function Attempt(c: CB.Config, s: State, e: Entry, more: bool): Visit
    requires e.fate.Present?
  {
    match e.fate.route
    case Unsupported => Visit(Logged(s, UnsupportedFormat), Finished)
    case Stopped => Visit(Logged(s, RouteError), Finished)
    case Planned(reply) => Send(c, AfterOthers(s, e.others.answered), e.fate.name, reply, e.at, more)
  }

  function OnEntry(c: CB.Config, s: State, e: Entry, more: bool): Visit {
    if e.fate.Missing? then Visit(Logged(s, MissingProvider), NotThere)
    else if !IsAllowed(c, s, e) then Visit(Consulted(c, s, e), Skipped)
    else Attempt(c, Consulted(c, s, e), e, more)
  }

  predicate Goes(v: Verdict) {
    v.Skipped? || v.Failed?
  }

  // executeFallbackChain: the state at the end and the verdicts on the entries it reached.
  datatype Walk = Walk(s: State, verdicts: seq<Verdict>)

  function WalkChain(c: CB.Config, s: State, chain: seq<Entry>): Walk
    decreases |chain|
  {
    if chain == [] then Walk(s, [])
    else
      var v := OnEntry(c, s, chain[0], |chain| > 1);
      if !Goes(v.verdict) then Walk(v.s, [v.verdict])
      else
        var rest := WalkChain(c, v.s, chain[1..]);
        Walk(rest.s, [v.verdict] + rest.verdicts)
  }

  predicate AnyAttempted(verdicts: seq<Verdict>) {
    Failed in verdicts || Finished in verdicts
  }

  // executeProxyPipeline
  function Execute(c: CB.Config, s: State, chain: seq<Entry>): State {
    var w := WalkChain(c, s, chain);
    if !AnyAttempted(w.verdicts) && chain != [] then Logged(w.s, Exhausted(503)) else w.s
  }

  /* ---------- The loop ---------- */

  ghost predicate Walking(c: CB.Config, all: Walk, s: State, verdicts: seq<Verdict>, chain: seq<Entry>) {
    var rest := WalkChain(c, s, chain);
    all.s == rest.s && all.verdicts == verdicts + rest.verdicts
  }

  lemma WalkingStep(c: CB.Config, all: Walk, s: State, verdicts: seq<Verdict>, chain: seq<Entry>, n: nat)
    requires n < |chain| && Walking(c, all, s, verdicts, chain[n..])
    ensures var v := OnEntry(c, s, chain[n], n < |chain| - 1);
            if Goes(v.verdict) then Walking(c, all, v.s, verdicts + [v.verdict], chain[n + 1..])
            else all == Walk(v.s, verdicts + [v.verdict])
  {
    assert chain[n..][1..] == chain[n + 1..];
    var v := OnEntry(c, s, chain[n], n < |chain| - 1);
    if Goes(v.verdict) {
      var rest := WalkChain(c, v.s, chain[n + 1..]).verdicts;
      assert verdicts + ([v.verdict] + rest) == (verdicts + [v.verdict]) + rest;
    }
  }

  class Pipeline {
    const config: CB.Config
    var breakers: Option<Registry>
    var effects: seq<Effect>

    ghost function Abs(): State reads this {
      State(breakers, effects)
    }

    constructor (config: CB.Config, breakers: Option<Registry>)
      ensures this.config == config && Abs() == State(breakers, [])
    {
      this.config, this.breakers, effects := config, breakers, [];
    }

    // What other requests do to the breakers meanwhile.
    method OtherRequests(others: Option<Registry>)
      modifies this
      ensures Abs() == AfterOthers(old(Abs()), others)
    {
      if breakers.Some? && others.Some? {
        breakers := others;
      }
    }

    method ConsultBreaker(e: Entry) returns (ok: bool)
      modifies this
      ensures ok == IsAllowed(config, old(Abs()), e) && Abs() == Consulted(config, old(Abs()), e)
    {
      if breakers.None? {
        return true;
      }
      OtherRequests(e.others.asked);
      var a := CB.Allow(config, BreakerOf(breakers.value, e.provider, e.at), e.at);
      breakers := Some(breakers.value[e.provider := a.s]);
      if a.ok {
        effects := effects + [Granted(e.provider)];
      }
      return a.ok;
    }

    method RecordOutcome(name: string, success: bool, now: real)
      modifies this
      ensures Abs() == Record(config, old(Abs()), name, success, now)
    {
      if breakers.Some? {
        var b := BreakerOf(breakers.value, name, now);
        b := if success then CB.RecordSuccess(b, now) else CB.RecordFailure(config, b, now);
        breakers := Some(breakers.value[name := b]);
        effects := effects + [Recorded(name, success)];
      }
    }

    method ExecuteProviderAttempt(name: string, reply: Reply, at: real, hasMoreFallbacks: bool) returns (verdict: Verdict)
      modifies this
      ensures Visit(Abs(), verdict) == Send(config, old(Abs()), name, reply, at, hasMoreFallbacks)
    {
      effects := effects + [Sent(name)];
      if reply.NetworkError? {
        RecordOutcome(name, false, at);
        if hasMoreFallbacks {
          return Failed;
        }
        effects := effects + [NetworkFailure];
        return Finished;
      }
      if IsFallbackStatus(reply.status) {
        RecordOutcome(name, false, at);
        if hasMoreFallbacks {
          return Failed;
        }
        effects := effects + [Exhausted(reply.status)];
        return Finished;
      }
      RecordOutcome(name, true, at);
      effects := effects + [Handled(reply.status)];
      return Finished;
    }

    method HandleEntry(e: Entry, hasMoreFallbacks: bool) returns (verdict: Verdict)
      modifies this
      ensures Visit(Abs(), verdict) == OnEntry(config, old(Abs()), e, hasMoreFallbacks)
    {
      if e.fate.Missing? {
        effects := effects + [MissingProvider];
        return NotThere;
      }
      var ok := ConsultBreaker(e);
      if !ok {
        return Skipped;
      }
      match e.fate.route {
        case Unsupported =>
          effects := effects + [UnsupportedFormat];
          return Finished;
        case Stopped =>
          effects := effects + [RouteError];
          return Finished;
        case Planned(reply) =>
          OtherRequests(e.others.answered);
          verdict := ExecuteProviderAttempt(e.fate.name, reply, e.at, hasMoreFallbacks);
      }
    }

    method ExecuteFallbackChain(chain: seq<Entry>) returns (anyAttempted: bool, ghost verdicts: seq<Verdict>)
      modifies this
      ensures Walk(Abs(), verdicts) == WalkChain(config, old(Abs()), chain)
      ensures anyAttempted == AnyAttempted(verdicts)
    {
      ghost var all := WalkChain(config, Abs(), chain);
      anyAttempted, verdicts := false, [];
      assert chain[0..] == chain;
      for attempt := 0 to |chain|
        invariant Walking(config, all, Abs(), verdicts, chain[attempt..])
        invariant anyAttempted == AnyAttempted(verdicts)
      {
        WalkingStep(config, all, Abs(), verdicts, chain, attempt);
        var verdict := HandleEntry(chain[attempt], attempt < |chain| - 1);
        verdicts := verdicts + [verdict];
        anyAttempted := anyAttempted || verdict == Failed || verdict == Finished;
        if verdict == NotThere || verdict == Finished {
          return;
        }
      }
    }

    method ExecuteProxyPipeline(chain: seq<Entry>)
      modifies this
      ensures Abs() == Execute(config, old(Abs()), chain)
    {
      var anyAttempted, _ := ExecuteFallbackChain(chain);
      if !anyAttempted && |chain| > 0 {
        effects := effects + [Exhausted(503)];
      }
    }
  }

  /* ---------- How many responses ---------- */

  predicate IsResponse(e: Effect) {
    e.MissingProvider? || e.UnsupportedFormat? || e.RouteError? || e.NetworkFailure? || e.Exhausted? || e.Handled?
  }

  function Responses(effects: seq<Effect>): nat {
    if effects == [] then 0 else Responses(effects[..|effects| - 1]) + if IsResponse(effects[|effects| - 1]) then 1 else 0
  }

  lemma LoggedCounts(who: Option<string>, s: State, e: Effect)
    ensures Responses(Logged(s, e).effects) == Responses(s.effects) + if IsResponse(e) then 1 else 0
    ensures Count(who, Logged(s, e).effects) == Count(who, s.effects) + Unit(who, e)
  {
    assert (s.effects + [e])[..|s.effects|] == s.effects;
  }

  // Permissions granted minus outcomes recorded, of one provider or of all.
  predicate Concerns(who: Option<string>, name: string) {
    who.None? || who.value == name
  }

  function Unit(who: Option<string>, e: Effect): int {
    if e.Granted? && Concerns(who, e.provider) then 1 else if e.Recorded? && Concerns(who, e.provider) then -1 else 0
  }

  function Count(who: Option<string>, effects: seq<Effect>): int {
    if effects == [] then 0 else Count(who, effects[..|effects| - 1]) + Unit(who, effects[|effects| - 1])
  }

  // The provider goes by the name it is configured under, as every client is made to.
  predicate Named(e: Entry) {
    e.fate.Present? ==> e.fate.name == e.provider
  }

  predicate AllNamed(chain: seq<Entry>) {
    forall k :: 0 <= k < |chain| ==> Named(chain[k])
  }

  // The entry ends the walk without anything being sent.
  predicate EndsEarly(e: Entry) {
    e.fate.Present? && !e.fate.route.Planned?
  }

  lemma EntryCounts(who: Option<string>, c: CB.Config, s: State, e: Entry, more: bool)
    requires who.Some? ==> Named(e)
    ensures var v := OnEntry(c, s, e, more);
            && Responses(v.s.effects) == Responses(s.effects) + (if Goes(v.verdict) then 0 else 1)
            && (v.verdict.Failed? ==> more)
            && (s.breakers.None? <==> v.s.breakers.None?)
            && Count(who, v.s.effects) == Count(who, s.effects) + (if s.breakers.Some? && v.verdict.Finished? && EndsEarly(e) && Concerns(who, e.provider) then 1 else 0)
  {
    if e.fate.Missing? {
      LoggedCounts(who, s, MissingProvider);
    } else {
      ConsultedCounts(who, c, s, e);
      if IsAllowed(c, s, e) {
        AttemptCounts(who, c, Consulted(c, s, e), e, more);
      }
    }
  }

  lemma ConsultedCounts(who: Option<string>, c: CB.Config, s: State, e: Entry)
    ensures var t := Consulted(c, s, e);
            && Responses(t.effects) == Responses(s.effects) && (s.breakers.None? <==> t.breakers.None?)
            && Count(who, t.effects) == Count(who, s.effects) + if s.breakers.Some? && IsAllowed(c, s, e) && Concerns(who, e.provider) then 1 else 0
  {
    if s.breakers.Some? {
      var t := s.(breakers := Some(AfterAsking(c, s.breakers.value, e)));
      LoggedCounts(who, t, Granted(e.provider));
    }
  }

  lemma RecordCounts(who: Option<string>, c: CB.Config, s: State, name: string, success: bool, now: real)
    ensures var t := Record(c, s, name, success, now);
            && Responses(t.effects) == Responses(s.effects) && (s.breakers.None? <==> t.breakers.None?)
            && Count(who, t.effects) == Count(who, s.effects) - if s.breakers.Some? && Concerns(who, name) then 1 else 0
  {
    LoggedCounts(who, s, Recorded(name, success));
  }

  lemma SendCounts(who: Option<string>, c: CB.Config, s: State, name: string, reply: Reply, at: real, more: bool)
    ensures var v := Send(c, s, name, reply, at, more);
            && Responses(v.s.effects) == Responses(s.effects) + (if v.verdict.Failed? then 0 else 1)
            && (v.verdict.Failed? || v.verdict.Finished?) && (v.verdict.Failed? ==> more)
            && (s.breakers.None? <==> v.s.breakers.None?)
            && Count(who, v.s.effects) == Count(who, s.effects) - if s.breakers.Some? && Concerns(who, name) then 1 else 0
  {
    SentRecorded(who, c, s, name, !Fails(reply), at);
    var t := Record(c, Logged(s, Sent(name)), name, !Fails(reply), at);
    if !Fails(reply) {
      ResponseLogged(who, t, Handled(reply.status));
    } else if !more {
      ResponseLogged(who, t, ErrorFor(reply));
    }
  }

  lemma ResponseLogged(who: Option<string>, s: State, e: Effect)
    requires IsResponse(e)
    ensures Responses(Logged(s, e).effects) == Responses(s.effects) + 1 && Count(who, Logged(s, e).effects) == Count(who, s.effects)
    ensures Logged(s, e).breakers == s.breakers
  {
    LoggedCounts(who, s, e);
  }

  lemma SentRecorded(who: Option<string>, c: CB.Config, s: State, name: string, success: bool, at: real)
    ensures var t := Record(c, Logged(s, Sent(name)), name, success, at);
            && Responses(t.effects) == Responses(s.effects) && (s.breakers.None? <==> t.breakers.None?)
            && Count(who, t.effects) == Count(who, s.effects) - if s.breakers.Some? && Concerns(who, name) then 1 else 0
  {
    LoggedCounts(who, s, Sent(name));
    RecordCounts(who, c, Logged(s, Sent(name)), name, success, at);
  }

  lemma AttemptCounts(who: Option<string>, c: CB.Config, s: State, e: Entry, more: bool)
    requires e.fate.Present?
    ensures var v := Attempt(c, s, e, more);
            && Responses(v.s.effects) == Responses(s.effects) + (if v.verdict.Failed? then 0 else 1)
            && (v.verdict.Failed? || v.verdict.Finished?) && (v.verdict.Failed? ==> more && e.fate.route.Planned?)
            && (s.breakers.None? <==> v.s.breakers.None?)
            && Count(who, v.s.effects) == Count(who, s.effects) - if s.breakers.Some? && e.fate.route.Planned? && Concerns(who, e.fate.name) then 1 else 0
  {
    match e.fate.route
    case Unsupported => LoggedCounts(who, s, UnsupportedFormat);
    case Stopped => LoggedCounts(who, s, RouteError);
    case Planned(reply) => SendCounts(who, c, AfterOthers(s, e.others.answered), e.fate.name, reply, e.at, more);
  }

  // The walk ended at an entry: it was missing or its attempt was the last.
  predicate Ended(verdicts: seq<Verdict>) {
    verdicts != [] && !Goes(verdicts[|verdicts| - 1])
  }

  lemma {:induction false} WalkShape(c: CB.Config, s: State, chain: seq<Entry>)
    ensures var verdicts := WalkChain(c, s, chain).verdicts;
            && |verdicts| <= |chain| && (!Ended(verdicts) ==> |verdicts| == |chain|)
            && (forall k :: 0 <= k < |verdicts| - 1 ==> Goes(verdicts[k]))
            && (|verdicts| == |chain| && chain != [] ==> !verdicts[|chain| - 1].Failed?)
    decreases |chain|
  {
    if chain != [] {
      var v := OnEntry(c, s, chain[0], |chain| > 1);
      if Goes(v.verdict) {
        WalkShape(c, v.s, chain[1..]);
      }
    }
  }

  // The entry the walk ended at answers the client before anything is sent.
  predicate EndedEarly(who: Option<string>, chain: seq<Entry>, verdicts: seq<Verdict>) {
    && 0 < |verdicts| <= |chain| && verdicts[|verdicts| - 1].Finished?
    && EndsEarly(chain[|verdicts| - 1]) && Concerns(who, chain[|verdicts| - 1].provider)
  }

  lemma EndedLater(v: Verdict, verdicts: seq<Verdict>)
    requires Goes(v)
    ensures Ended([v] + verdicts) == Ended(verdicts)
  {
  }

  lemma {:induction false} WalkResponses(c: CB.Config, s: State, chain: seq<Entry>)
    ensures var w := WalkChain(c, s, chain);
            Responses(w.s.effects) == Responses(s.effects) + if Ended(w.verdicts) then 1 else 0
    decreases |chain|
  {
    if chain != [] {
      var v := OnEntry(c, s, chain[0], |chain| > 1);
      EntryCounts(None, c, s, chain[0], |chain| > 1);
      if Goes(v.verdict) {
        WalkResponses(c, v.s, chain[1..]);
        EndedLater(v.verdict, WalkChain(c, v.s, chain[1..]).verdicts);
      }
    }
  }

  lemma EndedEarlyLater(who: Option<string>, chain: seq<Entry>, v: Verdict, verdicts: seq<Verdict>)
    requires chain != [] && Goes(v)
    ensures EndedEarly(who, chain, [v] + verdicts) == EndedEarly(who, chain[1..], verdicts)
  {
  }

  lemma {:induction false} WalkPermissions(who: Option<string>, c: CB.Config, s: State, chain: seq<Entry>)
    requires who.Some? ==> AllNamed(chain)
    ensures var w := WalkChain(c, s, chain);
            Count(who, w.s.effects) == Count(who, s.effects) + if s.breakers.Some? && EndedEarly(who, chain, w.verdicts) then 1 else 0
    decreases |chain|
  {
    if chain != [] {
      var v := OnEntry(c, s, chain[0], |chain| > 1);
      EntryCounts(who, c, s, chain[0], |chain| > 1);
      if Goes(v.verdict) {
        WalkPermissions(who, c, v.s, chain[1..]);
        EndedEarlyLater(who, chain, v.verdict, WalkChain(c, v.s, chain[1..]).verdicts);
      }
    }
  }

  // The responses of the walk, and the one that follows a walk without an attempt.
  function CountFor(verdicts: seq<Verdict>): nat {
    (if Ended(verdicts) then 1 else 0) + if AnyAttempted(verdicts) then 0 else 1
  }

  lemma VerdictCases(verdicts: seq<Verdict>, n: nat)
    requires verdicts != [] && forall k :: 0 <= k < |verdicts| - 1 ==> Goes(verdicts[k])
    requires !Ended(verdicts) ==> |verdicts| == n
    requires |verdicts| == n ==> !verdicts[n - 1].Failed?
    ensures CountFor(verdicts)
            == if NotThere in verdicts && Failed !in verdicts then 2
               else if Failed in verdicts && |verdicts| == n && verdicts[n - 1].Skipped? then 0
               else 1
  {
    var last := verdicts[|verdicts| - 1];
    assert last in verdicts;
    assert forall v :: v in verdicts ==> Goes(v) || v == last;
  }

  lemma {:induction false} WalkNotEmpty(c: CB.Config, s: State, chain: seq<Entry>)
    requires chain != []
    ensures WalkChain(c, s, chain).verdicts != []
  {
  }

  lemma ExecuteCounts(who: Option<string>, c: CB.Config, s: State, chain: seq<Entry>)
    requires chain != [] && (who.Some? ==> AllNamed(chain))
    ensures Responses(Execute(c, s, chain).effects) == Responses(s.effects) + CountFor(WalkChain(c, s, chain).verdicts)
    ensures Count(who, Execute(c, s, chain).effects)
            == Count(who, s.effects) + if s.breakers.Some? && EndedEarly(who, chain, WalkChain(c, s, chain).verdicts) then 1 else 0
  {
    var w := WalkChain(c, s, chain);
    WalkResponses(c, s, chain);
    WalkPermissions(who, c, s, chain);
    EndCounts(who, w);
  }

  // The response that follows a walk without an attempt.
  lemma EndCounts(who: Option<string>, w: Walk)
    ensures var t := if AnyAttempted(w.verdicts) then w.s else Logged(w.s, Exhausted(503));
            && Responses(t.effects) == Responses(w.s.effects) + (if AnyAttempted(w.verdicts) then 0 else 1)
            && Count(who, t.effects) == Count(who, w.s.effects)
  {
    if !AnyAttempted(w.verdicts) {
      ResponseLogged(who, w.s, Exhausted(503));
    }
  }

  /** The number of responses to a request with a non-empty chain: two if a missing provider
    * is met before any attempt; none if some attempt failed and every later entry, the last
    * one included, was skipped; and one in every other case. */
  lemma ResponseCount(c: CB.Config, s: State, chain: seq<Entry>)
    requires chain != []
    ensures var verdicts := WalkChain(c, s, chain).verdicts;
            Responses(Execute(c, s, chain).effects) - Responses(s.effects)
            == if NotThere in verdicts && Failed !in verdicts then 2
               else if Failed in verdicts && |verdicts| == |chain| && verdicts[|chain| - 1].Skipped? then 0
               else 1
  {
    ExecuteCounts(None, c, s, chain);
    WalkShape(c, s, chain);
    WalkNotEmpty(c, s, chain);
    VerdictCases(WalkChain(c, s, chain).verdicts, |chain|);
  }

  /* ---------- The count from the input ---------- */

  // The answers of the breakers to the entries one after the other, as long as the walk goes
  // on: an entry is skipped, or sent to and fails.
  function Permits(c: CB.Config, breakers: Option<Registry>, chain: seq<Entry>): (ps: seq<bool>)
    ensures |ps| == |chain|
    decreases |chain|
  {
    if chain == [] then []
    else if breakers.None? then [true] + Permits(c, breakers, chain[1..])
    else [AnswerTo(c, breakers.value, chain[0]).ok] + Permits(c, Some(GoneOn(c, breakers.value, chain[0])), chain[1..])
  }

  function AfterFailure(c: CB.Config, m: Registry, name: string, at: real): Registry {
    m[name := CB.RecordFailure(c, BreakerOf(m, name, at), at)]
  }

  // The breakers after an entry from which the walk goes on.
  function GoneOn(c: CB.Config, m: Registry, e: Entry): Registry {
    if AnswerTo(c, m, e).ok && e.fate.Present?
    then AfterFailure(c, Meanwhile(AfterAsking(c, m, e), e.others.answered), e.fate.name, e.at)
    else AfterAsking(c, m, e)
  }

  // Sending to it makes the walk go on, if there is a further entry.
  predicate FailsOver(e: Entry) {
    e.fate.Present? && e.fate.route.Planned? && Fails(e.fate.route.reply)
  }

  function Expected(e: Entry, permitted: bool, more: bool): Verdict {
    if e.fate.Missing? then NotThere
    else if !permitted then Skipped
    else if FailsOver(e) && more then Failed
    else Finished
  }

  lemma EntryExpected(c: CB.Config, s: State, e: Entry, rest: seq<Entry>)
    ensures var v := OnEntry(c, s, e, rest != []); var ps := Permits(c, s.breakers, [e] + rest);
            && v.verdict == Expected(e, ps[0], rest != []) && (Goes(v.verdict) ==> ps == [ps[0]] + Permits(c, v.s.breakers, rest))
            && (Goes(v.verdict) && s.breakers.Some? ==> v.s.breakers == Some(GoneOn(c, s.breakers.value, e)))
  {
    assert ([e] + rest)[1..] == rest;
  }

  lemma {:induction false} VerdictsExpected(c: CB.Config, s: State, chain: seq<Entry>)
    ensures var verdicts, ps := WalkChain(c, s, chain).verdicts, Permits(c, s.breakers, chain);
            |verdicts| <= |chain| && forall k :: 0 <= k < |verdicts| ==> verdicts[k] == Expected(chain[k], ps[k], k < |chain| - 1)
    decreases |chain|
  {
    if chain != [] {
      var rest := chain[1..];
      assert chain == [chain[0]] + rest;
      EntryExpected(c, s, chain[0], rest);
      var v := OnEntry(c, s, chain[0], |chain| > 1);
      if Goes(v.verdict) {
        VerdictsExpected(c, v.s, rest);
        assert forall k :: 0 < k < |chain| ==> chain[k] == rest[k - 1];
      }
    }
  }

  // A missing provider is met before any attempt.
  predicate MissingFirst(chain: seq<Entry>, ps: seq<bool>)
    requires |ps| == |chain|
  {
    exists k :: 0 <= k < |chain| && MissingAt(chain, ps, k)
  }

  predicate MissingAt(chain: seq<Entry>, ps: seq<bool>, k: nat)
    requires |ps| == |chain| && k < |chain|
  {
    chain[k].fate.Missing? && forall i :: 0 <= i < k ==> chain[i].fate.Present? && !ps[i]
  }

  // Every entry that is permitted fails over, there is such an entry, and the last one is
  // not permitted.
  predicate LastSkipped(chain: seq<Entry>, ps: seq<bool>)
    requires |ps| == |chain|
  {
    && chain != [] && !ps[|chain| - 1] && true in ps
    && forall k :: 0 <= k < |chain| ==> chain[k].fate.Present? && (ps[k] ==> FailsOver(chain[k]))
  }

  lemma MissingMet(chain: seq<Entry>, ps: seq<bool>, verdicts: seq<Verdict>)
    requires |ps| == |chain| && 0 < |verdicts| <= |chain| && (!Ended(verdicts) ==> |verdicts| == |chain|)
    requires forall k :: 0 <= k < |verdicts| - 1 ==> Goes(verdicts[k])
    requires forall k :: 0 <= k < |verdicts| ==> verdicts[k] == Expected(chain[k], ps[k], k < |chain| - 1)
    ensures NotThere in verdicts && Failed !in verdicts <==> MissingFirst(chain, ps)
  {
    var last := |verdicts| - 1;
    if NotThere in verdicts && Failed !in verdicts {
      assert verdicts[last] == NotThere;
      forall i | 0 <= i < last
        ensures chain[i].fate.Present? && !ps[i]
      {
        assert verdicts[i] in verdicts && Goes(verdicts[i]);
      }
      assert MissingAt(chain, ps, last);
    }
    if MissingFirst(chain, ps) {
      var k :| 0 <= k < |chain| && MissingAt(chain, ps, k);
      assert last <= k;
      assert k <= last;
      assert verdicts[last] in verdicts;
    }
  }

  lemma SkippedLast(chain: seq<Entry>, ps: seq<bool>, verdicts: seq<Verdict>)
    requires |ps| == |chain| && 0 < |verdicts| <= |chain| && (!Ended(verdicts) ==> |verdicts| == |chain|)
    requires forall k :: 0 <= k < |verdicts| - 1 ==> Goes(verdicts[k])
    requires forall k :: 0 <= k < |verdicts| ==> verdicts[k] == Expected(chain[k], ps[k], k < |chain| - 1)
    ensures Failed in verdicts && |verdicts| == |chain| && verdicts[|chain| - 1].Skipped? <==> LastSkipped(chain, ps)
  {
    if Failed in verdicts && |verdicts| == |chain| && verdicts[|chain| - 1].Skipped? {
      var k :| 0 <= k < |verdicts| && verdicts[k] == Failed;
      assert ps[k];
      forall i | 0 <= i < |chain|
        ensures chain[i].fate.Present? && (ps[i] ==> FailsOver(chain[i]))
      {
        assert Goes(verdicts[i]);
      }
    }
    if LastSkipped(chain, ps) {
      assert !Ended(verdicts);
      var k :| 0 <= k < |ps| && ps[k];
      assert verdicts[k] == Failed;
    }
  }

  /** The number of responses from the input alone, the breakers' states and what the providers
    * reply: two if a missing provider comes before any permitted entry; none if every
    * permitted entry fails, there is one, and the last entry is not permitted; else one. */
  lemma ResponsesByInput(c: CB.Config, s: State, chain: seq<Entry>)
    requires chain != []
    ensures var ps := Permits(c, s.breakers, chain);
            Responses(Execute(c, s, chain).effects) - Responses(s.effects)
            == if MissingFirst(chain, ps) then 2 else if LastSkipped(chain, ps) then 0 else 1
  {
    var verdicts, ps := WalkChain(c, s, chain).verdicts, Permits(c, s.breakers, chain);
    ResponseCount(c, s, chain);
    WalkShape(c, s, chain);
    WalkNotEmpty(c, s, chain);
    VerdictsExpected(c, s, chain);
    MissingMet(chain, ps, verdicts);
    SkippedLast(chain, ps, verdicts);
  }

  lemma {:induction false} AllPermitted(c: CB.Config, chain: seq<Entry>)
    ensures forall k :: 0 <= k < |chain| ==> Permits(c, None, chain)[k]
    decreases |chain|
  {
    if chain != [] {
      AllPermitted(c, chain[1..]);
    }
  }

  /** Without breakers: exactly one response, unless the first provider of all is missing. */
  lemma ResponsesWithoutBreakers(c: CB.Config, chain: seq<Entry>)
    requires chain != []
    ensures Responses(Execute(c, State(None, []), chain).effects) == if chain[0].fate.Missing? then 2 else 1
  {
    ResponsesByInput(c, State(None, []), chain);
    AllPermitted(c, chain);
    if chain[0].fate.Missing? {
      assert MissingAt(chain, Permits(c, None, chain), 0);
    }
  }

  // What a breaker is like after further events of its history.
  function Continued(c: CB.Config, b: CB.State, h: seq<CB.Event>): CB.State {
    if h == [] then b else CB.Next(c, Continued(c, b, CB.Butlast(h)), CB.Last(h))
  }

  // Outcomes of other requests, recorded just before the entry's breaker is asked: a success to
  // close it, and then as many failures as open it if it is to deny.
  function OutcomesFor(c: CB.Config, at: real, answer: bool): seq<CB.Event> {
    [CB.Succeeded(at)] + if answer then [] else FailuresAt(at, if c.threshold < 0 then 0 else c.threshold)
  }

  function FailuresAt(at: real, n: nat): seq<CB.Event> {
    if n == 0 then [] else FailuresAt(at, n - 1) + [CB.Failed(at)]
  }

  lemma {:induction false} FailuresOpen(c: CB.Config, b: CB.State, at: real, n: nat)
    requires c.Valid() && n <= c.threshold
    ensures var t := Continued(c, b, [CB.Succeeded(at)] + FailuresAt(at, n));
            && t.consecutiveFailures == n && !t.probeInFlight
            && if n < c.threshold then t.mode.Closed? else t.mode.Open? && t.lastStateChange == at
  {
    var h := [CB.Succeeded(at)] + FailuresAt(at, n);
    if n == 0 {
      assert h == [CB.Succeeded(at)] && CB.Butlast(h) == [];
    } else {
      FailuresOpen(c, b, at, n - 1);
      assert CB.Butlast(h) == [CB.Succeeded(at)] + FailuresAt(at, n - 1);
    }
  }

  lemma OutcomesDecide(c: CB.Config, b: CB.State, at: real, answer: bool)
    requires c.Valid()
    ensures CB.Allow(c, Continued(c, b, OutcomesFor(c, at, answer)), at).ok == answer
  {
    FailuresOpen(c, b, at, if answer then 0 else c.threshold);
  }

  // The chain, with breakers of which other requests have recorded these outcomes. Each is the
  // breaker that the walk left, in the registry that it left.
  function Answering(c: CB.Config, m: Registry, chain: seq<Entry>, answers: seq<bool>): (r: seq<Entry>)
    requires |answers| == |chain|
    ensures |r| == |chain|
    decreases |chain|
  {
    if chain == [] then []
    else
      var e := chain[0];
      var b := Continued(c, BreakerOf(m, e.provider, e.at), OutcomesFor(c, e.at, answers[0]));
      var f := e.(others := Others(Some(m[e.provider := b]), None));
      [f] + Answering(c, GoneOn(c, m, f), chain[1..], answers[1..])
  }

  /** Whatever answers the breakers are to give to the entries of a chain, outcomes of other
    * requests, recorded before an entry's breaker is asked, make them give these; so the count
    * covers every sequence of answers. */
  lemma {:induction false} EveryAnswerOccurs(c: CB.Config, m: Registry, chain: seq<Entry>, answers: seq<bool>)
    requires c.Valid() && |answers| == |chain|
    ensures Permits(c, Some(m), Answering(c, m, chain, answers)) == answers
    decreases |chain|
  {
    if chain != [] {
      var e, asked := chain[0], Answering(c, m, chain, answers);
      OutcomesDecide(c, BreakerOf(m, e.provider, e.at), e.at, answers[0]);
      assert asked[1..] == Answering(c, GoneOn(c, m, asked[0]), chain[1..], answers[1..]);
      EveryAnswerOccurs(c, GoneOn(c, m, asked[0]), chain[1..], answers[1..]);
    }
  }

  /** Outcomes recorded at a time continue a breaker's history up to that time: the breaker is
    * left in the state of the longer history. */
  lemma {:induction false} ContinuedIsHistory(c: CB.Config, start: real, h: seq<CB.Event>, at: real, more: seq<CB.Event>)
    requires CB.Real(c, start, h) && (if h == [] then start else CB.Last(h).at) <= at
    requires forall k :: 0 <= k < |more| ==> CB.IsOutcome(more[k]) && more[k].at == at
    ensures CB.Real(c, start, h + more) && CB.After(c, start, h + more) == Continued(c, CB.After(c, start, h), more)
    decreases |more|
  {
    if more == [] {
      assert h + more == h;
    } else {
      var all, pre := h + more, CB.Butlast(more);
      assert CB.Butlast(all) == h + pre && CB.Last(all) == CB.Last(more);
      ContinuedIsHistory(c, start, h, at, pre);
      assert pre != [] ==> (h + pre)[|h + pre| - 1] == CB.Last(pre);
      assert |all| > 1 ==> all[|all| - 2] == (h + pre)[|h + pre| - 1];
    }
  }

  // No other request uses the breakers meanwhile.
  predicate Alone(chain: seq<Entry>) {
    forall k :: 0 <= k < |chain| ==> chain[k].others == Others(None, None)
  }

  // The providers of the chain are different ones, and go by their configured names.
  predicate Distinct(chain: seq<Entry>) {
    AllNamed(chain) && forall i, k :: 0 <= i < k < |chain| ==> chain[i].provider != chain[k].provider
  }

  predicate PermittedAtFirst(c: CB.Config, m: Registry, e: Entry) {
    CB.Allow(c, BreakerOf(m, e.provider, e.at), e.at).ok
  }

  /** For different providers, and breakers that no other request uses meanwhile, each answer is
    * that of the provider's own breaker as it was at the start. */
  lemma {:induction false} PermitsAreIndependent(c: CB.Config, m: Registry, n: Registry, chain: seq<Entry>)
    requires Distinct(chain) && Alone(chain)
    requires forall k, at :: 0 <= k < |chain| ==> BreakerOf(n, chain[k].provider, at) == BreakerOf(m, chain[k].provider, at)
    ensures forall k :: 0 <= k < |chain| ==> Permits(c, Some(n), chain)[k] == PermittedAtFirst(c, m, chain[k])
    decreases |chain|
  {
    if chain != [] {
      var e, rest := chain[0], chain[1..];
      var next := GoneOn(c, n, e);
      assert forall k :: 0 <= k < |rest| ==> rest[k] == chain[k + 1];
      assert Named(e);
      assert forall k, at :: 0 <= k < |rest| ==> BreakerOf(next, rest[k].provider, at) == BreakerOf(n, rest[k].provider, at);
      PermitsAreIndependent(c, m, next, rest);
    }
  }

  // One provider that cannot be reached, and one whose breaker has just opened.
  function FailThenSkip(): seq<Entry> {
    [Entry("a", 0.0, Present("a", Planned(NetworkError)), Others(None, None)),
     Entry("b", 0.0, Present("b", Planned(Replied(200))), Others(None, None))]
  }

  /** No response at all: the attempt fails and the fallback is skipped. And two responses: the
    * one entry names no provider. */
  lemma NoneOrTwo(c: CB.Config)
    requires c.Valid()
    ensures Responses(Execute(c, State(Some(map["b" := CB.State(CB.Open, c.threshold, 1, 0.0, false)]), []), FailThenSkip()).effects) == 0
    ensures Responses(Execute(c, State(None, []), [Entry("a", 0.0, Missing, Others(None, None))]).effects) == 2
  {
    var m := map["b" := CB.State(CB.Open, c.threshold, 1, 0.0, false)];
    var chain := FailThenSkip();
    ResponsesByInput(c, State(Some(m), []), chain);
    PermitsAreIndependent(c, m, m, chain);
    assert PermittedAtFirst(c, m, chain[0]) && !PermittedAtFirst(c, m, chain[1]);
    var ps := Permits(c, Some(m), chain);
    assert ps[0] && !ps[1];
    assert LastSkipped(chain, ps);
    assert !MissingFirst(chain, ps);
    ResponsesWithoutBreakers(c, [Entry("a", 0.0, Missing, Others(None, None))]);
  }

  /* ---------- Outcomes and probes ---------- */

  // Each request that is sent is followed at once by one outcome for the same provider.
  ghost predicate Answered(effects: seq<Effect>) {
    forall k :: 0 <= k < |effects| && effects[k].Sent? ==>
      k + 1 < |effects| && effects[k + 1].Recorded? && effects[k + 1].provider == effects[k].provider
  }

  // No outcome comes without its request.
  ghost predicate Caused(effects: seq<Effect>) {
    forall k :: 0 <= k < |effects| && effects[k].Recorded? ==> k > 0 && effects[k - 1] == Sent(effects[k].provider)
  }

  lemma LoggedOther(s: State, e: Effect)
    requires Answered(s.effects) && Caused(s.effects) && !e.Sent? && !e.Recorded?
    ensures Answered(Logged(s, e).effects) && Caused(Logged(s, e).effects)
  {
  }

  lemma SendAnswered(c: CB.Config, s: State, name: string, reply: Reply, at: real, more: bool)
    requires s.breakers.Some? && Answered(s.effects) && Caused(s.effects)
    ensures var t := Send(c, s, name, reply, at, more).s; t.breakers.Some? && Answered(t.effects) && Caused(t.effects)
  {
    var t := Record(c, Logged(s, Sent(name)), name, !Fails(reply), at);
    assert t.effects == s.effects + [Sent(name)] + [Recorded(name, !Fails(reply))];
    if !Fails(reply) {
      LoggedOther(t, Handled(reply.status));
    } else {
      LoggedOther(t, ErrorFor(reply));
    }
  }

  lemma EntryAnswered(c: CB.Config, s: State, e: Entry, more: bool)
    requires s.breakers.Some? && Answered(s.effects) && Caused(s.effects)
    ensures var t := OnEntry(c, s, e, more).s; t.breakers.Some? && Answered(t.effects) && Caused(t.effects)
  {
    if e.fate.Missing? {
      LoggedOther(s, MissingProvider);
    } else {
      var t := Consulted(c, s, e);
      if IsAllowed(c, s, e) {
        LoggedOther(s, Granted(e.provider));
        match e.fate.route
        case Unsupported => LoggedOther(t, UnsupportedFormat);
        case Stopped => LoggedOther(t, RouteError);
        case Planned(reply) => SendAnswered(c, t, e.fate.name, reply, e.at, more);
      }
    }
  }

  lemma {:induction false} WalkAnswered(c: CB.Config, s: State, chain: seq<Entry>)
    requires s.breakers.Some? && Answered(s.effects) && Caused(s.effects)
    ensures var t := WalkChain(c, s, chain).s; t.breakers.Some? && Answered(t.effects) && Caused(t.effects)
    decreases |chain|
  {
    if chain != [] {
      EntryAnswered(c, s, chain[0], |chain| > 1);
      var v := OnEntry(c, s, chain[0], |chain| > 1);
      if Goes(v.verdict) {
        WalkAnswered(c, v.s, chain[1..]);
      }
    }
  }

  /** With breakers in use, every request that is sent has exactly one outcome recorded, right
    * after it and for the provider it went to. Permissions and outcomes balance, in all and,
    * where providers go by their configured names, for each provider; except for the last
    * permission when the walk ends at a provider with an unsupported format or a route
    * builder that answers the client. */
  lemma OneOutcomeEach(c: CB.Config, breakers: Registry, chain: seq<Entry>, who: Option<string>)
    requires chain != [] && (who.Some? ==> AllNamed(chain))
    ensures var s := State(Some(breakers), []); var t := Execute(c, s, chain);
            && Answered(t.effects) && Caused(t.effects)
            && Count(who, t.effects) == if EndedEarly(who, chain, WalkChain(c, s, chain).verdicts) then 1 else 0
  {
    var s := State(Some(breakers), []);
    ExecuteCounts(who, c, s, chain);
    WalkAnswered(c, s, chain);
    LoggedOther(WalkChain(c, s, chain).s, Exhausted(503));
  }

  /** When a provider's open breaker grants a probe, and no other request comes between, the
    * breaker leaves the half-open state at this entry if and only if the probe is sent and the
    * provider goes by the name it is configured under; otherwise it denies every request, at
    * any time, until the outcome of another one is recorded. */
  lemma ProbeSettledExactly(c: CB.Config, s: State, e: Entry, more: bool)
    requires s.breakers.Some? && e.fate.Present? && IsAllowed(c, s, e) && e.others.answered.None?
    requires BreakerOf(Meanwhile(s.breakers.value, e.others.asked), e.provider, e.at).mode.Open?
    ensures var t := OnEntry(c, s, e, more).s;
            && t.breakers.Some? && e.provider in t.breakers.value
            && (!t.breakers.value[e.provider].mode.HalfOpen? <==> e.fate.route.Planned? && e.fate.name == e.provider)
            && (t.breakers.value[e.provider].mode.HalfOpen? ==> forall now :: !CB.Allow(c, t.breakers.value[e.provider], now).ok)
  {
    var t := Consulted(c, s, e);
    assert t.breakers.value[e.provider].mode.HalfOpen? && t.breakers.value[e.provider].probeInFlight;
  }

  predicate HalfOpenIn(m: Registry, p: string) {
    p in m && m[p].mode.HalfOpen?
  }

  predicate HalfOpenAt(s: State, p: string) {
    s.breakers.Some? && HalfOpenIn(s.breakers.value, p)
  }

  // As the breakers' histories have it: half-open means that a probe is in flight.
  ghost predicate Marked(m: Registry) {
    forall p :: p in m && m[p].mode.HalfOpen? ==> m[p].probeInFlight
  }

  // The breakers when the walk has gone on to entry k.
  function BreakersAt(c: CB.Config, m: Registry, chain: seq<Entry>, k: nat): Registry
    requires k <= |chain|
    decreases k
  {
    if k == 0 then m else BreakersAt(c, GoneOn(c, m, chain[0]), chain[1..], k - 1)
  }

  // The walk goes on to entry k, every entry before it being denied or failing; this one is the
  // provider's and is granted the probe of its open breaker, and nothing is sent.
  predicate ProbeLostAt(c: CB.Config, m: Registry, chain: seq<Entry>, p: string, k: nat) {
    && k < |chain| && chain[k].provider == p && EndsEarly(chain[k])
    && (forall i :: 0 <= i < k ==> chain[i].fate.Present? && (Permits(c, Some(m), chain)[i] ==> FailsOver(chain[i])))
    && Permits(c, Some(m), chain)[k] && BreakerOf(BreakersAt(c, m, chain, k), p, chain[k].at).mode.Open?
  }

  ghost predicate ProbeLost(c: CB.Config, m: Registry, chain: seq<Entry>, p: string) {
    exists k: nat :: ProbeLostAt(c, m, chain, p, k)
  }

  lemma LostLater(c: CB.Config, m: Registry, chain: seq<Entry>, p: string, k: nat)
    requires 0 < k < |chain| && chain[0].fate.Present? && (AnswerTo(c, m, chain[0]).ok ==> FailsOver(chain[0]))
    ensures ProbeLostAt(c, m, chain, p, k) <==> ProbeLostAt(c, GoneOn(c, m, chain[0]), chain[1..], p, k - 1)
  {
    var rest := chain[1..];
    var ps, qs := Permits(c, Some(m), chain), Permits(c, Some(GoneOn(c, m, chain[0])), rest);
    assert forall i :: 0 < i < |chain| ==> chain[i] == rest[i - 1] && ps[i] == qs[i - 1];
    if ProbeLostAt(c, GoneOn(c, m, chain[0]), rest, p, k - 1) {
      forall i | 0 <= i < k
        ensures chain[i].fate.Present? && (ps[i] ==> FailsOver(chain[i]))
      {
        if i > 0 {
          assert chain[i] == rest[i - 1] && ps[i] == qs[i - 1];
        }
      }
    }
    if ProbeLostAt(c, m, chain, p, k) {
      forall i | 0 <= i < k - 1
        ensures rest[i].fate.Present? && (qs[i] ==> FailsOver(rest[i]))
      {
        assert chain[i + 1] == rest[i] && ps[i + 1] == qs[i];
      }
    }
  }

  lemma LostByFirst(c: CB.Config, m: Registry, chain: seq<Entry>, p: string)
    requires chain != []
    ensures var e := chain[0]; var v := OnEntry(c, State(Some(m), []), e, |chain| > 1).verdict;
            ProbeLost(c, m, chain, p)
            <==> if Goes(v) then ProbeLost(c, GoneOn(c, m, e), chain[1..], p)
                 else ProbeLostAt(c, m, chain, p, 0)
  {
    var e, n := chain[0], GoneOn(c, m, chain[0]);
    var v := OnEntry(c, State(Some(m), []), e, |chain| > 1).verdict;
    assert chain == [e] + chain[1..];
    EntryExpected(c, State(Some(m), []), e, chain[1..]);
    if Goes(v) {
      assert e.fate.Present? && (AnswerTo(c, m, e).ok ==> FailsOver(e));
      if ProbeLost(c, m, chain, p) {
        var k: nat :| ProbeLostAt(c, m, chain, p, k);
        assert k > 0;
        LostLater(c, m, chain, p, k);
      }
      if ProbeLost(c, n, chain[1..], p) {
        var k: nat :| ProbeLostAt(c, n, chain[1..], p, k);
        LostLater(c, m, chain, p, k + 1);
      }
    } else if ProbeLost(c, m, chain, p) {
      var k: nat :| ProbeLostAt(c, m, chain, p, k);
      assert k > 0 ==> e.fate.Present? && (AnswerTo(c, m, e).ok ==> FailsOver(e));
      assert k == 0;
    }
  }

  // One breaker, asked and then told of an outcome.
  lemma BreakerSettles(c: CB.Config, b: CB.State, at: real)
    requires b.mode.HalfOpen? ==> b.probeInFlight
    ensures var a := CB.Allow(c, b, at);
            && (a.s.mode.HalfOpen? ==> a.s.probeInFlight)
            && (a.s.mode.HalfOpen? <==> b.mode.HalfOpen? || (a.ok && b.mode.Open?))
            && (a.ok ==> !b.mode.HalfOpen? && !CB.RecordSuccess(a.s, at).mode.HalfOpen? && !CB.RecordFailure(c, a.s, at).mode.HalfOpen?)
  {
  }

  // The breakers after an entry; only the provider's own one has changed.
  lemma EntryChangesOne(c: CB.Config, s: State, e: Entry, more: bool, q: string)
    requires s.breakers.Some? && Named(e) && e.others == Others(None, None)
    ensures var t := OnEntry(c, s, e, more).s;
            && t.breakers.Some?
            && (q != e.provider ==> (q in t.breakers.value <==> q in s.breakers.value) && (q in s.breakers.value ==> t.breakers.value[q] == s.breakers.value[q]))
  {
  }

  // What the entry leaves of its own provider's breaker.
  function Settled(c: CB.Config, m: Registry, e: Entry): CB.State {
    var a := AnswerTo(c, m, e);
    if !a.ok || EndsEarly(e) then a.s
    else if e.fate.Present? && e.fate.route.Planned? && !Fails(e.fate.route.reply) then CB.RecordSuccess(a.s, e.at)
    else CB.RecordFailure(c, a.s, e.at)
  }

  lemma EntryLeaves(c: CB.Config, s: State, e: Entry, more: bool)
    requires s.breakers.Some? && Named(e) && e.others == Others(None, None) && e.fate.Present?
    ensures var t := OnEntry(c, s, e, more).s;
            t.breakers.Some? && e.provider in t.breakers.value && t.breakers.value[e.provider] == Settled(c, s.breakers.value, e)
  {
  }

  lemma EntryGoes(c: CB.Config, s: State, e: Entry, more: bool)
    requires s.breakers.Some? && EndsEarly(e)
    ensures !Goes(OnEntry(c, s, e, more).verdict) <==> AnswerTo(c, s.breakers.value, e).ok
  {
  }

  lemma EntrySettles(c: CB.Config, m: Registry, s: State, e: Entry, more: bool, p: string)
    requires s.breakers == Some(m) && Marked(m) && Named(e) && e.others == Others(None, None)
    ensures var v := OnEntry(c, s, e, more);
            && v.s.breakers.Some? && Marked(v.s.breakers.value)
            && (HalfOpenAt(v.s, p)
                <==> HalfOpenAt(s, p)
                     || (!Goes(v.verdict) && e.provider == p && EndsEarly(e) && BreakerOf(m, p, e.at).mode.Open?))
  {
    var t := OnEntry(c, s, e, more).s;
    EntryChangesOne(c, s, e, more, p);
    if e.fate.Present? {
      BreakerSettles(c, BreakerOf(m, e.provider, e.at), e.at);
      EntryLeaves(c, s, e, more);
      if EndsEarly(e) {
        EntryGoes(c, s, e, more);
      }
    }
    forall q | q in t.breakers.value && t.breakers.value[q].mode.HalfOpen?
      ensures t.breakers.value[q].probeInFlight
    {
      EntryChangesOne(c, s, e, more, q);
    }
  }

  /** Over a whole request, with providers that go by their configured names and breakers that no
    * other request uses meanwhile: a breaker is half-open at the end, and so denies everything
    * until another request's outcome is recorded, if and only if it was so before or its probe
    * was granted to an entry at which the walk ended without sending. */
  lemma ProbesSettled(c: CB.Config, m: Registry, chain: seq<Entry>, p: string)
    requires Marked(m) && AllNamed(chain) && Alone(chain)
    ensures HalfOpenAt(Execute(c, State(Some(m), []), chain), p) <==> HalfOpenIn(m, p) || ProbeLost(c, m, chain, p)
  {
    WalkSettles(c, m, State(Some(m), []), chain, p);
  }

  lemma {:induction false} WalkSettles(c: CB.Config, m: Registry, s: State, chain: seq<Entry>, p: string)
    requires s.breakers == Some(m) && Marked(m) && AllNamed(chain) && Alone(chain)
    ensures HalfOpenAt(WalkChain(c, s, chain).s, p) <==> HalfOpenIn(m, p) || ProbeLost(c, m, chain, p)
    decreases |chain|
  {
    if chain != [] {
      var e := chain[0];
      var v := OnEntry(c, s, e, |chain| > 1);
      EntrySettles(c, m, s, e, |chain| > 1, p);
      LostByFirst(c, m, chain, p);
      SameVerdict(c, s, m, e, |chain| > 1);
      if Goes(v.verdict) {
        assert chain == [e] + chain[1..];
        EntryExpected(c, s, e, chain[1..]);
        WalkSettles(c, GoneOn(c, m, e), v.s, chain[1..], p);
      }
    }
  }

  lemma SameVerdict(c: CB.Config, s: State, m: Registry, e: Entry, more: bool)
    requires s.breakers == Some(m)
    ensures OnEntry(c, s, e, more).verdict == OnEntry(c, State(Some(m), []), e, more).verdict
  {
  }
}
