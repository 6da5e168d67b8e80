/** Everything the fallback pipeline does for a request, read off the providers' replies and the
  * breakers' answers: whom it sends to, what it tells the breakers, and which reply reaches the
  * client.
  */
module PipelineEffects {
  import opened Options
  import opened FallbackPipeline
  import CB = CircuitBreaker

  // A reply that is handed to the client.
  predicate Answers(reply: Reply) {
    reply.Replied? && reply.status < 500 && reply.status != 429
  }

  // The walk goes past the entry: its breaker denies it, or its reply is no answer and there
  // is a further entry.
  predicate Passes(e: Entry, permitted: bool, more: bool) {
    e.fate.Present? && (permitted ==> e.fate.route.Planned? && !Answers(e.fate.route.reply) && more)
  }

  // A request to the provider; `guarded` says that there are breakers.
  function Try(e: Entry, guarded: bool, success: bool): seq<Effect>
    requires e.fate.Present?
  {
    if guarded then [Granted(e.provider), Sent(e.fate.name), Recorded(e.fate.name, success)] else [Sent(e.fate.name)]
  }

  function TriedIf(e: Entry, permitted: bool, guarded: bool): seq<Effect>
    requires e.fate.Present?
  {
    if permitted then Try(e, guarded, false) else []
  }

  // The permitted entries, each tried and failing.
  function FailedTries(chain: seq<Entry>, ps: seq<bool>, guarded: bool): seq<Effect>
    requires |ps| == |chain| && forall k :: 0 <= k < |chain| ==> chain[k].fate.Present?
    decreases |chain|
  {
    if chain == [] then [] else TriedIf(chain[0], ps[0], guarded) + FailedTries(chain[1..], ps[1..], guarded)
  }

  // What is done at the entry where the walk ends.
  function EndsAt(e: Entry, guarded: bool): seq<Effect> {
    match e.fate
    case Missing => [MissingProvider]
    case Present(_, Unsupported) => (if guarded then [Granted(e.provider)] else []) + [UnsupportedFormat]
    case Present(_, Stopped) => (if guarded then [Granted(e.provider)] else []) + [RouteError]
    case Present(_, Planned(reply)) =>
      if Answers(reply) then Try(e, guarded, true) + [Handled(reply.status)]
      else Try(e, guarded, false) + [if reply.NetworkError? then NetworkFailure else Exhausted(reply.status)]
  }

  function EndsAtIf(chain: seq<Entry>, k: nat, guarded: bool): seq<Effect> {
    if k < |chain| then EndsAt(chain[k], guarded) else []
  }

  // Some provider is tried.
  predicate Tries(chain: seq<Entry>, ps: seq<bool>, k: nat)
    requires k <= |ps| == |chain|
  {
    true in ps[..k] || (k < |chain| && chain[k].fate.Present?)
  }

  // The rest of the effects when the first k entries are passed. A request for which no
  // provider was tried at all is answered with 503.
  function Ending(chain: seq<Entry>, ps: seq<bool>, guarded: bool, k: nat): seq<Effect>
    requires k <= |ps| == |chain|
  {
    EndsAtIf(chain, k, guarded) + if Tries(chain, ps, k) then [] else [Exhausted(503)]
  }

  // The walk ends at entry k, or passes all of them.
  predicate EndsHere(chain: seq<Entry>, ps: seq<bool>, k: nat)
    requires |ps| == |chain|
  {
    && k <= |chain| && (forall i :: 0 <= i < k ==> Passes(chain[i], ps[i], i < |chain| - 1))
    && (k < |chain| ==> !Passes(chain[k], ps[k], k < |chain| - 1))
  }

  lemma EntryPasses(c: CB.Config, s: State, e: Entry, more: bool)
    requires Passes(e, IsAllowed(c, s, e), more)
    ensures var v := OnEntry(c, s, e, more);
            && Goes(v.verdict) && (v.verdict.Failed? <==> IsAllowed(c, s, e)) && (v.s.breakers.Some? <==> s.breakers.Some?)
            && v.s.effects == s.effects + if IsAllowed(c, s, e) then Try(e, s.breakers.Some?, false) else []
  {
  }

  lemma EntryEnds(c: CB.Config, s: State, e: Entry, more: bool)
    requires !Passes(e, IsAllowed(c, s, e), more)
    ensures var v := OnEntry(c, s, e, more);
            && v.verdict == (if e.fate.Present? then Finished else NotThere)
            && v.s.effects == s.effects + EndsAt(e, s.breakers.Some?)
  {
    if e.fate.Present? {
      var t := Consulted(c, s, e);
      var grant := if s.breakers.Some? then [Granted(e.provider)] else [];
      assert t.effects == s.effects + grant && (t.breakers.Some? <==> s.breakers.Some?);
      if e.fate.route.Planned? {
        SendEnds(c, AfterOthers(t, e.others.answered), e, more);
        assert Try(e, s.breakers.Some?, true) == grant + Told(e, s.breakers.Some?, true);
        assert Try(e, s.breakers.Some?, false) == grant + Told(e, s.breakers.Some?, false);
      }
    }
  }

  // A request to the provider without the permission for it.
  function Told(e: Entry, guarded: bool, success: bool): seq<Effect>
    requires e.fate.Present?
  {
    if guarded then [Sent(e.fate.name), Recorded(e.fate.name, success)] else [Sent(e.fate.name)]
  }

  lemma SendEnds(c: CB.Config, s: State, e: Entry, more: bool)
    requires e.fate.Present? && e.fate.route.Planned? && (Answers(e.fate.route.reply) || !more)
    ensures var reply := e.fate.route.reply; var v := Send(c, s, e.fate.name, reply, e.at, more);
            && v.verdict == Finished
            && v.s.effects == s.effects + Told(e, s.breakers.Some?, Answers(reply))
                              + [if Answers(reply) then Handled(reply.status) else if reply.NetworkError? then NetworkFailure else Exhausted(reply.status)]
  {
  }

  ghost predicate Does(w: Walk, before: seq<Effect>, chain: seq<Entry>, ps: seq<bool>, guarded: bool, k: nat)
    requires |ps| == |chain| && EndsHere(chain, ps, k)
  {
    w.s.effects == before + (FailedTries(chain[..k], ps[..k], guarded) + EndsAtIf(chain, k, guarded))
  }

  lemma DoesFirst(w: Walk, before: seq<Effect>, chain: seq<Entry>, ps: seq<bool>, guarded: bool, k: nat)
    requires |ps| == |chain| && 0 < k && EndsHere(chain, ps, k) && EndsHere(chain[1..], ps[1..], k - 1)
    requires Does(w, before + TriedIf(chain[0], ps[0], guarded), chain[1..], ps[1..], guarded, k - 1)
    ensures Does(w, before, chain, ps, guarded, k)
  {
    FrontOfRest(chain, k);
    FrontOfRest(ps, k);
    FirstTry(chain[..k], ps[..k], guarded);
    Regroup(before, TriedIf(chain[0], ps[0], guarded), FailedTries(chain[1..][..k - 1], ps[1..][..k - 1], guarded), EndsAtIf(chain, k, guarded));
  }

  lemma TriesFirst(chain: seq<Entry>, ps: seq<bool>, k: nat)
    requires 0 < k <= |ps| == |chain|
    ensures Tries(chain, ps, k) <==> ps[0] || Tries(chain[1..], ps[1..], k - 1)
  {
    assert ps[..k] == [ps[0]] + ps[1..][..k - 1];
  }

  lemma {:induction false} WalkEffects(c: CB.Config, s: State, chain: seq<Entry>, k: nat)
    requires EndsHere(chain, Permits(c, s.breakers, chain), k)
    ensures var w := WalkChain(c, s, chain); var ps := Permits(c, s.breakers, chain);
            Does(w, s.effects, chain, ps, s.breakers.Some?, k) && (AnyAttempted(w.verdicts) <==> Tries(chain, ps, k))
    decreases |chain|
  {
    if chain == [] {
      assert s.effects + ([] + []) == s.effects;
    } else {
      var e, rest, ps, g := chain[0], chain[1..], Permits(c, s.breakers, chain), s.breakers.Some?;
      var v := OnEntry(c, s, e, |chain| > 1);
      assert chain == [e] + rest && ps[0] == IsAllowed(c, s, e);
      if k == 0 {
        EntryEnds(c, s, e, |chain| > 1);
        assert [] + EndsAt(e, g) == EndsAt(e, g);
        AttemptedLater(v.verdict, []);
      } else {
        EntryPasses(c, s, e, |chain| > 1);
        EntryExpected(c, s, e, rest);
        EndsLater(chain, ps, k);
        WalkEffects(c, v.s, rest, k - 1);
        DoesFirst(WalkChain(c, v.s, rest), s.effects, chain, ps, g, k);
        AttemptedLater(v.verdict, WalkChain(c, v.s, rest).verdicts);
        TriesFirst(chain, ps, k);
      }
    }
  }

  lemma EndsLater(chain: seq<Entry>, ps: seq<bool>, k: nat)
    requires |ps| == |chain| && 0 < k && EndsHere(chain, ps, k)
    ensures EndsHere(chain[1..], ps[1..], k - 1)
  {
    forall i | 0 <= i < k - 1
      ensures Passes(chain[1..][i], ps[1..][i], i < |chain[1..]| - 1)
    {
      assert Passes(chain[i + 1], ps[i + 1], i + 1 < |chain| - 1);
    }
  }

  lemma FirstTry(chain: seq<Entry>, ps: seq<bool>, guarded: bool)
    requires |ps| == |chain| && chain != [] && forall k :: 0 <= k < |chain| ==> chain[k].fate.Present?
    ensures FailedTries(chain, ps, guarded) == TriedIf(chain[0], ps[0], guarded) + FailedTries(chain[1..], ps[1..], guarded)
  {
  }

  lemma FrontOfRest<T>(s: seq<T>, k: nat)
    requires 0 < k <= |s|
    ensures s[..k][1..] == s[1..][..k - 1] && s[..k][0] == s[0]
  {
  }

  lemma Regroup<T>(a: seq<T>, b: seq<T>, c: seq<T>, d: seq<T>)
    ensures (a + b) + (c + d) == a + ((b + c) + d)
  {
  }

  lemma AttemptedLater(v: Verdict, verdicts: seq<Verdict>)
    ensures AnyAttempted([v] + verdicts) <==> v.Failed? || v.Finished? || AnyAttempted(verdicts)
  {
  }

  /** For every chain, every answer of the breakers and every reply, all that the pipeline does,
    * in order: the entries before the one at which the walk ends are denied, or tried and
    * recorded as failures; the reply of the last one is handed to the client and recorded as a
    * success exactly when its status is below 500 and not 429. */
  lemma EffectsExactly(c: CB.Config, breakers: Option<Registry>, chain: seq<Entry>, k: nat)
    requires chain != [] && EndsHere(chain, Permits(c, breakers, chain), k)
    ensures var ps := Permits(c, breakers, chain);
            Execute(c, State(breakers, []), chain).effects
            == FailedTries(chain[..k], ps[..k], breakers.Some?) + Ending(chain, ps, breakers.Some?, k)
  {
    var s := State(breakers, []);
    var ps, g := Permits(c, breakers, chain), breakers.Some?;
    WalkEffects(c, s, chain, k);
    var a, b := FailedTries(chain[..k], ps[..k], g), EndsAtIf(chain, k, g);
    assert [] + (a + b) == a + b;
    var t := if Tries(chain, ps, k) then [] else [Exhausted(503)];
    assert (a + b) + t == a + (b + t);
  }

  // The walk does end somewhere, at one place only.
  lemma {:induction false} EndsSomewhere(chain: seq<Entry>, ps: seq<bool>) returns (k: nat)
    requires |ps| == |chain|
    ensures EndsHere(chain, ps, k) && forall j: nat :: EndsHere(chain, ps, j) ==> j == k
  {
    k := 0;
    while k < |chain| && Passes(chain[k], ps[k], k < |chain| - 1)
      invariant k <= |chain| && forall i :: 0 <= i < k ==> Passes(chain[i], ps[i], i < |chain| - 1)
    {
      k := k + 1;
    }
  }

  /* ---------- Without breakers ---------- */

  // Every entry names a provider, and a request to it can be built.
  predicate AllPlanned(chain: seq<Entry>) {
    forall k :: 0 <= k < |chain| ==> chain[k].fate.Present? && chain[k].fate.route.Planned?
  }

  function ReplyOf(chain: seq<Entry>, k: nat): Reply
    requires AllPlanned(chain) && k < |chain|
  {
    chain[k].fate.route.reply
  }

  function SentTo(chain: seq<Entry>): (r: seq<Effect>)
    requires AllPlanned(chain)
    ensures |r| == |chain|
  {
    seq(|chain|, k requires 0 <= k < |chain| => Sent(chain[k].fate.name))
  }

  lemma {:induction false} TriesAreSent(chain: seq<Entry>, ps: seq<bool>)
    requires AllPlanned(chain) && |ps| == |chain| && forall k :: 0 <= k < |ps| ==> ps[k]
    ensures FailedTries(chain, ps, false) == SentTo(chain)
    decreases |chain|
  {
    if chain != [] {
      assert forall k :: 0 <= k < |chain| - 1 ==> chain[1..][k] == chain[k + 1] && ps[1..][k] == ps[k + 1];
      TriesAreSent(chain[1..], ps[1..]);
      assert SentTo(chain) == [Sent(chain[0].fate.name)] + SentTo(chain[1..]);
    }
  }

  lemma PassedBefore(chain: seq<Entry>, ps: seq<bool>, k: nat)
    requires AllPlanned(chain) && |ps| == |chain| && k < |chain|
    requires forall i :: 0 <= i < k && ReplyOf(chain, i).Replied? ==> ReplyOf(chain, i).status >= 500 || ReplyOf(chain, i).status == 429
    ensures forall i :: 0 <= i < k ==> Passes(chain[i], ps[i], i < |chain| - 1)
  {
    forall i | 0 <= i < k
      ensures Passes(chain[i], ps[i], i < |chain| - 1)
    {
      assert ReplyOf(chain, i) == chain[i].fate.route.reply;
    }
  }

  /** Without breakers the client gets the first reply with a status below 500 other than 429,
    * and nobody is asked after that provider. */
  lemma FirstAnswerDelivered(c: CB.Config, chain: seq<Entry>, k: nat)
    requires AllPlanned(chain) && k < |chain|
    requires ReplyOf(chain, k).Replied? && ReplyOf(chain, k).status < 500 && ReplyOf(chain, k).status != 429
    requires forall i :: 0 <= i < k && ReplyOf(chain, i).Replied? ==> ReplyOf(chain, i).status >= 500 || ReplyOf(chain, i).status == 429
    ensures Execute(c, State(None, []), chain).effects == SentTo(chain[..k + 1]) + [Handled(ReplyOf(chain, k).status)]
  {
    var ps := Permits(c, None, chain);
    AllPermitted(c, chain);
    PassedBefore(chain, ps, k);
    EffectsExactly(c, None, chain, k);
    TriesAreSent(chain[..k], ps[..k]);
    assert SentTo(chain[..k + 1]) == SentTo(chain[..k]) + [Sent(chain[k].fate.name)];
  }

  /** Without breakers and without such a reply, every provider is asked, and the client is told
    * of the last one's failure: of the network, or with its status. */
  lemma LastFailureReported(c: CB.Config, chain: seq<Entry>)
    requires AllPlanned(chain) && chain != []
    requires forall i :: 0 <= i < |chain| && ReplyOf(chain, i).Replied? ==> ReplyOf(chain, i).status >= 500 || ReplyOf(chain, i).status == 429
    ensures var last := ReplyOf(chain, |chain| - 1);
            Execute(c, State(None, []), chain).effects
            == SentTo(chain) + [if last.NetworkError? then NetworkFailure else Exhausted(last.status)]
  {
    var ps, k := Permits(c, None, chain), |chain| - 1;
    AllPermitted(c, chain);
    PassedBefore(chain, ps, k);
    EffectsExactly(c, None, chain, k);
    TriesAreSent(chain[..k], ps[..k]);
    assert SentTo(chain) == SentTo(chain[..k]) + [Sent(chain[k].fate.name)];
  }
}
