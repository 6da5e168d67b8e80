/** The asynchronous log writer (internal/proxy/logger.go) as a state machine: callers of Log,
  * the writer's loop and the caller of Close take steps in any order.
  */
module AsyncLogger {
  // A call of Log: not decided yet, its entry in the channel and perhaps counted, or dropped.
  datatype Call = Waiting | Sent(counted: bool) | Dropped

  datatype Outcome = Persisted | Failed | TimedOut

  // The loop waits for something to do, writes an entry, drains the channel after the stop
  // signal, or has returned.
  datatype Runner = Selecting | Writing(draining: bool) | Draining | Done

  // `sent` is every entry put into the channel and `attempts` every entry taken out, in
  // order; `atStop` and `drained` are the lengths of `sent` when the stop signal was given
  // and when the drain saw an empty channel.
  datatype State = State(calls: seq<Call>, channel: seq<nat>, runner: Runner, stopped: bool, returned: bool,
                         sent: seq<nat>, attempts: seq<nat>, outcomes: seq<Outcome>, atStop: nat, drained: nat,
                         enqueued: nat, dropped: nat)

  const Init := State([], [], Selecting, false, false, [], [], [], 0, 0, 0, 0)

  datatype Step =
    | Arrive | Send(i: nat) | Count(i: nat) | DropFull(i: nat) | DropClosed(i: nat)
    | Receive | SeeStop | Write(outcome: Outcome) | DrainEnd | Tick
    | Signal | Return

  predicate IsWaiting(s: State, i: nat) {
    i < |s.calls| && s.calls[i].Waiting?
  }

  // The buffer holds `cap` entries.
  predicate Can(cap: nat, s: State, step: Step) {
    match step
    case Arrive => true
    case Send(i) => IsWaiting(s, i) && |s.channel| < cap
    case Count(i) => i < |s.calls| && s.calls[i] == Sent(false)
    case DropFull(i) => IsWaiting(s, i)
    case DropClosed(i) => IsWaiting(s, i) && s.stopped
    case Receive => (s.runner.Selecting? || s.runner.Draining?) && s.channel != []
    case SeeStop => s.runner.Selecting? && s.stopped
    case Write(_) => s.runner.Writing?
    case DrainEnd => s.runner.Draining? && s.channel == []
    case Tick => s.runner.Selecting?
    case Signal => !s.stopped
    case Return => s.stopped && s.runner.Done?
  }

  function Next(s: State, step: Step): State {
    match step
    case Arrive => s.(calls := s.calls + [Waiting])
    case Send(i) => if i < |s.calls| then s.(calls := s.calls[i := Sent(false)], channel := s.channel + [i], sent := s.sent + [i]) else s
    case Count(i) => if i < |s.calls| then s.(calls := s.calls[i := Sent(true)], enqueued := s.enqueued + 1) else s
    case DropFull(i) => Drop(s, i)
    case DropClosed(i) => Drop(s, i)
    case Receive =>
      if s.channel == [] then s
      else s.(channel := s.channel[1..], attempts := s.attempts + [s.channel[0]], runner := Writing(s.runner.Draining?))
    case SeeStop => s.(runner := Draining)
    case Write(outcome) =>
      s.(outcomes := s.outcomes + [outcome], runner := if s.runner.Writing? && s.runner.draining then Draining else Selecting)
    case DrainEnd => s.(runner := Done, drained := |s.sent|)
    case Tick => s
    case Signal => s.(stopped := true, atStop := |s.sent|)
    case Return => s.(returned := true)
  }

  function Drop(s: State, i: nat): State {
    if i < |s.calls| then s.(calls := s.calls[i := Dropped], dropped := s.dropped + 1) else s
  }

  ghost predicate Legal(cap: nat, s: State, steps: seq<Step>)
    decreases |steps|
  {
    steps == [] || (Can(cap, s, steps[0]) && Legal(cap, Next(s, steps[0]), steps[1..]))
  }

  function After(s: State, steps: seq<Step>): State
    decreases |steps|
  {
    if steps == [] then s else After(Next(s, steps[0]), steps[1..])
  }

  /* ---------- Invariants ---------- */

  function CountCalls(calls: seq<Call>, c: Call): nat {
    if calls == [] then 0 else CountCalls(calls[..|calls| - 1], c) + if calls[|calls| - 1] == c then 1 else 0
  }

  // The entries in the channel are those sent and not taken out, in order, each once.
  ghost predicate Flow(s: State) {
    && s.sent == s.attempts + s.channel
    && (forall j, k :: 0 <= j < k < |s.sent| ==> s.sent[j] != s.sent[k])
    && (forall k :: 0 <= k < |s.sent| ==> s.sent[k] < |s.calls| && s.calls[s.sent[k]].Sent?)
    && (forall i :: 0 <= i < |s.calls| && s.calls[i].Sent? ==> i in s.sent)
  }

  // What the loop has seen of the stop signal.
  ghost predicate Stop(s: State) {
    && (s.runner.Draining? || s.runner == Writing(true) || s.runner.Done? ==> s.stopped)
    && (s.returned ==> s.runner.Done?)
    && (s.stopped ==> s.atStop <= |s.sent|)
    && (s.runner.Done? ==> s.atStop <= s.drained <= |s.sent| && |s.attempts| == s.drained)
  }

  ghost predicate Counters(s: State) {
    && |s.attempts| == |s.outcomes| + (if s.runner.Writing? then 1 else 0)
    && s.enqueued == CountCalls(s.calls, Sent(true))
    && s.dropped == CountCalls(s.calls, Dropped)
  }

  ghost predicate Inv(s: State) {
    Flow(s) && Stop(s) && Counters(s)
  }

  lemma CountAppend(calls: seq<Call>, d: Call, c: Call)
    ensures CountCalls(calls + [d], c) == CountCalls(calls, c) + if d == c then 1 else 0
  {
    assert (calls + [d])[..|calls|] == calls;
  }

  lemma {:induction false} CountChanged(calls: seq<Call>, i: nat, d: Call, c: Call)
    requires i < |calls|
    ensures CountCalls(calls[i := d], c) == CountCalls(calls, c) - (if calls[i] == c then 1 else 0) + (if d == c then 1 else 0)
  {
    var n := |calls| - 1;
    if i == n {
      assert calls[i := d][..n] == calls[..n];
    } else {
      assert calls[i := d][..n] == calls[..n][i := d];
      CountChanged(calls[..n], i, d, c);
    }
  }

  lemma SendFlow(s: State, i: nat)
    requires Flow(s) && IsWaiting(s, i)
    ensures Flow(Next(s, Send(i)))
  {
    var t := Next(s, Send(i));
    assert t.sent == t.attempts + t.channel;
    assert t.sent[|s.sent|] == i;
    forall j | 0 <= j < |t.calls| && t.calls[j].Sent?
      ensures j in t.sent
    {
      if j != i {
        assert j in s.sent;
      }
    }
  }

  lemma ReceiveFlow(s: State)
    requires Flow(s) && s.channel != []
    ensures Flow(Next(s, Receive))
  {
    var t := Next(s, Receive);
    assert t.sent == t.attempts + t.channel;
  }

  lemma StepFlow(cap: nat, s: State, step: Step)
    requires Flow(s) && Can(cap, s, step)
    ensures Flow(Next(s, step))
  {
    match step
    case Send(i) => SendFlow(s, i);
    case Receive => ReceiveFlow(s);
    case _ =>
  }

  lemma StepCounters(cap: nat, s: State, step: Step)
    requires Counters(s) && Can(cap, s, step)
    ensures Counters(Next(s, step))
  {
    match step
    case Arrive =>
      CountAppend(s.calls, Waiting, Sent(true));
      CountAppend(s.calls, Waiting, Dropped);
    case Send(i) =>
      CountChanged(s.calls, i, Sent(false), Sent(true));
      CountChanged(s.calls, i, Sent(false), Dropped);
    case Count(i) =>
      CountChanged(s.calls, i, Sent(true), Sent(true));
      CountChanged(s.calls, i, Sent(true), Dropped);
    case DropFull(i) =>
      CountChanged(s.calls, i, Dropped, Sent(true));
      CountChanged(s.calls, i, Dropped, Dropped);
    case DropClosed(i) =>
      CountChanged(s.calls, i, Dropped, Sent(true));
      CountChanged(s.calls, i, Dropped, Dropped);
    case _ =>
  }

  lemma {:induction false} RunInv(cap: nat, s: State, steps: seq<Step>)
    requires Inv(s) && Legal(cap, s, steps)
    ensures Inv(After(s, steps))
    decreases |steps|
  {
    if steps != [] {
      StepFlow(cap, s, steps[0]);
      StepCounters(cap, s, steps[0]);
      RunInv(cap, Next(s, steps[0]), steps[1..]);
    }
  }

  /* ---------- Results ---------- */

  // Positions at which an entry occurs.
  function Occurrences(entries: seq<nat>, i: nat): nat {
    if entries == [] then 0 else Occurrences(entries[..|entries| - 1], i) + if entries[|entries| - 1] == i then 1 else 0
  }

  lemma {:induction false} OccursOnce(entries: seq<nat>, i: nat)
    requires forall j, k :: 0 <= j < k < |entries| ==> entries[j] != entries[k]
    ensures Occurrences(entries, i) == if i in entries then 1 else 0
  {
    if entries != [] {
      OccursOnce(entries[..|entries| - 1], i);
    }
  }

  ghost predicate Conserved(s: State, i: nat)
    requires i < |s.calls|
  {
    && s.sent == s.attempts + s.channel
    && Occurrences(s.attempts + s.channel, i) == (if s.calls[i].Sent? then 1 else 0)
    && |s.attempts| == |s.outcomes| + (if s.runner.Writing? then 1 else 0)
    && s.enqueued == CountCalls(s.calls, Sent(true)) && s.dropped == CountCalls(s.calls, Dropped)
  }

  lemma InvConserves(s: State, i: nat)
    requires Inv(s) && i < |s.calls|
    ensures Conserved(s, i)
  {
    OccursOnce(s.sent, i);
  }

  lemma {:induction false} ChannelFits(cap: nat, s: State, steps: seq<Step>)
    requires Legal(cap, s, steps) && |s.channel| <= cap
    ensures |After(s, steps).channel| <= cap
    decreases |steps|
  {
    if steps != [] {
      ChannelFits(cap, Next(s, steps[0]), steps[1..]);
    }
  }

  /** The buffer. It never holds more entries than it was made for, and a call can send its entry
    * exactly when it is undecided and fewer are in it. */
  lemma BufferExactly(cap: nat, steps: seq<Step>, i: nat)
    requires Legal(cap, Init, steps)
    ensures var s := After(Init, steps);
            && |s.channel| <= cap
            && (Can(cap, s, Send(i)) <==> i < |s.calls| && s.calls[i].Waiting? && |s.channel| != cap)
  {
    ChannelFits(cap, Init, steps);
  }

  /** Conservation. In every interleaving, what was sent is what was taken out followed by
    * what is in the channel, in first-in first-out order; a call that sent has its entry
    * there once and a dropped or undecided call not at all; every entry taken out gets one
    * outcome; and the counters count the calls that have ended. */
  lemma Conservation(cap: nat, steps: seq<Step>, i: nat)
    requires Legal(cap, Init, steps) && i < |After(Init, steps).calls|
    ensures Conserved(After(Init, steps), i)
  {
    RunInv(cap, Init, steps);
    InvConserves(After(Init, steps), i);
  }

  /** Nothing is lost before the close. When Close returns, the entries sent before the stop
    * signal are the first to have had their persistence attempts, in the order they were
    * sent, each attempt being finished; and whatever is left in the channel was sent after
    * the drain had seen it empty. */
  lemma NoLossBeforeClose(cap: nat, steps: seq<Step>)
    requires Legal(cap, Init, steps) && After(Init, steps).returned
    ensures var s := After(Init, steps);
            && s.atStop <= s.drained <= |s.sent|
            && s.atStop <= |s.attempts| && s.attempts[..s.atStop] == s.sent[..s.atStop]
            && |s.outcomes| == |s.attempts|
            && s.channel == s.sent[s.drained..]
  {
    RunInv(cap, Init, steps);
    var s := After(Init, steps);
    assert s.sent[..s.atStop] == (s.attempts + s.channel)[..s.atStop];
  }

  // How a call that has ended can still change: a sent entry may be counted, no more.
  predicate Settled(before: Call, after: Call) {
    before.Waiting? || before == after || (before == Sent(false) && after == Sent(true))
  }

  lemma {:induction false} DecisionsLast(cap: nat, s: State, steps: seq<Step>, i: nat)
    requires Legal(cap, s, steps) && i < |s.calls|
    ensures i < |After(s, steps).calls| && Settled(s.calls[i], After(s, steps).calls[i])
    decreases |steps|
  {
    if steps != [] {
      DecisionsLast(cap, Next(s, steps[0]), steps[1..], i);
    }
  }

  // The steps of the writer, except that an idle loop may also look at its ticker.
  predicate IsWriters(step: Step) {
    step.Receive? || step.SeeStop? || step.Write? || step.DrainEnd?
  }

  /** After the stop signal the writer is never stuck: it can go on until it has returned. */
  lemma WriterGoesOn(cap: nat, s: State) returns (step: Step)
    requires Inv(s) && s.stopped && !s.runner.Done?
    ensures Can(cap, s, step) && IsWriters(step)
  {
    match s.runner
    case Selecting => step := SeeStop;
    case Writing(_) => step := Write(Persisted);
    case Draining => step := if s.channel == [] then DrainEnd else Receive;
  }

  // The writer's own steps left after the stop signal, if nothing more is sent.
  function WriterWork(s: State): nat {
    2 * |s.channel| + match s.runner
                      case Selecting => 3
                      case Writing(draining) => if draining then 3 else 4
                      case Draining => 2
                      case Done => 0
  }

  // Each of its steps brings the writer nearer to its return.
  lemma WriterEnds(cap: nat, s: State, step: Step)
    requires Inv(s) && s.stopped && Can(cap, s, step) && IsWriters(step)
    ensures WriterWork(Next(s, step)) < WriterWork(s) && Next(s, step).stopped
  {
  }

  lemma {:induction false} WriterSteps(cap: nat, s: State, steps: seq<Step>)
    requires Inv(s) && s.stopped && Legal(cap, s, steps) && forall k :: 0 <= k < |steps| ==> IsWriters(steps[k])
    ensures |steps| + WriterWork(After(s, steps)) <= WriterWork(s)
    decreases |steps|
  {
    if steps != [] {
      WriterEnds(cap, s, steps[0]);
      OneStepInv(cap, s, steps[0]);
      WriterSteps(cap, Next(s, steps[0]), steps[1..]);
    }
  }

  lemma OneStepInv(cap: nat, s: State, step: Step)
    requires Inv(s) && Can(cap, s, step)
    ensures Inv(Next(s, step))
  {
    StepFlow(cap, s, step);
    StepCounters(cap, s, step);
  }

  // Steps of the writer alone that make it return.
  lemma {:induction false} ReturnSteps(cap: nat, s: State) returns (steps: seq<Step>)
    requires Inv(s) && s.stopped
    ensures Legal(cap, s, steps) && After(s, steps).runner.Done? && forall k :: 0 <= k < |steps| ==> IsWriters(steps[k])
    decreases WriterWork(s)
  {
    steps := [];
    if !s.runner.Done? {
      var step := WriterGoesOn(cap, s);
      WriterEnds(cap, s, step);
      OneStepInv(cap, s, step);
      var rest := ReturnSteps(cap, Next(s, step));
      steps := [step] + rest;
      assert steps[1..] == rest;
    }
  }

  /** So Close returns: after the stop signal, if nothing more is sent, the writer takes no more
    * steps than it has work left, and as long as it has not returned it can take one; some of
    * its runs end with its return. */
  lemma WriterReturns(cap: nat, s: State)
    requires Inv(s) && s.stopped
    ensures forall steps :: Legal(cap, s, steps) && (forall k :: 0 <= k < |steps| ==> IsWriters(steps[k])) ==> |steps| <= WriterWork(s)
    ensures exists steps :: Legal(cap, s, steps) && After(s, steps).runner.Done? && forall k :: 0 <= k < |steps| ==> IsWriters(steps[k])
  {
    forall steps | Legal(cap, s, steps) && forall k :: 0 <= k < |steps| ==> IsWriters(steps[k])
      ensures |steps| <= WriterWork(s)
    {
      WriterSteps(cap, s, steps);
    }
    var steps := ReturnSteps(cap, s);
  }
}
