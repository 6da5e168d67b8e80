/** What every interleaving of the importer keeps: batches of one table that concatenate to
  * the parsed rows, the barrier between table groups, and exactly-once commits; and that no
  * run gets stuck or goes on for ever.
  */
module ImportBarrier {
  import opened ImportPool

  /* ---------- Contents ---------- */

  ghost predicate AllRows(lines: seq<Line>) {
    forall k :: 0 <= k < |lines| ==> lines[k].Row?
  }

  // The submitted batches and the pending one are the rows read so far, in order.
  ghost predicate Contents(lines: seq<Line>, s: State) {
    && s.pos <= |lines| && AllRows(lines[..s.pos])
    && Concat(s.jobs) + JobRows(Pending(s)) == TaggedRows(lines[..s.pos])
    && (forall j :: 0 <= j < |s.jobs| ==> 1 <= |s.jobs[j].job.rows| <= BatchSize)
  }

  // Where the submitter's variables stand at each point of its program.
  ghost predicate Control(lines: seq<Line>, s: State)
    requires s.pos <= |lines|
  {
    var pre := lines[..s.pos];
    match s.pc
    case Reading => InStep(s, pre) && |s.pending| < BatchSize
    case SwitchSubmit => InStep(s, pre) && |s.pending| < BatchSize && Changes(lines, s)
    case SwitchSend => InStep(s, pre) && 0 < |s.pending| < BatchSize && Changes(lines, s)
    case SwitchWait => InStep(s, pre) && s.pending == [] && Changes(lines, s)
    case SwitchCheck => InStep(s, pre) && s.pending == [] && Changes(lines, s) && s.barrier == 0
    case Append =>
      && |s.pending| < BatchSize && s.pos < |lines| && !lines[s.pos].BadStatement? && s.table == lines[s.pos].table
      && s.group == Groups(pre) + (if s.table != TableAfter(pre) then 1 else 0)
      && s.columns == if s.table != TableAfter(pre) then lines[s.pos].columns else GroupColumns(pre)
    case FullSubmit => InStep(s, pre) && |s.pending| == BatchSize
    case FullSend => InStep(s, pre) && |s.pending| == BatchSize
    case LastSubmit => InStep(s, pre) && |s.pending| < BatchSize && s.pos == |lines|
    case LastSend => InStep(s, pre) && 0 < |s.pending| < BatchSize && s.pos == |lines|
    case LastWait => InStep(s, pre) && s.pending == [] && s.pos == |lines|
    case Stopping(failed) => failed || (s.pending == [] && s.pos == |lines| && s.barrier == 0)
    case Returned(failed) => AllIdle(s) && s.queue == [] && (failed || (s.pending == [] && s.pos == |lines| && s.barrier == 0 && !s.poolErr))
  }

  ghost predicate InStep(s: State, pre: seq<Line>) {
    s.table == TableAfter(pre) && s.columns == GroupColumns(pre) && s.group == Groups(pre)
  }

  ghost predicate Changes(lines: seq<Line>, s: State) {
    s.pos < |lines| && !lines[s.pos].BadStatement? && lines[s.pos].table != s.table
  }

  ghost predicate AllIdle(s: State) {
    forall w :: 0 <= w < |s.workers| ==> s.workers[w].Idle?
  }

  lemma ConcatSent(jobs: seq<Entry>, e: Entry)
    ensures Concat(jobs + [e]) == Concat(jobs) + JobRows(e.job)
  {
    assert (jobs + [e])[..|jobs|] == jobs;
  }

  lemma {:induction false} ConcatSameJobs(a: seq<Entry>, b: seq<Entry>)
    requires |a| == |b| && forall j :: 0 <= j < |a| ==> a[j].job == b[j].job
    ensures Concat(a) == Concat(b)
  {
    if a != [] {
      ConcatSameJobs(a[..|a| - 1], b[..|b| - 1]);
    }
  }

  lemma RowAppended(lines: seq<Line>, s: State)
    requires Contents(lines, s) && Control(lines, s) && s.pc.Append? && lines[s.pos].Row?
    ensures var t := OnAppend(lines, s); Contents(lines, t) && Control(lines, t)
  {
    var pre, more := lines[..s.pos], lines[..s.pos + 1];
    assert more[..|more| - 1] == pre && more[|more| - 1] == lines[s.pos];
    var t := OnAppend(lines, s);
    assert JobRows(Pending(t)) == JobRows(Pending(s)) + [Tagged(s.table, s.columns, s.group, lines[s.pos].data)];
    assert forall k :: 0 <= k < |pre| ==> more[k] == pre[k];
  }

  lemma SentContents(lines: seq<Line>, s: State, next: Pc)
    requires Contents(lines, s) && 1 <= |s.pending| <= BatchSize
    ensures Contents(lines, Sent(s, next))
  {
    ConcatSent(s.jobs, Entry(Pending(s), Queued, 0));
    assert JobRows(Pending(Sent(s, next))) == [];
  }

  lemma SubmitterKeepsContents(lines: seq<Line>, s: State, scanFails: bool)
    requires Contents(lines, s) && Control(lines, s) && SubmitterCan(s)
    ensures Contents(lines, Submit(lines, s, scanFails))
  {
    match s.pc
    case Append => if lines[s.pos].Row? { RowAppended(lines, s); }
    case SwitchSend => SentContents(lines, s, SwitchWait);
    case FullSend => SentContents(lines, s, Reading);
    case LastSend => SentContents(lines, s, LastWait);
    case SwitchCheck =>
      assert JobRows(Pending(s)) == [] && JobRows(Pending(OnSwitch(lines, s))) == [];
    case _ =>
  }

  lemma SubmitterKeepsControl(lines: seq<Line>, s: State, scanFails: bool)
    requires Contents(lines, s) && Control(lines, s) && SubmitterCan(s)
    ensures Submit(lines, s, scanFails).pos <= |lines| && Control(lines, Submit(lines, s, scanFails))
  {
    if s.pc.Append? && lines[s.pos].Row? {
      RowAppended(lines, s);
    }
  }

  lemma WorkerKeepsContents(lines: seq<Line>, s: State, step: Step)
    requires Contents(lines, s) && Control(lines, s) && !step.Submitter? && WorkerCan(s, step)
    ensures Contents(lines, Work(s, step)) && Control(lines, Work(s, step))
  {
    WorkerLeaves(s, step);
    ConcatSameJobs(s.jobs, Work(s, step).jobs);
  }

  // A worker leaves the submitter's variables alone, and what the jobs are.
  lemma WorkerLeaves(s: State, step: Step)
    requires !step.Submitter? && WorkerCan(s, step)
    ensures var t := Work(s, step);
            && t.pos == s.pos && t.pc == s.pc && Pending(t) == Pending(s) && t.pending == s.pending && (s.barrier == 0 ==> t.barrier == 0)
            && |t.jobs| == |s.jobs| && (forall j :: 0 <= j < |s.jobs| ==> t.jobs[j].job == s.jobs[j].job)
            && !(AllIdle(s) && s.queue == [])
  {
  }

  /* ---------- Jobs in flight ---------- */

  predicate Active(status: Status) {
    status.Taken? || status.Ran? || status.Recorded?
  }

  // The channel holds exactly the queued jobs.
  ghost predicate Queueing(queue: seq<nat>, jobs: seq<Entry>) {
    && (forall k :: 0 <= k < |queue| ==> queue[k] < |jobs| && jobs[queue[k]].status.Queued?)
    && (forall j, k :: 0 <= j < k < |queue| ==> queue[j] != queue[k])
    && (forall id :: 0 <= id < |jobs| && jobs[id].status.Queued? ==> id in queue)
  }

  // The workers hold exactly the active jobs, one each.
  ghost predicate Working(workers: seq<Worker>, jobs: seq<Entry>) {
    && (forall w :: 0 <= w < |workers| && workers[w].Busy? ==> workers[w].id < |jobs| && Active(jobs[workers[w].id].status))
    && (forall v, w :: 0 <= v < w < |workers| && workers[v].Busy? ==> workers[v] != workers[w])
    && (forall id :: 0 <= id < |jobs| && Active(jobs[id].status) ==> Busy(id) in workers)
  }

  // A job is committed when its transaction ran well, and then once; a failure is recorded
  // before the barrier hears of the job.
  ghost predicate Committing(e: Entry, poolErr: bool) {
    match e.status
    case Queued => e.commits == 0
    case Taken => e.commits == 0
    case Ran(ok) => e.commits == if ok then 1 else 0
    case Recorded(ok) => (e.commits == if ok then 1 else 0) && (!ok ==> poolErr)
    case Finished(ok) => (e.commits == if ok then 1 else 0) && (!ok ==> poolErr)
  }

  // The table groups: jobs of earlier groups than the current one are finished and committed.
  ghost predicate Ordered(e: Entry, group: nat) {
    e.job.group <= group && (e.job.group < group ==> e.status == Finished(true))
  }

  function OpenCount(jobs: seq<Entry>): nat {
    if jobs == [] then 0 else OpenCount(jobs[..|jobs| - 1]) + if jobs[|jobs| - 1].status.Finished? then 0 else 1
  }

  ghost predicate Sound(jobs: seq<Entry>, poolErr: bool, group: nat) {
    forall id :: 0 <= id < |jobs| ==> Committing(jobs[id], poolErr) && Ordered(jobs[id], group)
  }

  ghost predicate Flying(workers: seq<Worker>, queue: seq<nat>, jobs: seq<Entry>, barrier: nat, poolErr: bool, group: nat) {
    && |workers| >= 1
    && Queueing(queue, jobs) && Working(workers, jobs)
    && barrier == OpenCount(jobs)
    && Sound(jobs, poolErr, group)
  }

  ghost predicate Flight(s: State) {
    Flying(s.workers, s.queue, s.jobs, s.barrier, s.poolErr, s.group)
  }

  lemma OpenSent(jobs: seq<Entry>, e: Entry)
    ensures OpenCount(jobs + [e]) == OpenCount(jobs) + if e.status.Finished? then 0 else 1
  {
    assert (jobs + [e])[..|jobs|] == jobs;
  }

  lemma {:induction false} OpenChanged(jobs: seq<Entry>, id: nat, e: Entry)
    requires id < |jobs|
    ensures OpenCount(jobs[id := e]) == OpenCount(jobs) + (if jobs[id].status.Finished? then 1 else 0) - (if e.status.Finished? then 1 else 0)
  {
    var n := |jobs| - 1;
    if id == n {
      assert jobs[id := e][..n] == jobs[..n];
    } else {
      assert jobs[id := e][..n] == jobs[..n][id := e];
      OpenChanged(jobs[..n], id, e);
    }
  }

  lemma {:induction false} NoneOpen(jobs: seq<Entry>)
    ensures OpenCount(jobs) == 0 <==> forall id :: 0 <= id < |jobs| ==> jobs[id].status.Finished?
  {
    if jobs != [] {
      NoneOpen(jobs[..|jobs| - 1]);
      assert forall id :: 0 <= id < |jobs| - 1 ==> jobs[id] == jobs[..|jobs| - 1][id];
    }
  }

  lemma QueueingSent(queue: seq<nat>, jobs: seq<Entry>, e: Entry)
    requires Queueing(queue, jobs) && e.status.Queued?
    ensures Queueing(queue + [|jobs|], jobs + [e])
  {
    var q := queue + [|jobs|];
    assert q[|queue|] == |jobs|;
    forall id | 0 <= id < |jobs| + 1 && (jobs + [e])[id].status.Queued?
      ensures id in q
    {
      if id < |jobs| {
        assert id in queue;
      }
    }
  }

  lemma WorkingSent(workers: seq<Worker>, jobs: seq<Entry>, e: Entry)
    requires Working(workers, jobs) && e.status.Queued?
    ensures Working(workers, jobs + [e])
  {
  }

  lemma SentFlight(s: State, next: Pc)
    requires Flight(s)
    ensures Flight(Sent(s, next))
  {
    var e := Entry(Pending(s), Queued, 0);
    OpenSent(s.jobs, e);
    QueueingSent(s.queue, s.jobs, e);
    WorkingSent(s.workers, s.jobs, e);
    SoundSent(s.jobs, s.poolErr, s.group, e);
  }

  lemma SoundSent(jobs: seq<Entry>, poolErr: bool, group: nat, e: Entry)
    requires Sound(jobs, poolErr, group) && Committing(e, poolErr) && Ordered(e, group)
    ensures Sound(jobs + [e], poolErr, group)
  {
  }

  lemma SwitchFlight(lines: seq<Line>, s: State)
    requires Flight(s) && s.barrier == 0
    ensures Flight(OnSwitch(lines, s))
  {
    NoneOpen(s.jobs);
    var t := OnSwitch(lines, s);
    forall id | 0 <= id < |s.jobs|
      ensures Ordered(t.jobs[id], t.group)
    {
      assert Committing(s.jobs[id], s.poolErr);
      assert Ordered(s.jobs[id], s.group);
    }
  }

  lemma SubmitterKeepsFlight(lines: seq<Line>, s: State, scanFails: bool)
    requires s.pos <= |lines| && Control(lines, s) && Flight(s) && SubmitterCan(s)
    ensures Flight(Submit(lines, s, scanFails))
  {
    match s.pc
    case SwitchSend => SentFlight(s, SwitchWait);
    case FullSend => SentFlight(s, Reading);
    case LastSend => SentFlight(s, LastWait);
    case SwitchCheck => SwitchFlight(lines, s);
    case _ =>
  }

  lemma QueueingTaken(queue: seq<nat>, jobs: seq<Entry>, e: Entry)
    requires Queueing(queue, jobs) && queue != [] && !e.status.Queued?
    ensures Queueing(queue[1..], jobs[queue[0] := e])
  {
    forall j | 0 <= j < |jobs| && jobs[queue[0] := e][j].status.Queued?
      ensures j in queue[1..]
    {
      assert j in queue;
    }
  }

  lemma WorkingTaken(workers: seq<Worker>, jobs: seq<Entry>, w: nat, id: nat, e: Entry)
    requires Working(workers, jobs) && w < |workers| && workers[w].Idle? && id < |jobs| && jobs[id].status.Queued? && Active(e.status)
    ensures Working(workers[w := Busy(id)], jobs[id := e])
  {
    var ws := workers[w := Busy(id)];
    assert ws[w] == Busy(id);
    forall j | 0 <= j < |jobs| && Active(jobs[id := e][j].status)
      ensures Busy(j) in ws
    {
      if j != id {
        var v :| 0 <= v < |workers| && workers[v] == Busy(j);
        assert ws[v] == Busy(j);
      }
    }
  }

  // Nothing else in the state depends on the status of one job.
  lemma SoundChanged(jobs: seq<Entry>, poolErr: bool, group: nat, id: nat, e: Entry, poolErr': bool)
    requires Sound(jobs, poolErr, group) && id < |jobs| && (poolErr ==> poolErr')
    requires Committing(e, poolErr') && Ordered(e, group)
    ensures Sound(jobs[id := e], poolErr', group)
  {
    var changed := jobs[id := e];
    forall j | 0 <= j < |changed|
      ensures Committing(changed[j], poolErr') && Ordered(changed[j], group)
    {
      assert Committing(jobs[j], poolErr) && Ordered(jobs[j], group);
    }
  }

  lemma TakeFlight(s: State, w: nat)
    requires Flight(s) && WorkerCan(s, Take(w))
    ensures Flight(Work(s, Take(w)))
  {
    var id := s.queue[0];
    var e := s.jobs[id].(status := Taken);
    assert Committing(s.jobs[id], s.poolErr) && Ordered(s.jobs[id], s.group);
    OpenChanged(s.jobs, id, e);
    QueueingTaken(s.queue, s.jobs, e);
    WorkingTaken(s.workers, s.jobs, w, id, e);
    SoundChanged(s.jobs, s.poolErr, s.group, id, e, s.poolErr);
  }

  // A worker's job moves on, still held by the worker.
  lemma HeldFlight(s: State, w: nat, status: Status, more: nat, poolErr: bool)
    requires Flight(s) && w < |s.workers| && s.workers[w].Busy? && Active(status) && (s.poolErr ==> poolErr)
    requires var e := s.jobs[s.workers[w].id]; Committing(e.(status := status, commits := e.commits + more), poolErr)
    ensures Flight(WithStatus(s, s.workers[w].id, status, more).(poolErr := poolErr))
  {
    var id := s.workers[w].id;
    var e := s.jobs[id].(status := status, commits := s.jobs[id].commits + more);
    HeldIsActive(s, w);
    HeldFlying(s.workers, s.queue, s.jobs, s.barrier, s.poolErr, s.group, id, e, poolErr);
    var t := WithStatus(s, id, status, more).(poolErr := poolErr);
    assert t == s.(jobs := s.jobs[id := e], poolErr := poolErr);
  }

  lemma HeldIsActive(s: State, w: nat)
    requires Flight(s) && w < |s.workers| && s.workers[w].Busy?
    ensures var id := s.workers[w].id; id < |s.jobs| && Active(s.jobs[id].status) && Ordered(s.jobs[id], s.group)
  {
  }

  lemma HeldFlying(workers: seq<Worker>, queue: seq<nat>, jobs: seq<Entry>, barrier: nat, poolErr: bool, group: nat,
                   id: nat, e: Entry, poolErr': bool)
    requires Flying(workers, queue, jobs, barrier, poolErr, group) && (poolErr ==> poolErr')
    requires id < |jobs| && Active(jobs[id].status) && Active(e.status) && Committing(e, poolErr') && Ordered(e, group)
    ensures Flying(workers, queue, jobs[id := e], barrier, poolErr', group)
  {
    OpenChanged(jobs, id, e);
    QueueingHeld(queue, jobs, id, e);
    WorkingHeld(workers, jobs, id, e);
    SoundChanged(jobs, poolErr, group, id, e, poolErr');
  }

  lemma QueueingHeld(queue: seq<nat>, jobs: seq<Entry>, id: nat, e: Entry)
    requires Queueing(queue, jobs) && id < |jobs| && !jobs[id].status.Queued? && !e.status.Queued?
    ensures Queueing(queue, jobs[id := e])
  {
  }

  lemma WorkingHeld(workers: seq<Worker>, jobs: seq<Entry>, id: nat, e: Entry)
    requires Working(workers, jobs) && id < |jobs| && Active(jobs[id].status) && Active(e.status)
    ensures Working(workers, jobs[id := e])
  {
  }

  lemma WorkingFinished(workers: seq<Worker>, jobs: seq<Entry>, w: nat, e: Entry)
    requires Working(workers, jobs) && w < |workers| && workers[w].Busy? && e.status.Finished?
    ensures Working(workers[w := Idle], jobs[workers[w].id := e])
  {
    var id := workers[w].id;
    forall j | 0 <= j < |jobs| && Active(jobs[id := e][j].status)
      ensures Busy(j) in workers[w := Idle]
    {
      var v :| 0 <= v < |workers| && workers[v] == Busy(j);
      assert workers[w := Idle][v] == Busy(j);
    }
  }

  lemma FinishFlight(s: State, w: nat)
    requires Flight(s) && WorkerCan(s, Step.Finish(w))
    ensures Flight(Work(s, Step.Finish(w)))
  {
    var id := s.workers[w].id;
    var e := s.jobs[id].(status := Finished(StatusOf(s, w).ok));
    assert Committing(s.jobs[id], s.poolErr) && Ordered(s.jobs[id], s.group);
    OpenChanged(s.jobs, id, e);
    QueueingHeld(s.queue, s.jobs, id, e);
    WorkingFinished(s.workers, s.jobs, w, e);
    SoundChanged(s.jobs, s.poolErr, s.group, id, e, s.poolErr);
  }

  lemma WorkerKeepsFlight(s: State, step: Step)
    requires Flight(s) && !step.Submitter? && WorkerCan(s, step)
    ensures Flight(Work(s, step))
  {
    match step
    case Take(w) => TakeFlight(s, w);
    case Execute(w, ok) =>
      HeldFlight(s, w, Ran(ok), if ok then 1 else 0, s.poolErr);
    case Record(w) =>
      var ok := StatusOf(s, w).ok;
      HeldFlight(s, w, Recorded(ok), 0, s.poolErr || !ok);
    case Finish(w) => FinishFlight(s, w);
  }

  /* ---------- Every run ---------- */

  ghost predicate Inv(lines: seq<Line>, s: State) {
    Contents(lines, s) && Control(lines, s) && Flight(s)
  }

  lemma InitContents(lines: seq<Line>, workers: int)
    ensures Contents(lines, Init(workers)) && Control(lines, Init(workers))
  {
    assert lines[..0] == [];
    assert JobRows(Pending(Init(workers))) == [];
  }

  lemma InitFlight(workers: int)
    ensures Flight(Init(workers))
  {
    var ws := Init(workers).workers;
    assert forall w :: 0 <= w < |ws| ==> ws[w].Idle?;
    assert Queueing([], []) && Working(ws, []) && Sound([], false, 0);
  }

  lemma InitInv(lines: seq<Line>, workers: int)
    ensures Inv(lines, Init(workers))
  {
    InitContents(lines, workers);
    InitFlight(workers);
  }

  lemma StepInv(lines: seq<Line>, s: State, step: Step)
    requires Inv(lines, s) && Can(s, step)
    ensures Inv(lines, Next(lines, s, step))
  {
    if step.Submitter? {
      SubmitterKeepsContents(lines, s, step.scanFails);
      SubmitterKeepsControl(lines, s, step.scanFails);
      SubmitterKeepsFlight(lines, s, step.scanFails);
    } else {
      WorkerKeepsContents(lines, s, step);
      WorkerKeepsFlight(s, step);
    }
  }

  lemma {:induction false} RunInv(lines: seq<Line>, s: State, steps: seq<Step>)
    requires Inv(lines, s) && Legal(lines, s, steps)
    ensures Inv(lines, After(lines, s, steps))
    decreases |steps|
  {
    if steps != [] {
      StepInv(lines, s, steps[0]);
      RunInv(lines, Next(lines, s, steps[0]), steps[1..]);
    }
  }

  lemma EveryInv(lines: seq<Line>, workers: int, steps: seq<Step>)
    requires Legal(lines, Init(workers), steps)
    ensures Inv(lines, After(lines, Init(workers), steps))
  {
    InitInv(lines, workers);
    RunInv(lines, Init(workers), steps);
  }

  /** The barrier. In every interleaving, once a job of a table group is submitted, and so
    * before any worker starts it, all jobs of the earlier groups are finished and have been
    * committed exactly once. */
  lemma EarlierGroupsFirst(lines: seq<Line>, workers: int, steps: seq<Step>, id: nat, j: nat)
    requires Legal(lines, Init(workers), steps)
    requires var s := After(lines, Init(workers), steps); id < |s.jobs| && j < |s.jobs| && s.jobs[j].job.group < s.jobs[id].job.group
    ensures var s := After(lines, Init(workers), steps); s.jobs[j].status == Finished(true) && s.jobs[j].commits == 1
  {
    EveryInv(lines, workers, steps);
    var s := After(lines, Init(workers), steps);
    assert Ordered(s.jobs[id], s.group) && Ordered(s.jobs[j], s.group) && Committing(s.jobs[j], s.poolErr);
  }

  /** At every moment the submitted batches and the pending one are the rows read so far, in
    * order, each row under its own table and group and under the columns with which the group
    * begins; no batch is empty or larger than 100 rows; and no job has been committed more than
    * once. */
  lemma BatchesAreTheRows(lines: seq<Line>, workers: int, steps: seq<Step>)
    requires Legal(lines, Init(workers), steps)
    ensures var s := After(lines, Init(workers), steps);
            && s.pos <= |lines|
            && Concat(s.jobs) + JobRows(Pending(s)) == TaggedRows(lines[..s.pos])
            && (forall j :: 0 <= j < |s.jobs| ==> 1 <= |s.jobs[j].job.rows| <= BatchSize && s.jobs[j].commits <= 1)
  {
    EveryInv(lines, workers, steps);
    var s := After(lines, Init(workers), steps);
    forall j | 0 <= j < |s.jobs|
      ensures s.jobs[j].commits <= 1
    {
      assert Committing(s.jobs[j], s.poolErr);
    }
  }

  // A row lists the columns of the row before it, if it is of the same table.
  predicate SameAt(lines: seq<Line>, k: nat)
    requires k < |lines|
  {
    lines[k].Row? && lines[k].table == TableBefore(lines, k) ==> lines[k].columns == ColumnsBefore(lines, k)
  }

  predicate SameColumns(lines: seq<Line>) {
    forall k :: 0 <= k < |lines| ==> SameAt(lines, k)
  }

  function TableBefore(lines: seq<Line>, k: nat): string
    requires k <= |lines|
  {
    if k > 0 && lines[k - 1].Row? then lines[k - 1].table else ""
  }

  function ColumnsBefore(lines: seq<Line>, k: nat): seq<string>
    requires k <= |lines|
  {
    if k > 0 && lines[k - 1].Row? then lines[k - 1].columns else []
  }

  // Every row goes in under the columns it lists.
  predicate UnderTheirColumns(tags: seq<Tagged>, lines: seq<Line>) {
    |tags| == |lines| && forall k :: 0 <= k < |tags| ==> lines[k].Row? && tags[k].columns == lines[k].columns
  }

  lemma {:induction false} TableJustBefore(lines: seq<Line>)
    requires AllRows(lines)
    ensures |TaggedRows(lines)| == |lines| && TableAfter(lines) == TableBefore(lines, |lines|)
  {
    if lines != [] {
      TableJustBefore(lines[..|lines| - 1]);
    }
  }

  lemma OneMoreSame(lines: seq<Line>)
    requires AllRows(lines) && lines != []
    ensures SameColumns(lines) <==> SameColumns(lines[..|lines| - 1]) && SameAt(lines, |lines| - 1)
  {
    var pre, n := lines[..|lines| - 1], |lines| - 1;
    forall k | 0 <= k < n
      ensures SameAt(pre, k) == SameAt(lines, k)
    {
      assert pre[k] == lines[k];
    }
  }

  lemma OneMoreUnder(tags: seq<Tagged>, tag: Tagged, lines: seq<Line>)
    requires AllRows(lines) && lines != [] && |tags| == |lines| - 1
    ensures UnderTheirColumns(tags + [tag], lines)
            <==> UnderTheirColumns(tags, lines[..|lines| - 1]) && tag.columns == lines[|lines| - 1].columns
  {
    var pre, all := lines[..|lines| - 1], tags + [tag];
    if UnderTheirColumns(all, lines) {
      forall k | 0 <= k < |tags|
        ensures pre[k].Row? && tags[k].columns == pre[k].columns
      {
        assert all[k] == tags[k] && lines[k] == pre[k];
      }
      assert all[|tags|] == tag;
    }
  }

  lemma {:induction false} ColumnsOfGroups(lines: seq<Line>)
    requires AllRows(lines)
    ensures UnderTheirColumns(TaggedRows(lines), lines) <==> SameColumns(lines)
    ensures SameColumns(lines) ==> GroupColumns(lines) == ColumnsBefore(lines, |lines|)
  {
    if lines != [] {
      var pre, last := lines[..|lines| - 1], lines[|lines| - 1];
      ColumnsOfGroups(pre);
      TableJustBefore(pre);
      OneMoreSame(lines);
      OneMoreUnder(TaggedRows(pre), Tagged(last.table, GroupColumns(lines), Groups(lines), last.data), lines);
    }
  }

  /** At every moment, every row read so far is to go in under the columns it lists if and only
    * if none of them lists other columns than the row of the same table just before it. */
  lemma ColumnsAreTheRowsExactly(lines: seq<Line>, workers: int, steps: seq<Step>)
    requires Legal(lines, Init(workers), steps)
    ensures var s := After(lines, Init(workers), steps);
            && s.pos <= |lines| && AllRows(lines[..s.pos])
            && (UnderTheirColumns(Concat(s.jobs) + JobRows(Pending(s)), lines[..s.pos]) <==> SameColumns(lines[..s.pos]))
  {
    EveryInv(lines, workers, steps);
    ReadColumns(lines, After(lines, Init(workers), steps));
  }

  lemma ReadColumns(lines: seq<Line>, s: State)
    requires Contents(lines, s)
    ensures UnderTheirColumns(Concat(s.jobs) + JobRows(Pending(s)), lines[..s.pos]) <==> SameColumns(lines[..s.pos])
  {
    ColumnsOfGroups(lines[..s.pos]);
  }

  /** When the importer returns, no job is left in the channel or with a worker. If it returns
    * without an error, the file held rows only, the jobs are exactly these rows, and every
    * job was committed exactly once. */
  lemma ReturnMeansDone(lines: seq<Line>, workers: int, steps: seq<Step>)
    requires Legal(lines, Init(workers), steps) && After(lines, Init(workers), steps).pc.Returned?
    ensures var s := After(lines, Init(workers), steps);
            && (forall j :: 0 <= j < |s.jobs| ==> s.jobs[j].status.Finished?)
            && (!s.pc.failed ==> AllRows(lines) && Concat(s.jobs) == TaggedRows(lines)
                                 && forall j :: 0 <= j < |s.jobs| ==> s.jobs[j].status == Finished(true) && s.jobs[j].commits == 1)
  {
    var s := After(lines, Init(workers), steps);
    EveryInv(lines, workers, steps);
    ReturnedIdle(lines, s);
    JobsDone(s);
    if !s.pc.failed {
      RowsDone(lines, s);
    }
  }

  lemma ReturnedIdle(lines: seq<Line>, s: State)
    requires Inv(lines, s) && s.pc.Returned?
    ensures AllIdle(s) && s.queue == []
  {
  }

  lemma JobsDone(s: State)
    requires Flight(s) && AllIdle(s) && s.queue == []
    ensures forall j :: 0 <= j < |s.jobs| ==> s.jobs[j].status.Finished? && (!s.poolErr ==> s.jobs[j].status == Finished(true) && s.jobs[j].commits == 1)
  {
    forall j | 0 <= j < |s.jobs|
      ensures s.jobs[j].status.Finished? && (!s.poolErr ==> s.jobs[j].status == Finished(true) && s.jobs[j].commits == 1)
    {
      NothingHeld(s, j);
      assert Committing(s.jobs[j], s.poolErr);
    }
  }

  lemma NothingHeld(s: State, j: nat)
    requires Flight(s) && AllIdle(s) && s.queue == [] && j < |s.jobs|
    ensures s.jobs[j].status.Finished?
  {
    assert Busy(j) !in s.workers;
    assert !s.jobs[j].status.Queued? && !Active(s.jobs[j].status);
  }

  lemma RowsDone(lines: seq<Line>, s: State)
    requires Contents(lines, s) && s.pc.Returned? && Control(lines, s) && !s.pc.failed
    ensures AllRows(lines) && Concat(s.jobs) == TaggedRows(lines) && !s.poolErr
  {
    assert lines[..s.pos] == lines;
    assert JobRows(Pending(s)) == [];
  }

  /* ---------- No run gets stuck or goes on for ever ---------- */

  lemma {:induction false} SomeOpen(jobs: seq<Entry>) returns (id: nat)
    requires OpenCount(jobs) > 0
    ensures id < |jobs| && !jobs[id].status.Finished?
  {
    if !jobs[|jobs| - 1].status.Finished? {
      id := |jobs| - 1;
    } else {
      id := SomeOpen(jobs[..|jobs| - 1]);
    }
  }

  lemma BusyCanStep(s: State, w: nat) returns (step: Step)
    requires Flight(s) && w < |s.workers| && s.workers[w].Busy?
    ensures !step.Submitter? && WorkerCan(s, step)
  {
    match StatusOf(s, w)
    case Taken => step := Execute(w, true);
    case Ran(_) => step := Record(w);
    case Recorded(_) =>
      NoneOpen(s.jobs);
      step := Step.Finish(w);
    case _ =>
  }

  // A job that is not finished keeps some worker able to step.
  lemma OpenCanStep(s: State, id: nat) returns (step: Step)
    requires Flight(s) && id < |s.jobs| && !s.jobs[id].status.Finished?
    ensures !step.Submitter? && WorkerCan(s, step)
  {
    if s.workers[0].Busy? {
      step := BusyCanStep(s, 0);
    } else if s.jobs[id].status.Queued? {
      assert id in s.queue;
      step := Take(0);
    } else {
      assert Busy(id) in s.workers;
      var w :| 0 <= w < |s.workers| && s.workers[w] == Busy(id);
      step := BusyCanStep(s, w);
    }
  }

  /** Unless the importer has returned, some step is possible: neither the full channel nor
    * the barrier nor the final wait can block for good. */
  lemma NeverStuck(lines: seq<Line>, s: State) returns (step: Step)
    requires Inv(lines, s) && !s.pc.Returned?
    ensures Can(s, step)
  {
    if SubmitterCan(s) {
      step := Submitter(false);
    } else if s.pc.SwitchWait? || s.pc.LastWait? {
      var id := SomeOpen(s.jobs);
      step := OpenCanStep(s, id);
    } else if s.queue != [] {
      step := OpenCanStep(s, s.queue[0]);
    } else {
      var w :| 0 <= w < |s.workers| && s.workers[w].Busy?;
      step := BusyCanStep(s, w);
    }
  }

  // The work left: for a job, in steps until it is finished; for the submitter, in steps of
  // its program, a send being worth the steps of the job it makes.
  function JobWork(status: Status): nat {
    match status
    case Queued => 4
    case Taken => 3
    case Ran(_) => 2
    case Recorded(_) => 1
    case Finished(_) => 0
  }

  function JobsWork(jobs: seq<Entry>): nat {
    if jobs == [] then 0 else JobsWork(jobs[..|jobs| - 1]) + JobWork(jobs[|jobs| - 1].status)
  }

  function PcWork(pc: Pc): nat {
    match pc
    case Reading => 15
    case SwitchSubmit => 14
    case SwitchSend => 13
    case SwitchWait => 8
    case SwitchCheck => 7
    case Append => 6
    case FullSubmit => 21
    case FullSend => 20
    case LastSubmit => 14
    case LastSend => 13
    case LastWait => 8
    case Stopping(_) => 1
    case Returned(_) => 0
  }

  function WorkLeft(lines: seq<Line>, s: State): int {
    16 * (|lines| - s.pos) + PcWork(s.pc) + JobsWork(s.jobs)
  }

  lemma JobsWorkSent(jobs: seq<Entry>, e: Entry)
    ensures JobsWork(jobs + [e]) == JobsWork(jobs) + JobWork(e.status)
  {
    assert (jobs + [e])[..|jobs|] == jobs;
  }

  lemma {:induction false} JobsWorkChanged(jobs: seq<Entry>, id: nat, e: Entry)
    requires id < |jobs|
    ensures JobsWork(jobs[id := e]) == JobsWork(jobs) - JobWork(jobs[id].status) + JobWork(e.status)
  {
    var n := |jobs| - 1;
    if id == n {
      assert jobs[id := e][..n] == jobs[..n];
    } else {
      assert jobs[id := e][..n] == jobs[..n][id := e];
      JobsWorkChanged(jobs[..n], id, e);
    }
  }

  lemma SubmitterStepsDown(lines: seq<Line>, s: State, scanFails: bool)
    requires s.pos <= |lines| && Control(lines, s) && SubmitterCan(s) && Submit(lines, s, scanFails).pos <= |lines|
    ensures var t := Submit(lines, s, scanFails);
            16 * (|lines| - t.pos) + PcWork(t.pc) + (if t.jobs == s.jobs then 0 else 4) < 16 * (|lines| - s.pos) + PcWork(s.pc)
    ensures var t := Submit(lines, s, scanFails);
            t.jobs == s.jobs || t.jobs == s.jobs + [Entry(Pending(s), Queued, 0)]
  {
  }

  lemma WorkerStepsDown(s: State, step: Step)
    requires !step.Submitter? && WorkerCan(s, step) && Flight(s)
    ensures JobsWork(Work(s, step).jobs) == JobsWork(s.jobs) - 1
    ensures Work(s, step).pos == s.pos && Work(s, step).pc == s.pc
  {
    WorkerLeaves(s, step);
    WorkerMovesOn(s, step);
    var id := if step.Take? then s.queue[0] else s.workers[step.w].id;
    JobsWorkChanged(s.jobs, id, Work(s, step).jobs[id]);
  }

  // One job gets one step nearer to its end.
  lemma WorkerMovesOn(s: State, step: Step)
    requires !step.Submitter? && WorkerCan(s, step) && Flight(s)
    ensures var id := if step.Take? then s.queue[0] else s.workers[step.w].id;
            && id < |s.jobs| && |Work(s, step).jobs| == |s.jobs| && Work(s, step).jobs == s.jobs[id := Work(s, step).jobs[id]]
            && JobWork(Work(s, step).jobs[id].status) == JobWork(s.jobs[id].status) - 1
  {
  }

  lemma StepsDown(lines: seq<Line>, s: State, step: Step)
    requires Inv(lines, s) && Can(s, step)
    ensures 0 <= WorkLeft(lines, Next(lines, s, step)) < WorkLeft(lines, s)
  {
    StepInv(lines, s, step);
    if step.Submitter? {
      SubmitterStepsDown(lines, s, step.scanFails);
      JobsWorkSent(s.jobs, Entry(Pending(s), Queued, 0));
    } else {
      WorkerStepsDown(s, step);
    }
  }

  /** Every run ends: there is a bound on its length, known before it starts. */
  lemma {:induction false} RunsEnd(lines: seq<Line>, s: State, steps: seq<Step>)
    requires Inv(lines, s) && Legal(lines, s, steps)
    ensures |steps| <= WorkLeft(lines, s)
    decreases |steps|
  {
    if steps != [] {
      StepsDown(lines, s, steps[0]);
      StepInv(lines, s, steps[0]);
      RunsEnd(lines, Next(lines, s, steps[0]), steps[1..]);
    }
  }
}
