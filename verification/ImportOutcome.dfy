/** What a run of the importer comes to: when it returns without an error, how the rows are
  * cut into batches, and what the submitter can be waiting for.
  */
module ImportOutcome {
  import opened ImportPool
  import opened ImportBarrier

  /* ---------- Success, read off the lines and the steps ---------- */

  // Every batch that was tried was committed.
  ghost predicate AllCommit(steps: seq<Step>) {
    forall k :: 0 <= k < |steps| && steps[k].Execute? ==> steps[k].ok
  }

  // Reading the file does not end in an error: no step of the run is a failing read at the
  // end of the lines.
  ghost predicate ReadsWell(lines: seq<Line>, s: State, steps: seq<Step>)
    requires Legal(lines, s, steps)
    decreases |steps|
  {
    steps != [] ==>
      && !(s.pc.Reading? && s.pos == |lines| && steps[0].Submitter? && steps[0].scanFails)
      && ReadsWell(lines, Next(lines, s, steps[0]), steps[1..])
  }

  predicate BadStatus(status: Status) {
    status == Ran(false) || status == Recorded(false) || status == Finished(false)
  }

  ghost predicate SomeBad(jobs: seq<Entry>) {
    exists j :: 0 <= j < |jobs| && BadStatus(jobs[j].status)
  }

  predicate Failed(pc: Pc) {
    pc == Stopping(true) || pc == Returned(true)
  }

  // Something has gone wrong.
  ghost predicate Trouble(s: State) {
    s.poolErr || SomeBad(s.jobs) || Failed(s.pc)
  }

  // The step itself is a failure.
  predicate Fails(lines: seq<Line>, s: State, step: Step) {
    || (step.Execute? && !step.ok)
    || (step.Submitter? && step.scanFails && s.pc.Reading? && s.pos == |lines|)
  }

  lemma BadStays(jobs: seq<Entry>, id: nat, e: Entry)
    requires SomeBad(jobs) && id < |jobs| && (BadStatus(jobs[id].status) ==> BadStatus(e.status))
    ensures SomeBad(jobs[id := e])
  {
    var j :| 0 <= j < |jobs| && BadStatus(jobs[j].status);
    assert BadStatus(jobs[id := e][j].status);
  }

  lemma BadComes(jobs: seq<Entry>, id: nat, e: Entry)
    requires id < |jobs| && BadStatus(e.status)
    ensures SomeBad(jobs[id := e])
  {
    assert BadStatus(jobs[id := e][id].status);
  }

  lemma BadSent(jobs: seq<Entry>, e: Entry)
    requires e.status.Queued?
    ensures SomeBad(jobs + [e]) <==> SomeBad(jobs)
  {
    if SomeBad(jobs) {
      var j :| 0 <= j < |jobs| && BadStatus(jobs[j].status);
      assert BadStatus((jobs + [e])[j].status);
    }
  }

  // The submitter has a line in hand where its program takes one.
  predicate InHand(lines: seq<Line>, s: State) {
    s.pos <= |lines| && (s.pc.Append? ==> s.pos < |lines|)
  }

  lemma LineInHand(lines: seq<Line>, s: State)
    requires Inv(lines, s)
    ensures InHand(lines, s)
  {
  }

  lemma SubmitterSends(lines: seq<Line>, s: State, scanFails: bool)
    ensures var t := Submit(lines, s, scanFails);
            t.poolErr == s.poolErr && (t.jobs == s.jobs || t.jobs == s.jobs + [Entry(Pending(s), Queued, 0)])
  {
  }

  lemma SubmitterJobs(lines: seq<Line>, s: State, scanFails: bool)
    ensures var t := Submit(lines, s, scanFails); t.poolErr == s.poolErr && (SomeBad(t.jobs) <==> SomeBad(s.jobs))
  {
    SubmitterSends(lines, s, scanFails);
    BadSent(s.jobs, Entry(Pending(s), Queued, 0));
  }

  lemma SubmitterStops(lines: seq<Line>, s: State, scanFails: bool)
    requires InHand(lines, s) && (Failed(s.pc) || Fails(lines, s, Submitter(scanFails)))
    ensures Failed(Submit(lines, s, scanFails).pc)
  {
  }

  lemma SubmitterGoesOn(lines: seq<Line>, s: State, scanFails: bool)
    requires AllRows(lines) && InHand(lines, s) && !Failed(s.pc) && !s.poolErr && !Fails(lines, s, Submitter(scanFails))
    ensures !Failed(Submit(lines, s, scanFails).pc)
  {
  }

  lemma SubmitterTrouble(lines: seq<Line>, s: State, scanFails: bool)
    requires Inv(lines, s) && (Trouble(s) || Fails(lines, s, Submitter(scanFails)))
    ensures Trouble(Submit(lines, s, scanFails))
  {
    LineInHand(lines, s);
    SubmitterJobs(lines, s, scanFails);
    if Failed(s.pc) || Fails(lines, s, Submitter(scanFails)) {
      SubmitterStops(lines, s, scanFails);
    }
  }

  lemma SubmitterWell(lines: seq<Line>, s: State, scanFails: bool)
    requires AllRows(lines) && Inv(lines, s)
    requires !Trouble(s) && !Fails(lines, s, Submitter(scanFails))
    ensures !Trouble(Submit(lines, s, scanFails))
  {
    LineInHand(lines, s);
    SubmitterJobs(lines, s, scanFails);
    SubmitterGoesOn(lines, s, scanFails);
  }

  lemma WorkerTrouble(s: State, step: Step)
    requires Flight(s) && !step.Submitter? && WorkerCan(s, step)
    requires Trouble(s) || (step.Execute? && !step.ok)
    ensures Trouble(Work(s, step))
  {
    if step.Take? {
      assert !BadStatus(s.jobs[s.queue[0]].status);
      if SomeBad(s.jobs) {
        BadStays(s.jobs, s.queue[0], Work(s, step).jobs[s.queue[0]]);
      }
    } else {
      var id := s.workers[step.w].id;
      var e := Work(s, step).jobs[id];
      if SomeBad(s.jobs) {
        BadStays(s.jobs, id, e);
      }
      if BadStatus(e.status) {
        BadComes(s.jobs, id, e);
      }
    }
  }

  lemma WorkerWell(s: State, step: Step)
    requires Flight(s) && !step.Submitter? && WorkerCan(s, step)
    requires !Trouble(s) && !(step.Execute? && !step.ok)
    ensures !Trouble(Work(s, step))
  {
  }

  lemma CommitsOneByOne(steps: seq<Step>)
    requires steps != []
    ensures AllCommit(steps) <==> !(steps[0].Execute? && !steps[0].ok) && AllCommit(steps[1..])
  {
    assert forall k :: 0 <= k < |steps| - 1 ==> steps[1..][k] == steps[k + 1];
    assert forall k :: 0 < k < |steps| ==> steps[1..][k - 1] == steps[k];
  }

  lemma StepTrouble(lines: seq<Line>, s: State, step: Step)
    requires Inv(lines, s) && Can(s, step) && (Trouble(s) || Fails(lines, s, step))
    ensures Trouble(Next(lines, s, step))
  {
    if step.Submitter? {
      SubmitterTrouble(lines, s, step.scanFails);
    } else {
      WorkerTrouble(s, step);
    }
  }

  lemma StepWell(lines: seq<Line>, s: State, step: Step)
    requires AllRows(lines) && Inv(lines, s) && Can(s, step) && !Trouble(s) && !Fails(lines, s, step)
    ensures !Trouble(Next(lines, s, step))
  {
    if step.Submitter? {
      SubmitterWell(lines, s, step.scanFails);
    } else {
      WorkerWell(s, step);
    }
  }

  lemma {:induction false} TroubleStays(lines: seq<Line>, s: State, steps: seq<Step>)
    requires Inv(lines, s) && Legal(lines, s, steps)
    ensures Trouble(s) || !AllCommit(steps) || !ReadsWell(lines, s, steps) ==> Trouble(After(lines, s, steps))
    decreases |steps|
  {
    if steps != [] {
      var step := steps[0];
      StepInv(lines, s, step);
      if Trouble(s) || Fails(lines, s, step) {
        StepTrouble(lines, s, step);
      }
      CommitsOneByOne(steps);
      TroubleStays(lines, Next(lines, s, step), steps[1..]);
    }
  }

  lemma {:induction false} AllStaysWell(lines: seq<Line>, s: State, steps: seq<Step>)
    requires AllRows(lines) && Inv(lines, s) && Legal(lines, s, steps) && AllCommit(steps) && ReadsWell(lines, s, steps)
    requires !Trouble(s)
    ensures !Trouble(After(lines, s, steps))
    decreases |steps|
  {
    if steps != [] {
      var step := steps[0];
      StepInv(lines, s, step);
      StepWell(lines, s, step);
      CommitsOneByOne(steps);
      AllStaysWell(lines, Next(lines, s, step), steps[1..]);
    }
  }

  /** The importer returns without an error exactly when every line is a row, reading the file
    * does not end in an error, and every batch that a worker tries commits. */
  lemma SucceedsExactly(lines: seq<Line>, workers: int, steps: seq<Step>)
    requires Legal(lines, Init(workers), steps) && After(lines, Init(workers), steps).pc.Returned?
    ensures !After(lines, Init(workers), steps).pc.failed
            <==> AllRows(lines) && ReadsWell(lines, Init(workers), steps) && AllCommit(steps)
  {
    var s := After(lines, Init(workers), steps);
    InitInv(lines, workers);
    EveryInv(lines, workers, steps);
    TroubleStays(lines, Init(workers), steps);
    if AllRows(lines) && ReadsWell(lines, Init(workers), steps) && AllCommit(steps) {
      AllStaysWell(lines, Init(workers), steps);
    }
    if !s.pc.failed {
      ReturnMeansDone(lines, workers, steps);
      RowsDone(lines, s);
    }
  }

  /* ---------- How the rows are cut ---------- */

  // A batch that another one of the same group follows is full.
  ghost predicate FullBefore(jobs: seq<Entry>) {
    forall j :: 0 < j < |jobs| && jobs[j - 1].job.group == jobs[j].job.group ==> |jobs[j - 1].job.rows| == 100
  }

  predicate GroupOver(pc: Pc) {
    pc.SwitchWait? || pc.SwitchCheck? || pc.LastWait? || pc.Stopping? || pc.Returned?
  }

  // While its group goes on, so is the last batch.
  ghost predicate LastFull(s: State) {
    GroupOver(s.pc) || EndsFull(s.jobs, s.group)
  }

  predicate EndsFull(jobs: seq<Entry>, group: nat) {
    jobs != [] && jobs[|jobs| - 1].job.group == group ==> |jobs[|jobs| - 1].job.rows| == 100
  }

  lemma SameJobsFull(a: seq<Entry>, b: seq<Entry>)
    requires FullBefore(a) && |a| == |b| && forall j :: 0 <= j < |a| ==> a[j].job == b[j].job
    ensures FullBefore(b)
  {
  }

  lemma WorkerKeepsFull(s: State, step: Step)
    requires Flight(s) && !step.Submitter? && WorkerCan(s, step) && FullBefore(s.jobs) && LastFull(s)
    ensures FullBefore(Work(s, step).jobs) && LastFull(Work(s, step))
  {
    SameJobsFull(s.jobs, Work(s, step).jobs);
  }

  lemma SentFull(jobs: seq<Entry>, e: Entry)
    requires FullBefore(jobs) && EndsFull(jobs, e.job.group)
    ensures FullBefore(jobs + [e])
  {
  }

  // The last batch is of the current group or an earlier one, and what is sent in the middle
  // of a group is full.
  predicate Cutting(s: State) {
    && (s.jobs != [] ==> s.jobs[|s.jobs| - 1].job.group <= s.group)
    && (s.pc.FullSend? ==> |s.pending| == 100)
  }

  lemma CutsWell(lines: seq<Line>, s: State)
    requires Inv(lines, s)
    ensures Cutting(s)
  {
    if s.jobs != [] {
      assert Ordered(s.jobs[|s.jobs| - 1], s.group);
    }
  }

  lemma SubmitterKeepsFull(lines: seq<Line>, s: State, scanFails: bool)
    requires Cutting(s) && FullBefore(s.jobs) && LastFull(s)
    ensures FullBefore(Submit(lines, s, scanFails).jobs) && LastFull(Submit(lines, s, scanFails))
  {
    if s.pc.SwitchSend? || s.pc.FullSend? || s.pc.LastSend? {
      SentFull(s.jobs, Entry(Pending(s), Queued, 0));
    }
  }

  lemma {:induction false} RunFull(lines: seq<Line>, s: State, steps: seq<Step>)
    requires Inv(lines, s) && Legal(lines, s, steps) && FullBefore(s.jobs) && LastFull(s)
    ensures FullBefore(After(lines, s, steps).jobs)
    decreases |steps|
  {
    if steps != [] {
      var step := steps[0];
      StepInv(lines, s, step);
      if step.Submitter? {
        CutsWell(lines, s);
        SubmitterKeepsFull(lines, s, step.scanFails);
      } else {
        WorkerKeepsFull(s, step);
      }
      RunFull(lines, Next(lines, s, step), steps[1..]);
    }
  }

  /** The rows of a table group go in by the hundred: a batch holds one to a hundred of them,
    * and it holds a hundred unless it is the last of its group. */
  lemma BatchesAreFull(lines: seq<Line>, workers: int, steps: seq<Step>, j: nat)
    requires Legal(lines, Init(workers), steps) && j < |After(lines, Init(workers), steps).jobs|
    ensures var jobs := After(lines, Init(workers), steps).jobs;
            && 1 <= |jobs[j].job.rows| <= 100
            && (j + 1 < |jobs| && jobs[j + 1].job.group == jobs[j].job.group ==> |jobs[j].job.rows| == 100)
  {
    InitInv(lines, workers);
    EveryInv(lines, workers, steps);
    RunFull(lines, Init(workers), steps);
  }

  /* ---------- What the submitter waits for ---------- */

  // The size of the pool, at least one.
  ghost predicate Sized(s: State, workers: int) {
    |s.workers| == (if workers < 1 then 1 else workers) && |s.queue| <= 2 * |s.workers|
  }

  lemma {:induction false} RunSized(lines: seq<Line>, s: State, steps: seq<Step>, workers: int)
    requires Legal(lines, s, steps) && Sized(s, workers)
    ensures Sized(After(lines, s, steps), workers)
    decreases |steps|
  {
    if steps != [] {
      RunSized(lines, Next(lines, s, steps[0]), steps[1..], workers);
    }
  }

  ghost predicate SomeUnfinished(jobs: seq<Entry>) {
    exists j :: 0 <= j < |jobs| && !jobs[j].status.Finished?
  }

  lemma BarrierUp(s: State)
    requires Flight(s)
    ensures s.barrier > 0 <==> SomeUnfinished(s.jobs)
  {
    if s.barrier > 0 {
      var id := SomeOpen(s.jobs);
    } else {
      NoneOpen(s.jobs);
    }
  }

  lemma PoolBusy(s: State)
    requires Flight(s)
    ensures s.queue == [] && AllIdle(s) <==> !SomeUnfinished(s.jobs)
  {
    if s.queue == [] && AllIdle(s) {
      JobsDone(s);
    }
    assert s.queue != [] ==> s.queue[0] < |s.jobs| && s.jobs[s.queue[0]].status.Queued?;
    if !SomeUnfinished(s.jobs) {
      assert AllIdle(s);
    }
  }

  /** There are as many workers as asked for, at least one, and the channel holds twice as many
    * jobs. Until it returns, the submitter is held up exactly when it has a job to send and the
    * channel is full, or when it waits at the barrier or for the pool to stop and some job is
    * not finished. */
  lemma HeldUpExactly(lines: seq<Line>, workers: int, steps: seq<Step>)
    requires Legal(lines, Init(workers), steps)
    ensures var s := After(lines, Init(workers), steps); var n := if workers < 1 then 1 else workers;
            && |s.workers| == n && |s.queue| <= 2 * n
            && (!s.pc.Returned? ==>
                  (!SubmitterCan(s) <==> || ((s.pc.SwitchSend? || s.pc.FullSend? || s.pc.LastSend?) && |s.queue| == 2 * n)
                                         || ((s.pc.SwitchWait? || s.pc.LastWait? || s.pc.Stopping?) && SomeUnfinished(s.jobs))))
  {
    var s := After(lines, Init(workers), steps);
    EveryInv(lines, workers, steps);
    RunSized(lines, Init(workers), steps, workers);
    BarrierUp(s);
    PoolBusy(s);
  }

  /* ---------- Tables and rows ---------- */

  // Batches stand in the order of their groups, and those of one group are of one table.
  ghost predicate Grouped(jobs: seq<Entry>, group: nat, table: string) {
    && (forall j :: 0 <= j < |jobs| ==> jobs[j].job.group <= group && (jobs[j].job.group == group ==> jobs[j].job.table == table))
    && (forall j, k :: 0 <= j < k < |jobs| ==>
          jobs[j].job.group <= jobs[k].job.group && (jobs[j].job.group == jobs[k].job.group ==> jobs[j].job.table == jobs[k].job.table))
  }

  lemma SentGrouped(jobs: seq<Entry>, e: Entry)
    requires Grouped(jobs, e.job.group, e.job.table)
    ensures Grouped(jobs + [e], e.job.group, e.job.table)
  {
  }

  lemma NextGroup(jobs: seq<Entry>, group: nat, table: string, next: string)
    requires Grouped(jobs, group, table)
    ensures Grouped(jobs, group + 1, next)
  {
  }

  lemma SameJobsGrouped(a: seq<Entry>, b: seq<Entry>, group: nat, table: string)
    requires Grouped(a, group, table) && |a| == |b| && forall j :: 0 <= j < |a| ==> a[j].job == b[j].job
    ensures Grouped(b, group, table)
  {
  }

  lemma SendsOrSwitches(lines: seq<Line>, s: State, scanFails: bool)
    ensures var t := Submit(lines, s, scanFails);
            || (t.group == s.group && t.table == s.table && (t.jobs == s.jobs || t.jobs == s.jobs + [Entry(Pending(s), Queued, 0)]))
            || (t.group == s.group + 1 && t.jobs == s.jobs)
  {
  }

  lemma SubmitterKeepsGrouped(lines: seq<Line>, s: State, scanFails: bool)
    requires Grouped(s.jobs, s.group, s.table)
    ensures var t := Submit(lines, s, scanFails); Grouped(t.jobs, t.group, t.table)
  {
    var t := Submit(lines, s, scanFails);
    SendsOrSwitches(lines, s, scanFails);
    SentGrouped(s.jobs, Entry(Pending(s), Queued, 0));
    NextGroup(s.jobs, s.group, s.table, t.table);
  }

  lemma {:induction false} RunGrouped(lines: seq<Line>, s: State, steps: seq<Step>)
    requires Legal(lines, s, steps) && Grouped(s.jobs, s.group, s.table)
    ensures var t := After(lines, s, steps); Grouped(t.jobs, t.group, t.table)
    decreases |steps|
  {
    if steps != [] {
      if steps[0].Submitter? {
        SubmitterKeepsGrouped(lines, s, steps[0].scanFails);
      } else {
        SameJobsGrouped(s.jobs, Work(s, steps[0]).jobs, s.group, s.table);
      }
      RunGrouped(lines, Next(lines, s, steps[0]), steps[1..]);
    }
  }

  /** The barrier, by tables: once a batch of another table is submitted, the batches before it
    * are finished and were committed exactly once. */
  lemma OtherTablesFirst(lines: seq<Line>, workers: int, steps: seq<Step>, j: nat, id: nat)
    requires Legal(lines, Init(workers), steps)
    requires var s := After(lines, Init(workers), steps); j < id < |s.jobs| && s.jobs[j].job.table != s.jobs[id].job.table
    ensures var s := After(lines, Init(workers), steps); s.jobs[j].status == Finished(true) && s.jobs[j].commits == 1
  {
    RunGrouped(lines, Init(workers), steps);
    EarlierGroupsFirst(lines, workers, steps, id, j);
  }

  lemma {:induction false} TaggedAt(lines: seq<Line>, k: nat)
    requires AllRows(lines) && k < |lines|
    ensures |TaggedRows(lines)| == |lines|
    ensures TaggedRows(lines)[k].table == lines[k].table && TaggedRows(lines)[k].data == lines[k].data
    decreases |lines|
  {
    var pre := lines[..|lines| - 1];
    assert AllRows(pre) && lines[|lines| - 1].Row?;
    if k < |pre| {
      TaggedAt(pre, k);
    } else if pre != [] {
      TaggedAt(pre, 0);
    }
  }

  /** The rows that are submitted or pending are the lines read so far, one for one: the k-th
    * of them is the k-th line's row, and goes into the k-th line's table. */
  lemma RowsAreTheLines(lines: seq<Line>, workers: int, steps: seq<Step>, k: nat)
    requires Legal(lines, Init(workers), steps) && k < After(lines, Init(workers), steps).pos
    ensures var s := After(lines, Init(workers), steps); var rows := Concat(s.jobs) + JobRows(Pending(s));
            && s.pos <= |lines| && |rows| == s.pos && lines[k].Row?
            && rows[k].table == lines[k].table && rows[k].data == lines[k].data
  {
    EveryInv(lines, workers, steps);
    var s := After(lines, Init(workers), steps);
    assert lines[..s.pos][k] == lines[k];
    TaggedAt(lines[..s.pos], k);
  }

  /* ---------- After a failure ---------- */

  predicate Sending(pc: Pc) {
    pc.SwitchSend? || pc.FullSend? || pc.LastSend?
  }

  function JobsDue(s: State): nat {
    |s.jobs| + if Sending(s.pc) then 1 else 0
  }

  lemma FailureStep(lines: seq<Line>, s: State, step: Step)
    requires s.poolErr && Can(s, step)
    ensures var t := Next(lines, s, step); t.poolErr && JobsDue(t) <= JobsDue(s)
  {
  }

  /** Once a failure is recorded no further batch is submitted, except one that the submitter was
    * about to send. */
  lemma {:induction false} NoneAfterFailure(lines: seq<Line>, s: State, steps: seq<Step>)
    requires s.poolErr && Legal(lines, s, steps)
    ensures After(lines, s, steps).poolErr && |After(lines, s, steps).jobs| <= |s.jobs| + if Sending(s.pc) then 1 else 0
    ensures JobsDue(After(lines, s, steps)) <= JobsDue(s)
    decreases |steps|
  {
    if steps != [] {
      FailureStep(lines, s, steps[0]);
      NoneAfterFailure(lines, Next(lines, s, steps[0]), steps[1..]);
    }
  }
}
