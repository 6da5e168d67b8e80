/** importFromDump and importWorkerPool (internal/store/export.go) as a state machine: one
  * submitter and the workers take steps in any order, each step being what happens between
  * two uses of the lock, the channel or the barrier. Whether a batch commits is left open.
  */
module ImportPool {
  import opened SqlLiterals

  const BatchSize := 100

  // A line of the dump as processLine finds it: a row of a table, a statement with a value
  // that does not decode, or no INSERT statement.
  datatype Line =
    | Row(table: string, columns: seq<string>, data: seq<Value>) | BadValue(table: string, columns: seq<string>) | BadStatement

  // A batch of rows, which go in under the same columns; `group` counts the changes of table
  // up to it.
  datatype Job = Job(table: string, columns: seq<string>, group: nat, rows: seq<seq<Value>>)

  datatype Status = Queued | Taken | Ran(ok: bool) | Recorded(ok: bool) | Finished(ok: bool)

  // A submitted job, how far it is, and how often it was committed.
  datatype Entry = Entry(job: Job, status: Status, commits: nat)

  // Where the submitter is.
  datatype Pc =
    | Reading
    | SwitchSubmit | SwitchSend | SwitchWait | SwitchCheck | Append
    | FullSubmit | FullSend
    | LastSubmit | LastSend | LastWait
    | Stopping(failed: bool) | Returned(failed: bool)

  datatype Worker = Idle | Busy(id: nat)

  datatype State = State(pos: nat, table: string, columns: seq<string>, group: nat, pending: seq<seq<Value>>, pc: Pc,
                         jobs: seq<Entry>, queue: seq<nat>, workers: seq<Worker>, barrier: nat, poolErr: bool)

  // At least one worker, and a channel of twice as many jobs.
  function Init(workers: int): (s: State)
    ensures |s.workers| >= 1
  {
    State(0, "", [], 0, [], Reading, [], [], seq(if workers < 1 then 1 else workers, i => Idle), 0, false)
  }

  function Capacity(s: State): nat {
    2 * |s.workers|
  }

  // `scanFails` decides whether reading the file ends in an error.
  datatype Step = Submitter(scanFails: bool) | Take(w: nat) | Execute(w: nat, ok: bool) | Record(w: nat) | Finish(w: nat)

  /* ---------- Steps of the submitter ---------- */

  predicate SubmitterCan(s: State) {
    match s.pc
    case SwitchSend => |s.queue| < Capacity(s)
    case FullSend => |s.queue| < Capacity(s)
    case LastSend => |s.queue| < Capacity(s)
    case SwitchWait => s.barrier == 0
    case LastWait => s.barrier == 0
    case Stopping(_) => s.queue == [] && forall w :: 0 <= w < |s.workers| ==> s.workers[w].Idle?
    case Returned(_) => false
    case _ => true
  }

  // The rows that are not submitted yet.
  function Pending(s: State): Job {
    Job(s.table, s.columns, s.group, s.pending)
  }

  // submitPending up to the look at the pool's error; `next` if there is nothing to submit.
  function Checked(s: State, send: Pc, next: Pc): State {
    s.(pc := if s.pending == [] then next else if s.poolErr then Stopping(true) else send)
  }

  // The rest of submitPending: the barrier goes up and the job enters the channel.
  function Sent(s: State, next: Pc): State {
    s.(jobs := s.jobs + [Entry(Pending(s), Queued, 0)], queue := s.queue + [|s.jobs|],
       barrier := s.barrier + 1, pending := [], pc := next)
  }

  function OnRead(lines: seq<Line>, s: State, scanFails: bool): State {
    if s.pos >= |lines| then s.(pc := if scanFails then Stopping(true) else LastSubmit)
    else
      match lines[s.pos]
      case BadStatement => s.(pc := Stopping(true))
      case Row(table, _, _) => s.(pc := if table != s.table then SwitchSubmit else Append)
      case BadValue(table, _) => s.(pc := if table != s.table then SwitchSubmit else Append)
  }

  function OnSwitch(lines: seq<Line>, s: State): State {
    if s.poolErr then s.(pc := Stopping(true))
    else if s.pos < |lines| && !lines[s.pos].BadStatement? then
      s.(table := lines[s.pos].table, columns := lines[s.pos].columns, group := s.group + 1, pc := Append)
    else s
  }

  function OnAppend(lines: seq<Line>, s: State): State {
    if s.pos < |lines| && lines[s.pos].Row? then
      s.(pending := s.pending + [lines[s.pos].data], pos := s.pos + 1,
         pc := if |s.pending| + 1 >= BatchSize then FullSubmit else Reading)
    else s.(pc := Stopping(true))
  }

  function Submit(lines: seq<Line>, s: State, scanFails: bool): State {
    match s.pc
    case Reading => OnRead(lines, s, scanFails)
    case SwitchSubmit => Checked(s, SwitchSend, SwitchWait)
    case SwitchSend => Sent(s, SwitchWait)
    case SwitchWait => s.(pc := SwitchCheck)
    case SwitchCheck => OnSwitch(lines, s)
    case Append => OnAppend(lines, s)
    case FullSubmit => Checked(s, FullSend, Reading)
    case FullSend => Sent(s, Reading)
    case LastSubmit => Checked(s, LastSend, LastWait)
    case LastSend => Sent(s, LastWait)
    case LastWait => s.(pc := Stopping(false))
    case Stopping(failed) => s.(pc := Returned(failed || s.poolErr))
    case Returned(_) => s
  }

  /* ---------- Steps of a worker ---------- */

  function StatusOf(s: State, w: nat): Status {
    if w < |s.workers| && s.workers[w].Busy? && s.workers[w].id < |s.jobs| then s.jobs[s.workers[w].id].status else Queued
  }

  predicate WorkerCan(s: State, step: Step)
    requires !step.Submitter?
  {
    && step.w < |s.workers|
    && match step
       case Take(w) => s.workers[w].Idle? && s.queue != [] && s.queue[0] < |s.jobs|
       case Execute(w, _) => StatusOf(s, w).Taken?
       case Record(w) => StatusOf(s, w).Ran?
       case Finish(w) => StatusOf(s, w).Recorded? && s.barrier > 0
  }

  function WithStatus(s: State, id: nat, status: Status, more: nat): State
    requires id < |s.jobs|
  {
    s.(jobs := s.jobs[id := s.jobs[id].(status := status, commits := s.jobs[id].commits + more)])
  }

  function Work(s: State, step: Step): State
    requires !step.Submitter? && WorkerCan(s, step)
  {
    match step
    case Take(w) => WithStatus(s, s.queue[0], Taken, 0).(queue := s.queue[1..], workers := s.workers[w := Busy(s.queue[0])])
    case Execute(w, ok) => WithStatus(s, s.workers[w].id, Ran(ok), if ok then 1 else 0)
    case Record(w) => WithStatus(s, s.workers[w].id, Recorded(StatusOf(s, w).ok), 0).(poolErr := s.poolErr || !StatusOf(s, w).ok)
    case Finish(w) => WithStatus(s, s.workers[w].id, Finished(StatusOf(s, w).ok), 0).(workers := s.workers[w := Idle], barrier := s.barrier - 1)
  }

  predicate Can(s: State, step: Step) {
    if step.Submitter? then SubmitterCan(s) else WorkerCan(s, step)
  }

  function Next(lines: seq<Line>, s: State, step: Step): State
    requires Can(s, step)
  {
    if step.Submitter? then Submit(lines, s, step.scanFails) else Work(s, step)
  }

  // Every step is possible when it is taken.
  ghost predicate Legal(lines: seq<Line>, s: State, steps: seq<Step>)
    decreases |steps|
  {
    steps == [] || (Can(s, steps[0]) && Legal(lines, Next(lines, s, steps[0]), steps[1..]))
  }

  ghost function After(lines: seq<Line>, s: State, steps: seq<Step>): State
    requires Legal(lines, s, steps)
    decreases |steps|
  {
    if steps == [] then s else After(lines, Next(lines, s, steps[0]), steps[1..])
  }

  /* ---------- What the file says ---------- */

  datatype Tagged = Tagged(table: string, columns: seq<string>, group: nat, data: seq<Value>)

  // The rows of the lines, each with its table, the columns of its table group and the group.
  function TaggedRows(lines: seq<Line>): seq<Tagged> {
    if lines == [] then []
    else
      var pre, last := lines[..|lines| - 1], lines[|lines| - 1];
      if last.Row? then TaggedRows(pre) + [Tagged(last.table, GroupColumns(lines), Groups(lines), last.data)] else TaggedRows(pre)
  }

  function TableAfter(lines: seq<Line>): string {
    if lines == [] then "" else if lines[|lines| - 1].Row? then lines[|lines| - 1].table else TableAfter(lines[..|lines| - 1])
  }

  // The columns of the row with which the last table group begins.
  function GroupColumns(lines: seq<Line>): seq<string> {
    if lines == [] then []
    else
      var pre, last := lines[..|lines| - 1], lines[|lines| - 1];
      if last.Row? && last.table != TableAfter(pre) then last.columns else GroupColumns(pre)
  }

  // The number of changes of table.
  function Groups(lines: seq<Line>): nat {
    if lines == [] then 0
    else
      var pre, last := lines[..|lines| - 1], lines[|lines| - 1];
      Groups(pre) + if last.Row? && last.table != TableAfter(pre) then 1 else 0
  }

  function JobRows(job: Job): (r: seq<Tagged>)
    ensures |r| == |job.rows|
  {
    seq(|job.rows|, i requires 0 <= i < |job.rows| => Tagged(job.table, job.columns, job.group, job.rows[i]))
  }

  function Concat(jobs: seq<Entry>): seq<Tagged> {
    if jobs == [] then [] else Concat(jobs[..|jobs| - 1]) + JobRows(jobs[|jobs| - 1].job)
  }
}
