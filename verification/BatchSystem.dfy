/**
 The batch queue among its asynchronous parts.  A task or a removal runs on until it awaits a
 reply or calls the queue's subscribers; at every such point any other part may run, and the
 page may call any public method.  The server is the set of jobs that still exist there.
 */
module BatchSystem {
  import opened Wrappers
  import Domain
  import opened BatchScheduler

  datatype Select = All | WithCleanupError | Positions(rows: set<nat>)

  datatype Phase = Settling(waitFor: set<nat>) | Scanning | Deleting

  /** A removal walks over the rows as they were when it started. */
  datatype Remover = Remover(select: Select, snapshot: seq<Row>, at: nat, phase: Phase, failed: bool)

  /** The jobs that exist on the server, and how much was sent to it; no step reads the last two fields. */
  datatype Server = Server(alive: set<JobRef>, nextJob: JobRef, uploads: nat, submits: nat)

  datatype Batch = Batch(queue: Queue, server: Server, removers: map<nat, Remover>)

  datatype Error = NotFound | Capacity | OtherError

  /** `reached` says whether a request that failed for the browser still took effect. */
  datatype Reply = Proceed | JobIs(status: Domain.Status) | Done | Fails(error: Error, reached: bool)

  datatype Label =
    | Start
    | Pause
    | Resume
    | Retry(position: Option<nat>)
    | Clear(id: nat)
    | RetryCleanup(id: nat)
    | ReleaseRows(id: nat, rows: set<nat>)
    | ReplaceResult(row: nat)
    | ForgetRemote(row: nat)
    | TaskStep(task: nat, reply: Reply)
    | RemoverStep(id: nat, reply: Reply)
    | ServerForgets(job: JobRef)

  // ---------------------------------------------------------------- tasks

  /** What one step of a task leaves: its row, its next position, and whether it paused the queue. */
  datatype Outcome = Outcome(row: Row, pc: TaskPc, pause: bool, server: Server)

  function Put(row: Row, pc: TaskPc, v: Server): Outcome {
    Outcome(row, pc, false, v)
  }

  function FailedRow(row: Row): Row {
    row.(status := Failed, hasError := true)
  }

  function Aborted(row: Row, v: Server): Outcome {
    Put(FailedRow(row), Finishing, v)
  }

  /** The task's own exception handler, up to its next await or its end. */
  function Throw(row: Row, stop: bool, v: Server, error: Error, job: Option<JobRef>, last: Option<Domain.Status>,
                 created: bool)
    : Outcome
  {
    if stop then Aborted(row, v)
    else if error == Capacity then Outcome(row.(status := Waiting), Finishing, true, v)
    else if error == NotFound then Put(row.(credentials := None), Failing, v)
    else if job.Some? && (last == Some(Domain.Failed) || (created && last.None?)) then
      Put(row, AwaitRemoveFailed(job.value), v)
    else Put(FailedRow(row), Finishing, v)
  }

  /** A job that must be replaced, a job that is still at work. */
  predicate NeedsFreshJob(s: Domain.Status) {
    s in {Domain.Failed, Domain.AwaitingUpload, Domain.Expired, Domain.Deleted}
  }

  predicate AtWork(s: Domain.Status) {
    Domain.Queued(s) || Domain.InFlight(s)
  }

  function StartCreate(row: Row, stop: bool, v: Server, last: Option<Domain.Status>): Outcome {
    if row.hasFile then Put(row, AwaitCreate(last), v) else Throw(row, stop, v, OtherError, None, last, false)
  }

  function Follow(row: Row, stop: bool, v: Server, job: JobRef, seen: Domain.Status, created: bool): Outcome {
    if stop then Aborted(row, v) else Put(row.(status := Processing), Polling(job, seen, created), v)
  }

  /** The server's side of a deletion. */
  function Removed(v: Server, job: JobRef, reply: Reply): Server {
    match reply
    case Fails(NotFound, _) => v
    case Fails(_, reached) => if reached then v.(alive := v.alive - {job}) else v
    case _ => v.(alive := v.alive - {job})
  }

  /** Whether the browser takes the job as gone. */
  predicate TakenAsGone(reply: Reply) {
    reply == Done || (reply.Fails? && reply.error == NotFound)
  }

  /** Which replies the awaited request can have; a step with nothing awaited just proceeds. */
  predicate Fits(pc: TaskPc, reply: Reply) {
    match pc
    case AwaitJob(_) => reply.JobIs? || reply.Fails?
    case AwaitSubmit(_, _) => reply.JobIs? || reply.Fails?
    case AwaitPollJob(_, _, _) => reply.JobIs? || reply.Fails?
    case AwaitRemoveStale(_, _) => reply.Done? || reply.Fails?
    case AwaitCreate(_) => reply.Done? || reply.Fails?
    case AwaitUpload(_, _) => reply.Done? || reply.Fails?
    case AwaitResult(_, _) => reply.Done? || reply.Fails?
    case AwaitRemoveFailed(_) => reply.Done? || reply.Fails?
    case _ => reply.Proceed?
  }

  /** One step of one task that is not yet at its end; `stop` says that the batch is cancelled. */
  function TaskStepOf(row: Row, pc: TaskPc, stop: bool, v: Server, reply: Reply): Outcome
    requires Fits(pc, reply) && !pc.Finishing?
  {
    match pc
    case Registered(c) =>
      if stop then Put(row, Finishing, v)
      else Put(row.(status := if c.Some? then Processing else Uploading, hasError := false), Started(c), v)
    case Started(c) => if c.Some? then Put(row, AwaitJob(c.value), v) else StartCreate(row, stop, v, None)
    case AwaitJob(job) =>
      if reply.Fails? then Throw(row, stop, v, reply.error, Some(job), None, false)
      else if stop then Aborted(row, v)
      else if NeedsFreshJob(reply.status) then Put(row, AwaitRemoveStale(job, reply.status), v)
      else Follow(row, stop, v, job, reply.status, false)
    case AwaitRemoveStale(job, seen) =>
      if TakenAsGone(reply) then Put(row.(credentials := None), Cleared(seen), Removed(v, job, reply))
      else Throw(row, stop, Removed(v, job, reply), reply.error, Some(job), Some(seen), false)
    case Cleared(seen) => if stop then Aborted(row, v) else StartCreate(row, stop, v, Some(seen))
    case AwaitCreate(last) =>
      if reply.Fails? then Throw(row, stop, v, reply.error, None, last, false)
      else Put(row.(credentials := Some(v.nextJob), status := Uploading, cleanupError := false),
               Created(v.nextJob, last),
               v.(alive := v.alive + {v.nextJob}, nextJob := v.nextJob + 1))
    case Created(job, last) =>
      if stop then Aborted(row, v) else Put(row, AwaitUpload(job, last), v.(uploads := v.uploads + 1))
    case AwaitUpload(job, last) =>
      if reply.Fails? then Throw(row, stop, v, reply.error, Some(job), last, true)
      else if stop then Aborted(row, v)
      else Put(row, AwaitSubmit(job, last), v.(submits := v.submits + 1))
    case AwaitSubmit(job, last) =>
      if reply.Fails? then Throw(row, stop, v, reply.error, Some(job), last, true)
      else Follow(row, stop, v, job, reply.status, true)
    case Polling(job, seen, created) =>
      if AtWork(seen) then Put(row, AwaitPoll(job, seen, created), v)
      else if seen != Domain.Complete then Throw(row, stop, v, OtherError, Some(job), Some(seen), created)
      else Put(row.(status := Receiving), StartReceiving(job, created), v)
    case AwaitPoll(job, seen, created) =>
      if stop then Aborted(row, v) else Put(row, AwaitPollJob(job, seen, created), v)
    case AwaitPollJob(job, seen, created) =>
      if reply.Fails? then Throw(row, stop, v, reply.error, Some(job), Some(seen), created)
      else if stop then Aborted(row, v)
      else Put(row, Polling(job, reply.status, created), v)
    case StartReceiving(job, created) => Put(row, AwaitResult(job, created), v)
    case AwaitResult(job, created) =>
      if reply.Fails? then Throw(row, stop, v, reply.error, Some(job), Some(Domain.Complete), created)
      else if stop then Aborted(row, v)
      else Put(row.(hasResult := true, status := Ready, cleanupError := false), Finishing, v)
    case AwaitRemoveFailed(job) =>
      if TakenAsGone(reply) then Put(row.(credentials := None), Failing, Removed(v, job, reply))
      else Put(row.(cleanupError := true), Failing, Removed(v, job, reply))
    case Failing => Put(FailedRow(row), Finishing, v)
  }

  predicate HasTask(q: Queue, t: nat) {
    t in q.tasks && q.tasks[t].row < |q.rows|
  }

  function RowOf(q: Queue, t: nat): Row
    requires HasTask(q, t)
  {
    q.rows[q.tasks[t].row]
  }

  /** The queue after a task's step: its row and position change, and it may have paused. */
  function Moved(q: Queue, t: nat, o: Outcome): Queue
    requires HasTask(q, t)
  {
    var i := q.tasks[t].row;
    q.(rows := q.rows[i := o.row], tasks := q.tasks[t := Task(i, o.pc)], paused := q.paused || o.pause)
  }

  // ---------------------------------------------------------------- removals

  predicate Selected(select: Select, i: nat, row: Row) {
    match select
    case All => true
    case WithCleanupError => row.cleanupError
    case Positions(rows) => i in rows
  }

  /** A row the removal will still delete, unless a task runs on it when its turn comes. */
  predicate Listed(r: Remover, i: nat) {
    && !r.phase.Settling? && r.at <= i < |r.snapshot| && r.snapshot[i].credentials.Some?
    && Selected(r.select, i, r.snapshot[i])
  }

  ghost function Scan(b: Batch, id: nat, select: Select): Batch {
    b.(removers := b.removers[id := Remover(select, b.queue.rows, 0, Scanning, false)])
  }

  ghost function RemoverEffect(b: Batch, id: nat, reply: Reply): Batch
    requires id in b.removers
  {
    var r := b.removers[id];
    match r.phase
    case Settling(_) => Scan(b, id, r.select)
    case Scanning =>
      if r.at >= |r.snapshot| then b.(removers := b.removers - {id})
      else if Listed(r, r.at) && r.at !in b.queue.active
      then b.(removers := b.removers[id := r.(phase := Deleting)])
      else b.(removers := b.removers[id := r.(at := r.at + 1)])
    case Deleting =>
      if r.at >= |r.snapshot| || r.at >= |b.queue.rows| || r.snapshot[r.at].credentials.None? then b
      else
        var job, row := r.snapshot[r.at].credentials.value, b.queue.rows[r.at];
        var v := Removed(b.server, job, reply);
        if TakenAsGone(reply)
        then b.(server := v,
                queue := SetRow(b.queue, r.at, row.(credentials := None, cleanupError := false)),
                removers := b.removers[id := r.(at := r.at + 1, phase := Scanning)])
        else b.(server := v,
                queue := SetRow(b.queue, r.at, row.(cleanupError := true)),
                removers := b.removers[id := r.(at := r.at + 1, phase := Scanning, failed := true)])
  }

  // ---------------------------------------------------------------- the whole system

  ghost predicate Allowed(b: Batch, l: Label) {
    match l
    case Clear(id) => id !in b.removers
    case RetryCleanup(id) => id !in b.removers
    case ReleaseRows(id, _) => id !in b.removers
    case ReplaceResult(i) => i < |b.queue.rows|
    case ForgetRemote(i) => i < |b.queue.rows|
    case TaskStep(t, reply) => HasTask(b.queue, t) && Fits(b.queue.tasks[t].pc, reply)
    case RemoverStep(id, reply) =>
      && id in b.removers
      && (match b.removers[id].phase
          case Settling(waitFor) => reply.Proceed? && waitFor !! b.queue.tasks.Keys
          case Scanning => reply.Proceed?
          case Deleting => reply.Done? || reply.Fails?)
    case _ => true
  }

  ghost function Effect(b: Batch, l: Label): Batch
    requires Allowed(b, l)
  {
    match l
    case Start => b.(queue := StartOf(b.queue))
    case Pause => b.(queue := PauseOf(b.queue))
    case Resume => b.(queue := ResumeOf(b.queue))
    case Retry(position) => b.(queue := RetryOf(b.queue, position))
    case Clear(id) =>
      b.(queue := CancelOf(b.queue),
         removers := b.removers[id := Remover(All, [], 0, Settling(b.queue.tasks.Keys), false)])
    case RetryCleanup(id) => Scan(b, id, WithCleanupError)
    case ReleaseRows(id, rows) => Scan(b, id, Positions(rows))
    case ReplaceResult(i) =>
      b.(queue := SetRow(b.queue, i, b.queue.rows[i].(hasResult := true, status := Ready, hasError := false)))
    case ForgetRemote(i) =>
      b.(queue := SetRow(b.queue, i, b.queue.rows[i].(credentials := None, cleanupError := false)))
    case TaskStep(t, reply) =>
      if b.queue.tasks[t].pc.Finishing? then b.(queue := FinishOf(b.queue, t))
      else
        var o := TaskStepOf(RowOf(b.queue, t), b.queue.tasks[t].pc, b.queue.cancelled, b.server, reply);
        b.(queue := Moved(b.queue, t, o), server := o.server)
    case RemoverStep(id, reply) => RemoverEffect(b, id, reply)
    case ServerForgets(job) => b.(server := b.server.(alive := b.server.alive - {job}))
  }

  ghost predicate Step(b: Batch, b': Batch) {
    exists l: Label :: Allowed(b, l) && b' == Effect(b, l)
  }

  predicate Known(rows: seq<Row>, job: JobRef) {
    exists i :: 0 <= i < |rows| && rows[i].credentials == Some(job)
  }

  /** No two rows have the same job. */
  predicate OwnJobs(rows: seq<Row>) {
    forall i, j | 0 <= i < j < |rows| && rows[i].credentials.Some? :: rows[i].credentials != rows[j].credentials
  }

  /** A row of a new batch has its file; a restored row has its server copy or has lost its file. */
  predicate InitialRow(row: Row, nextJob: JobRef) {
    if row.hasFile || row.credentials.None?
    then row.credentials.None? && row.status == if row.hasFile then Waiting else Failed
    else row.credentials.value < nextJob && row.status == Waiting
  }

  /** A new or a restored batch, before it starts. */
  ghost predicate Init(b: Batch) {
    && !b.queue.started && !b.queue.paused && !b.queue.cancelled
    && b.queue.active == map[] && b.queue.tasks == map[]
    && (forall i | 0 <= i < |b.queue.rows| :: InitialRow(b.queue.rows[i], b.server.nextJob))
    && OwnJobs(b.queue.rows) && (forall j | j in b.server.alive :: Known(b.queue.rows, j))
    && b.removers == map[]
  }

  /** State i of the run follows from the one before it. */
  ghost predicate StepAt(run: seq<Batch>, i: nat)
    requires 0 < i < |run|
  {
    Step(run[i - 1], run[i])
  }

  ghost predicate IsRun(run: seq<Batch>) {
    && |run| > 0 && Init(run[0])
    && forall i | 0 < i < |run| :: StepAt(run, i)
  }

  /** A run together with the labels of its steps: step i leads from state i to the next one. */
  ghost predicate IsTrace(run: seq<Batch>, labels: seq<Label>) {
    && |run| == |labels| + 1 && Init(run[0])
    && forall i | 0 <= i < |labels| :: TracedAt(run, labels, i)
  }

  ghost predicate TracedAt(run: seq<Batch>, labels: seq<Label>, i: nat)
    requires i < |labels| < |run|
  {
    Allowed(run[i], labels[i]) && run[i + 1] == Effect(run[i], labels[i])
  }
}
