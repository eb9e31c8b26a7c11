/** What every run of the batch system keeps: scheduling, credentials, and silence after a cancel. */
module BatchTheorems {
  import opened Wrappers
  import Domain
  import opened BatchScheduler
  import opened BatchSystem

  // ---------------------------------------------------------------- the invariant

  predicate InProgress(s: RowStatus) {
    s in {Uploading, Processing, Receiving}
  }

  predicate StatusFits(row: Row, pc: TaskPc) {
    pc.Registered? || pc.Finishing? ==> !InProgress(row.status)
  }

  /** The job a task works on, when its position implies one; None inside means it has none. */
  function Holding(pc: TaskPc): Option<Option<JobRef>> {
    match pc
    case Registered(c) => Some(c)
    case Started(c) => Some(c)
    case AwaitJob(job) => Some(Some(job))
    case AwaitRemoveStale(job, _) => Some(Some(job))
    case Cleared(_) => Some(None)
    case AwaitCreate(_) => Some(None)
    case Created(job, _) => Some(Some(job))
    case AwaitUpload(job, _) => Some(Some(job))
    case AwaitSubmit(job, _) => Some(Some(job))
    case Polling(job, _, _) => Some(Some(job))
    case AwaitPoll(job, _, _) => Some(Some(job))
    case AwaitPollJob(job, _, _) => Some(Some(job))
    case StartReceiving(job, _) => Some(Some(job))
    case AwaitResult(job, _) => Some(Some(job))
    case AwaitRemoveFailed(job) => Some(Some(job))
    case Failing => None
    case Finishing => None
  }

  /** The row has the task's own job or, once it was forgotten, none. */
  predicate CredentialsFit(row: Row, pc: TaskPc) {
    Holding(pc).Some? ==> row.credentials.None? || row.credentials == Holding(pc).value
  }

  predicate TasksFit(q: Queue) {
    forall t | t in q.tasks ::
      && HasTask(q, t)
      && StatusFits(RowOf(q, t), q.tasks[t].pc)
      && CredentialsFit(RowOf(q, t), q.tasks[t].pc)
  }

  /** While a batch is being cleared no task is left to learn of a new job. */
  predicate ClearFits(q: Queue, r: Remover) {
    && q.cancelled
    && match r.phase
       case Settling(waitFor) => q.tasks.Keys <= waitFor
       case _ =>
         && q.active == map[]
         && |r.snapshot| == |q.rows|
         && forall i | 0 <= i < |q.rows| && q.rows[i].credentials.Some? ::
              r.snapshot[i].credentials.Some? && (i < r.at ==> r.failed)
  }

  predicate RemoverFits(q: Queue, r: Remover) {
    && (!r.phase.Settling? ==> |r.snapshot| == |q.rows|)
    && (r.phase.Deleting? ==> Listed(r, r.at))
    && (r.select.All? ==> ClearFits(q, r))
  }

  /** Each job belongs to at most one row, and jobs are numbered as they are created. */
  predicate Accounted(rows: seq<Row>, v: Server) {
    && OwnJobs(rows)
    && (forall i | 0 <= i < |rows| && rows[i].credentials.Some? :: rows[i].credentials.value < v.nextJob)
    && (forall j | j in v.alive :: j < v.nextJob)
  }

  predicate Inv(b: Batch) {
    && Sound(b.queue)
    && TasksFit(b.queue)
    && (forall id | id in b.removers :: RemoverFits(b.queue, b.removers[id]))
    && Accounted(b.queue.rows, b.server)
  }

  // ---------------------------------------------------------------- one step of a task

  /** A row waits again only when the task pauses the queue; nothing is sent once it is cancelled. */
  lemma TaskStepIsOrderly(row: Row, pc: TaskPc, stop: bool, v: Server, reply: Reply)
    requires Fits(pc, reply) && !pc.Finishing? && StatusFits(row, pc)
    ensures var o := TaskStepOf(row, pc, stop, v, reply);
            && StatusFits(o.row, o.pc)
            && (o.row.status == Waiting && row.status != Waiting ==> o.pause && !stop)
            && (stop ==> o.server.uploads == v.uploads && o.server.submits == v.submits && !o.pause)
  {
  }

  /** A row that had no job gets a new one. */
  predicate Creates(row: Row, v: Server, row': Row, v': Server) {
    && row.credentials.None? && row'.credentials == Some(v.nextJob)
    && v'.alive == v.alive + {v.nextJob} && v'.nextJob == v.nextJob + 1
  }

  predicate Removing(pc: TaskPc) {
    pc.AwaitRemoveStale? || pc.AwaitRemoveFailed?
  }

  /**
   The task takes the job of its row as gone: its own deletion was done or answered with a 404, or any
   other request of a batch that goes on was.
   */
  predicate GivesUp(pc: TaskPc, stop: bool, reply: Reply) {
    if Removing(pc) then TakenAsGone(reply) else !stop && reply.Fails? && reply.error == NotFound
  }

  function ServerAfter(pc: TaskPc, v: Server, reply: Reply): set<JobRef> {
    if Removing(pc) then Removed(v, pc.job, reply).alive else v.alive
  }

  /** A row keeps its job unless the task gives it up, and only a deletion changes what exists. */
  predicate KeepsUnlessGivenUp(row: Row, pc: TaskPc, stop: bool, v: Server, reply: Reply, o: Outcome) {
    && o.row.credentials == (if GivesUp(pc, stop, reply) then None else row.credentials)
    && o.server.alive == ServerAfter(pc, v, reply) && o.server.nextJob == v.nextJob
  }

  /** What every step of a task does with the job of its row. */
  ghost predicate MindsItsJob(row: Row, pc: TaskPc, stop: bool, v: Server, reply: Reply)
    requires Fits(pc, reply) && !pc.Finishing?
  {
    var o := TaskStepOf(row, pc, stop, v, reply);
    && CredentialsFit(o.row, o.pc)
    && if pc.AwaitCreate? && reply.Done? then Creates(row, v, o.row, o.server)
       else KeepsUnlessGivenUp(row, pc, stop, v, reply, o)
  }

  lemma RemovalStepMindsItsJob(row: Row, pc: TaskPc, stop: bool, v: Server, reply: Reply)
    requires Removing(pc)
    requires Fits(pc, reply) && CredentialsFit(row, pc)
    ensures MindsItsJob(row, pc, stop, v, reply)
  {
  }

  lemma EarlyStepMindsItsJob(row: Row, pc: TaskPc, stop: bool, v: Server, reply: Reply)
    requires pc.Registered? || pc.Started? || pc.AwaitJob? || pc.Cleared? || pc.AwaitCreate?
    requires Fits(pc, reply) && CredentialsFit(row, pc)
    ensures MindsItsJob(row, pc, stop, v, reply)
  {
  }

  lemma SendingStepMindsItsJob(row: Row, pc: TaskPc, stop: bool, v: Server, reply: Reply)
    requires pc.Created? || pc.AwaitUpload? || pc.AwaitSubmit?
    requires Fits(pc, reply) && CredentialsFit(row, pc)
    ensures MindsItsJob(row, pc, stop, v, reply)
  {
  }

  lemma PollingStepMindsItsJob(row: Row, pc: TaskPc, stop: bool, v: Server, reply: Reply)
    requires pc.Polling? || pc.AwaitPoll? || pc.AwaitPollJob?
    requires Fits(pc, reply) && CredentialsFit(row, pc)
    ensures MindsItsJob(row, pc, stop, v, reply)
  {
  }

  lemma ReceivingStepMindsItsJob(row: Row, pc: TaskPc, stop: bool, v: Server, reply: Reply)
    requires pc.StartReceiving? || pc.AwaitResult? || pc.Failing?
    requires Fits(pc, reply) && CredentialsFit(row, pc)
    ensures MindsItsJob(row, pc, stop, v, reply)
  {
  }

  lemma TaskStepMindsItsJob(row: Row, pc: TaskPc, stop: bool, v: Server, reply: Reply)
    requires Fits(pc, reply) && !pc.Finishing? && CredentialsFit(row, pc)
    ensures MindsItsJob(row, pc, stop, v, reply)
  {
    if Removing(pc) {
      RemovalStepMindsItsJob(row, pc, stop, v, reply);
    } else if pc.Created? || pc.AwaitUpload? || pc.AwaitSubmit? {
      SendingStepMindsItsJob(row, pc, stop, v, reply);
    } else if pc.Registered? || pc.Started? || pc.AwaitJob? || pc.Cleared? || pc.AwaitCreate? {
      EarlyStepMindsItsJob(row, pc, stop, v, reply);
    } else if pc.Polling? || pc.AwaitPoll? || pc.AwaitPollJob? {
      PollingStepMindsItsJob(row, pc, stop, v, reply);
    } else {
      ReceivingStepMindsItsJob(row, pc, stop, v, reply);
    }
  }

  // ---------------------------------------------------------------- accounts

  lemma OwnJobsWith(rows: seq<Row>, i: nat, row: Row)
    requires i < |rows| && OwnJobs(rows)
    requires || row.credentials.None? || row.credentials == rows[i].credentials
             || forall k | 0 <= k < |rows| :: rows[k].credentials != row.credentials
    ensures OwnJobs(rows[i := row])
  {
    var after := rows[i := row];
    forall k, m | 0 <= k < m < |after| && after[k].credentials.Some?
      ensures after[k].credentials != after[m].credentials
    {
      assert k != i ==> after[k] == rows[k];
      assert m != i ==> after[m] == rows[m];
    }
  }

  lemma CreatingKeepsAccounts(rows: seq<Row>, i: nat, row: Row, v: Server, v': Server)
    requires i < |rows| && Accounted(rows, v) && Creates(rows[i], v, row, v')
    ensures Accounted(rows[i := row], v')
  {
    forall k | 0 <= k < |rows|
      ensures rows[k].credentials != row.credentials
    {
      assert rows[k].credentials.Some? ==> rows[k].credentials.value < v.nextJob;
    }
    OwnJobsWith(rows, i, row);
  }

  /** The row keeps its job or drops it, and jobs can only go. */
  predicate KeepsOrDrops(row: Row, v: Server, row': Row, v': Server) {
    && (row'.credentials == row.credentials || row'.credentials.None?)
    && v'.alive <= v.alive && v'.nextJob == v.nextJob
  }

  lemma DroppingKeepsAccounts(rows: seq<Row>, i: nat, row: Row, v: Server, v': Server)
    requires i < |rows| && Accounted(rows, v) && KeepsOrDrops(rows[i], v, row, v')
    ensures Accounted(rows[i := row], v')
  {
    OwnJobsWith(rows, i, row);
  }

  /** Rows that keep their jobs, and a server that loses some. */
  lemma SameJobsKeepAccounts(rows: seq<Row>, rows': seq<Row>, v: Server, v': Server)
    requires Accounted(rows, v) && |rows'| == |rows|
    requires forall i | 0 <= i < |rows| :: rows'[i].credentials == rows[i].credentials
    requires v'.alive <= v.alive && v'.nextJob == v.nextJob
    ensures Accounted(rows', v')
  {
  }

  // ---------------------------------------------------------------- a task step in the system

  lemma MovedKeepsOneTaskEach(q: Queue, t: nat, o: Outcome)
    requires OneTaskEach(q) && t in q.tasks
    ensures OneTaskEach(Moved(q, t, o))
  {
  }

  lemma MovedKeepsSound(q: Queue, t: nat, o: Outcome)
    requires Sound(q) && t in q.tasks
    requires o.row.status == Waiting && RowOf(q, t).status != Waiting ==> o.pause && !q.cancelled
    ensures Sound(Moved(q, t, o))
  {
    MovedKeepsOneTaskEach(q, t, o);
    var r := Moved(q, t, o);
    assert forall j | 0 <= j < |r.rows| && j != q.tasks[t].row :: r.rows[j] == q.rows[j];
  }

  /** Only the moved task sees its row: no two tasks share one. */
  lemma MovedKeepsTasksFit(q: Queue, t: nat, o: Outcome)
    requires OneTaskEach(q) && TasksFit(q) && t in q.tasks
    requires StatusFits(o.row, o.pc) && CredentialsFit(o.row, o.pc)
    ensures TasksFit(Moved(q, t, o))
  {
    var r := Moved(q, t, o);
    forall u | u in r.tasks
      ensures u in q.tasks && HasTask(r, u)
      ensures u != t ==> r.tasks[u] == q.tasks[u] && RowOf(r, u) == RowOf(q, u)
    {
      assert u != t ==> q.tasks[u].row != q.tasks[t].row;
    }
  }

  lemma MovedKeepsRemover(q: Queue, t: nat, o: Outcome, r: Remover)
    requires OneTaskEach(q) && t in q.tasks && RemoverFits(q, r)
    ensures RemoverFits(Moved(q, t, o), r)
  {
    var n := Moved(q, t, o);
    assert n.tasks.Keys == q.tasks.Keys;
    assert q.tasks[t].row in q.active;
    assert forall j | 0 <= j < |n.rows| && j != q.tasks[t].row :: n.rows[j] == q.rows[j];
  }

  lemma MovedKeepsAccounts(q: Queue, v: Server, t: nat, o: Outcome)
    requires HasTask(q, t) && Accounted(q.rows, v)
    requires Creates(RowOf(q, t), v, o.row, o.server) || KeepsOrDrops(RowOf(q, t), v, o.row, o.server)
    ensures Accounted(Moved(q, t, o).rows, o.server)
  {
    if Creates(RowOf(q, t), v, o.row, o.server) {
      CreatingKeepsAccounts(q.rows, q.tasks[t].row, o.row, v, o.server);
    } else {
      DroppingKeepsAccounts(q.rows, q.tasks[t].row, o.row, v, o.server);
    }
  }

  lemma TaskLeaves(q: Queue, v: Server, t: nat, reply: Reply)
    requires TasksFit(q) && t in q.tasks && Fits(q.tasks[t].pc, reply) && !q.tasks[t].pc.Finishing?
    ensures var row, o := RowOf(q, t), TaskStepOf(RowOf(q, t), q.tasks[t].pc, q.cancelled, v, reply);
            && StatusFits(o.row, o.pc) && CredentialsFit(o.row, o.pc)
            && (o.row.status == Waiting && row.status != Waiting ==> o.pause && !q.cancelled)
            && (Creates(row, v, o.row, o.server) || KeepsOrDrops(row, v, o.row, o.server))
  {
    hide TaskStepOf;
    var row, pc := RowOf(q, t), q.tasks[t].pc;
    TaskStepIsOrderly(row, pc, q.cancelled, v, reply);
    TaskStepMindsItsJob(row, pc, q.cancelled, v, reply);
  }

  lemma TaskKeepsInv(b: Batch, t: nat, reply: Reply)
    requires Inv(b) && Allowed(b, TaskStep(t, reply)) && !b.queue.tasks[t].pc.Finishing?
    ensures Inv(Effect(b, TaskStep(t, reply)))
  {
    var q := b.queue;
    TaskLeaves(q, b.server, t, reply);
    hide Sound, TasksFit, RemoverFits, Accounted, TaskStepOf, Moved;
    var o := TaskStepOf(RowOf(q, t), q.tasks[t].pc, q.cancelled, b.server, reply);
    MovedKeepsSound(q, t, o);
    MovedKeepsAccounts(q, b.server, t, o);
    MovedKeepsTasksFit(q, t, o);
    forall id | id in b.removers
      ensures RemoverFits(Moved(q, t, o), b.removers[id])
    {
      MovedKeepsRemover(q, t, o, b.removers[id]);
    }
  }

  // ---------------------------------------------------------------- synchronous operations

  /** The first part of a synchronous operation: credentials stay, and tasks can only end. */
  predicate Narrows(q: Queue, m: Queue) {
    && |m.rows| == |q.rows| && m.cancelled == q.cancelled
    && (forall i | 0 <= i < |q.rows| ::
          && m.rows[i].credentials == q.rows[i].credentials
          && (InProgress(m.rows[i].status) ==> InProgress(q.rows[i].status)))
    && (forall t | t in m.tasks :: t in q.tasks && m.tasks[t] == q.tasks[t])
    && m.active.Keys <= q.active.Keys
  }

  lemma PumpedRegisters(m: Queue)
    requires OneTaskEach(m)
    ensures Registers(m, Pumped(m)) && (m.cancelled ==> Pumped(m) == m)
  {
    if CanPump(m) {
      PumpFromIsSound(m, 0);
    }
  }

  lemma ReshapedKeepsTasksFit(q: Queue, m: Queue, r: Queue)
    requires TasksFit(q) && Narrows(q, m) && Registers(m, r)
    ensures TasksFit(r)
  {
    forall t | t in r.tasks
      ensures HasTask(r, t) && StatusFits(RowOf(r, t), r.tasks[t].pc) && CredentialsFit(RowOf(r, t), r.tasks[t].pc)
    {
      if t in m.tasks {
        assert r.tasks[t] == m.tasks[t] == q.tasks[t];
        assert r.rows == m.rows;
      }
    }
  }

  lemma ReshapedKeepsRemover(q: Queue, m: Queue, r: Queue, rem: Remover)
    requires RemoverFits(q, rem)
    requires Narrows(q, m) && Registers(m, r) && (m.cancelled ==> r == m)
    ensures RemoverFits(r, rem)
  {
    assert r.rows == m.rows;
  }

  lemma QueueChangeKeepsInv(b: Batch, m: Queue)
    requires Inv(b) && Narrows(b.queue, m) && OneTaskEach(m) && Sound(Pumped(m))
    ensures Inv(b.(queue := Pumped(m)))
  {
    var r := Pumped(m);
    PumpedRegisters(m);
    ReshapedKeepsTasksFit(b.queue, m, r);
    forall id | id in b.removers
      ensures RemoverFits(r, b.removers[id])
    {
      ReshapedKeepsRemover(b.queue, m, r, b.removers[id]);
    }
    SameJobsKeepAccounts(b.queue.rows, r.rows, b.server, b.server);
  }

  lemma OperationKeepsInv(b: Batch, l: Label)
    requires Inv(b) && (l.Start? || l.Pause? || l.Resume? || l.Retry?)
    ensures Inv(Effect(b, l))
  {
    var q := b.queue;
    match l {
      case Start =>
        StartKeepsSound(q);
        QueueChangeKeepsInv(b, if q.cancelled then q else q.(started := true));
      case Pause =>
        StartKeepsSound(q);
        assert PauseOf(q) == Pumped(PauseOf(q));
        QueueChangeKeepsInv(b, PauseOf(q));
      case Resume =>
        StartKeepsSound(q);
        QueueChangeKeepsInv(b, if q.cancelled then q else q.(paused := false));
      case Retry(position) =>
        RetryKeepsSound(q, position);
        QueueChangeKeepsInv(b, if q.cancelled then q else q.(rows := RetryRows(q.rows, position)));
    }
  }

  lemma FinishKeepsInv(b: Batch, t: nat)
    requires Inv(b) && Allowed(b, TaskStep(t, Proceed)) && b.queue.tasks[t].pc.Finishing?
    ensures Inv(Effect(b, TaskStep(t, Proceed)))
  {
    assert StatusFits(RowOf(b.queue, t), b.queue.tasks[t].pc);
    FinishKeepsSound(b.queue, t);
    WithoutKeepsOneTaskEach(b.queue, t);
    QueueChangeKeepsInv(b, Without(b.queue, t));
  }

  // ---------------------------------------------------------------- removals

  lemma RestatusedKeepsTasksFit(q: Queue, rows: seq<Row>)
    requires TasksFit(q) && |rows| == |q.rows|
    requires forall i | 0 <= i < |rows| ::
               && (rows[i].credentials == q.rows[i].credentials || rows[i].credentials.None?)
               && (InProgress(rows[i].status) ==> InProgress(q.rows[i].status))
    ensures forall t | t in q.tasks ::
              && HasTask(q, t)
              && StatusFits(rows[q.tasks[t].row], q.tasks[t].pc)
              && CredentialsFit(rows[q.tasks[t].row], q.tasks[t].pc)
  {
  }

  lemma ClearKeepsRemover(b: Batch, id: nat, k: nat)
    requires Inv(b) && Allowed(b, Clear(id)) && k in Effect(b, Clear(id)).removers
    ensures RemoverFits(Effect(b, Clear(id)).queue, Effect(b, Clear(id)).removers[k])
  {
    hide TasksFit, Accounted;
    if k != id {
      assert RemoverFits(b.queue, b.removers[k]);
    }
  }

  lemma ClearKeepsInv(b: Batch, id: nat)
    requires Inv(b) && Allowed(b, Clear(id))
    ensures Inv(Effect(b, Clear(id)))
  {
    hide Sound, RemoverFits, Accounted;
    var n := Effect(b, Clear(id));
    CancelKeepsSound(b.queue);
    RestatusedKeepsTasksFit(b.queue, n.queue.rows);
    forall k | k in n.removers
      ensures RemoverFits(n.queue, n.removers[k])
    {
      ClearKeepsRemover(b, id, k);
    }
    SameJobsKeepAccounts(b.queue.rows, n.queue.rows, b.server, b.server);
  }

  lemma RemoverChangeKeepsInv(b: Batch, id: nat, r: Remover)
    requires Inv(b) && RemoverFits(b.queue, r)
    ensures Inv(b.(removers := b.removers[id := r]))
  {
  }

  lemma ScanKeepsInv(b: Batch, id: nat, select: Select)
    requires Inv(b)
    requires select.All? ==> b.queue.cancelled && b.queue.active == map[]
    ensures Inv(Scan(b, id, select))
  {
    RemoverChangeKeepsInv(b, id, Remover(select, b.queue.rows, 0, Scanning, false));
  }

  lemma SetRowKeepsSound(q: Queue, i: nat, row: Row)
    requires Sound(q) && i < |q.rows| && (row.status == q.rows[i].status || row.status == Ready)
    ensures Sound(SetRow(q, i, row))
  {
    var r := SetRow(q, i, row);
    assert forall j | 0 <= j < |r.rows| && j != i :: r.rows[j] == q.rows[j];
  }

  lemma SetRowKeepsRemover(q: Queue, i: nat, row: Row, r: Remover)
    requires RemoverFits(q, r) && i < |q.rows|
    requires row.credentials == q.rows[i].credentials || row.credentials.None?
    ensures RemoverFits(SetRow(q, i, row), r)
  {
    var n := SetRow(q, i, row);
    assert forall j | 0 <= j < |n.rows| && j != i :: n.rows[j] == q.rows[j];
  }

  /** A row's credentials are dropped, or a row is replaced by its rebuilt result. */
  lemma RowChangeKeepsInv(b: Batch, i: nat, row: Row, v: Server)
    requires Inv(b) && i < |b.queue.rows|
    requires row.status == b.queue.rows[i].status || row.status == Ready
    requires KeepsOrDrops(b.queue.rows[i], b.server, row, v)
    ensures Inv(b.(queue := SetRow(b.queue, i, row), server := v))
  {
    var q := SetRow(b.queue, i, row);
    SetRowKeepsSound(b.queue, i, row);
    RestatusedKeepsTasksFit(b.queue, q.rows);
    forall k | k in b.removers
      ensures RemoverFits(q, b.removers[k])
    {
      SetRowKeepsRemover(b.queue, i, row, b.removers[k]);
    }
    DroppingKeepsAccounts(b.queue.rows, i, row, b.server, v);
  }

  lemma SettledKeepsInv(b: Batch, id: nat)
    requires Inv(b) && Allowed(b, RemoverStep(id, Proceed)) && b.removers[id].phase.Settling?
    ensures Inv(Effect(b, RemoverStep(id, Proceed)))
  {
    var r := b.removers[id];
    assert RemoverFits(b.queue, r);
    if r.select.All? {
      assert b.queue.tasks.Keys == {};
      assert b.queue.active == map[];
    }
    ScanKeepsInv(b, id, r.select);
  }

  lemma ScannedFits(q: Queue, r: Remover)
    requires RemoverFits(q, r) && r.phase.Scanning? && r.at < |r.snapshot|
    ensures Listed(r, r.at) && r.at !in q.active ==> RemoverFits(q, r.(phase := Deleting))
    ensures !Listed(r, r.at) || r.at in q.active ==> RemoverFits(q, r.(at := r.at + 1))
  {
  }

  lemma ScanningKeepsInv(b: Batch, id: nat)
    requires Inv(b) && Allowed(b, RemoverStep(id, Proceed)) && b.removers[id].phase.Scanning?
    ensures Inv(Effect(b, RemoverStep(id, Proceed)))
  {
    var r := b.removers[id];
    assert RemoverFits(b.queue, r);
    if r.at < |r.snapshot| {
      ScannedFits(b.queue, r);
    }
  }

  /** The reply to a removal's request: the row is cleared, or the removal has failed. */
  lemma DeletedEffect(b: Batch, id: nat, reply: Reply) returns (row: Row, v: Server, r': Remover)
    requires Allowed(b, RemoverStep(id, reply)) && b.removers[id].phase.Deleting?
    requires Listed(b.removers[id], b.removers[id].at) && b.removers[id].at < |b.queue.rows|
    ensures var r := b.removers[id];
            && Effect(b, RemoverStep(id, reply))
               == b.(queue := SetRow(b.queue, r.at, row), server := v, removers := b.removers[id := r'])
            && row.status == b.queue.rows[r.at].status && KeepsOrDrops(b.queue.rows[r.at], b.server, row, v)
            && r' == r.(at := r.at + 1, phase := Scanning, failed := r'.failed)
            && (r.failed ==> r'.failed) && (r'.failed || row.credentials.None?)
  {
    var n, r := Effect(b, RemoverStep(id, reply)), b.removers[id];
    row, v, r' := n.queue.rows[r.at], n.server, n.removers[id];
  }

  lemma DeletedKeepsInv(b: Batch, id: nat, reply: Reply)
    requires Inv(b) && Allowed(b, RemoverStep(id, reply)) && b.removers[id].phase.Deleting?
    ensures Inv(Effect(b, RemoverStep(id, reply)))
  {
    var r := b.removers[id];
    assert RemoverFits(b.queue, r) && Listed(r, r.at);
    hide Effect, Sound, TasksFit, Accounted, ClearFits;
    var row, v, r' := DeletedEffect(b, id, reply);
    RowChangeKeepsInv(b, r.at, row, v);
    SetRowKeepsRemover(b.queue, r.at, row, r);
    var mid := b.(queue := SetRow(b.queue, r.at, row), server := v);
    DeletedFits(mid.queue, r, r');
    RemoverChangeKeepsInv(mid, id, r');
    assert Effect(b, RemoverStep(id, reply)) == mid.(removers := mid.removers[id := r']);
  }

  lemma DeletedFits(q: Queue, r: Remover, r': Remover)
    requires RemoverFits(q, r) && r.phase.Deleting? && r.at < |q.rows|
    requires r' == r.(at := r.at + 1, phase := Scanning, failed := r'.failed)
    requires (r.failed ==> r'.failed) && (r'.failed || q.rows[r.at].credentials.None?)
    ensures RemoverFits(q, r')
  {
  }

  // ---------------------------------------------------------------- whole runs

  lemma InitHolds(b: Batch)
    requires Init(b)
    ensures Inv(b)
  {
  }

  lemma TaskLabelKeepsInv(b: Batch, l: Label)
    requires Inv(b) && l.TaskStep? && Allowed(b, l)
    ensures Inv(Effect(b, l))
  {
    if b.queue.tasks[l.task].pc.Finishing? {
      FinishKeepsInv(b, l.task);
    } else {
      TaskKeepsInv(b, l.task, l.reply);
    }
  }

  lemma RemoverLabelKeepsInv(b: Batch, l: Label)
    requires Inv(b) && l.RemoverStep? && Allowed(b, l)
    ensures Inv(Effect(b, l))
  {
    match b.removers[l.id].phase {
      case Settling(_) => SettledKeepsInv(b, l.id);
      case Scanning => ScanningKeepsInv(b, l.id);
      case Deleting => DeletedKeepsInv(b, l.id, l.reply);
    }
  }

  lemma RowLabelKeepsInv(b: Batch, l: Label)
    requires Inv(b) && (l.ReplaceResult? || l.ForgetRemote? || l.ServerForgets?) && Allowed(b, l)
    ensures Inv(Effect(b, l))
  {
    match l {
      case ReplaceResult(i) =>
        RowChangeKeepsInv(b, i, b.queue.rows[i].(hasResult := true, status := Ready, hasError := false), b.server);
      case ForgetRemote(i) =>
        RowChangeKeepsInv(b, i, b.queue.rows[i].(credentials := None, cleanupError := false), b.server);
      case ServerForgets(job) =>
        SameJobsKeepAccounts(b.queue.rows, b.queue.rows, b.server, b.server.(alive := b.server.alive - {job}));
    }
  }

  lemma LabelKeepsInv(b: Batch, l: Label)
    requires Inv(b) && Allowed(b, l)
    ensures Inv(Effect(b, l))
  {
    match l {
      case Clear(id) => ClearKeepsInv(b, id);
      case RetryCleanup(id) => ScanKeepsInv(b, id, WithCleanupError);
      case ReleaseRows(id, rows) => ScanKeepsInv(b, id, Positions(rows));
      case TaskStep(_, _) => TaskLabelKeepsInv(b, l);
      case RemoverStep(_, _) => RemoverLabelKeepsInv(b, l);
      case ReplaceResult(_) => RowLabelKeepsInv(b, l);
      case ForgetRemote(_) => RowLabelKeepsInv(b, l);
      case ServerForgets(_) => RowLabelKeepsInv(b, l);
      case _ => OperationKeepsInv(b, l);
    }
  }

  lemma StepKeepsInv(b: Batch, b': Batch)
    requires Inv(b) && Step(b, b')
    ensures Inv(b')
  {
    var l: Label :| Allowed(b, l) && b' == Effect(b, l);
    LabelKeepsInv(b, l);
  }

  lemma {:induction false} RunKeepsInv(run: seq<Batch>, i: nat)
    requires IsRun(run) && i < |run|
    ensures forall j | 0 <= j <= i :: Inv(run[j])
  {
    hide Inv;
    if i == 0 {
      InitHolds(run[0]);
    } else {
      RunKeepsInv(run, i - 1);
      assert StepAt(run, i);
      StepKeepsInv(run[i - 1], run[i]);
    }
  }

  /** Never more than two tasks, nor two for one row; and no slot is left free while a row waits. */
  lemma TwoSlotsAndNoIdleRow(run: seq<Batch>, i: nat)
    requires IsRun(run) && i < |run|
    ensures var q := run[i].queue;
            && |q.tasks| <= CONCURRENCY
            && (forall t, u | t in q.tasks && u in q.tasks && q.tasks[t].row == q.tasks[u].row :: t == u)
            && (q.started && !q.paused && !q.cancelled && |q.tasks| < CONCURRENCY ==>
                  forall k | 0 <= k < |q.rows| && q.rows[k].status == Waiting ::
                    exists t :: t in q.tasks && q.tasks[t].row == k)
  {
    RunKeepsInv(run, i);
    var q := run[i].queue;
    TasksAreAsManyAsRows(q);
    forall k | k in q.active
      ensures exists t :: t in q.tasks && q.tasks[t].row == k
    {
      assert q.tasks[q.active[k]].row == k;
    }
  }

  lemma {:induction false} TasksAreAsManyAsRows(q: Queue)
    requires forall i | i in q.active :: q.active[i] in q.tasks && q.tasks[q.active[i]].row == i
    requires forall t | t in q.tasks :: q.tasks[t].row in q.active && q.active[q.tasks[t].row] == t
    ensures |q.tasks| == |q.active|
    decreases q.active.Keys
  {
    if q.active.Keys == {} {
      assert q.tasks.Keys == {};
    } else {
      var i :| i in q.active;
      var m := Without(q, q.active[i]);
      assert m.active.Keys == q.active.Keys - {i} && m.tasks.Keys == q.tasks.Keys - {q.active[i]};
      TasksAreAsManyAsRows(m);
    }
  }

  /** A cancelled batch stays cancelled, and this step sends no upload and no submit. */
  ghost predicate Quiet(b: Batch, b': Batch) {
    b.queue.cancelled ==>
      && b'.queue.cancelled
      && b'.server.uploads == b.server.uploads && b'.server.submits == b.server.submits
  }

  lemma TaskIsQuiet(b: Batch, t: nat, reply: Reply)
    requires Inv(b) && Allowed(b, TaskStep(t, reply))
    ensures Quiet(b, Effect(b, TaskStep(t, reply)))
  {
    var q := b.queue;
    if q.tasks[t].pc.Finishing? {
      assert FinishOf(q, t).cancelled == q.cancelled by {
        WithoutKeepsOneTaskEach(q, t);
        PumpedRegisters(Without(q, t));
      }
    } else {
      assert StatusFits(RowOf(q, t), q.tasks[t].pc);
      TaskStepIsOrderly(RowOf(q, t), q.tasks[t].pc, q.cancelled, b.server, reply);
    }
  }

  lemma RemoverIsQuiet(b: Batch, id: nat, reply: Reply)
    requires Allowed(b, RemoverStep(id, reply))
    ensures Quiet(b, Effect(b, RemoverStep(id, reply)))
  {
  }

  lemma OthersAreQuiet(b: Batch, l: Label)
    requires Allowed(b, l) && !l.TaskStep? && !l.RemoverStep?
    ensures Quiet(b, Effect(b, l))
  {
  }

  lemma StepIsQuiet(b: Batch, b': Batch)
    requires Inv(b) && Step(b, b')
    ensures Quiet(b, b')
  {
    var l: Label :| Allowed(b, l) && b' == Effect(b, l);
    match l {
      case TaskStep(t, reply) => TaskIsQuiet(b, t, reply);
      case RemoverStep(id, reply) => RemoverIsQuiet(b, id, reply);
      case _ => OthersAreQuiet(b, l);
    }
  }

  lemma RunIsQuiet(run: seq<Batch>, i: nat)
    requires IsRun(run) && 0 < i < |run|
    ensures Quiet(run[i - 1], run[i])
  {
    RunKeepsInv(run, i - 1);
    assert StepAt(run, i);
    StepIsQuiet(run[i - 1], run[i]);
  }

  lemma {:induction false} QuietRun(run: seq<Batch>, i: nat, j: nat)
    requires i <= j < |run| && run[i].queue.cancelled
    requires forall k | 0 < k < |run| :: Quiet(run[k - 1], run[k])
    ensures run[j].queue.cancelled
    ensures run[j].server.uploads == run[i].server.uploads && run[j].server.submits == run[i].server.submits
  {
    if i < j {
      QuietRun(run, i, j - 1);
      assert Quiet(run[j - 1], run[j]);
    }
  }

  /** Once the batch is cancelled it stays so, and no upload or submit is sent any more. */
  lemma NothingIsSentAfterCancel(run: seq<Batch>, i: nat, j: nat)
    requires IsRun(run) && i <= j < |run| && run[i].queue.cancelled
    ensures run[j].queue.cancelled
    ensures run[j].server.uploads == run[i].server.uploads && run[j].server.submits == run[i].server.submits
  {
    forall k | 0 < k < |run|
      ensures Quiet(run[k - 1], run[k])
    {
      RunIsQuiet(run, k);
    }
    QuietRun(run, i, j);
  }
}
