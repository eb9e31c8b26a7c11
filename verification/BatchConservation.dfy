/** No server copy is forgotten: exactly which steps make a row let go of a job that exists. */
module BatchConservation {
  import opened Wrappers
  import opened BatchScheduler
  import opened BatchSystem
  import opened BatchTheorems

  // ---------------------------------------------------------------- the steps that forget a job

  /** A removal awaits the reply to the deletion of the job that its row had when it started. */
  predicate Deleting(b: Batch, id: nat) {
    && id in b.removers && b.removers[id].phase.Deleting?
    && b.removers[id].at < |b.removers[id].snapshot| && b.removers[id].at < |b.queue.rows|
    && b.removers[id].snapshot[b.removers[id].at].credentials.Some?
  }

  /** The job whose deletion was asked for, and the job that its row has by now. */
  function Asked(b: Batch, id: nat): JobRef
    requires Deleting(b, id)
  {
    b.removers[id].snapshot[b.removers[id].at].credentials.value
  }

  function Present(b: Batch, id: nat): Option<JobRef>
    requires Deleting(b, id)
  {
    b.queue.rows[b.removers[id].at].credentials
  }

  predicate Is404(reply: Reply) {
    reply.Fails? && reply.error == NotFound
  }

  /**
   The step makes a row let go of job `j` although it exists: the row's task gets a 404 in a batch that
   goes on, or for its own deletion; the row's removal gets a 404, or is told that another job is
   deleted; or the page says that the job is gone.
   */
  ghost predicate Forgets(b: Batch, l: Label, j: JobRef)
    requires Allowed(b, l)
  {
    && j in b.server.alive
    && match l
       case TaskStep(t, reply) =>
         && RowOf(b.queue, t).credentials == Some(j) && Is404(reply)
         && (!b.queue.cancelled || Removing(b.queue.tasks[t].pc))
       case RemoverStep(id, reply) =>
         && Deleting(b, id) && Present(b, id) == Some(j)
         && (Is404(reply) || (reply.Done? && Asked(b, id) != j))
       case ForgetRemote(i) => b.queue.rows[i].credentials == Some(j)
       case _ => false
  }

  lemma OnlyExistingAreForgotten(b: Batch, l: Label, j: JobRef)
    requires Allowed(b, l) && j !in b.server.alive
    ensures !Forgets(b, l, j)
  {
  }

  // ---------------------------------------------------------------- one step

  /** Which existing jobs have a row after the step: those created, and those not forgotten. */
  ghost predicate Conserves(b: Batch, l: Label, j: JobRef)
    requires Allowed(b, l)
  {
    var n := Effect(b, l);
    j in n.server.alive ==>
      (Known(n.queue.rows, j) <==> j !in b.server.alive || (Known(b.queue.rows, j) && !Forgets(b, l, j)))
  }

  lemma RowsWith(rows: seq<Row>, i: nat, row: Row, j: JobRef)
    requires i < |rows| && OwnJobs(rows)
    ensures Known(rows[i := row], j) <==>
            row.credentials == Some(j) || (Known(rows, j) && rows[i].credentials != Some(j))
  {
    var after := rows[i := row];
    if row.credentials == Some(j) {
      assert after[i].credentials == Some(j);
    } else if Known(rows, j) && rows[i].credentials != Some(j) {
      var k :| 0 <= k < |rows| && rows[k].credentials == Some(j);
      assert after[k].credentials == Some(j);
    }
  }

  lemma SameJobsKnown(rows: seq<Row>, rows': seq<Row>, j: JobRef)
    requires |rows'| == |rows| && forall i | 0 <= i < |rows| :: rows'[i].credentials == rows[i].credentials
    ensures Known(rows', j) <==> Known(rows, j)
  {
    if i :| 0 <= i < |rows| && rows[i].credentials == Some(j) {
      assert rows'[i].credentials == Some(j);
    }
    if i :| 0 <= i < |rows'| && rows'[i].credentials == Some(j) {
      assert rows[i].credentials == Some(j);
    }
  }

  /** A row that holds a job is one of the rows that know it. */
  lemma RowKnows(rows: seq<Row>, i: nat, j: JobRef)
    requires i < |rows| && rows[i].credentials == Some(j)
    ensures Known(rows, j)
  {
  }

  lemma TaskConserves(b: Batch, t: nat, reply: Reply, j: JobRef)
    requires Inv(b) && Allowed(b, TaskStep(t, reply)) && !b.queue.tasks[t].pc.Finishing?
    ensures Conserves(b, TaskStep(t, reply), j)
  {
    hide TaskStepOf, Sound, RemoverFits, Known;
    var q, row, pc := b.queue, RowOf(b.queue, t), b.queue.tasks[t].pc;
    assert CredentialsFit(row, pc);
    TaskStepMindsItsJob(row, pc, q.cancelled, b.server, reply);
    RowsWith(q.rows, q.tasks[t].row, TaskStepOf(row, pc, q.cancelled, b.server, reply).row, j);
    if row.credentials == Some(j) {
      RowKnows(q.rows, q.tasks[t].row, j);
    }
  }

  lemma QueueConserves(b: Batch, l: Label, j: JobRef)
    requires Inv(b) && Allowed(b, l) && Effect(b, l).server.alive <= b.server.alive
    requires |Effect(b, l).queue.rows| == |b.queue.rows|
    requires forall i | 0 <= i < |b.queue.rows| :: Effect(b, l).queue.rows[i].credentials == b.queue.rows[i].credentials
    requires !Forgets(b, l, j)
    ensures Conserves(b, l, j)
  {
    hide Forgets, Effect, Inv;
    SameJobsKnown(b.queue.rows, Effect(b, l).queue.rows, j);
  }

  lemma RemovalConserves(b: Batch, id: nat, reply: Reply, j: JobRef)
    requires Inv(b) && Allowed(b, RemoverStep(id, reply)) && b.removers[id].phase.Deleting?
    ensures Conserves(b, RemoverStep(id, reply), j)
  {
    hide Sound, TasksFit, Known;
    var r := b.removers[id];
    assert RemoverFits(b.queue, r) && Listed(r, r.at);
    var row := b.queue.rows[r.at];
    var row' :=
      if TakenAsGone(reply) then row.(credentials := None, cleanupError := false) else row.(cleanupError := true);
    RowsWith(b.queue.rows, r.at, row', j);
    if row.credentials == Some(j) {
      RowKnows(b.queue.rows, r.at, j);
    }
  }

  lemma PumpedKeepsRows(m: Queue)
    requires OneTaskEach(m)
    ensures Pumped(m).rows == m.rows
  {
    PumpedRegisters(m);
  }

  /** Start, pause, resume, retry and the end of a task: no row changes its job. */
  lemma OperationKeepsJobs(b: Batch, l: Label)
    requires Inv(b) && Allowed(b, l)
    requires || l.Start? || l.Pause? || l.Resume? || l.Retry?
             || (l.TaskStep? && b.queue.tasks[l.task].pc.Finishing?)
    ensures Effect(b, l).server == b.server && |Effect(b, l).queue.rows| == |b.queue.rows|
    ensures forall i | 0 <= i < |b.queue.rows| :: Effect(b, l).queue.rows[i].credentials == b.queue.rows[i].credentials
  {
    hide TasksFit, RemoverFits, Accounted, Pumped;
    var q := b.queue;
    match l {
      case Start => PumpedKeepsRows(q.(started := true));
      case Resume => PumpedKeepsRows(q.(paused := false));
      case Retry(position) => PumpedKeepsRows(q.(rows := RetryRows(q.rows, position)));
      case TaskStep(t, _) =>
        WithoutKeepsOneTaskEach(q, t);
        PumpedKeepsRows(Without(q, t));
      case _ =>
    }
  }

  lemma OperationConserves(b: Batch, l: Label, j: JobRef)
    requires Inv(b) && Allowed(b, l)
    requires || l.Start? || l.Pause? || l.Resume? || l.Retry?
             || (l.TaskStep? && b.queue.tasks[l.task].pc.Finishing?)
    ensures Conserves(b, l, j)
  {
    OperationKeepsJobs(b, l);
    hide Inv, Effect;
    QueueConserves(b, l, j);
  }

  lemma ScanConserves(b: Batch, l: Label, j: JobRef)
    requires Inv(b) && Allowed(b, l)
    requires || l.Clear? || l.RetryCleanup? || l.ReleaseRows? || l.ReplaceResult? || l.ServerForgets?
             || (l.RemoverStep? && !b.removers[l.id].phase.Deleting?)
    ensures Conserves(b, l, j)
  {
    QueueConserves(b, l, j);
  }

  lemma ForgetConserves(b: Batch, i: nat, j: JobRef)
    requires Inv(b) && Allowed(b, ForgetRemote(i))
    ensures Conserves(b, ForgetRemote(i), j)
  {
    RowsWith(b.queue.rows, i, b.queue.rows[i].(credentials := None, cleanupError := false), j);
  }

  /** After any step at all an existing job has its row unless this very step forgets it. */
  lemma StepConserves(b: Batch, l: Label, j: JobRef)
    requires Inv(b) && Allowed(b, l)
    ensures Conserves(b, l, j)
  {
    hide Inv, Conserves, Effect;
    match l {
      case TaskStep(t, reply) =>
        if b.queue.tasks[t].pc.Finishing? {
          OperationConserves(b, l, j);
        } else {
          TaskConserves(b, t, reply, j);
        }
      case RemoverStep(id, reply) =>
        if b.removers[id].phase.Deleting? {
          RemovalConserves(b, id, reply, j);
        } else {
          ScanConserves(b, l, j);
        }
      case ForgetRemote(i) => ForgetConserves(b, i, j);
      case Start => OperationConserves(b, l, j);
      case Pause => OperationConserves(b, l, j);
      case Resume => OperationConserves(b, l, j);
      case Retry(_) => OperationConserves(b, l, j);
      case _ => ScanConserves(b, l, j);
    }
  }

  /** Jobs are numbered as they are created, and nothing else creates one. */
  ghost predicate Numbers(b: Batch, n: Batch) {
    && b.server.nextJob <= n.server.nextJob
    && forall j | j in n.server.alive && j !in b.server.alive :: j == b.server.nextJob
  }

  lemma TaskNumbers(b: Batch, t: nat, reply: Reply)
    requires Inv(b) && Allowed(b, TaskStep(t, reply))
    ensures Numbers(b, Effect(b, TaskStep(t, reply)))
  {
    if !b.queue.tasks[t].pc.Finishing? {
      TaskLeaves(b.queue, b.server, t, reply);
    }
    hide TaskStepOf, Inv, CredentialsFit, StatusFits, FinishOf;
  }

  lemma StepNumbers(b: Batch, l: Label)
    requires Inv(b) && Allowed(b, l)
    ensures Numbers(b, Effect(b, l))
  {
    hide Inv;
    if l.TaskStep? {
      TaskNumbers(b, l.task, l.reply);
    }
  }

  // ---------------------------------------------------------------- whole runs

  lemma TraceIsRun(run: seq<Batch>, labels: seq<Label>)
    requires IsTrace(run, labels)
    ensures IsRun(run)
  {
    forall i | 0 < i < |run|
      ensures StepAt(run, i)
    {
      assert TracedAt(run, labels, i - 1);
    }
  }

  /** Step k of the run forgets the job. */
  ghost predicate ForgetsAt(run: seq<Batch>, labels: seq<Label>, k: nat, j: JobRef)
    requires k < |labels| < |run|
  {
    Allowed(run[k], labels[k]) && Forgets(run[k], labels[k], j)
  }

  /** One of the first i steps forgot the job. */
  ghost predicate Forgotten(run: seq<Batch>, labels: seq<Label>, i: nat, j: JobRef)
    requires i <= |labels| < |run|
  {
    exists k | 0 <= k < i :: ForgetsAt(run, labels, k, j)
  }

  /** Of the jobs that exist after i steps, rows know exactly those that were not forgotten. */
  ghost predicate Balanced(run: seq<Batch>, labels: seq<Label>, i: nat)
    requires i <= |labels| < |run|
  {
    forall j | j in run[i].server.alive :: Known(run[i].queue.rows, j) <==> !Forgotten(run, labels, i, j)
  }

  lemma {:induction false} NumbersGrow(run: seq<Batch>, labels: seq<Label>, k: nat, i: nat)
    requires IsTrace(run, labels) && k <= i < |run|
    ensures run[k].server.nextJob <= run[i].server.nextJob
  {
    hide Inv, Effect, Allowed, Init;
    if k < i {
      NumbersGrow(run, labels, k, i - 1);
      assert TracedAt(run, labels, i - 1);
      TraceIsRun(run, labels);
      RunKeepsInv(run, i - 1);
      StepNumbers(run[i - 1], labels[i - 1]);
    }
  }

  /** A job that does not exist yet was never forgotten. */
  lemma NewJobsAreUnforgotten(run: seq<Batch>, labels: seq<Label>, i: nat, j: JobRef)
    requires IsTrace(run, labels) && i < |run| && j >= run[i].server.nextJob
    ensures !Forgotten(run, labels, i, j)
  {
    TraceIsRun(run, labels);
    RunKeepsInv(run, i);
    forall k | 0 <= k < i
      ensures !ForgetsAt(run, labels, k, j)
    {
      NumbersGrow(run, labels, k, i);
      assert Inv(run[k]);
    }
  }

  lemma StepBalances(run: seq<Batch>, labels: seq<Label>, i: nat, j: JobRef)
    requires IsTrace(run, labels) && 0 < i < |run| && Balanced(run, labels, i - 1)
    requires j in run[i].server.alive
    ensures Known(run[i].queue.rows, j) <==> !Forgotten(run, labels, i, j)
  {
    hide Inv, Effect, Known, Allowed, Forgets, Init;
    assert TracedAt(run, labels, i - 1);
    TraceIsRun(run, labels);
    RunKeepsInv(run, i - 1);
    StepConserves(run[i - 1], labels[i - 1], j);
    if j !in run[i - 1].server.alive {
      StepNumbers(run[i - 1], labels[i - 1]);
      NewJobsAreUnforgotten(run, labels, i - 1, j);
      OnlyExistingAreForgotten(run[i - 1], labels[i - 1], j);
    }
    assert Forgotten(run, labels, i, j) <==>
           Forgotten(run, labels, i - 1, j) || ForgetsAt(run, labels, i - 1, j);
  }

  lemma {:induction false} TraceBalances(run: seq<Batch>, labels: seq<Label>, i: nat)
    requires IsTrace(run, labels) && i < |run|
    ensures Balanced(run, labels, i)
  {
    if i > 0 {
      TraceBalances(run, labels, i - 1);
      forall j | j in run[i].server.alive
        ensures Known(run[i].queue.rows, j) <==> !Forgotten(run, labels, i, j)
      {
        StepBalances(run, labels, i, j);
      }
    }
  }

  /**
   A job that exists on the server is known to exactly one row if no step of the run forgot it, and to
   none if one did.
   */
  lemma NoServerCopyIsForgotten(run: seq<Batch>, labels: seq<Label>, i: nat)
    requires IsTrace(run, labels) && i < |run|
    ensures OwnJobs(run[i].queue.rows)
    ensures forall j | j in run[i].server.alive ::
              Known(run[i].queue.rows, j) <==> !exists k | 0 <= k < i :: ForgetsAt(run, labels, k, j)
  {
    TraceIsRun(run, labels);
    RunKeepsInv(run, i);
    TraceBalances(run, labels, i);
    forall j | j in run[i].server.alive
      ensures Forgotten(run, labels, i, j) <==> exists k | 0 <= k < i :: ForgetsAt(run, labels, k, j)
    {
    }
  }

  /** Clearing the batch returned without an error. */
  ghost predicate ClearReturned(b: Batch, id: nat) {
    && id in b.removers && b.removers[id].select.All? && b.removers[id].phase.Scanning?
    && b.removers[id].at >= |b.removers[id].snapshot| && !b.removers[id].failed
  }

  /** Then no row has a job, and every job that is left was forgotten by a step of the run. */
  lemma ClearedLeavesNothing(run: seq<Batch>, labels: seq<Label>, i: nat, id: nat)
    requires IsTrace(run, labels) && i < |run| && ClearReturned(run[i], id)
    ensures forall k | 0 <= k < |run[i].queue.rows| ::
              run[i].queue.rows[k].credentials.None? && run[i].queue.rows[k].status in {Ready, Failed}
    ensures forall j | j in run[i].server.alive :: exists k | 0 <= k < i :: ForgetsAt(run, labels, k, j)
  {
    TraceIsRun(run, labels);
    RunKeepsInv(run, i);
    assert RemoverFits(run[i].queue, run[i].removers[id]);
    NoServerCopyIsForgotten(run, labels, i);
  }

  // ---------------------------------------------------------------- when nothing is forgotten

  /** The job that a request of the task is about, when its row has one. */
  predicate Gone(b: Batch, credentials: Option<JobRef>) {
    credentials.Some? ==> credentials.value !in b.server.alive
  }

  /** A 404 is the truth: the job that was asked about does not exist; and so is what the page says. */
  ghost predicate Truthful(b: Batch, l: Label)
    requires Allowed(b, l)
  {
    match l
    case TaskStep(t, reply) => Is404(reply) ==> Gone(b, RowOf(b.queue, t).credentials)
    case RemoverStep(id, reply) => Is404(reply) && Deleting(b, id) ==> Gone(b, Some(Asked(b, id)))
    case ForgetRemote(i) => Gone(b, b.queue.rows[i].credentials)
    case _ => true
  }

  /** When a deletion is answered, its row still has the job that was to be deleted, or none. */
  ghost predicate Uncrossed(b: Batch, l: Label) {
    l.RemoverStep? && Deleting(b, l.id) && Present(b, l.id).Some? ==> Present(b, l.id) == Some(Asked(b, l.id))
  }

  ghost predicate HonestAt(run: seq<Batch>, labels: seq<Label>, k: nat)
    requires k < |labels| < |run|
  {
    Allowed(run[k], labels[k]) && Truthful(run[k], labels[k]) && Uncrossed(run[k], labels[k])
  }

  lemma HonestStepsForgetNothing(b: Batch, l: Label, j: JobRef)
    requires Allowed(b, l) && Truthful(b, l) && Uncrossed(b, l)
    ensures !Forgets(b, l, j)
  {
  }

  /** With truthful answers, and no retry during a removal, every server copy has its row. */
  lemma HonestRunsForgetNothing(run: seq<Batch>, labels: seq<Label>, i: nat)
    requires IsTrace(run, labels) && i < |run| && forall k | 0 <= k < i :: HonestAt(run, labels, k)
    ensures forall j | j in run[i].server.alive :: Known(run[i].queue.rows, j)
  {
    forall k, j | 0 <= k < i
      ensures !ForgetsAt(run, labels, k, j)
    {
      assert HonestAt(run, labels, k);
      HonestStepsForgetNothing(run[k], labels[k], j);
    }
    NoServerCopyIsForgotten(run, labels, i);
  }

  /** And a clear that returns leaves no server copy at all. */
  lemma HonestClearsLeaveNothing(run: seq<Batch>, labels: seq<Label>, i: nat, id: nat)
    requires IsTrace(run, labels) && i < |run| && forall k | 0 <= k < i :: HonestAt(run, labels, k)
    requires ClearReturned(run[i], id)
    ensures run[i].server.alive == {}
  {
    HonestRunsForgetNothing(run, labels, i);
    ClearedLeavesNothing(run, labels, i, id);
  }
}
