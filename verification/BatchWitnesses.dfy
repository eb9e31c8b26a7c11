/** Runs of the batch system that forget a server copy, one for each way to do so. */
module BatchWitnesses {
  import opened Wrappers
  import Domain
  import opened BatchScheduler
  import opened BatchSystem
  import opened BatchConservation

  ghost predicate Reachable(b: Batch) {
    exists run :: IsRun(run) && run[|run| - 1] == b
  }

  lemma RunGrows(run: seq<Batch>, b': Batch)
    requires IsRun(run) && Step(run[|run| - 1], b')
    ensures IsRun(run + [b'])
  {
    var longer := run + [b'];
    forall i | 0 < i < |longer|
      ensures StepAt(longer, i)
    {
      assert i < |run| ==> StepAt(run, i) && longer[i] == run[i];
      assert longer[i - 1] == run[i - 1];
    }
  }

  lemma Extend(b: Batch, b': Batch)
    requires Reachable(b) && Step(b, b')
    ensures Reachable(b')
  {
    var run :| IsRun(run) && run[|run| - 1] == b;
    RunGrows(run, b');
    var longer := run + [b'];
    assert IsRun(longer) && longer[|longer| - 1] == b';
  }

  lemma Then(b: Batch, l: Label) returns (b': Batch)
    requires Reachable(b) && Allowed(b, l)
    ensures b' == Effect(b, l) && Reachable(b')
  {
    b' := Effect(b, l);
    assert Step(b, b');
    Extend(b, b');
  }

  /** A one-row batch with its only task. */
  function OneRow(row: Row, t: nat, pc: TaskPc, v: Server, removers: map<nat, Remover>): Batch {
    Batch(Queue([row], true, false, false, map[0 := t], map[t := Task(0, pc)], t + 1), v, removers)
  }

  /** One step of that task. */
  lemma Hop(row: Row, t: nat, pc: TaskPc, v: Server, removers: map<nat, Remover>, reply: Reply,
            row': Row, pc': TaskPc, v': Server)
    requires Reachable(OneRow(row, t, pc, v, removers)) && !pc.Finishing? && Fits(pc, reply)
    requires TaskStepOf(row, pc, false, v, reply) == Put(row', pc', v')
    ensures Reachable(OneRow(row', t, pc', v', removers))
  {
    var b, b' := OneRow(row, t, pc, v, removers), OneRow(row', t, pc', v', removers);
    var o := TaskStepOf(row, pc, false, v, reply);
    assert Moved(b.queue, t, o).rows == [row'];
    assert Moved(b.queue, t, o).tasks == map[t := Task(0, pc')];
    var n := Then(b, TaskStep(t, reply));
    assert n == b';
  }

  // ---------------------------------------------------------------- a misleading 404

  const RESTORED := Row(false, Some(0), Waiting, false, false, false)
  const SERVER := Server({0}, 1, 0, 0)

  lemma RestoredStarts()
    ensures Reachable(OneRow(RESTORED, 0, Registered(Some(0)), SERVER, map[]))
  {
    var s := Batch(Queue([RESTORED], false, false, false, map[], map[], 0), SERVER, map[]);
    assert s.queue.rows[0].credentials == Some(0);
    assert IsRun([s]);
    var b := Then(s, Start);
    var q := s.queue.(started := true);
    assert PumpFrom(q, 0) == PumpFrom(Register(q, 0), 1);
  }

  const UNREACHABLE := Row(false, Some(0), RowStatus.Failed, false, true, false)

  /** Asking for the job fails: the row keeps its credentials, for a retry. */
  lemma RestoredFails()
    ensures Reachable(OneRow(UNREACHABLE, 0, Finishing, SERVER, map[]))
  {
    RestoredStarts();
    var p := RESTORED.(status := Processing);
    Hop(RESTORED, 0, Registered(Some(0)), SERVER, map[], Proceed, p, Started(Some(0)), SERVER);
    Hop(p, 0, Started(Some(0)), SERVER, map[], Proceed, p, AwaitJob(0), SERVER);
    Hop(p, 0, AwaitJob(0), SERVER, map[], Fails(OtherError, false), UNREACHABLE, Finishing, SERVER);
  }

  const OPEN := Queue([UNREACHABLE], true, false, false, map[], map[], 1)

  lemma RestoredFailed()
    ensures Reachable(Batch(OPEN, SERVER, map[]))
  {
    RestoredFails();
    var b := OneRow(UNREACHABLE, 0, Finishing, SERVER, map[]);
    assert Without(b.queue, 0) == OPEN;
    assert PumpFrom(OPEN, 0) == PumpFrom(OPEN, 1) == OPEN;
    var n := Then(b, TaskStep(0, Proceed));
    assert n == Batch(OPEN, SERVER, map[]);
  }

  const CLOSED := CancelOf(OPEN)
  const CLEARING := Remover(All, [UNREACHABLE], 0, Deleting, false)

  /** The batch is cleared, and the deletion of its only job is sent. */
  lemma ClearIsDeleting()
    ensures Reachable(Batch(CLOSED, SERVER, map[0 := CLEARING]))
  {
    RestoredFailed();
    var b := Then(Batch(OPEN, SERVER, map[]), Clear(0));
    assert CLOSED.rows == [UNREACHABLE];
    b := Then(b, RemoverStep(0, Proceed));
    assert b == Batch(CLOSED, SERVER, map[0 := CLEARING.(phase := Scanning)]);
    b := Then(b, RemoverStep(0, Proceed));
    assert b == Batch(CLOSED, SERVER, map[0 := CLEARING]);
  }

  /** The jobs that exist although no row has them. */
  function Orphans(b: Batch): set<JobRef> {
    set j | j in b.server.alive && !Known(b.queue.rows, j)
  }

  /** The deletion is answered with a 404 although the job is there: clearing succeeds and leaves the job. */
  lemma Misleading404ForgetsACopy()
    ensures exists b :: Reachable(b) && ClearReturned(b, 0) && Orphans(b) == {0}
  {
    ClearIsDeleting();
    var b := Then(Batch(CLOSED, SERVER, map[0 := CLEARING]), RemoverStep(0, Fails(NotFound, false)));
    assert b.queue.rows == [UNREACHABLE.(credentials := None)];
    assert 0 in Orphans(b);
  }

  // ---------------------------------------------------------------- a removal and a retry

  const FRESH := Row(true, None, Waiting, false, false, false)
  const EMPTY := Server({}, 0, 0, 0)
  const UPLOADING := Row(true, Some(0), Uploading, false, false, false)
  const SENT := Server({0}, 1, 1, 0)
  const STUCK := Row(true, Some(0), RowStatus.Failed, false, true, true)

  lemma FreshStarts()
    ensures Reachable(OneRow(FRESH, 0, Registered(None), EMPTY, map[]))
  {
    var s := Batch(Queue([FRESH], false, false, false, map[], map[], 0), EMPTY, map[]);
    assert IsRun([s]);
    var b := Then(s, Start);
    var q := s.queue.(started := true);
    assert PumpFrom(q, 0) == PumpFrom(Register(q, 0), 1);
  }

  lemma AsksForJob()
    ensures Reachable(OneRow(FRESH.(status := Uploading), 0, AwaitCreate(None), EMPTY, map[]))
  {
    FreshStarts();
    var u := FRESH.(status := Uploading);
    Hop(FRESH, 0, Registered(None), EMPTY, map[], Proceed, u, Started(None), EMPTY);
    Hop(u, 0, Started(None), EMPTY, map[], Proceed, u, AwaitCreate(None), EMPTY);
  }

  lemma Uploads()
    ensures Reachable(OneRow(UPLOADING, 0, AwaitUpload(0, None), SENT, map[]))
  {
    AsksForJob();
    var u, v := FRESH.(status := Uploading), Server({0}, 1, 0, 0);
    assert EMPTY.alive + {0} == {0};
    Hop(u, 0, AwaitCreate(None), EMPTY, map[], Done, UPLOADING, Created(0, None), v);
    Hop(UPLOADING, 0, Created(0, None), v, map[], Proceed, UPLOADING, AwaitUpload(0, None), SENT);
  }

  lemma UploadAndRemovalFail()
    ensures Reachable(OneRow(UPLOADING.(cleanupError := true), 0, Failing, SENT, map[]))
  {
    Uploads();
    var c := UPLOADING.(cleanupError := true);
    Hop(UPLOADING, 0, AwaitUpload(0, None), SENT, map[], Fails(OtherError, false), UPLOADING, AwaitRemoveFailed(0),
        SENT);
    Hop(UPLOADING, 0, AwaitRemoveFailed(0), SENT, map[], Fails(OtherError, false), c, Failing, SENT);
  }

  /** The upload fails and so does the deletion after it: the row keeps its job and needs cleanup. */
  lemma UploadFails()
    ensures Reachable(OneRow(STUCK, 0, Finishing, SENT, map[]))
  {
    UploadAndRemovalFail();
    var c := UPLOADING.(cleanupError := true);
    Hop(c, 0, Failing, SENT, map[], Proceed, STUCK, Finishing, SENT);
  }

  const IDLE := Queue([STUCK], true, false, false, map[], map[], 1)
  const SCANNER := Remover(WithCleanupError, [STUCK], 0, Scanning, false)
  const REMOVER := Remover(WithCleanupError, [STUCK], 0, Deleting, false)

  lemma UploadFailed()
    ensures Reachable(Batch(IDLE, SENT, map[]))
  {
    UploadFails();
    var b := OneRow(STUCK, 0, Finishing, SENT, map[]);
    assert Without(b.queue, 0) == IDLE;
    assert PumpFrom(IDLE, 0) == PumpFrom(IDLE, 1) == IDLE;
    var n := Then(b, TaskStep(0, Proceed));
    assert n == Batch(IDLE, SENT, map[]);
  }

  lemma CleanupIsDeleting()
    ensures Reachable(Batch(IDLE, SENT, map[0 := REMOVER]))
  {
    UploadFailed();
    var b := Then(Batch(IDLE, SENT, map[]), RetryCleanup(0));
    assert b == Batch(IDLE, SENT, map[0 := SCANNER]);
    var n := Then(b, RemoverStep(0, Proceed));
    assert n == Batch(IDLE, SENT, map[0 := REMOVER]);
  }

  const RETRIED := Row(true, Some(0), Waiting, false, false, true)
  const REMOVERS: map<nat, Remover> := map[0 := REMOVER]

  /** While the deletion is awaited the row is retried. */
  lemma RetriedMeanwhile()
    ensures Reachable(OneRow(RETRIED, 1, Registered(Some(0)), SENT, REMOVERS))
  {
    CleanupIsDeleting();
    var b := Batch(IDLE, SENT, REMOVERS);
    var q := IDLE.(rows := RetryRows(IDLE.rows, None));
    assert q.rows == [RETRIED];
    assert PumpFrom(q, 0) == PumpFrom(Register(q, 0), 1);
    var n := Then(b, Retry(None));
    assert n.queue == OneRow(RETRIED, 1, Registered(Some(0)), SENT, REMOVERS).queue;
  }

  const REPLACED := Row(true, Some(1), Uploading, false, false, false)
  const SECOND := Server({1}, 2, 1, 0)

  /** The retry finds the old job incomplete, deletes it and creates another. */
  lemma RetryReplacesTheJob()
    ensures Reachable(OneRow(REPLACED, 1, Created(1, Some(Domain.AwaitingUpload)), SECOND, REMOVERS))
  {
    RetriedMeanwhile();
    var p, seen, v := RETRIED.(status := Processing), Domain.AwaitingUpload, Server({}, 1, 1, 0);
    Hop(RETRIED, 1, Registered(Some(0)), SENT, REMOVERS, Proceed, p, Started(Some(0)), SENT);
    Hop(p, 1, Started(Some(0)), SENT, REMOVERS, Proceed, p, AwaitJob(0), SENT);
    Hop(p, 1, AwaitJob(0), SENT, REMOVERS, JobIs(seen), p, AwaitRemoveStale(0, seen), SENT);
    assert SENT.alive - {0} == v.alive;
    Hop(p, 1, AwaitRemoveStale(0, seen), SENT, REMOVERS, Done, p.(credentials := None), Cleared(seen), v);
    Hop(p.(credentials := None), 1, Cleared(seen), v, REMOVERS, Proceed, p.(credentials := None),
        AwaitCreate(Some(seen)), v);
    assert v.alive + {1} == SECOND.alive;
    Hop(p.(credentials := None), 1, AwaitCreate(Some(seen)), v, REMOVERS, Done, REPLACED, Created(1, Some(seen)),
        SECOND);
  }

  /** Then the old deletion's reply arrives and clears the new credentials. */
  lemma RacingRemovalForgetsACopy()
    ensures exists b :: Reachable(b) && Orphans(b) == {1}
  {
    RetryReplacesTheJob();
    var b := Then(OneRow(REPLACED, 1, Created(1, Some(Domain.AwaitingUpload)), SECOND, REMOVERS),
                  RemoverStep(0, Fails(NotFound, false)));
    assert b.queue.rows == [REPLACED.(credentials := None)] && b.server.alive == {1};
    assert Orphans(b) == {1};
  }
}
