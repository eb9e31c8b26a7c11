/**
 The browser's batch scheduler: two documents at a time, with pause, retry, cancel and cleanup.
 This module has the queue object itself, whose methods run without interruption; BatchSystem
 adds the asynchronous tasks and removals around it.
 */
module BatchScheduler {
  import opened Wrappers
  import Domain

  datatype RowStatus = Waiting | Uploading | Processing | Receiving | Ready | Failed

  type JobRef = nat

  datatype Row = Row(
    hasFile: bool,
    credentials: Option<JobRef>,
    status: RowStatus,
    hasResult: bool,
    hasError: bool,
    cleanupError: bool)

  /** Where a running task is: about to run on, or waiting for the reply to a request. */
  datatype TaskPc =
    | Registered(credentials: Option<JobRef>)
    | Started(credentials: Option<JobRef>)
    | AwaitJob(job: JobRef)
    | AwaitRemoveStale(job: JobRef, seen: Domain.Status)
    | Cleared(seen: Domain.Status)
    | AwaitCreate(last: Option<Domain.Status>)
    | Created(job: JobRef, last: Option<Domain.Status>)
    | AwaitUpload(job: JobRef, last: Option<Domain.Status>)
    | AwaitSubmit(job: JobRef, last: Option<Domain.Status>)
    | Polling(job: JobRef, seen: Domain.Status, created: bool)
    | AwaitPoll(job: JobRef, seen: Domain.Status, created: bool)
    | AwaitPollJob(job: JobRef, seen: Domain.Status, created: bool)
    | StartReceiving(job: JobRef, created: bool)
    | AwaitResult(job: JobRef, created: bool)
    | AwaitRemoveFailed(job: JobRef)
    | Failing
    | Finishing

  datatype Task = Task(row: nat, pc: TaskPc)

  /** `active` maps a row to its registered task; a task is named by the number it got. */
  datatype Queue = Queue(
    rows: seq<Row>,
    started: bool,
    paused: bool,
    cancelled: bool,
    active: map<nat, nat>,
    tasks: map<nat, Task>,
    nextTask: nat)

  const CONCURRENCY := 2

  predicate CanPump(q: Queue) {
    q.started && !q.paused && !q.cancelled
  }

  function Register(q: Queue, i: nat): Queue
    requires i < |q.rows|
  {
    q.(active := q.active[i := q.nextTask],
       tasks := q.tasks[q.nextTask := Task(i, Registered(q.rows[i].credentials))],
       nextTask := q.nextTask + 1)
  }

  function PumpFrom(q: Queue, i: nat): Queue
    decreases |q.rows| - i
  {
    if i >= |q.rows| || |q.active| >= CONCURRENCY then q
    else if q.rows[i].status != Waiting || i in q.active then PumpFrom(q, i + 1)
    else PumpFrom(Register(q, i), i + 1)
  }

  function Pumped(q: Queue): Queue {
    if CanPump(q) then PumpFrom(q, 0) else q
  }

  function StartOf(q: Queue): Queue {
    if q.cancelled then q else Pumped(q.(started := true))
  }

  function PauseOf(q: Queue): Queue {
    if q.cancelled then q else q.(paused := true)
  }

  function ResumeOf(q: Queue): Queue {
    if q.cancelled then q else Pumped(q.(paused := false))
  }

  function RetryRow(row: Row): Row {
    if row.status == Failed && (row.hasFile || row.credentials.Some?)
    then row.(status := Waiting, hasError := false)
    else row
  }

  function RetryRows(rows: seq<Row>, position: Option<nat>): (r: seq<Row>)
    ensures |r| == |rows|
  {
    seq(|rows|, i requires 0 <= i < |rows| =>
      if position.None? || position.value == i then RetryRow(rows[i]) else rows[i])
  }

  function RetryOf(q: Queue, position: Option<nat>): Queue {
    if q.cancelled then q else Pumped(q.(rows := RetryRows(q.rows, position)))
  }

  function CancelRow(row: Row): Row {
    if row.status == Waiting then row.(status := Failed, hasError := true) else row
  }

  function CancelRows(rows: seq<Row>): (r: seq<Row>)
    ensures |r| == |rows|
  {
    seq(|rows|, i requires 0 <= i < |rows| => CancelRow(rows[i]))
  }

  /** The first half of clearing the batch, before it waits for the active tasks. */
  function CancelOf(q: Queue): Queue {
    q.(started := false, paused := true, cancelled := true, rows := CancelRows(q.rows))
  }

  function SetRow(q: Queue, i: nat, row: Row): Queue
    requires i < |q.rows|
  {
    q.(rows := q.rows[i := row])
  }

  function Without(q: Queue, t: nat): Queue
    requires t in q.tasks
  {
    q.(active := q.active - {q.tasks[t].row}, tasks := q.tasks - {t})
  }

  /** What a settled task's last callback does. */
  function FinishOf(q: Queue, t: nat): Queue
    requires t in q.tasks
  {
    Pumped(Without(q, t))
  }

  // ---------------------------------------------------------------- what every operation keeps

  /** The running tasks and the active rows name each other, and there are never more than two. */
  predicate OneTaskEach(q: Queue) {
    && |q.active| <= CONCURRENCY
    && (forall i | i in q.active :: i < |q.rows| && q.active[i] in q.tasks && q.tasks[q.active[i]].row == i)
    && (forall t | t in q.tasks :: t < q.nextTask && q.tasks[t].row in q.active && q.active[q.tasks[t].row] == t)
  }

  predicate NoneWaitingBefore(q: Queue, i: nat) {
    forall j | 0 <= j < i && j < |q.rows| && q.rows[j].status == Waiting :: j in q.active
  }

  /** When the queue may run, a free slot means that no row is left waiting outside it. */
  predicate WorkConserving(q: Queue) {
    CanPump(q) ==> |q.active| == CONCURRENCY || NoneWaitingBefore(q, |q.rows|)
  }

  /** Every row that shows progress has a task; after a cancel no row waits. */
  predicate ProgressIsActive(q: Queue) {
    forall i | 0 <= i < |q.rows| ::
      && (q.rows[i].status in {Uploading, Processing, Receiving} ==> i in q.active)
      && (q.cancelled ==> q.rows[i].status != Waiting)
  }

  predicate Sound(q: Queue) {
    OneTaskEach(q) && WorkConserving(q) && ProgressIsActive(q)
  }

  lemma OneMoreKey(m: map<nat, nat>, i: nat, t: nat)
    requires i !in m
    ensures |m[i := t]| == |m| + 1
  {
    assert m[i := t].Keys == m.Keys + {i};
    assert |m[i := t].Keys| == |m[i := t]| && |m.Keys| == |m|;
  }

  lemma RegisterKeepsOneTaskEach(q: Queue, i: nat)
    requires OneTaskEach(q) && i < |q.rows| && i !in q.active && |q.active| < CONCURRENCY
    ensures OneTaskEach(Register(q, i))
  {
    OneMoreKey(q.active, i, q.nextTask);
  }

  /** `r` is `q` with some waiting rows registered and nothing else changed. */
  predicate Registers(q: Queue, r: Queue) {
    && r == q.(active := r.active, tasks := r.tasks, nextTask := r.nextTask)
    && q.nextTask <= r.nextTask
    && (forall j | j in q.active :: j in r.active && r.active[j] == q.active[j])
    && (forall j | j in r.active && j !in q.active :: j < |q.rows| && q.rows[j].status == Waiting)
    && (forall t | t in q.tasks :: t in r.tasks && r.tasks[t] == q.tasks[t])
    && (forall t | t in r.tasks && t !in q.tasks ::
          && r.tasks[t].row in r.active && r.tasks[t].row !in q.active && r.tasks[t].row < |q.rows|
          && r.tasks[t].pc == Registered(q.rows[r.tasks[t].row].credentials))
  }

  lemma RegisterRegisters(q: Queue, i: nat)
    requires OneTaskEach(q) && i < |q.rows| && i !in q.active && q.rows[i].status == Waiting
    requires NoneWaitingBefore(q, i)
    ensures Registers(q, Register(q, i)) && NoneWaitingBefore(Register(q, i), i + 1)
  {
  }

  lemma RegistersIsTransitive(a: Queue, b: Queue, c: Queue)
    requires Registers(a, b) && Registers(b, c) && OneTaskEach(a) && OneTaskEach(b)
    ensures Registers(a, c)
  {
  }

  /** What pumping promises of the queue it leaves. */
  predicate PumpsTo(q: Queue, p: Queue) {
    && OneTaskEach(p) && Registers(q, p)
    && (|p.active| == CONCURRENCY || NoneWaitingBefore(p, |q.rows|))
  }

  lemma PumpOneMore(q: Queue, i: nat, p: Queue)
    requires OneTaskEach(q) && i < |q.rows| && i !in q.active && q.rows[i].status == Waiting && |q.active| < CONCURRENCY
    requires NoneWaitingBefore(q, i) && PumpsTo(Register(q, i), p)
    ensures PumpsTo(q, p)
  {
    RegisterKeepsOneTaskEach(q, i);
    RegisterRegisters(q, i);
    RegistersIsTransitive(q, Register(q, i), p);
  }

  lemma NothingToPump(q: Queue, i: nat)
    requires OneTaskEach(q) && NoneWaitingBefore(q, i) && (i >= |q.rows| || |q.active| >= CONCURRENCY)
    ensures PumpsTo(q, q)
  {
  }

  lemma SkippedRow(q: Queue, i: nat)
    requires NoneWaitingBefore(q, i) && i < |q.rows| && (q.rows[i].status != Waiting || i in q.active)
    ensures NoneWaitingBefore(q, i + 1)
  {
  }

  /** Pumping only registers waiting rows, and stops only when it is full or none is left. */
  lemma {:induction false} PumpFromIsSound(q: Queue, i: nat)
    requires OneTaskEach(q) && i <= |q.rows| && NoneWaitingBefore(q, i)
    ensures PumpsTo(q, PumpFrom(q, i))
    decreases |q.rows| - i
  {
    hide OneTaskEach, NoneWaitingBefore, PumpsTo, Registers;
    if i >= |q.rows| || |q.active| >= CONCURRENCY {
      NothingToPump(q, i);
    } else if q.rows[i].status != Waiting || i in q.active {
      SkippedRow(q, i);
      PumpFromIsSound(q, i + 1);
    } else {
      RegisterKeepsOneTaskEach(q, i);
      RegisterRegisters(q, i);
      PumpFromIsSound(Register(q, i), i + 1);
      PumpOneMore(q, i, PumpFrom(Register(q, i), i + 1));
    }
  }

  lemma PumpedIsSound(q: Queue)
    requires OneTaskEach(q) && ProgressIsActive(q)
    ensures Sound(Pumped(q))
  {
    if CanPump(q) {
      PumpFromIsSound(q, 0);
    }
  }

  lemma StartKeepsSound(q: Queue)
    requires Sound(q)
    ensures Sound(StartOf(q)) && Sound(PauseOf(q)) && Sound(ResumeOf(q))
  {
    PumpedIsSound(q.(started := true));
    PumpedIsSound(q.(paused := false));
  }

  lemma RetryKeepsSound(q: Queue, position: Option<nat>)
    requires Sound(q)
    ensures Sound(RetryOf(q, position))
  {
    if !q.cancelled {
      var retried := q.(rows := RetryRows(q.rows, position));
      assert forall t | t in q.tasks :: retried.tasks[t] == q.tasks[t];
      PumpedIsSound(retried);
    }
  }

  lemma CancelKeepsSound(q: Queue)
    requires Sound(q)
    ensures Sound(CancelOf(q))
  {
  }

  lemma WithoutKeepsOneTaskEach(q: Queue, t: nat)
    requires OneTaskEach(q) && t in q.tasks
    ensures OneTaskEach(Without(q, t))
  {
    assert Without(q, t).active.Keys == q.active.Keys - {q.tasks[t].row};
  }

  lemma FinishKeepsSound(q: Queue, t: nat)
    requires Sound(q) && t in q.tasks
    requires q.rows[q.tasks[t].row].status !in {Uploading, Processing, Receiving}
    ensures Sound(FinishOf(q, t))
  {
    WithoutKeepsOneTaskEach(q, t);
    PumpedIsSound(Without(q, t));
  }

  // ---------------------------------------------------------------- the object

  class BatchQueue {
    var rows: seq<Row>
    var started: bool
    var paused: bool
    var cancelled: bool
    var active: map<nat, nat>
    var tasks: map<nat, Task>
    var nextTask: nat

    ghost function View(): Queue
      reads this
    {
      Queue(rows, started, paused, cancelled, active, tasks, nextTask)
    }

    ghost predicate Valid()
      reads this
    {
      Sound(View())
    }

    /** A new batch: every row has a file and waits. */
    constructor (files: nat)
      ensures Valid()
      ensures |rows| == files && forall i | 0 <= i < files :: rows[i] == Row(true, None, Waiting, false, false, false)
      ensures !started && !paused && !cancelled && active == map[]
    {
      rows := seq(files, _ => Row(true, None, Waiting, false, false, false));
      started, paused, cancelled := false, false, false;
      active, tasks, nextTask := map[], map[], 0;
    }

    /** After a reload: rows with a server copy wait, the others have lost their file. */
    constructor Restore(stored: seq<Option<JobRef>>)
      ensures Valid()
      ensures |rows| == |stored|
      ensures forall i | 0 <= i < |stored| ::
                rows[i] == Row(false, stored[i], if stored[i].Some? then Waiting else Failed, false,
                               stored[i].None?, false)
      ensures !started && !paused && !cancelled && active == map[]
    {
      rows := seq(|stored|, i requires 0 <= i < |stored| =>
                    Row(false, stored[i], if stored[i].Some? then Waiting else Failed, false, stored[i].None?, false));
      started, paused, cancelled := false, false, false;
      active, tasks, nextTask := map[], map[], 0;
    }

    method Pump()
      modifies this
      ensures View() == Pumped(old(View()))
    {
      if !started || paused || cancelled {
        return;
      }
      var i := 0;
      while i < |rows|
        invariant 0 <= i <= |rows|
        invariant CanPump(old(View()))
        invariant PumpFrom(View(), i) == PumpFrom(old(View()), 0)
      {
        if |active| >= CONCURRENCY {
          break;
        }
        if rows[i].status == Waiting && i !in active {
          tasks := tasks[nextTask := Task(i, Registered(rows[i].credentials))];
          active := active[i := nextTask];
          nextTask := nextTask + 1;
        }
        i := i + 1;
      }
    }

    method Start()
      requires Valid()
      modifies this
      ensures Valid() && View() == StartOf(old(View()))
    {
      StartKeepsSound(View());
      if cancelled {
        return;
      }
      started := true;
      Pump();
    }

    method Pause()
      requires Valid()
      modifies this
      ensures Valid() && View() == PauseOf(old(View()))
    {
      if cancelled {
        return;
      }
      paused := true;
    }

    method Resume()
      requires Valid()
      modifies this
      ensures Valid() && View() == ResumeOf(old(View()))
    {
      StartKeepsSound(View());
      if cancelled {
        return;
      }
      paused := false;
      Pump();
    }

    method Retry(position: Option<nat>)
      requires Valid()
      modifies this
      ensures Valid() && View() == RetryOf(old(View()), position)
    {
      RetryKeepsSound(View(), position);
      if cancelled {
        return;
      }
      rows := RetryRows(rows, position);
      Pump();
    }

    /** Clearing the batch, up to the point where it waits for the active tasks. */
    method Cancel()
      requires Valid()
      modifies this
      ensures Valid() && View() == CancelOf(old(View()))
    {
      CancelKeepsSound(View());
      started := false;
      cancelled := true;
      paused := true;
      rows := CancelRows(rows);
    }

    /** The task's promise has settled: free its slot and start the next row. */
    method Finish(t: nat)
      requires Valid() && t in tasks
      requires rows[tasks[t].row].status !in {Uploading, Processing, Receiving}
      modifies this
      ensures Valid() && View() == FinishOf(old(View()), t)
    {
      FinishKeepsSound(View(), t);
      active := active - {tasks[t].row};
      tasks := tasks - {t};
      Pump();
    }
  }
}
