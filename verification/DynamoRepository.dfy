/**
 The DynamoDB job table.  An update is not a transaction: it reads the item, builds the next
 version, and puts it on condition that the item still has the version it read.  Any number of
 callers interleave between the read and the put.  Every run of this system is a run of the
 atomic updates of the SQLite table.
 */
module DynamoRepository {
  import opened Wrappers
  import opened Domain
  import opened Repository

  /** One call of `update`, before its read or between its read and its put. */
  datatype Call =
    | Reading(allowed: Option<set<Status>>, changes: Changes)
    | Writing(allowed: Option<set<Status>>, changes: Changes, snapshot: JobRecord, now: nat)

  datatype Reply = Pending | Committed(job: JobRecord) | Refused(error: RepositoryError) | ConcurrentUpdate

  /** `log` is the history of the item: every record that was ever stored, in order. */
  datatype Table = Table(item: Option<JobRecord>, calls: map<nat, Call>, log: seq<JobRecord>)

  datatype Event =
    | Create(job: JobRecord)
    | Call(id: nat, allowed: Option<set<Status>>, changes: Changes)
    | Read(id: nat, now: nat)
    | Put(id: nat)

  ghost predicate Enabled(s: Table, e: Event) {
    match e
    case Create(_) => true
    case Call(id, _, _) => id !in s.calls
    case Read(id, _) => id in s.calls && s.calls[id].Reading?
    case Put(id) => id in s.calls && s.calls[id].Writing?
  }

  function Stored(s: Table, job: JobRecord): Table {
    s.(item := Some(job), log := s.log + [job])
  }

  /** The table after one event, and what the caller is told. */
  function Next(s: Table, e: Event): (Table, Reply)
    requires Enabled(s, e)
  {
    match e
    case Create(job) =>
      if s.item.Some? then (s, Refused(JobAlreadyExists)) else (Stored(s, job), Committed(job))
    case Call(id, allowed, changes) =>
      (s.(calls := s.calls[id := Reading(allowed, changes)]), Pending)
    case Read(id, now) =>
      var call := s.calls[id];
      if s.item.None? then (s.(calls := s.calls - {id}), Refused(JobNotFound))
      else if !Admits(call.allowed, s.item.value.status)
      then (s.(calls := s.calls - {id}), Refused(InvalidState(s.item.value.status)))
      else (s.(calls := s.calls[id := Writing(call.allowed, call.changes, s.item.value, now)]), Pending)
    case Put(id) =>
      var call := s.calls[id];
      var job := Updated(call.snapshot, call.changes, call.now);
      var rest := s.(calls := s.calls - {id});
      if s.item.Some? && s.item.value.version == call.snapshot.version
      then (Stored(rest, job), Committed(job))
      else (rest, ConcurrentUpdate)
  }

  ghost predicate IsRun(run: seq<Table>, events: seq<Event>) {
    && |run| == |events| + 1
    && run[0] == Table(None, map[], [])
    && forall i {:trigger events[i]} | 0 <= i < |events| ::
         Enabled(run[i], events[i]) && run[i + 1] == Next(run[i], events[i]).0
  }

  // ---------------------------------------------------------------- the invariant

  predicate Gapless(log: seq<JobRecord>) {
    forall i | 0 <= i < |log| :: log[i].version == log[0].version + i
  }

  /** The read of a call in flight, as a place in the history. */
  predicate FromHistory(s: Table, c: Call) {
    c.Writing? ==>
      && Admits(c.allowed, c.snapshot.status)
      && exists i :: 0 <= i < |s.log| && s.log[i] == c.snapshot
  }

  predicate Inv(s: Table) {
    && Gapless(s.log)
    && (s.item.None? <==> s.log == [])
    && (s.item.Some? ==> s.log[|s.log| - 1] == s.item.value)
    && forall id | id in s.calls :: FromHistory(s, s.calls[id])
  }

  /** What makes the condition on the version sound: equal versions are equal records. */
  lemma SameVersionSameRecord(s: Table, c: Call)
    requires Inv(s) && FromHistory(s, c) && c.Writing? && s.item.Some?
    requires s.item.value.version == c.snapshot.version
    ensures s.item.value == c.snapshot
  {
    var i :| 0 <= i < |s.log| && s.log[i] == c.snapshot;
    assert s.log[|s.log| - 1].version == s.log[i].version;
  }

  lemma HistoryOnlyGrows(s: Table, c: Call, job: JobRecord)
    requires FromHistory(s, c)
    ensures FromHistory(Stored(s, job), c)
  {
    if c.Writing? {
      var i :| 0 <= i < |s.log| && s.log[i] == c.snapshot;
      assert Stored(s, job).log[i] == c.snapshot;
    }
  }

  lemma NextKeepsInv(s: Table, e: Event)
    requires Inv(s) && Enabled(s, e)
    ensures Inv(Next(s, e).0)
  {
    var s' := Next(s, e).0;
    if e.Put? && s'.log != s.log {
      SameVersionSameRecord(s, s.calls[e.id]);
    }
    forall id | id in s'.calls
      ensures FromHistory(s', s'.calls[id])
    {
      if id in s.calls && s.calls[id] == s'.calls[id] {
        assert FromHistory(s, s.calls[id]);
        if s'.log != s.log {
          HistoryOnlyGrows(s, s.calls[id], s'.item.value);
          assert s'.log == Stored(s, s'.item.value).log;
        }
      } else if e.Read? {
        assert s'.log[|s'.log| - 1] == s.item.value;
      }
    }
  }

  lemma {:induction false} RunKeepsInv(run: seq<Table>, events: seq<Event>, i: nat)
    requires IsRun(run, events) && i < |run|
    ensures Inv(run[i])
  {
    if i > 0 {
      RunKeepsInv(run, events, i - 1);
      assert run[i] == Next(run[i - 1], events[i - 1]).0;
      NextKeepsInv(run[i - 1], events[i - 1]);
    }
  }

  // ---------------------------------------------------------------- refinement

  function AsRows(item: Option<JobRecord>): Rows {
    if item.Some? then map[item.value.jobId := item.value] else map[]
  }

  /** The atomic system: nothing happens, the row is created, or one transaction commits. */
  ghost predicate AtomicStep(a: Option<JobRecord>, b: Option<JobRecord>) {
    || a == b
    || (a.None? && b.Some?)
    || (a.Some? && b.Some? && CommitsAtomically(a.value, b.value))
  }

  ghost predicate CommitsAtomically(a: JobRecord, b: JobRecord) {
    exists allowed: Option<set<Status>>, c: Changes, now: nat ::
      UpdateResult(AsRows(Some(a)), a.jobId, allowed, c, now) == Ok(b)
  }

  /**
   Every step of an interleaved run is a step of the atomic table, and the reply a caller gets is
   the reply of the atomic update of the item as it is at that step.  The one reply the atomic
   table never gives is the conflict, and a conflict changes nothing.
   */
  lemma RefinesAtomicUpdate(run: seq<Table>, events: seq<Event>, i: nat)
    requires IsRun(run, events) && i < |events|
    ensures AtomicStep(run[i].item, run[i + 1].item)
    ensures var reply, before, after := Next(run[i], events[i]).1, run[i].item, run[i + 1].item;
            match events[i]
            case Put(id) =>
              var call := run[i].calls[id];
              if reply == ConcurrentUpdate then after == before
              else && before.Some?
                   && reply.Committed? && after == Some(reply.job)
                   && UpdateResult(AsRows(before), before.value.jobId, call.allowed, call.changes, call.now)
                      == Ok(reply.job)
            case Read(id, now) =>
              && after == before
              && (reply.Refused? && before.Some? ==>
                    UpdateResult(AsRows(before), before.value.jobId, run[i].calls[id].allowed,
                                 run[i].calls[id].changes, now)
                    == Err(reply.error))
            case _ => true
  {
    RunKeepsInv(run, events, i);
    assert run[i + 1] == Next(run[i], events[i]).0;
    var s, e := run[i], events[i];
    if e.Put? {
      var call := s.calls[e.id];
      assert FromHistory(s, call);
      if Next(s, e).1.Committed? {
        SameVersionSameRecord(s, call);
        assert UpdateResult(AsRows(s.item), s.item.value.jobId, call.allowed, call.changes, call.now)
               == Ok(Updated(s.item.value, call.changes, call.now));
        assert CommitsAtomically(s.item.value, run[i + 1].item.value);
      }
    }
  }

  /**
   The stored versions of any run are gapless, each record is an atomic update of the one before
   it, and no committed update is ever lost.
   */
  lemma {:induction false} HistoryIsAtomic(run: seq<Table>, events: seq<Event>, i: nat)
    requires IsRun(run, events) && i < |run|
    ensures Gapless(run[i].log)
    ensures forall k | 0 < k < |run[i].log| :: CommitsAtomically(run[i].log[k - 1], run[i].log[k])
    ensures forall j | 0 <= j <= i :: run[j].log <= run[i].log
  {
    RunKeepsInv(run, events, i);
    if i > 0 {
      HistoryIsAtomic(run, events, i - 1);
      RunKeepsInv(run, events, i - 1);
      RefinesAtomicUpdate(run, events, i - 1);
      var before, after := run[i - 1], run[i];
      assert after == Next(before, events[i - 1]).0;
      forall k | 0 < k < |after.log|
        ensures CommitsAtomically(after.log[k - 1], after.log[k])
      {
        if k == |before.log| {
          assert after.item.value == after.log[k];
        }
      }
    }
  }
}
