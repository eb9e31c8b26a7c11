/**
 The SQLite job table.  Every method is one transaction; its effect is the function of the
 same rows that the job protocol is proved over.
 */
module Repository {
  import opened Wrappers
  import opened Domain

  datatype RepositoryError = JobAlreadyExists | JobNotFound | InvalidState(status: Status)

  type Rows = map<JobId, JobRecord>

  function UpdateResult(rows: Rows, id: JobId, allowed: Option<set<Status>>, c: Changes, now: nat)
    : Result<JobRecord, RepositoryError>
  {
    if id !in rows then Err(JobNotFound)
    else if !Admits(allowed, rows[id].status) then Err(InvalidState(rows[id].status))
    else Ok(Updated(rows[id], c, now))
  }

  function ClaimStatus(s: Status): Status {
    if s == QueuedDetection then Detecting else Redacting
  }

  function RequeueStatus(s: Status): Status {
    if s == Detecting then QueuedDetection else QueuedRedaction
  }

  /** What one start-up requeue does to one row. */
  function Requeued(row: JobRecord, now: nat): JobRecord {
    if InFlight(row.status) then Updated(row, Changes(status := Some(RequeueStatus(row.status))), now) else row
  }

  function InFlightIds(rows: Rows): set<JobId> {
    set id | id in rows && InFlight(rows[id].status)
  }

  class SqliteJobRepository {
    var rows: Rows

    ghost predicate Valid()
      reads this
    {
      forall id | id in rows :: rows[id].jobId == id
    }

    constructor ()
      ensures Valid() && rows == map[]
    {
      rows := map[];
    }

    method Create(job: JobRecord) returns (error: Option<RepositoryError>)
      requires Valid()
      modifies this
      ensures Valid()
      ensures job.jobId in old(rows) ==> error == Some(JobAlreadyExists) && rows == old(rows)
      ensures job.jobId !in old(rows) ==> error == None && rows == old(rows)[job.jobId := job]
    {
      if job.jobId in rows {
        return Some(JobAlreadyExists);
      }
      rows := rows[job.jobId := job];
      error := None;
    }

    method Get(id: JobId) returns (job: Option<JobRecord>)
      requires Valid()
      ensures job == if id in rows then Some(rows[id]) else None
      ensures job.Some? ==> job.value.jobId == id
    {
      job := if id in rows then Some(rows[id]) else None;
    }

    method Update(id: JobId, allowed: Option<set<Status>>, c: Changes, now: nat)
      returns (r: Result<JobRecord, RepositoryError>)
      requires Valid()
      modifies this
      ensures Valid()
      ensures r == UpdateResult(old(rows), id, allowed, c, now)
      ensures rows == if r.Ok? then old(rows)[id := r.value] else old(rows)
    {
      if id !in rows {
        return Err(JobNotFound);
      }
      var current := rows[id];
      if allowed.Some? && current.status !in allowed.value {
        return Err(InvalidState(current.status));
      }
      var updated := Updated(current, c, now);
      // The statement's own "version = ?" cannot miss inside the transaction.
      assert rows[id].version == current.version;
      rows := rows[id := updated];
      r := Ok(updated);
    }

    /** Claims a queued row that no other queued row precedes in creation time. */
    method ClaimLocalTask(now: nat) returns (job: Option<JobRecord>)
      requires Valid()
      modifies this
      ensures Valid()
      ensures job.None? ==> rows == old(rows) && forall id | id in rows :: !Queued(rows[id].status)
      ensures job.Some? ==>
                var id := job.value.jobId;
                && id in old(rows) && Queued(old(rows)[id].status)
                && (forall other | other in old(rows) && Queued(old(rows)[other].status) ::
                      old(rows)[id].createdAt <= old(rows)[other].createdAt)
                && job.value == Updated(old(rows)[id], Changes(status := Some(ClaimStatus(old(rows)[id].status))), now)
                && rows == old(rows)[id := job.value]
    {
      var rest := rows.Keys;
      var best: Option<JobRecord> := None;
      while rest != {}
        invariant rest <= rows.Keys
        invariant best.None? ==> forall id | id in rows.Keys - rest :: !Queued(rows[id].status)
        invariant best.Some? ==>
                    && best.value.jobId in rows && rows[best.value.jobId] == best.value && Queued(best.value.status)
                    && forall id | id in rows.Keys - rest && Queued(rows[id].status) ::
                         best.value.createdAt <= rows[id].createdAt
      {
        var id :| id in rest;
        rest := rest - {id};
        var row := rows[id];
        if Queued(row.status) && (best.None? || row.createdAt < best.value.createdAt) {
          best := Some(row);
        }
      }
      if best.None? {
        return None;
      }
      var current := best.value;
      var updated := Updated(current, Changes(status := Some(ClaimStatus(current.status))), now);
      rows := rows[current.jobId := updated];
      job := Some(updated);
    }

    /** Start-up: every interrupted row goes back to the queue it came from, and nothing else moves. */
    method RequeueInFlight(now: nat) returns (count: nat)
      requires Valid()
      modifies this
      ensures Valid()
      ensures rows == map id | id in old(rows) :: Requeued(old(rows)[id], now)
      ensures count == |InFlightIds(old(rows))|
      ensures InFlightIds(rows) == {}
    {
      count := 0;
      ghost var before := rows;
      var rest := InFlightIds(rows);
      while rest != {}
        invariant Valid() && rows.Keys == before.Keys
        invariant rest <= InFlightIds(before)
        invariant forall id | id in before ::
                    rows[id] == if id in rest then before[id] else Requeued(before[id], now)
        invariant count + |rest| == |InFlightIds(before)|
      {
        var id :| id in rest;
        var current := rows[id];
        rows := rows[id := Updated(current, Changes(status := Some(RequeueStatus(current.status))), now)];
        rest := rest - {id};
        count := count + 1;
      }
      assert rows == map id | id in before :: Requeued(before[id], now);
    }
  }
}
