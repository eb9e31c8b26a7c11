/** What holds in every state of every run of the job protocol, and runs that show the limits. */
module JobTheorems {
  import opened Wrappers
  import opened Domain
  import opened Repository
  import opened JobProtocol
  import opened JobInvariant

  // ---------------------------------------------------------------- safety over whole runs

  /** At most one worker loop holds the job, and a job that can be claimed is held by none. */
  lemma ExclusiveWorkers(env: Settings, run: seq<State>, i: nat)
    requires IsRun(env, run) && i < |run|
    ensures forall a, b | a in Workers(run[i].threads) && b in Workers(run[i].threads) :: a == b
    ensures Queued(run[i].row.status) ==> Workers(run[i].threads) == {}
  {
    RunKeepsInv(env, run, i);
  }

  /** Each stored file of a live job is the one that was put there last, and nothing else removes it. */
  lemma FilesAreTheLastOnesStored(env: Settings, run: seq<State>)
    requires IsRun(env, run)
    ensures forall i | 0 <= i < |run| && Live(run[i]) :: AllTracked(run[i].blobs, run[i].history)
  {
    RunKeepsInv(env, run, |run| - 1);
  }

  /** No client has put another value there since a worker had it. */
  predicate Untouched<T(==)>(last: Last<T>, value: T) {
    last == AtWorker || last == FromClient(value)
  }

  /**
   Whatever its client did, a finished job's output passed every check and the counters describe it.
   It is the rendering of the stored document exactly when no upload has put another there since the
   worker loaded it, and of the stored manifest exactly when no finalize has put another there since
   the worker read it.  It is gone exactly when a rejected submit has deleted it.
   */
  lemma CompleteMeansRendered(env: Settings, run: seq<State>, i: nat)
    requires IsRun(env, run) && i < |run| && run[i].row.status == Complete
    ensures var b, h := run[i].blobs, run[i].history;
            && (b.output.Some? <==> h.output != Absent)
            && (b.output.Some? ==>
                  && OutputAccepted(env, run[i].row, b.output.value)
                  && (b.source == Some(b.output.value.source) <==> Untouched(h.source, b.output.value.source))
                  && (b.approved == Some(b.output.value.manifest) <==> Untouched(h.approved, b.output.value.manifest)))
            && (!h.stray ==> b.output.Some? && b.source == Some(b.output.value.source))
  {
    RunKeepsInv(env, run, i);
  }

  /**
   Files of a job that is gone: either a cleanup pass will still pick the row up, or a worker is still
   on the job and ends by deleting its files or by releasing it, or the job's history is late.
   */
  lemma ResidueHasAnOwner(env: Settings, run: seq<State>, i: nat)
    requires IsRun(env, run) && i < |run|
    requires Terminal(run[i].row.status) && run[i].blobs != NO_BLOBS
    ensures || (run[i].row.status == Deleted && MayBegin(run[i], ExpireSweep))
            || Held(run[i])
            || run[i].late
  {
    RunKeepsInv(env, run, i);
  }

  lemma HeldByAWorker(s: State)
    ensures Held(s) ==> Workers(s.threads) != {}
  {
    if Held(s) {
      var t :| t in s.threads && Responsible(s.threads[t]);
      assert t in Workers(s.threads);
    }
  }

  /** For an expired job that no worker holds, a late history is exactly what leaves files. */
  lemma ExpiredResidueIsExactlyLate(env: Settings, run: seq<State>, i: nat)
    requires IsRun(env, run) && i < |run|
    requires run[i].row.status == Expired && Workers(run[i].threads) == {}
    ensures run[i].blobs != NO_BLOBS <==> run[i].late
  {
    RunKeepsInv(env, run, i);
    HeldByAWorker(run[i]);
  }

  /** How many more steps a worker can take once its job is gone. */
  function StepsLeft(pc: Pc): nat {
    match pc
    case DetectLoad(_) => 3
    case DetectCount(_, _) => 2
    case PreviewCheck(_, doc, page) => if page < doc.pages then 2 else 8 + doc.pages
    case PreviewPut(_, doc, _) => 9 + doc.pages
    case DetectModel(_, doc, done) => 7 + if done < doc.pages then doc.pages - done else 0
    case DetectCheck(_, _, _) => 6
    case DetectReport(_, _, _) => 5
    case DraftPut(_, _, _) => 4
    case ApprovePut(_, _) => 3
    case StartRedacting(_, _) => 2
    case ToReview(_, _) => 2
    case Release => 1
    case RedactLoad => 9
    case RedactManifest(_) => 8
    case Render(_, _) => 7
    case OutputCheck(_, _) => 6
    case OutputPut(_, _) => 5
    case MarkComplete(_, _) => 4
    case CompleteRecheck => 3
    case CompleteSweep => 2
    case FailRead(_) => 1
    case _ => 0
  }

  lemma LateDetectMove(s: State, pc: Pc, o: Outcome)
    requires InDetect(pc) && DetectMoves(s, pc, o) && Terminal(s.row.status)
    ensures o.next.Some? && Responsible(o.next.value) && StepsLeft(o.next.value) < StepsLeft(pc)
  {
  }

  lemma LateRedactMove(env: Settings, s: State, pc: Pc, o: Outcome)
    requires InRedact(pc) && RedactMoves(env, s, pc, o) && Terminal(s.row.status)
    ensures o.next.Some? && Responsible(o.next.value) && StepsLeft(o.next.value) < StepsLeft(pc)
  {
  }

  /**
   Once the job is gone, every move of its worker brings it closer to its end, and when it ends
   it leaves nothing behind, unless it ends by releasing the job.
   */
  lemma LateWorkerEndsClean(env: Settings, s: State, pc: Pc, o: Outcome)
    requires Responsible(pc) && Terminal(s.row.status) && Moves(env, s, pc, o)
    ensures if o.next.Some? then Responsible(o.next.value) && StepsLeft(o.next.value) < StepsLeft(pc)
            else pc.Release? || o.blobs == NO_BLOBS
  {
    if InDetect(pc) {
      LateDetectMove(s, pc, o);
    } else if InRedact(pc) {
      LateRedactMove(env, s, pc, o);
    }
  }

  /** The approved and the draft manifest have the page count that detection put on the record. */
  predicate CountsAgree(row: JobRecord, blobs: Blobs) {
    row.pageCount.Some? && SameCount(row, blobs.draft) && SameCount(row, blobs.approved)
  }

  /**
   What a job that waits or is in flight has.  Its source and its manifests are there unless a rejected
   submit deleted them, and manifests always agree on the page count.  As long as no upload or rejected
   submit wrote late, a redaction has all three files with one page count; and as long as none wrote
   under another submit's checks either, the source is the one that was checked.
   */
  lemma ClaimedTaskHasItsFiles(env: Settings, run: seq<State>, i: nat)
    requires IsRun(env, run) && i < |run|
    requires Queued(run[i].row.status) || InFlight(run[i].row.status)
    ensures var b, row, h := run[i].blobs, run[i].row, run[i].history;
            var redaction := row.status == QueuedRedaction || row.status == Redacting;
            && (b.source.Some? <==> h.source != Absent)
            && (b.draft.Some? <==> h.draft != Absent)
            && (b.approved.Some? <==> h.approved != Absent)
            && (redaction ==> CountsAgree(row, b))
            && (redaction && !h.stray ==>
                  && b.source.Some? && b.draft.Some? && b.approved.Some?
                  && row.pageCount == Some(b.source.value.pages))
            && (!h.stray && !h.swapped ==> b.source.Some? && Submittable(env, b.source.value))
  {
    RunKeepsInv(env, run, i);
  }

  /**
   The worker's manifest_document_mismatch error on a live job: it occurs exactly when the document the
   worker loaded has another page count than the one that was detected, so only after a stray upload.
   */
  lemma MismatchMeansAnotherDocument(env: Settings, run: seq<State>, i: nat, t: nat)
    requires IsRun(env, run) && i < |run| && Live(run[i])
    requires t in run[i].threads && run[i].threads[t].RedactManifest?
    ensures var row, b, h, doc := run[i].row, run[i].blobs, run[i].history, run[i].threads[t].doc;
            && (b.approved.Some? <==> h.approved != Absent)
            && (b.approved.Some? ==> (b.approved.value.pageCount != doc.pages <==> row.pageCount != Some(doc.pages)))
            && (!h.stray ==> b.approved.Some? && row.pageCount == Some(doc.pages))
  {
    RunKeepsInv(env, run, i);
    EachHasData(env, run[i], t);
  }

  /** Reported progress never passes the page count. */
  lemma ProgressIsBounded(env: Settings, run: seq<State>, i: nat)
    requires IsRun(env, run) && i < |run| && Live(run[i])
    ensures run[i].row.pageCount.Some? ==> run[i].row.pagesCompleted <= run[i].row.pageCount.value
    ensures run[i].row.pageCount.None? ==> run[i].row.pagesCompleted == 0
  {
    RunKeepsInv(env, run, i);
  }

  // ---------------------------------------------------------------- the status graph

  predicate Edge(a: Status, b: Status) {
    match a
    case AwaitingUpload => b in {QueuedDetection, Failed, Deleted}
    case QueuedDetection => b in {Detecting, Deleted}
    case Detecting => b in {QueuedDetection, ReviewRequired, Redacting, Failed, Deleted}
    case ReviewRequired => b in {QueuedRedaction, Deleted}
    case QueuedRedaction => b in {Redacting, Deleted}
    case Redacting => b in {QueuedRedaction, Complete, ReviewRequired, Failed, Deleted}
    case Complete => b in {QueuedRedaction, Deleted}
    case Failed => b == Deleted
    case Deleted => b == Expired
    case Expired => b == Deleted
  }

  /** A step that changes the record commits exactly one version, along an edge of the graph. */
  predicate Committed(a: JobRecord, b: JobRecord) {
    b.version == a.version + 1 && (b.status == a.status || Edge(a.status, b.status)) && b.jobId == a.jobId
  }

  lemma RequestMoveCommits(env: Settings, s: State, pc: Pc, o: Outcome)
    requires IsRequest(pc) && Placed(pc, s.row.status) && RequestMoves(env, s, pc, o)
    ensures o.row == s.row || Committed(s.row, o.row)
  {
  }

  lemma RetentionMoveCommits(s: State, pc: Pc, o: Outcome)
    requires IsRetention(pc) && Placed(pc, s.row.status) && RetentionMoves(s, pc, o)
    ensures o.row == s.row || Committed(s.row, o.row)
  {
  }

  lemma SettleMoveCommits(s: State, pc: Pc, o: Outcome)
    requires IsWorker(pc) && !InDetect(pc) && !InRedact(pc) && Placed(pc, s.row.status) && SettleMoves(s, pc, o)
    ensures o.row == s.row || Committed(s.row, o.row)
  {
  }

  lemma MoveCommits(env: Settings, s: State, pc: Pc, o: Outcome)
    requires Placed(pc, s.row.status) && Moves(env, s, pc, o)
    ensures o.row == s.row || Committed(s.row, o.row)
  {
    if IsRequest(pc) {
      RequestMoveCommits(env, s, pc, o);
    } else if IsRetention(pc) {
      RetentionMoveCommits(s, pc, o);
    } else if InDetect(pc) {
      DetectMoveCommits(s, pc, o);
    } else if IsWorker(pc) && !InRedact(pc) {
      SettleMoveCommits(s, pc, o);
    }
  }

  lemma DetectMoveCommits(s: State, pc: Pc, o: Outcome)
    requires InDetect(pc) && Placed(pc, s.row.status) && DetectMoves(s, pc, o)
    ensures o.row == s.row || Committed(s.row, o.row)
  {
  }

  lemma StepCommits(env: Settings, s: State, s': State)
    requires Inv(env, s) && Step(env, s, s')
    ensures s'.row == s.row || Committed(s.row, s'.row)
  {
    var l: Label :| Allowed(env, s, l) && s' == Effect(s, l);
    if l.Advance? {
      MoveCommits(env, s, s.threads[l.thread], l.o);
    }
  }

  lemma StepsFollowTheGraph(env: Settings, run: seq<State>, i: nat)
    requires IsRun(env, run) && 0 < i < |run|
    ensures run[i].row == run[i - 1].row || Committed(run[i - 1].row, run[i].row)
  {
    RunKeepsInv(env, run, i - 1);
    assert StepAt(env, run, i);
    StepCommits(env, run[i - 1], run[i]);
  }

  /** A job that is gone stays gone: nothing brings it back to a status a client can see. */
  lemma {:induction false} GoneStaysGone(env: Settings, run: seq<State>, i: nat, j: nat)
    requires IsRun(env, run) && i <= j < |run| && Terminal(run[i].row.status)
    ensures Terminal(run[j].row.status)
    ensures run[i].row.version <= run[j].row.version
  {
    if i < j {
      GoneStaysGone(env, run, i, j - 1);
      StepsFollowTheGraph(env, run, j);
    }
  }
}
