/**
 Runs that reach the states the theorems exclude: each shows that the history condition of the
 theorem it belongs to cannot be dropped.
 */
module JobWitnesses {
  import opened Wrappers
  import opened Domain
  import opened Repository
  import opened JobProtocol
  import opened JobInvariant

  ghost predicate Reachable(env: Settings, s: State) {
    exists run :: IsRun(env, run) && run[|run| - 1] == s
  }

  lemma InitIsReachable(env: Settings, s: State)
    requires Init(s)
    ensures Reachable(env, s)
  {
    assert IsRun(env, [s]);
  }

  lemma RunGrows(env: Settings, run: seq<State>, s': State)
    requires IsRun(env, run) && Step(env, run[|run| - 1], s')
    ensures IsRun(env, run + [s'])
  {
    var longer := run + [s'];
    forall i | 0 < i < |longer|
      ensures StepAt(env, longer, i)
    {
      assert i < |run| ==> StepAt(env, run, i) && longer[i] == run[i];
      assert longer[i - 1] == run[i - 1];
    }
  }

  lemma OneStep(env: Settings, s: State, l: Label)
    requires Allowed(env, s, l)
    ensures Step(env, s, Effect(s, l))
  {
  }

  lemma ReachableStep(env: Settings, s: State, s': State)
    requires Reachable(env, s) && Step(env, s, s')
    ensures Reachable(env, s')
  {
    var run :| IsRun(env, run) && run[|run| - 1] == s;
    RunGrows(env, run, s');
    var longer := run + [s'];
    assert IsRun(env, longer) && longer[|longer| - 1] == s';
  }

  lemma Then(env: Settings, s: State, l: Label) returns (s': State)
    requires Reachable(env, s) && Allowed(env, s, l)
    ensures s' == Effect(s, l) && Reachable(env, s')
  {
    s' := Effect(s, l);
    OneStep(env, s, l);
    ReachableStep(env, s, s');
  }

  /** One move of thread `t`, with the new state's fields spelled out. */
  lemma Move(env: Settings, s: State, t: nat, o: Outcome) returns (s': State)
    requires Reachable(env, s) && t in s.threads && Moves(env, s, s.threads[t], o)
    ensures Reachable(env, s')
    ensures s' == s.(row := o.row, blobs := o.blobs, threads := Resume(s.threads, t, o.next),
                     history := Recorded(s, s.threads[t], o), late := NowLate(s, s.threads[t]))
  {
    s' := Then(env, s, Advance(t, o));
  }

  /** Nothing happened to the source behind the upload stage in this step. */
  predicate SameDeviations(s: State, s': State) {
    (s'.history.stray, s'.history.swapped) == (s.history.stray, s.history.swapped)
  }

  lemma MoveRequest(env: Settings, s: State, t: nat, o: Outcome) returns (s': State)
    requires Reachable(env, s) && t in s.threads && IsRequest(s.threads[t]) && RequestMoves(env, s, s.threads[t], o)
    ensures Reachable(env, s')
    ensures s' == s.(row := o.row, blobs := o.blobs, threads := Resume(s.threads, t, o.next),
                     history := Recorded(s, s.threads[t], o), late := NowLate(s, s.threads[t]))
  {
    s' := Move(env, s, t, o);
  }

  lemma MoveRetention(env: Settings, s: State, t: nat, o: Outcome) returns (s': State)
    requires Reachable(env, s) && t in s.threads && IsRetention(s.threads[t]) && RetentionMoves(s, s.threads[t], o)
    ensures Reachable(env, s')
    ensures s' == s.(row := o.row, blobs := o.blobs, threads := Resume(s.threads, t, o.next),
                     late := s.late && !Sweeps(s.threads[t]))
  {
    s' := Move(env, s, t, o);
  }

  lemma MoveDetect(env: Settings, s: State, t: nat, o: Outcome) returns (s': State)
    requires Reachable(env, s) && t in s.threads && InDetect(s.threads[t]) && DetectMoves(s, s.threads[t], o)
    ensures Reachable(env, s') && SameDeviations(s, s')
    ensures s' == s.(row := o.row, blobs := o.blobs, threads := Resume(s.threads, t, o.next), history := s'.history)
  {
    hide DetectMoves;
    s' := Move(env, s, t, o);
  }

  lemma MoveRedact(env: Settings, s: State, t: nat, o: Outcome) returns (s': State)
    requires Reachable(env, s) && t in s.threads && InRedact(s.threads[t]) && RedactMoves(env, s, s.threads[t], o)
    ensures Reachable(env, s') && SameDeviations(s, s')
    ensures s' == s.(row := o.row, blobs := o.blobs, threads := Resume(s.threads, t, o.next), history := s'.history)
  {
    hide RedactMoves;
    s' := Move(env, s, t, o);
  }

  // A job of one page with no checks that can fail.

  const TO_DETECTION := Changes(status := Some(QueuedDetection), errorCode := Some(None))
  const TO_REDACTION := Changes(status := Some(QueuedRedaction), findingCount := Some(0), autoFinalize := Some(false),
                                errorCode := Some(None))
  const SETTINGS := Settings(1, 1, (d: Document, m: Manifest) => true)
  const DOC := Document(0, 1, true, 1)
  const ROW := JobRecord("job", AwaitingUpload, 0, 10, 0, None, 0, 0, None, false, 1)
  const START := State(0, true, ROW, NO_BLOBS, map[], NO_HISTORY, false)

  /** What the runs below keep track of. */
  datatype Scene = Scene(
    status: Status,
    pageCount: Option<nat>,
    blobs: Blobs,
    threads: map<nat, Pc>,
    expiresAt: nat,
    autoFinalize: bool,
    now: nat,
    running: bool,
    stray: bool,
    swapped: bool,
    late: bool)

  function SceneOf(s: State): Scene {
    Scene(s.row.status, s.row.pageCount, s.blobs, s.threads, s.row.expiresAt, s.row.autoFinalize, s.now, s.running,
          s.history.stray, s.history.swapped, s.late)
  }

  /** Some run of the example job leads to the scene. */
  ghost predicate Reaches(scene: Scene) {
    exists s :: Reachable(SETTINGS, s) && SceneOf(s) == scene
  }

  lemma At(scene: Scene) returns (s: State)
    requires Reaches(scene)
    ensures Reachable(SETTINGS, s) && SceneOf(s) == scene
  {
    s :| Reachable(SETTINGS, s) && SceneOf(s) == scene;
  }

  /** Nothing unusual has happened so far. */
  function Calm(status: Status, pageCount: Option<nat>, blobs: Blobs, threads: map<nat, Pc>): Scene {
    Scene(status, pageCount, blobs, threads, 10, false, 0, true, false, false, false)
  }

  /** A client deletes the job: tombstone, then sweep. */
  lemma ClientDeletes(s: State) returns (s': State)
    requires Reachable(SETTINGS, s) && !Terminal(s.row.status) && 8 !in s.threads
    ensures Reachable(SETTINGS, s')
    ensures SceneOf(s') == SceneOf(s).(status := Deleted, expiresAt := s.now, blobs := NO_BLOBS, late := false)
  {
    s' := Then(SETTINGS, s, Begin(8, DeleteTombstone));
    s' := MoveRetention(SETTINGS, s', 8,
                        Guarded(s', None, TOMBSTONE.(expiresAt := Some(s'.now)), Some(DeleteSweep), None));
    s' := MoveRetention(SETTINGS, s', 8, Store(s', NO_BLOBS, None));
  }

  /** The cleaner sweeps a tombstone and marks it expired. */
  lemma CleanerExpires(s: State) returns (s': State)
    requires Reachable(SETTINGS, s) && s.row.status == Deleted && s.row.expiresAt <= s.now && 9 !in s.threads
    ensures Reachable(SETTINGS, s')
    ensures SceneOf(s') == SceneOf(s).(status := Expired, blobs := NO_BLOBS, late := false)
  {
    s' := Then(SETTINGS, s, Begin(9, ExpireSweep));
    s' := MoveRetention(SETTINGS, s', 9, Store(s', NO_BLOBS, Some(ExpireMark)));
    s' := MoveRetention(SETTINGS, s', 9,
                        Guarded(s', Some({Deleted}), Changes(status := Some(Expired), errorCode := Some(None)),
                                None, None));
  }

  const UPLOAD_OVERTAKEN := Calm(Expired, None, NO_BLOBS, map[1 := UploadPut(DOC)]).(expiresAt := 0)

  /** An upload has checked the status, and the job is deleted and expired before it writes. */
  lemma UploadOvertaken()
    ensures Reaches(UPLOAD_OVERTAKEN)
  {
    InitIsReachable(SETTINGS, START);
    var s := Then(SETTINGS, START, Begin(1, UploadPut(DOC)));
    s := ClientDeletes(s);
    s := CleanerExpires(s);
  }

  /** An upload that checked the status before the deletion leaves its file on an expired job. */
  lemma UploadAfterDeletionLeavesFile()
    ensures Reaches(Calm(Expired, None, NO_BLOBS.(source := Some(DOC)), map[])
                    .(expiresAt := 0, stray := true, late := true))
  {
    UploadOvertaken();
    var s := At(UPLOAD_OVERTAKEN);
    s := MoveRequest(SETTINGS, s, 1, Store(s, s.blobs.(source := Some(DOC)), None));
    assert s.threads == map[];
  }

  const SUBMITTING := Calm(AwaitingUpload, None, NO_BLOBS.(source := Some(DOC)), map[1 := SubmitHead])

  lemma Submitting()
    ensures Reaches(SUBMITTING)
  {
    InitIsReachable(SETTINGS, START);
    var s := Then(SETTINGS, START, Begin(1, UploadPut(DOC)));
    s := MoveRequest(SETTINGS, s, 1, Store(s, s.blobs.(source := Some(DOC)), None));
    s := Then(SETTINGS, s, Begin(1, SubmitHead));
  }

  const CLAIMED := Calm(Detecting, None, NO_BLOBS.(source := Some(DOC)), map[2 := DetectLoad(false)])

  lemma Claimed()
    ensures Reaches(CLAIMED)
  {
    Submitting();
    var s := At(SUBMITTING);
    s := MoveRequest(SETTINGS, s, 1, Go(s, SubmitSignature));
    s := MoveRequest(SETTINGS, s, 1, Go(s, SubmitQueue));
    s := MoveRequest(SETTINGS, s, 1, Guarded(s, Some({AwaitingUpload}), TO_DETECTION, None, None));
    s := Then(SETTINGS, s, Claim(2));
    assert s.threads == map[2 := DetectLoad(false)];
  }

  const LONG := Document(1, 1, true, 3)

  const UPLOAD_PENDING := Calm(QueuedDetection, None, NO_BLOBS.(source := Some(DOC)), map[5 := UploadPut(LONG)])

  /** A second upload checked the status before the submit queued the job. */
  lemma UploadPending()
    ensures Reaches(UPLOAD_PENDING)
  {
    Submitting();
    var s := At(SUBMITTING);
    s := Then(SETTINGS, s, Begin(5, UploadPut(LONG)));
    s := MoveRequest(SETTINGS, s, 1, Go(s, SubmitSignature));
    s := MoveRequest(SETTINGS, s, 1, Go(s, SubmitQueue));
    s := MoveRequest(SETTINGS, s, 1, Guarded(s, Some({AwaitingUpload}), TO_DETECTION, None, None));
    assert s.threads == map[5 := UploadPut(LONG)];
  }

  /** It lands when the worker has counted one page: now the stored document has three. */
  lemma StrayUploadReplacesTheDocument()
    ensures Reaches(Calm(Detecting, Some(1), NO_BLOBS.(source := Some(LONG)), map[2 := PreviewCheck(false, DOC, 0)])
                    .(stray := true))
  {
    UploadPending();
    var s := At(UPLOAD_PENDING);
    s := Then(SETTINGS, s, Claim(2));
    s := MoveDetect(SETTINGS, s, 2, Go(s, DetectCount(false, DOC)));
    s := MoveDetect(SETTINGS, s, 2,
                    Guarded(s, Some({Detecting}), Changes(pageCount := Some(1), pagesCompleted := Some(0)),
                            Some(PreviewCheck(false, DOC, 0)), CONFLICT));
    s := MoveRequest(SETTINGS, s, 5, Store(s, s.blobs.(source := Some(LONG)), None));
    assert s.threads == map[2 := PreviewCheck(false, DOC, 0)];
  }

  const OTHER_TYPE := Document(2, 1, false, 1)
  const MISMATCH := "file_signature_mismatch"

  const WRONG_FILE_UPLOADED := Calm(AwaitingUpload, None, NO_BLOBS.(source := Some(OTHER_TYPE)), map[])

  lemma WrongFileUploaded()
    ensures Reaches(WRONG_FILE_UPLOADED)
  {
    InitIsReachable(SETTINGS, START);
    var s := Then(SETTINGS, START, Begin(1, UploadPut(OTHER_TYPE)));
    s := MoveRequest(SETTINGS, s, 1, Store(s, s.blobs.(source := Some(OTHER_TYPE)), None));
  }

  const REJECTING := Calm(AwaitingUpload, None, NO_BLOBS.(source := Some(OTHER_TYPE)), map[1 := SubmitReject(MISMATCH)])

  /** A submit is about to delete a file whose first bytes are not those of its type. */
  lemma Rejecting()
    ensures Reaches(REJECTING)
  {
    WrongFileUploaded();
    var s := At(WRONG_FILE_UPLOADED);
    s := Then(SETTINGS, s, Begin(1, SubmitHead));
    s := MoveRequest(SETTINGS, s, 1, Go(s, SubmitSignature));
    s := MoveRequest(SETTINGS, s, 1, Go(s, SubmitReject(MISMATCH)));
    assert s.threads == map[1 := SubmitReject(MISMATCH)];
  }

  const REUPLOADED := Calm(AwaitingUpload, None, NO_BLOBS.(source := Some(DOC)), map[1 := SubmitReject(MISMATCH)])

  lemma Reuploaded()
    ensures Reaches(REUPLOADED)
  {
    Rejecting();
    var s := At(REJECTING);
    s := Then(SETTINGS, s, Begin(5, UploadPut(DOC)));
    s := MoveRequest(SETTINGS, s, 5, Store(s, s.blobs.(source := Some(DOC)), None));
    assert s.threads == map[1 := SubmitReject(MISMATCH)];
  }

  const RESUBMITTED :=
    Calm(AwaitingUpload, None, NO_BLOBS.(source := Some(DOC)),
         map[1 := SubmitReject(MISMATCH), 6 := SubmitQueue])

  /** Meanwhile the right file is uploaded and a second submit has checked it. */
  lemma Resubmitted()
    ensures Reaches(RESUBMITTED)
  {
    Reuploaded();
    var s := At(REUPLOADED);
    s := Then(SETTINGS, s, Begin(6, SubmitHead));
    s := MoveRequest(SETTINGS, s, 6, Go(s, SubmitSignature));
    s := MoveRequest(SETTINGS, s, 6, Go(s, SubmitQueue));
    assert s.threads == map[1 := SubmitReject(MISMATCH), 6 := SubmitQueue];
  }

  /** The late rejection deletes every file of a job that is already queued. */
  lemma LateRejectionEmptiesAQueuedJob()
    ensures Reaches(Calm(QueuedDetection, None, NO_BLOBS, map[1 := SubmitFail(MISMATCH)]).(stray := true))
  {
    Resubmitted();
    var s := At(RESUBMITTED);
    s := MoveRequest(SETTINGS, s, 6, Guarded(s, Some({AwaitingUpload}), TO_DETECTION, None, None));
    s := MoveRequest(SETTINGS, s, 1, Store(s, NO_BLOBS, Some(SubmitFail(MISMATCH))));
  }

  /** The same without a stray write: the rejection comes between the other submit's checks and its queueing. */
  lemma RejectionUnderAnotherSubmit()
    ensures Reaches(Calm(QueuedDetection, None, NO_BLOBS, map[1 := SubmitFail(MISMATCH)]).(swapped := true))
  {
    Resubmitted();
    var s := At(RESUBMITTED);
    assert Checking(s.threads) by {
      assert 6 in s.threads && s.threads[6].SubmitQueue?;
    }
    s := MoveRequest(SETTINGS, s, 1, Store(s, NO_BLOBS, Some(SubmitFail(MISMATCH))));
    s := MoveRequest(SETTINGS, s, 6, Guarded(s, Some({AwaitingUpload}), TO_DETECTION, None, None));
  }

  const PREVIEWING := Calm(Detecting, Some(1), NO_BLOBS.(source := Some(DOC)), map[2 := PreviewPut(false, DOC, 0)])

  /** The worker has rendered its only preview and is about to write it. */
  lemma Previewing()
    ensures Reaches(PREVIEWING)
  {
    Claimed();
    var s := At(CLAIMED);
    s := MoveDetect(SETTINGS, s, 2, Go(s, DetectCount(false, DOC)));
    s := MoveDetect(SETTINGS, s, 2,
                    Guarded(s, Some({Detecting}), Changes(pageCount := Some(1), pagesCompleted := Some(0)),
                            Some(PreviewCheck(false, DOC, 0)), CONFLICT));
    s := MoveDetect(SETTINGS, s, 2, Go(s, PreviewPut(false, DOC, 0)));
    assert s.threads == map[2 := PreviewPut(false, DOC, 0)];
  }

  const RELEASING := Calm(Expired, Some(1), NO_BLOBS.(previews := {0}), map[2 := Release]).(expiresAt := 0)

  /** The job is deleted and expired before the preview is written, and then the model server is lost. */
  lemma Releasing()
    ensures Reaches(RELEASING)
  {
    Previewing();
    var s := At(PREVIEWING);
    s := ClientDeletes(s);
    s := CleanerExpires(s);
    s := MoveDetect(SETTINGS, s, 2, Store(s, s.blobs.(previews := {0}), Some(PreviewCheck(false, DOC, 1))));
    s := MoveDetect(SETTINGS, s, 2, Go(s, DetectModel(false, DOC, 0)));
    s := MoveDetect(SETTINGS, s, 2, Go(s, Release));
    assert s.threads == map[2 := Release];
  }

  /** A worker that loses the model server releases the job without a sweep: its preview stays. */
  lemma ReleaseAfterDeletionLeavesPreview()
    ensures Reaches(Calm(Expired, Some(1), NO_BLOBS.(previews := {0}), map[]).(expiresAt := 0, late := true))
  {
    Releasing();
    var s := At(RELEASING);
    s := Move(SETTINGS, s, 2, End(s));
    assert s.threads == map[];
  }

  const DRAFT := Manifest(1, [], 0)
  const FIRST := Manifest(1, [], 90)
  const SECOND := Manifest(1, [], 180)

  const DETECTED :=
    Calm(Detecting, Some(1), Blobs(Some(DOC), None, None, None, {0}), map[2 := DetectCheck(false, DOC, [])])

  /** The model has read the only page. */
  lemma Detected()
    ensures Reaches(DETECTED)
  {
    Previewing();
    var s := At(PREVIEWING);
    s := MoveDetect(SETTINGS, s, 2, Store(s, s.blobs.(previews := {0}), Some(PreviewCheck(false, DOC, 1))));
    s := MoveDetect(SETTINGS, s, 2, Go(s, DetectModel(false, DOC, 0)));
    s := MoveDetect(SETTINGS, s, 2, Guarded(s, Some({Detecting}), Changes(pagesCompleted := Some(1)),
                                            Some(DetectModel(false, DOC, 1)), Some(DetectModel(false, DOC, 1))));
    s := MoveDetect(SETTINGS, s, 2, Go(s, DetectCheck(false, DOC, [])));
    assert s.threads == map[2 := DetectCheck(false, DOC, [])];
  }

  const REVIEWABLE := Calm(ReviewRequired, Some(1), Blobs(Some(DOC), Some(DRAFT), None, None, {0}), map[])

  lemma Reviewable()
    ensures Reaches(REVIEWABLE)
  {
    Detected();
    var s := At(DETECTED);
    s := MoveDetect(SETTINGS, s, 2, Go(s, DetectReport(false, DOC, [])));
    s := MoveDetect(SETTINGS, s, 2,
                    Guarded(s, Some({Detecting}), Changes(pagesCompleted := Some(1), findingCount := Some(0)),
                            Some(DraftPut(false, DOC, DRAFT)), CONFLICT));
    s := MoveDetect(SETTINGS, s, 2, Store(s, s.blobs.(draft := Some(DRAFT)), Some(ToReview(DOC, DRAFT))));
    s := MoveDetect(SETTINGS, s, 2,
                    Guarded(s, Some({Detecting}), Changes(status := Some(ReviewRequired), findingCount := Some(0)),
                            None, CONFLICT));
    assert s.threads == map[];
  }

  const FINALIZES_BEGIN :=
    Calm(ReviewRequired, Some(1), Blobs(Some(DOC), Some(DRAFT), None, None, {0}),
         map[1 := FinalizeRead(ReviewRequired, [], 90), 4 := FinalizeRead(ReviewRequired, [], 180)])

  lemma FinalizesBegin()
    ensures Reaches(FINALIZES_BEGIN)
  {
    Reviewable();
    var s := At(REVIEWABLE);
    s := Then(SETTINGS, s, Begin(1, FinalizeRead(ReviewRequired, [], 90)));
    s := Then(SETTINGS, s, Begin(4, FinalizeRead(ReviewRequired, [], 180)));
  }

  const TWO_FINALIZES :=
    Calm(ReviewRequired, Some(1), Blobs(Some(DOC), Some(DRAFT), None, None, {0}),
         map[1 := FinalizePut(ReviewRequired, FIRST), 4 := FinalizePut(ReviewRequired, SECOND)])

  /** Two finalize requests have both checked the status before either stored its manifest. */
  lemma TwoFinalizes()
    ensures Reaches(TWO_FINALIZES)
  {
    FinalizesBegin();
    var s := At(FINALIZES_BEGIN);
    s := MoveRequest(SETTINGS, s, 4, Go(s, FinalizePut(ReviewRequired, SECOND)));
    s := MoveRequest(SETTINGS, s, 1, Go(s, FinalizePut(ReviewRequired, FIRST)));
    assert s.threads == map[1 := FinalizePut(ReviewRequired, FIRST), 4 := FinalizePut(ReviewRequired, SECOND)];
  }

  const FIRST_IS_QUEUED :=
    Calm(QueuedRedaction, Some(1), Blobs(Some(DOC), Some(DRAFT), Some(FIRST), None, {0}),
         map[4 := FinalizePut(ReviewRequired, SECOND)])

  lemma FirstIsQueued()
    ensures Reaches(FIRST_IS_QUEUED)
  {
    TwoFinalizes();
    var s := At(TWO_FINALIZES);
    s := MoveRequest(SETTINGS, s, 1,
                     Store(s, s.blobs.(approved := Some(FIRST)), Some(FinalizeQueue(ReviewRequired, FIRST))));
    s := MoveRequest(SETTINGS, s, 1, Guarded(s, Some({ReviewRequired}), TO_REDACTION, None, None));
    assert s.threads == map[4 := FinalizePut(ReviewRequired, SECOND)];
  }

  const FIRST_IS_CLAIMED :=
    Calm(Redacting, Some(1), Blobs(Some(DOC), Some(DRAFT), Some(FIRST), None, {0}),
         map[3 := RedactLoad, 4 := FinalizePut(ReviewRequired, SECOND)])

  /** The first manifest is queued and claimed. */
  lemma FirstIsClaimed()
    ensures Reaches(FIRST_IS_CLAIMED)
  {
    FirstIsQueued();
    var s := At(FIRST_IS_QUEUED);
    s := Then(SETTINGS, s, Claim(3));
    assert s.threads == map[3 := RedactLoad, 4 := FinalizePut(ReviewRequired, SECOND)];
  }

  const SECOND_OVERTAKES :=
    Calm(Redacting, Some(1), Blobs(Some(DOC), Some(DRAFT), Some(SECOND), None, {0}),
         map[3 := Render(DOC, FIRST)])

  /** The second manifest is stored while the first is being rendered. */
  lemma SecondOvertakes()
    ensures Reaches(SECOND_OVERTAKES)
  {
    FirstIsClaimed();
    var s := At(FIRST_IS_CLAIMED);
    s := MoveRedact(SETTINGS, s, 3, Go(s, RedactManifest(DOC)));
    s := MoveRedact(SETTINGS, s, 3, Go(s, Render(DOC, FIRST)));
    s := MoveRequest(SETTINGS, s, 4,
                     Store(s, s.blobs.(approved := Some(SECOND)), Some(FinalizeQueue(ReviewRequired, SECOND))));
    s := MoveRequest(SETTINGS, s, 4, End(s));
    assert s.threads == map[3 := Render(DOC, FIRST)];
  }

  /** The job completes with an output that is not the rendering of its stored manifest. */
  lemma OverlappingFinalizesSplitOutputFromManifest()
    ensures Reaches(Calm(Complete, Some(1),
                         Blobs(Some(DOC), Some(DRAFT), Some(SECOND), Some(Output(DOC, FIRST)), {0}), map[]))
  {
    SecondOvertakes();
    var s := At(SECOND_OVERTAKES);
    s := MoveRedact(SETTINGS, s, 3, Go(s, OutputCheck(DOC, FIRST)));
    s := MoveRedact(SETTINGS, s, 3, Go(s, OutputPut(DOC, FIRST)));
    s := MoveRedact(SETTINGS, s, 3,
                    Store(s, s.blobs.(output := Some(Output(DOC, FIRST))), Some(MarkComplete(DOC, FIRST))));
    s := MoveRedact(SETTINGS, s, 3, Guarded(s, Some({Redacting}),
                                            Changes(status := Some(Complete), pagesCompleted := Some(1),
                                                    findingCount := Some(0), errorCode := Some(None)),
                                            None, Some(CompleteRecheck)));
    assert s.threads == map[];
  }
}
