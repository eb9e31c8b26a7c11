/** The invariant of the job protocol and its preservation by every step. */
module JobInvariant {
  import opened Wrappers
  import opened Domain
  import opened Repository
  import opened JobProtocol

  predicate Live(s: State) {
    !Terminal(s.row.status)
  }

  /** Before and after detection is done. */
  predicate Early(status: Status) {
    status in {AwaitingUpload, QueuedDetection, Detecting}
  }

  predicate Past(status: Status) {
    status in {ReviewRequired, QueuedRedaction, Redacting, Complete}
  }

  // ---------------------------------------------------------------- what each counter implies

  /** The status a thread's position implies, whatever the other threads did. */
  predicate Placed(pc: Pc, status: Status) {
    && (InDetect(pc) || pc.Release? ==> Terminal(status) || status == Detecting)
    && (InRedact(pc) || pc.FailToReview? ==> Terminal(status) || status == Redacting)
    && (pc.FailRead? || pc.FailToFailed? ==> Terminal(status) || InFlight(status))
    && (pc.CompleteRecheck? || pc.CompleteSweep? || pc.FailSweep? ==> Terminal(status))
    && (pc.DeleteSweep? || pc.ExpireSweep? || pc.ExpireMark? ==> Terminal(status))
    && (pc.FinalizeRead? || pc.FinalizePut? || pc.FinalizeQueue? ==>
          !Early(status) && pc.from in {ReviewRequired, Complete})
  }

  predicate Submittable(env: Settings, doc: Document) {
    doc.size == env.expectedBytes && doc.size <= env.maxUploadBytes && doc.signatureOk
  }

  predicate RightSize(env: Settings, doc: Document) {
    doc.size == env.expectedBytes && doc.size <= env.maxUploadBytes
  }

  /** A submit's checks of the file still hold, unless the file was swapped under it. */
  predicate RequestKnows(env: Settings, row: JobRecord, blobs: Blobs, h: History, pc: Pc)
    requires IsRequest(pc)
  {
    match pc
    case SubmitSignature =>
      row.status == AwaitingUpload && !h.swapped ==> blobs.source.Some? && RightSize(env, blobs.source.value)
    case SubmitQueue =>
      row.status == AwaitingUpload && !h.swapped ==> blobs.source.Some? && Submittable(env, blobs.source.value)
    case FinalizePut(_, m) => Past(row.status) ==> row.pageCount == Some(m.pageCount)
    case FinalizeQueue(_, m) =>
      Past(row.status) ==> row.pageCount == Some(m.pageCount) && (!h.stray ==> blobs.approved.Some?)
    case _ => true
  }

  /** The worker's document is the stored one unless a client has stored or deleted one since. */
  predicate HoldsSource(blobs: Blobs, h: History, doc: Document) {
    && doc.pages > 0
    && (h.source.AtWorker? ==> blobs.source == Some(doc))
    && (!h.stray ==> h.source.AtWorker?)
  }

  predicate HoldsManifest(blobs: Blobs, h: History, m: Manifest) {
    h.approved.AtWorker? ==> blobs.approved == Some(m)
  }

  /** The worker's document and its page count, which is on the record. */
  predicate HasDocument(row: JobRecord, blobs: Blobs, h: History, doc: Document) {
    HoldsSource(blobs, h, doc) && row.pageCount == Some(doc.pages)
  }

  predicate HasDraft(row: JobRecord, blobs: Blobs, h: History, doc: Document, m: Manifest) {
    && HasDocument(row, blobs, h, doc) && m.pageCount == doc.pages && SameCount(row, blobs.draft)
    && (!h.stray ==> blobs.draft.Some?)
  }

  predicate DetectKnows(row: JobRecord, blobs: Blobs, h: History, pc: Pc)
    requires InDetect(pc)
  {
    match pc
    case DetectLoad(auto) => auto == row.autoFinalize
    case DetectCount(auto, doc) => auto == row.autoFinalize && HoldsSource(blobs, h, doc)
    case PreviewCheck(auto, doc, page) =>
      auto == row.autoFinalize && HasDocument(row, blobs, h, doc) && row.pagesCompleted == 0 && page <= doc.pages
    case PreviewPut(auto, doc, page) =>
      auto == row.autoFinalize && HasDocument(row, blobs, h, doc) && row.pagesCompleted == 0 && page < doc.pages
    case DetectModel(auto, doc, done) =>
      auto == row.autoFinalize && HasDocument(row, blobs, h, doc) && row.pagesCompleted == done <= doc.pages
    case DetectCheck(auto, doc, _) => auto == row.autoFinalize && HasDocument(row, blobs, h, doc)
    case DetectReport(auto, doc, _) => auto == row.autoFinalize && HasDocument(row, blobs, h, doc)
    case DraftPut(auto, doc, m) =>
      auto == row.autoFinalize && HasDocument(row, blobs, h, doc) && m.pageCount == doc.pages
    case ApprovePut(doc, m) => row.autoFinalize && HasDraft(row, blobs, h, doc, m)
    case StartRedacting(doc, m) =>
      && row.autoFinalize && HasDraft(row, blobs, h, doc, m) && HoldsManifest(blobs, h, m)
      && SameCount(row, blobs.approved) && (!h.stray ==> blobs.approved.Some?)
    case ToReview(doc, m) => !row.autoFinalize && HasDraft(row, blobs, h, doc, m)
  }

  predicate RedactKnows(env: Settings, row: JobRecord, blobs: Blobs, h: History, pc: Pc)
    requires InRedact(pc)
  {
    match pc
    case RedactLoad => true
    case RedactManifest(doc) => HoldsSource(blobs, h, doc)
    case Render(doc, m) => HasDocument(row, blobs, h, doc) && HoldsManifest(blobs, h, m)
    case OutputCheck(doc, m) => HasDocument(row, blobs, h, doc) && HoldsManifest(blobs, h, m) && env.accepts(doc, m)
    case OutputPut(doc, m) => HasDocument(row, blobs, h, doc) && HoldsManifest(blobs, h, m) && env.accepts(doc, m)
    case MarkComplete(doc, m) =>
      && HasDocument(row, blobs, h, doc) && HoldsManifest(blobs, h, m) && env.accepts(doc, m)
      && (blobs.output.Some? ==> blobs.output == Some(Output(doc, m))) && (!h.stray ==> blobs.output.Some?)
  }

  predicate Knows(env: Settings, row: JobRecord, blobs: Blobs, h: History, pc: Pc) {
    && (IsRequest(pc) ==> RequestKnows(env, row, blobs, h, pc))
    && (InDetect(pc) ==> DetectKnows(row, blobs, h, pc))
    && (InRedact(pc) ==> RedactKnows(env, row, blobs, h, pc))
  }

  // ---------------------------------------------------------------- what the record implies

  /** The file is there, or is this value, or is not there, as its last event says. */
  predicate Tracks<T(==)>(last: Last<T>, stored: Option<T>) {
    match last
    case Absent => stored.None?
    case AtWorker => stored.Some?
    case FromClient(value) => stored == Some(value)
  }

  predicate AllTracked(blobs: Blobs, h: History) {
    && Tracks(h.source, blobs.source) && Tracks(h.draft, blobs.draft)
    && Tracks(h.approved, blobs.approved) && Tracks(h.output, blobs.output)
  }

  predicate SameCount(row: JobRecord, stored: Option<Manifest>) {
    stored.Some? ==> row.pageCount == Some(stored.value.pageCount)
  }

  /** The output passed every check, and the record's counters are its own. */
  predicate OutputAccepted(env: Settings, row: JobRecord, out: Output) {
    && env.accepts(out.source, out.manifest)
    && row.pageCount == Some(out.source.pages) && row.pagesCompleted == out.source.pages
    && row.findingCount == |out.manifest.detections|
  }

  /** It is the rendering of what is stored, as far as no client has stored anything since. */
  predicate OutputHolds(env: Settings, row: JobRecord, blobs: Blobs, h: History) {
    blobs.output.Some? ==>
      && OutputAccepted(env, row, blobs.output.value)
      && (h.source.AtWorker? ==> blobs.source == Some(blobs.output.value.source))
      && (h.approved.AtWorker? ==> blobs.approved == Some(blobs.output.value.manifest))
  }

  predicate Counted(row: JobRecord) {
    && (row.pageCount.Some? ==> row.pagesCompleted <= row.pageCount.value)
    && (row.pageCount.None? ==> row.pagesCompleted == 0)
  }

  /** What holds of every live job, whatever its client did. */
  predicate Consistent(env: Settings, row: JobRecord, blobs: Blobs, h: History) {
    && AllTracked(blobs, h) && Counted(row)
    && (row.status == AwaitingUpload ==> row.pageCount.None?)
    && (Early(row.status) && !row.autoFinalize ==> blobs.approved.None?)
    && (Past(row.status) ==> row.pageCount.Some? && SameCount(row, blobs.draft) && SameCount(row, blobs.approved))
    && (row.status == Complete ==> OutputHolds(env, row, blobs, h))
  }

  predicate Detected(row: JobRecord, blobs: Blobs, h: History) {
    && h.source.AtWorker? && blobs.source.Some? && row.pageCount == Some(blobs.source.value.pages)
    && blobs.source.value.pages > 0 && blobs.draft.Some?
  }

  /** And what holds as long as no upload or rejecting submit wrote behind the upload stage. */
  predicate Undisturbed(env: Settings, row: JobRecord, blobs: Blobs, h: History) {
    !h.stray ==>
      && (row.status != AwaitingUpload && row.status != Failed && !h.swapped ==>
            blobs.source.Some? && Submittable(env, blobs.source.value))
      && (Past(row.status) ==> Detected(row, blobs, h))
      && (row.status in {QueuedRedaction, Redacting, Complete} ==> blobs.approved.Some?)
      && (row.status == Complete ==> blobs.output.Some?)
  }

  // ---------------------------------------------------------------- the invariant

  predicate Exclusive(threads: map<nat, Pc>) {
    forall a, b | a in threads && b in threads && IsWorker(threads[a]) && IsWorker(threads[b]) :: a == b
  }

  /** A worker that has its own deletion check ahead of it, or is about to release the job without one. */
  predicate Responsible(pc: Pc) {
    IsWorker(pc) && !pc.FailToReview? && !pc.FailToFailed?
  }

  predicate Swept(s: State) {
    s.row.status == Expired || exists t | t in s.threads :: s.threads[t].ExpireMark?
  }

  predicate Held(s: State) {
    exists t | t in s.threads :: Responsible(s.threads[t])
  }

  predicate ThreadsInv(s: State) {
    && Exclusive(s.threads)
    && (forall t | t in s.threads :: Placed(s.threads[t], s.row.status))
    && (!s.running ==> Workers(s.threads) == {})
  }

  predicate ResidueInv(s: State) {
    && (Terminal(s.row.status) ==> s.row.expiresAt <= s.now)
    && (s.late ==> s.blobs != NO_BLOBS && Terminal(s.row.status))
    && (Swept(s) ==> s.blobs == NO_BLOBS || s.late || Held(s))
  }

  predicate DataInv(env: Settings, s: State) {
    Live(s) ==>
      && Consistent(env, s.row, s.blobs, s.history) && Undisturbed(env, s.row, s.blobs, s.history)
      && forall t | t in s.threads :: Knows(env, s.row, s.blobs, s.history, s.threads[t])
  }

  predicate Inv(env: Settings, s: State) {
    ThreadsInv(s) && ResidueInv(s) && DataInv(env, s)
  }

  // ---------------------------------------------------------------- one thread step

  lemma WorkerMoveKeepsTerminal(env: Settings, s: State, pc: Pc, o: Outcome)
    requires IsWorker(pc) && Placed(pc, s.row.status) && Moves(env, s, pc, o)
    ensures Terminal(s.row.status) ==> Terminal(o.row.status)
  {
  }

  lemma TerminalIsKept(env: Settings, s: State, pc: Pc, o: Outcome)
    requires Placed(pc, s.row.status) && Moves(env, s, pc, o)
    ensures Terminal(s.row.status) ==> Terminal(o.row.status)
  {
    if IsWorker(pc) {
      WorkerMoveKeepsTerminal(env, s, pc, o);
    }
  }

  /** The moved thread is where its new counter says, and it keeps its kind. */
  predicate WellMoved(pc: Pc, status: Status, o: Outcome) {
    && (o.next.Some? ==>
          && Placed(o.next.value, o.row.status)
          && (IsWorker(o.next.value) <==> IsWorker(pc))
          && (IsRequest(o.next.value) <==> IsRequest(pc)))
    && (o.row.status != status ==>
          || Terminal(o.row.status)
          || if IsWorker(pc) then InFlight(status) else status in {AwaitingUpload, ReviewRequired, Complete})
    && (!Early(status) ==> !Early(o.row.status))
  }

  lemma SubmitMoveIsPlaced(env: Settings, s: State, pc: Pc, o: Outcome)
    requires IsRequest(pc) && !pc.FinalizeRead? && !pc.FinalizePut? && !pc.FinalizeQueue?
    requires Placed(pc, s.row.status) && RequestMoves(env, s, pc, o)
    ensures WellMoved(pc, s.row.status, o)
  {
  }

  lemma FinalizeMoveIsPlaced(env: Settings, s: State, pc: Pc, o: Outcome)
    requires pc.FinalizeRead? || pc.FinalizePut? || pc.FinalizeQueue?
    requires Placed(pc, s.row.status) && RequestMoves(env, s, pc, o)
    ensures WellMoved(pc, s.row.status, o)
  {
  }

  lemma RequestMoveIsPlaced(env: Settings, s: State, pc: Pc, o: Outcome)
    requires IsRequest(pc) && Placed(pc, s.row.status) && RequestMoves(env, s, pc, o)
    ensures WellMoved(pc, s.row.status, o)
  {
    hide RequestMoves, Placed, WellMoved;
    if pc.FinalizeRead? || pc.FinalizePut? || pc.FinalizeQueue? {
      FinalizeMoveIsPlaced(env, s, pc, o);
    } else {
      SubmitMoveIsPlaced(env, s, pc, o);
    }
  }

  lemma RetentionMoveIsPlaced(s: State, pc: Pc, o: Outcome)
    requires IsRetention(pc) && Placed(pc, s.row.status) && RetentionMoves(s, pc, o)
    ensures WellMoved(pc, s.row.status, o)
  {
  }

  lemma ReadingMoveIsPlaced(s: State, pc: Pc, o: Outcome)
    requires pc.DetectLoad? || pc.DetectCount? || pc.PreviewCheck? || pc.PreviewPut?
    requires Placed(pc, s.row.status) && DetectMoves(s, pc, o)
    ensures WellMoved(pc, s.row.status, o)
  {
  }

  lemma ModelMoveIsPlaced(s: State, pc: Pc, o: Outcome)
    requires pc.DetectModel? || pc.DetectCheck? || pc.DetectReport?
    requires Placed(pc, s.row.status) && DetectMoves(s, pc, o)
    ensures WellMoved(pc, s.row.status, o)
  {
  }

  lemma DraftMoveIsPlaced(s: State, pc: Pc, o: Outcome)
    requires pc.DraftPut? || pc.ApprovePut? || pc.StartRedacting? || pc.ToReview?
    requires Placed(pc, s.row.status) && DetectMoves(s, pc, o)
    ensures WellMoved(pc, s.row.status, o)
  {
  }

  lemma DetectMoveIsPlaced(s: State, pc: Pc, o: Outcome)
    requires InDetect(pc) && Placed(pc, s.row.status) && DetectMoves(s, pc, o)
    ensures WellMoved(pc, s.row.status, o)
  {
    hide DetectMoves, Placed, WellMoved;
    if pc.DetectLoad? || pc.DetectCount? || pc.PreviewCheck? || pc.PreviewPut? {
      ReadingMoveIsPlaced(s, pc, o);
    } else if pc.DetectModel? || pc.DetectCheck? || pc.DetectReport? {
      ModelMoveIsPlaced(s, pc, o);
    } else {
      DraftMoveIsPlaced(s, pc, o);
    }
  }

  lemma RedactMoveIsPlaced(env: Settings, s: State, pc: Pc, o: Outcome)
    requires InRedact(pc) && Placed(pc, s.row.status) && RedactMoves(env, s, pc, o)
    ensures WellMoved(pc, s.row.status, o)
  {
  }

  lemma SettleMoveIsPlaced(s: State, pc: Pc, o: Outcome)
    requires IsWorker(pc) && !InDetect(pc) && !InRedact(pc)
    requires Placed(pc, s.row.status) && SettleMoves(s, pc, o)
    ensures WellMoved(pc, s.row.status, o)
  {
  }

  lemma MoveIsPlaced(env: Settings, s: State, pc: Pc, o: Outcome)
    requires Placed(pc, s.row.status) && Moves(env, s, pc, o)
    ensures WellMoved(pc, s.row.status, o)
  {
    if IsRequest(pc) {
      RequestMoveIsPlaced(env, s, pc, o);
    } else if IsRetention(pc) {
      RetentionMoveIsPlaced(s, pc, o);
    } else if InDetect(pc) {
      DetectMoveIsPlaced(s, pc, o);
    } else if InRedact(pc) {
      RedactMoveIsPlaced(env, s, pc, o);
    } else {
      SettleMoveIsPlaced(s, pc, o);
    }
  }

  /** A move by one thread leaves every other thread placed, given that only one is a worker. */
  lemma OthersStayPlaced(pc: Pc, status: Status, o: Outcome, other: Pc)
    requires WellMoved(pc, status, o) && (Terminal(status) ==> Terminal(o.row.status))
    requires Placed(other, status) && !(IsWorker(pc) && IsWorker(other))
    ensures Placed(other, o.row.status)
  {
  }

  /** What a move leaves for the job and for the moved thread itself. */
  predicate KeepsData(env: Settings, s: State, pc: Pc, o: Outcome) {
    var h := Recorded(s, pc, o);
    && Consistent(env, o.row, o.blobs, h) && Undisturbed(env, o.row, o.blobs, h)
    && (o.next.Some? ==> Knows(env, o.row, o.blobs, h, o.next.value))
  }

  predicate HadData(env: Settings, s: State, pc: Pc) {
    && Live(s) && Placed(pc, s.row.status)
    && Consistent(env, s.row, s.blobs, s.history) && Undisturbed(env, s.row, s.blobs, s.history)
    && Knows(env, s.row, s.blobs, s.history, pc)
  }

  lemma UploadMoveKeepsData(env: Settings, s: State, pc: Pc, o: Outcome)
    requires pc.UploadPut? || pc.SubmitHead? || pc.SubmitSignature?
    requires HadData(env, s, pc) && RequestMoves(env, s, pc, o) && !Terminal(o.row.status)
    ensures KeepsData(env, s, pc, o)
  {
  }

  lemma SubmitMoveKeepsData(env: Settings, s: State, pc: Pc, o: Outcome)
    requires pc.SubmitReject? || pc.SubmitFail? || pc.SubmitQueue?
    requires HadData(env, s, pc) && RequestMoves(env, s, pc, o) && !Terminal(o.row.status)
    ensures KeepsData(env, s, pc, o)
  {
  }

  lemma FinalizeMoveKeepsData(env: Settings, s: State, pc: Pc, o: Outcome)
    requires pc.FinalizeRead? || pc.FinalizePut? || pc.FinalizeQueue?
    requires HadData(env, s, pc) && RequestMoves(env, s, pc, o) && !Terminal(o.row.status)
    ensures KeepsData(env, s, pc, o)
  {
  }

  lemma PreviewMoveKeepsData(env: Settings, s: State, pc: Pc, o: Outcome)
    requires pc.PreviewCheck? || pc.PreviewPut?
    requires HadData(env, s, pc) && DetectMoves(s, pc, o) && !Terminal(o.row.status)
    ensures KeepsData(env, s, pc, o)
  {
  }

  lemma ReadingMoveKeepsData(env: Settings, s: State, pc: Pc, o: Outcome)
    requires pc.DetectLoad? || pc.DetectCount?
    requires HadData(env, s, pc) && DetectMoves(s, pc, o) && !Terminal(o.row.status)
    ensures KeepsData(env, s, pc, o)
  {
  }

  lemma ModelMoveKeepsData(env: Settings, s: State, pc: Pc, o: Outcome)
    requires pc.DetectModel?
    requires HadData(env, s, pc) && DetectMoves(s, pc, o) && !Terminal(o.row.status)
    ensures KeepsData(env, s, pc, o)
  {
  }

  lemma ReportMoveKeepsData(env: Settings, s: State, pc: Pc, o: Outcome)
    requires pc.DetectCheck? || pc.DetectReport?
    requires HadData(env, s, pc) && DetectMoves(s, pc, o) && !Terminal(o.row.status)
    ensures KeepsData(env, s, pc, o)
  {
  }

  lemma DraftMoveKeepsData(env: Settings, s: State, pc: Pc, o: Outcome)
    requires pc.DraftPut? || pc.ApprovePut?
    requires HadData(env, s, pc) && DetectMoves(s, pc, o) && !Terminal(o.row.status)
    ensures KeepsData(env, s, pc, o)
  {
  }

  lemma DoneMoveKeepsData(env: Settings, s: State, pc: Pc, o: Outcome)
    requires pc.StartRedacting? || pc.ToReview?
    requires HadData(env, s, pc) && DetectMoves(s, pc, o) && !Terminal(o.row.status)
    ensures KeepsData(env, s, pc, o)
  {
  }

  lemma LoadMoveKeepsData(env: Settings, s: State, pc: Pc, o: Outcome)
    requires pc.RedactLoad? || pc.RedactManifest? || pc.Render?
    requires HadData(env, s, pc) && RedactMoves(env, s, pc, o) && !Terminal(o.row.status)
    ensures KeepsData(env, s, pc, o)
  {
  }

  lemma OutputMoveKeepsData(env: Settings, s: State, pc: Pc, o: Outcome)
    requires pc.OutputCheck? || pc.OutputPut?
    requires HadData(env, s, pc) && RedactMoves(env, s, pc, o) && !Terminal(o.row.status)
    ensures KeepsData(env, s, pc, o)
  {
  }

  lemma CompleteMoveKeepsData(env: Settings, s: State, pc: Pc, o: Outcome)
    requires pc.MarkComplete?
    requires HadData(env, s, pc) && RedactMoves(env, s, pc, o) && !Terminal(o.row.status)
    ensures KeepsData(env, s, pc, o)
  {
  }

  lemma SettleMoveKeepsData(env: Settings, s: State, pc: Pc, o: Outcome)
    requires IsWorker(pc) && !InDetect(pc) && !InRedact(pc)
    requires HadData(env, s, pc) && SettleMoves(s, pc, o) && !Terminal(o.row.status)
    ensures KeepsData(env, s, pc, o)
  {
  }

  /** A move never makes a job expire early, and only the cleaner's last step marks it expired. */
  predicate ExpiresInTime(s: State, pc: Pc, o: Outcome) {
    && (Terminal(o.row.status) ==> o.row.expiresAt <= s.now)
    && (o.row.status == Expired ==> s.row.status == Expired || pc.ExpireMark?)
    && (o.next.Some? && o.next.value.ExpireMark? ==> o.blobs == NO_BLOBS)
  }

  lemma RequestMoveKeepsExpiry(env: Settings, s: State, pc: Pc, o: Outcome)
    requires IsRequest(pc) && Placed(pc, s.row.status) && RequestMoves(env, s, pc, o)
    requires Terminal(s.row.status) ==> s.row.expiresAt <= s.now
    ensures ExpiresInTime(s, pc, o)
  {
  }

  lemma RetentionMoveKeepsExpiry(s: State, pc: Pc, o: Outcome)
    requires IsRetention(pc) && Placed(pc, s.row.status) && RetentionMoves(s, pc, o)
    requires Terminal(s.row.status) ==> s.row.expiresAt <= s.now
    ensures ExpiresInTime(s, pc, o)
  {
  }

  lemma DetectMoveKeepsExpiry(s: State, pc: Pc, o: Outcome)
    requires InDetect(pc) && Placed(pc, s.row.status) && DetectMoves(s, pc, o)
    requires Terminal(s.row.status) ==> s.row.expiresAt <= s.now
    ensures ExpiresInTime(s, pc, o)
  {
  }

  lemma RedactMoveKeepsExpiry(env: Settings, s: State, pc: Pc, o: Outcome)
    requires InRedact(pc) && Placed(pc, s.row.status) && RedactMoves(env, s, pc, o)
    requires Terminal(s.row.status) ==> s.row.expiresAt <= s.now
    ensures ExpiresInTime(s, pc, o)
  {
  }

  lemma SettleMoveKeepsExpiry(s: State, pc: Pc, o: Outcome)
    requires IsWorker(pc) && !InDetect(pc) && !InRedact(pc) && Placed(pc, s.row.status) && SettleMoves(s, pc, o)
    requires Terminal(s.row.status) ==> s.row.expiresAt <= s.now
    ensures ExpiresInTime(s, pc, o)
  {
  }

  lemma MoveKeepsExpiry(env: Settings, s: State, pc: Pc, o: Outcome)
    requires Placed(pc, s.row.status) && Moves(env, s, pc, o)
    requires Terminal(s.row.status) ==> s.row.expiresAt <= s.now
    ensures ExpiresInTime(s, pc, o)
  {
    if IsRequest(pc) {
      RequestMoveKeepsExpiry(env, s, pc, o);
    } else if IsRetention(pc) {
      RetentionMoveKeepsExpiry(s, pc, o);
    } else if InDetect(pc) {
      DetectMoveKeepsExpiry(s, pc, o);
    } else if InRedact(pc) {
      RedactMoveKeepsExpiry(env, s, pc, o);
    } else {
      SettleMoveKeepsExpiry(s, pc, o);
    }
  }

  /** On a job that is gone, a worker never finishes with files left unless the model server failed. */
  lemma WorkerSweeps(env: Settings, s: State, pc: Pc, o: Outcome)
    requires Responsible(pc) && Placed(pc, s.row.status) && Moves(env, s, pc, o) && Terminal(s.row.status)
    ensures pc.Release? || o.blobs == NO_BLOBS || (o.next.Some? && Responsible(o.next.value))
  {
  }

  /** Only a client write or a worker that still will sweep adds a file. */
  lemma OnlyWritersAddFiles(env: Settings, s: State, pc: Pc, o: Outcome)
    requires Placed(pc, s.row.status) && Moves(env, s, pc, o) && o.blobs != s.blobs
    ensures o.blobs == NO_BLOBS || IsRequest(pc) || Responsible(pc)
  {
  }

  // ---------------------------------------------------------------- one step of the system

  lemma AdvanceKeepsThreads(env: Settings, s: State, t: nat, o: Outcome)
    requires ThreadsInv(s) && Allowed(env, s, Advance(t, o))
    ensures ThreadsInv(Effect(s, Advance(t, o)))
  {
    var pc, s' := s.threads[t], Effect(s, Advance(t, o));
    TerminalIsKept(env, s, pc, o);
    MoveIsPlaced(env, s, pc, o);
    forall u | u in s'.threads
      ensures Placed(s'.threads[u], s'.row.status)
    {
      if u != t {
        OthersStayPlaced(pc, s.row.status, o, s.threads[u]);
      }
    }
    assert forall u | u in s'.threads :: u in s.threads && (IsWorker(s'.threads[u]) <==> IsWorker(s.threads[u]));
    assert Workers(s'.threads) <= Workers(s.threads);
  }

  /** Only the five sweeping steps empty the files, and a client's late write fills them. */
  lemma OnlySweepsEmpty(env: Settings, s: State, pc: Pc, o: Outcome)
    requires Moves(env, s, pc, o)
    ensures Sweeps(pc) ==> o.blobs == NO_BLOBS
    ensures !Sweeps(pc) && s.blobs != NO_BLOBS ==> o.blobs != NO_BLOBS
    ensures pc.UploadPut? || pc.FinalizePut? ==> o.blobs != NO_BLOBS
    ensures pc.Release? ==> o.blobs == s.blobs
  {
  }

  lemma LateMeansFiles(env: Settings, s: State, t: nat, o: Outcome)
    requires ResidueInv(s) && Allowed(env, s, Advance(t, o)) && Placed(s.threads[t], s.row.status)
    ensures NowLate(s, s.threads[t]) ==> o.blobs != NO_BLOBS && Terminal(o.row.status)
  {
    TerminalIsKept(env, s, s.threads[t], o);
    OnlySweepsEmpty(env, s, s.threads[t], o);
  }

  lemma AdvanceKeepsSwept(s: State, t: nat, o: Outcome)
    requires ThreadsInv(s) && t in s.threads && ExpiresInTime(s, s.threads[t], o)
    requires Swept(Effect(s, Advance(t, o))) && o.blobs != NO_BLOBS
    ensures Swept(s) && Terminal(s.row.status)
  {
    var s' := Effect(s, Advance(t, o));
    if s'.row.status != Expired {
      var u :| u in s'.threads && s'.threads[u].ExpireMark?;
      assert u != t && s.threads[u].ExpireMark?;
    }
    SweptIsTerminal(s);
  }

  lemma AdvanceKeepsResidue(env: Settings, s: State, t: nat, o: Outcome)
    requires ThreadsInv(s) && ResidueInv(s) && Allowed(env, s, Advance(t, o))
    ensures ResidueInv(Effect(s, Advance(t, o)))
  {
    var pc, s' := s.threads[t], Effect(s, Advance(t, o));
    TerminalIsKept(env, s, pc, o);
    MoveKeepsExpiry(env, s, pc, o);
    LateMeansFiles(env, s, t, o);
    if Swept(s') && s'.blobs != NO_BLOBS && !s'.late {
      AdvanceKeepsSwept(s, t, o);
      OnlySweepsEmpty(env, s, pc, o);
      if o.blobs != s.blobs {
        OnlyWritersAddFiles(env, s, pc, o);
      }
      if Responsible(pc) {
        WorkerSweeps(env, s, pc, o);
        assert !pc.Release?;
        assert Responsible(s'.threads[t]);
      } else {
        var u :| u in s.threads && Responsible(s.threads[u]);
        assert s'.threads[u] == s.threads[u];
      }
    }
  }

  lemma SweptIsTerminal(s: State)
    requires ThreadsInv(s) && Swept(s)
    ensures Terminal(s.row.status)
  {
    if s.row.status != Expired {
      var u :| u in s.threads && s.threads[u].ExpireMark?;
      assert Placed(s.threads[u], s.row.status);
    }
  }

  lemma MoveKeepsData(env: Settings, s: State, pc: Pc, o: Outcome)
    requires !IsRetention(pc) && HadData(env, s, pc) && Moves(env, s, pc, o) && !Terminal(o.row.status)
    ensures KeepsData(env, s, pc, o)
  {
    if pc.FinalizeRead? || pc.FinalizePut? || pc.FinalizeQueue? {
      FinalizeMoveKeepsData(env, s, pc, o);
    } else if pc.UploadPut? || pc.SubmitHead? || pc.SubmitSignature? {
      UploadMoveKeepsData(env, s, pc, o);
    } else if IsRequest(pc) {
      SubmitMoveKeepsData(env, s, pc, o);
    } else if pc.DetectLoad? || pc.DetectCount? {
      ReadingMoveKeepsData(env, s, pc, o);
    } else if pc.PreviewCheck? || pc.PreviewPut? {
      PreviewMoveKeepsData(env, s, pc, o);
    } else if pc.DetectModel? {
      ModelMoveKeepsData(env, s, pc, o);
    } else if pc.DetectCheck? || pc.DetectReport? {
      ReportMoveKeepsData(env, s, pc, o);
    } else if pc.DraftPut? || pc.ApprovePut? {
      DraftMoveKeepsData(env, s, pc, o);
    } else if InDetect(pc) {
      DoneMoveKeepsData(env, s, pc, o);
    } else if pc.RedactLoad? || pc.RedactManifest? || pc.Render? {
      LoadMoveKeepsData(env, s, pc, o);
    } else if pc.OutputCheck? || pc.OutputPut? {
      OutputMoveKeepsData(env, s, pc, o);
    } else if InRedact(pc) {
      CompleteMoveKeepsData(env, s, pc, o);
    } else {
      SettleMoveKeepsData(env, s, pc, o);
    }
  }

  // ---------------------------------------------------------------- what a move leaves for the others

  predicate OtherKnows(env: Settings, s: State, pc: Pc, o: Outcome, other: Pc) {
    Knows(env, o.row, o.blobs, Recorded(s, pc, o), other)
  }

  /** A client's move and a worker: the worker's knowledge is lost only where the history says so. */
  lemma SubmitLeavesDetection(env: Settings, s: State, pc: Pc, o: Outcome, other: Pc)
    requires pc.UploadPut? || pc.SubmitHead? || pc.SubmitSignature? || pc.SubmitReject? || pc.SubmitFail?
               || pc.SubmitQueue?
    requires InDetect(other) && HadData(env, s, other) && RequestMoves(env, s, pc, o)
    ensures OtherKnows(env, s, pc, o, other)
  {
  }

  lemma SubmitLeavesRedaction(env: Settings, s: State, pc: Pc, o: Outcome, other: Pc)
    requires pc.UploadPut? || pc.SubmitHead? || pc.SubmitSignature? || pc.SubmitReject? || pc.SubmitFail?
               || pc.SubmitQueue?
    requires InRedact(other) && HadData(env, s, other) && RequestMoves(env, s, pc, o)
    ensures OtherKnows(env, s, pc, o, other)
  {
  }

  lemma FinalizeLeavesWorker(env: Settings, s: State, pc: Pc, o: Outcome, other: Pc)
    requires pc.FinalizeRead? || pc.FinalizePut? || pc.FinalizeQueue?
    requires Placed(pc, s.row.status) && Knows(env, s.row, s.blobs, s.history, pc)
    requires IsWorker(other) && HadData(env, s, other) && RequestMoves(env, s, pc, o)
    ensures OtherKnows(env, s, pc, o, other)
  {
  }

  lemma FinalizeLeavesRequest(env: Settings, s: State, pc: Pc, o: Outcome, other: Pc)
    requires pc.FinalizeRead? || pc.FinalizePut? || pc.FinalizeQueue?
    requires IsRequest(other) && HadData(env, s, other) && RequestMoves(env, s, pc, o)
    requires Placed(pc, s.row.status)
    ensures OtherKnows(env, s, pc, o, other)
  {
  }

  lemma SubmitLeavesRequest(env: Settings, s: State, pc: Pc, o: Outcome, other: Pc)
    requires IsRequest(pc) && !pc.FinalizeRead? && !pc.FinalizePut? && !pc.FinalizeQueue?
    requires IsRequest(other) && HadData(env, s, other) && RequestMoves(env, s, pc, o)
    requires Placed(pc, s.row.status)
    requires other.SubmitSignature? || other.SubmitQueue? ==> Checking(s.threads)
    ensures OtherKnows(env, s, pc, o, other)
  {
  }

  lemma RequestLeavesRequest(env: Settings, s: State, pc: Pc, o: Outcome, other: Pc)
    requires IsRequest(pc) && IsRequest(other) && HadData(env, s, other) && RequestMoves(env, s, pc, o)
    requires Placed(pc, s.row.status)
    requires other.SubmitSignature? || other.SubmitQueue? ==> Checking(s.threads)
    ensures OtherKnows(env, s, pc, o, other)
  {
    hide RequestMoves, Placed, HadData, OtherKnows;
    if pc.FinalizeRead? || pc.FinalizePut? || pc.FinalizeQueue? {
      FinalizeLeavesRequest(env, s, pc, o, other);
    } else {
      SubmitLeavesRequest(env, s, pc, o, other);
    }
  }

  lemma DetectLeavesRequest(env: Settings, s: State, pc: Pc, o: Outcome, other: Pc)
    requires InDetect(pc) && IsRequest(other) && DetectMoves(s, pc, o)
    requires HadData(env, s, other) && Placed(pc, s.row.status) && Knows(env, s.row, s.blobs, s.history, pc)
    ensures OtherKnows(env, s, pc, o, other)
  {
  }

  lemma RedactLeavesRequest(env: Settings, s: State, pc: Pc, o: Outcome, other: Pc)
    requires InRedact(pc) && IsRequest(other) && RedactMoves(env, s, pc, o)
    requires HadData(env, s, other) && Placed(pc, s.row.status)
    ensures OtherKnows(env, s, pc, o, other)
  {
  }

  lemma SettleLeavesRequest(env: Settings, s: State, pc: Pc, o: Outcome, other: Pc)
    requires IsWorker(pc) && !InDetect(pc) && !InRedact(pc) && IsRequest(other) && SettleMoves(s, pc, o)
    requires HadData(env, s, other) && Placed(pc, s.row.status)
    ensures OtherKnows(env, s, pc, o, other)
  {
  }

  lemma NothingToKnow(env: Settings, row: JobRecord, blobs: Blobs, h: History, pc: Pc)
    requires !IsRequest(pc) && !InDetect(pc) && !InRedact(pc)
    ensures Knows(env, row, blobs, h, pc)
  {
  }

  lemma MoveLeavesOthers(env: Settings, s: State, pc: Pc, o: Outcome, other: Pc)
    requires !IsRetention(pc) && Moves(env, s, pc, o) && !(IsWorker(pc) && IsWorker(other))
    requires HadData(env, s, pc) && HadData(env, s, other)
    requires other.SubmitSignature? || other.SubmitQueue? ==> Checking(s.threads)
    ensures OtherKnows(env, s, pc, o, other)
  {
    hide RequestMoves, DetectMoves, RedactMoves, SettleMoves, Placed, Consistent, Undisturbed, RequestKnows,
         DetectKnows, RedactKnows, Recorded;
    if IsRetention(other) || (IsWorker(other) && !InDetect(other) && !InRedact(other)) {
      NothingToKnow(env, o.row, o.blobs, Recorded(s, pc, o), other);
    } else if IsRequest(pc) && IsRequest(other) {
      RequestLeavesRequest(env, s, pc, o, other);
    } else if pc.FinalizeRead? || pc.FinalizePut? || pc.FinalizeQueue? {
      FinalizeLeavesWorker(env, s, pc, o, other);
    } else if IsRequest(pc) && InDetect(other) {
      SubmitLeavesDetection(env, s, pc, o, other);
    } else if IsRequest(pc) {
      SubmitLeavesRedaction(env, s, pc, o, other);
    } else if InDetect(pc) {
      DetectLeavesRequest(env, s, pc, o, other);
    } else if InRedact(pc) {
      RedactLeavesRequest(env, s, pc, o, other);
    } else {
      SettleLeavesRequest(env, s, pc, o, other);
    }
  }

  lemma RetentionEndsLive(s: State, pc: Pc, o: Outcome)
    requires IsRetention(pc) && Placed(pc, s.row.status) && RetentionMoves(s, pc, o)
    ensures Terminal(o.row.status)
  {
  }

  lemma EachHasData(env: Settings, s: State, t: nat)
    requires Inv(env, s) && Live(s) && t in s.threads
    ensures HadData(env, s, s.threads[t])
    ensures s.threads[t].SubmitSignature? || s.threads[t].SubmitQueue? ==> Checking(s.threads)
  {
  }

  lemma AdvanceKeepsData(env: Settings, s: State, t: nat, o: Outcome)
    requires Inv(env, s) && Allowed(env, s, Advance(t, o))
    ensures DataInv(env, Effect(s, Advance(t, o)))
  {
    var pc, s' := s.threads[t], Effect(s, Advance(t, o));
    assert Placed(pc, s.row.status);
    if !Terminal(o.row.status) {
      TerminalIsKept(env, s, pc, o);
      if IsRetention(pc) {
        RetentionEndsLive(s, pc, o);
      } else {
        EachHasData(env, s, t);
        MoveKeepsData(env, s, pc, o);
        forall u | u in s'.threads
          ensures Knows(env, s'.row, s'.blobs, s'.history, s'.threads[u])
        {
          if u != t {
            EachHasData(env, s, u);
            MoveLeavesOthers(env, s, pc, o, s.threads[u]);
            assert OtherKnows(env, s, pc, o, s.threads[u]);
          }
        }
      }
    }
  }

  lemma BegunKnows(env: Settings, s: State, pc: Pc)
    requires MayBegin(s, pc)
    ensures !IsWorker(pc) && !pc.ExpireMark? && Placed(pc, s.row.status)
    ensures Knows(env, s.row, s.blobs, s.history, pc)
  {
  }

  lemma BeginKeepsInv(env: Settings, s: State, t: nat, pc: Pc)
    requires Inv(env, s) && Allowed(env, s, Begin(t, pc))
    ensures Inv(env, Effect(s, Begin(t, pc)))
  {
    BegunKnows(env, s, pc);
    BeginKeepsThreads(s, t, pc);
    var s' := Effect(s, Begin(t, pc));
    assert Swept(s') ==> Swept(s);
    if Held(s) {
      var u :| u in s.threads && Responsible(s.threads[u]);
      assert Responsible(s'.threads[u]);
    }
  }

  lemma BeginKeepsThreads(s: State, t: nat, pc: Pc)
    requires ThreadsInv(s) && t !in s.threads && !IsWorker(pc) && Placed(pc, s.row.status)
    ensures ThreadsInv(Effect(s, Begin(t, pc)))
  {
    assert Workers(Effect(s, Begin(t, pc)).threads) == Workers(s.threads);
  }

  /** A job waiting in a queue has no worker, and nobody has swept it. */
  lemma QueuedIsFree(s: State, u: nat)
    requires ThreadsInv(s) && Queued(s.row.status) && u in s.threads
    ensures !IsWorker(s.threads[u]) && !s.threads[u].ExpireMark?
    ensures Placed(s.threads[u], ClaimStatus(s.row.status))
  {
    assert Placed(s.threads[u], s.row.status);
  }

  /** A first worker joins threads that are not workers. */
  lemma WorkerJoins(threads: map<nat, Pc>, joined: map<nat, Pc>, t: nat, status: Status)
    requires t !in threads && t in joined && IsWorker(joined[t]) && Placed(joined[t], status)
    requires joined == threads[t := joined[t]]
    requires forall u | u in threads :: !IsWorker(threads[u]) && !threads[u].ExpireMark? && Placed(threads[u], status)
    ensures Exclusive(joined) && forall u | u in joined :: Placed(joined[u], status) && !joined[u].ExpireMark?
  {
  }

  lemma ClaimKeepsThreads(env: Settings, s: State, t: nat)
    requires ThreadsInv(s) && Allowed(env, s, Claim(t))
    ensures ThreadsInv(Effect(s, Claim(t))) && !Swept(Effect(s, Claim(t)))
  {
    var s' := Effect(s, Claim(t));
    forall u | u in s.threads
      ensures !IsWorker(s.threads[u]) && !s.threads[u].ExpireMark? && Placed(s.threads[u], s'.row.status)
    {
      QueuedIsFree(s, u);
    }
    WorkerJoins(s.threads, s'.threads, t, s'.row.status);
  }

  /** Claiming and requeueing change the status only, and no request depends on which of these it is. */
  lemma StatusMoveKeepsKnowledge(env: Settings, row: JobRecord, status: Status, blobs: Blobs, h: History, now: nat,
                                 pc: Pc)
    requires || (Queued(row.status) && status == ClaimStatus(row.status))
             || (InFlight(row.status) && status == RequeueStatus(row.status))
    requires !IsWorker(pc) && Knows(env, row, blobs, h, pc)
    ensures Knows(env, Updated(row, Changes(status := Some(status)), now), blobs, h, pc)
  {
    hide DetectKnows, RedactKnows, Submittable, RightSize;
  }

  lemma StatusMoveKeepsRecord(env: Settings, row: JobRecord, status: Status, blobs: Blobs, h: History, now: nat)
    requires || (Queued(row.status) && status == ClaimStatus(row.status))
             || (InFlight(row.status) && status == RequeueStatus(row.status))
    requires Consistent(env, row, blobs, h) && Undisturbed(env, row, blobs, h)
    ensures var r := Updated(row, Changes(status := Some(status)), now);
            Consistent(env, r, blobs, h) && Undisturbed(env, r, blobs, h)
  {
  }

  lemma ClaimKeepsInv(env: Settings, s: State, t: nat)
    requires Inv(env, s) && Allowed(env, s, Claim(t))
    ensures Inv(env, Effect(s, Claim(t)))
  {
    var s' := Effect(s, Claim(t));
    ClaimKeepsThreads(env, s, t);
    StatusMoveKeepsRecord(env, s.row, ClaimStatus(s.row.status), s.blobs, s.history, s.now);
    forall u | u in s.threads
      ensures Knows(env, s'.row, s'.blobs, s'.history, s.threads[u])
    {
      QueuedIsFree(s, u);
      StatusMoveKeepsKnowledge(env, s.row, ClaimStatus(s.row.status), s.blobs, s.history, s.now, s.threads[u]);
    }
  }

  /** Threads that remain are unchanged. */
  predicate Fewer(s: State, s': State) {
    forall u | u in s'.threads :: u in s.threads && s'.threads[u] == s.threads[u]
  }

  lemma FewerKeepThreads(s: State, s': State)
    requires ThreadsInv(s) && Fewer(s, s') && s'.row == s.row
    requires s'.running ==> s.running
    requires !s'.running ==> Workers(s'.threads) == {}
    ensures ThreadsInv(s')
  {
  }

  lemma FewerSwept(s: State, s': State)
    requires Fewer(s, s') && s'.row == s.row
    ensures Swept(s') ==> Swept(s)
  {
  }

  /** Losing threads is no harm to a swept job unless one of them still had to sweep it. */
  lemma FewerKeepResidue(s: State, s': State)
    requires ThreadsInv(s) && ResidueInv(s) && Fewer(s, s') && s'.row == s.row && s'.blobs == s.blobs && s'.now == s.now
    requires s'.late
             == (s.late || (LostWorker(s, s') && s.blobs != NO_BLOBS && Terminal(s.row.status)))
    ensures ResidueInv(s')
  {
    FewerSwept(s, s');
    forall u | u in s.threads && Responsible(s.threads[u])
      ensures u in s'.threads || LostWorker(s, s')
    {
    }
    if Swept(s) {
      SweptIsTerminal(s);
    }
  }

  predicate LostWorker(s: State, s': State) {
    exists u :: u in Workers(s.threads) && u !in s'.threads
  }

  lemma FewerKeepData(env: Settings, s: State, s': State)
    requires DataInv(env, s) && Fewer(s, s') && s'.row == s.row && s'.blobs == s.blobs && s'.history == s.history
    ensures DataInv(env, s')
  {
  }

  lemma VanishKeepsInv(env: Settings, s: State, t: nat)
    requires Inv(env, s) && Allowed(env, s, Vanish(t))
    ensures Inv(env, Effect(s, Vanish(t)))
  {
    var s' := Effect(s, Vanish(t));
    assert Workers(s'.threads) <= Workers(s.threads);
    assert LostWorker(s, s') <==> IsWorker(s.threads[t]) by {
      if IsWorker(s.threads[t]) {
        assert t in Workers(s.threads);
      }
    }
    FewerKeepThreads(s, s');
    FewerKeepResidue(s, s');
    FewerKeepData(env, s, s');
  }

  lemma CrashKeepsInv(env: Settings, s: State)
    requires Inv(env, s) && Allowed(env, s, Crash)
    ensures Inv(env, Effect(s, Crash))
  {
    var s' := Effect(s, Crash);
    assert Workers(s'.threads) == {};
    assert LostWorker(s, s') <==> Workers(s.threads) != {} by {
      if Workers(s.threads) != {} {
        var u :| u in Workers(s.threads);
        assert u !in s'.threads;
      }
    }
    FewerKeepThreads(s, s');
    FewerKeepResidue(s, s');
    FewerKeepData(env, s, s');
  }

  lemma RestartKeepsInv(env: Settings, s: State)
    requires Inv(env, s) && Allowed(env, s, Restart)
    ensures Inv(env, Effect(s, Restart))
  {
    hide Consistent, Undisturbed, Knows;
    var s' := Effect(s, Restart);
    forall u | u in s.threads
      ensures !IsWorker(s.threads[u]) && Placed(s.threads[u], s'.row.status)
    {
      assert u !in Workers(s.threads);
      assert Placed(s.threads[u], s.row.status);
    }
    if InFlight(s.row.status) {
      StatusMoveKeepsRecord(env, s.row, RequeueStatus(s.row.status), s.blobs, s.history, s.now);
      forall u | u in s.threads
        ensures Knows(env, s'.row, s'.blobs, s'.history, s.threads[u])
      {
        StatusMoveKeepsKnowledge(env, s.row, RequeueStatus(s.row.status), s.blobs, s.history, s.now, s.threads[u]);
      }
    }
  }

  lemma InitHolds(env: Settings, s: State)
    requires Init(s)
    ensures Inv(env, s)
  {
  }

  lemma StepKeepsInv(env: Settings, s: State, s': State)
    requires Inv(env, s) && Step(env, s, s')
    ensures Inv(env, s')
  {
    var l: Label :| Allowed(env, s, l) && s' == Effect(s, l);
    hide Consistent, Undisturbed, Knows, Placed, Moves;
    match l {
      case Tick(_) =>
      case Begin(t, pc) => BeginKeepsInv(env, s, t, pc);
      case Claim(t) => ClaimKeepsInv(env, s, t);
      case Advance(t, o) =>
        AdvanceKeepsThreads(env, s, t, o);
        AdvanceKeepsResidue(env, s, t, o);
        AdvanceKeepsData(env, s, t, o);
      case Vanish(t) => VanishKeepsInv(env, s, t);
      case Crash => CrashKeepsInv(env, s);
      case Restart => RestartKeepsInv(env, s);
    }
  }

  lemma {:induction false} RunKeepsInv(env: Settings, run: seq<State>, i: nat)
    requires IsRun(env, run) && i < |run|
    ensures forall j | 0 <= j <= i :: Inv(env, run[j])
  {
    hide Inv;
    if i == 0 {
      InitHolds(env, run[0]);
    } else {
      RunKeepsInv(env, run, i - 1);
      assert StepAt(env, run, i);
      StepKeepsInv(env, run[i - 1], run[i]);
    }
  }
}
