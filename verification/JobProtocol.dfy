/**
 One job, its stored files, and every thread that touches them: client requests, deletions,
 the retention cleaner and the worker loops.  A thread is a program counter with the values
 it has read so far; between any two of its repository or storage calls every other thread
 may run.  Coordination is by guarded status updates only, as in the program.
 */
module JobProtocol {
  import opened Wrappers
  import opened Domain
  import opened Repository

  /** The uploaded bytes, reduced to what the program looks at. */
  datatype Document = Document(content: nat, size: nat, signatureOk: bool, pages: nat)

  datatype Detection = Detection(id: nat, pageIndex: nat)

  datatype Manifest = Manifest(pageCount: nat, detections: seq<Detection>, rotation: Rotation)

  /** A redacted file is identified by the document and the manifest it was rendered from. */
  datatype Output = Output(source: Document, manifest: Manifest)

  /** Everything stored under the job's prefix. */
  datatype Blobs = Blobs(
    source: Option<Document>,
    draft: Option<Manifest>,
    approved: Option<Manifest>,
    output: Option<Output>,
    previews: set<nat>)

  const NO_BLOBS := Blobs(None, None, None, None, {})

  /**
   The job's fixed upload data and the outcome of rendering: `accepts` holds when every page
   paints, the flattened file passes its checks and, with OCR on, no identifier is left.
   */
  datatype Settings = Settings(expectedBytes: nat, maxUploadBytes: nat, accepts: (Document, Manifest) -> bool)

  datatype Failure = Cancelled | Validation(code: string) | Other(code: string)

  datatype Pc =
      // client requests; the first three belong to upload, submit and finalize
    | UploadPut(doc: Document)
    | SubmitHead
    | SubmitSignature
    | SubmitReject(code: string)
    | SubmitFail(code: string)
    | SubmitQueue
    | FinalizeRead(from: Status, detections: seq<Detection>, rotation: Rotation)
    | FinalizePut(from: Status, manifest: Manifest)
    | FinalizeQueue(from: Status, manifest: Manifest)
      // deletion and expiry
    | DeleteTombstone
    | DeleteSweep
    | ExpireTombstone
    | ExpireSweep
    | ExpireMark
      // worker, detection task; `auto` is the flag on the claimed record
    | DetectLoad(auto: bool)
    | DetectCount(auto: bool, doc: Document)
    | PreviewCheck(auto: bool, doc: Document, page: nat)
    | PreviewPut(auto: bool, doc: Document, page: nat)
    | DetectModel(auto: bool, doc: Document, done: nat)
    | DetectCheck(auto: bool, doc: Document, detections: seq<Detection>)
    | DetectReport(auto: bool, doc: Document, detections: seq<Detection>)
    | DraftPut(auto: bool, doc: Document, manifest: Manifest)
    | ApprovePut(doc: Document, manifest: Manifest)
    | StartRedacting(doc: Document, manifest: Manifest)
    | ToReview(doc: Document, manifest: Manifest)
    | Release
      // worker, redaction task
    | RedactLoad
    | RedactManifest(doc: Document)
    | Render(doc: Document, manifest: Manifest)
    | OutputCheck(doc: Document, manifest: Manifest)
    | OutputPut(doc: Document, manifest: Manifest)
    | MarkComplete(doc: Document, manifest: Manifest)
    | CompleteRecheck
    | CompleteSweep
      // worker, the failure handler
    | FailRead(failure: Failure)
    | FailSweep
    | FailToReview(code: string)
    | FailToFailed(code: string)

  predicate IsRequest(pc: Pc) {
    || pc.UploadPut? || pc.SubmitHead? || pc.SubmitSignature? || pc.SubmitReject? || pc.SubmitFail?
    || pc.SubmitQueue? || pc.FinalizeRead? || pc.FinalizePut? || pc.FinalizeQueue?
  }

  predicate IsRetention(pc: Pc) {
    pc.DeleteTombstone? || pc.DeleteSweep? || pc.ExpireTombstone? || pc.ExpireSweep? || pc.ExpireMark?
  }

  predicate IsWorker(pc: Pc) {
    !IsRequest(pc) && !IsRetention(pc)
  }

  predicate InDetect(pc: Pc) {
    || pc.DetectLoad? || pc.DetectCount? || pc.PreviewCheck? || pc.PreviewPut? || pc.DetectModel?
    || pc.DetectCheck? || pc.DetectReport? || pc.DraftPut? || pc.ApprovePut? || pc.StartRedacting? || pc.ToReview?
  }

  predicate InRedact(pc: Pc) {
    pc.RedactLoad? || pc.RedactManifest? || pc.Render? || pc.OutputCheck? || pc.OutputPut? || pc.MarkComplete?
  }

  /**
   Who touched a stored file last: it was never stored or a client's rejected submit deleted it, a
   worker has read or stored it since, or a client stored this value.
   */
  datatype Last<T> = Absent | AtWorker | FromClient(value: T)

  /**
   What happened to the files, event by event; no step reads it.  `stray`: an upload or a rejecting
   submit wrote after the job had left its upload stage.  `swapped`: one wrote while another submit
   had looked at the file and not yet queued the job.
   */
  datatype History = History(
    source: Last<Document>,
    draft: Last<Manifest>,
    approved: Last<Manifest>,
    output: Last<Output>,
    stray: bool,
    swapped: bool)

  const NO_HISTORY := History(Absent, Absent, Absent, Absent, false, false)

  /**
   `late`, which no step reads either: since the last deletion of the files, a client stored one on a
   deleted job, or a worker left such a job while it had files.
   */
  datatype State = State(
    now: nat,
    running: bool,
    row: JobRecord,
    blobs: Blobs,
    threads: map<nat, Pc>,
    history: History,
    late: bool)

  /** What one thread does in one step; no next counter means the thread is finished. */
  datatype Outcome = Outcome(row: JobRecord, blobs: Blobs, next: Option<Pc>)

  // ---------------------------------------------------------------- one step of one thread

  function Guarded(s: State, allowed: Option<set<Status>>, c: Changes, done: Option<Pc>, conflict: Option<Pc>): Outcome
  {
    if Admits(allowed, s.row.status)
    then Outcome(Updated(s.row, c, s.now), s.blobs, done)
    else Outcome(s.row, s.blobs, conflict)
  }

  function Store(s: State, blobs: Blobs, next: Option<Pc>): Outcome {
    Outcome(s.row, blobs, next)
  }

  function Go(s: State, next: Pc): Outcome {
    Outcome(s.row, s.blobs, Some(next))
  }

  function End(s: State): Outcome {
    Outcome(s.row, s.blobs, None)
  }

  /** The worker's check before every write. */
  predicate Active(s: State, expected: Status) {
    s.row.status == expected && s.row.expiresAt > s.now
  }

  function Checked(s: State, expected: Status, next: Pc): Outcome {
    Go(s, if Active(s, expected) then next else FailRead(Cancelled))
  }

  const CONFLICT := Some(FailRead(Other("processing_failed")))

  const TOMBSTONE := Changes(status := Some(Deleted), errorCode := Some(None))

  function Truncated(code: string): string {
    if |code| <= 80 then code else code[..80]
  }

  predicate ValidEdits(detections: seq<Detection>, pageCount: nat) {
    && (forall i | 0 <= i < |detections| :: detections[i].pageIndex < pageCount)
    && (forall i, j | 0 <= i < j < |detections| :: detections[i].id != detections[j].id)
  }

  ghost predicate RequestMoves(env: Settings, s: State, pc: Pc, o: Outcome)
    requires IsRequest(pc)
  {
    match pc
    case UploadPut(doc) => o == Store(s, s.blobs.(source := Some(doc)), None)
    case SubmitHead =>
      if s.blobs.source.None? then o == End(s)
      else if s.blobs.source.value.size != env.expectedBytes || s.blobs.source.value.size > env.maxUploadBytes
      then o == Go(s, SubmitReject("upload_size_mismatch"))
      else o == Go(s, SubmitSignature)
    case SubmitSignature =>
      if s.blobs.source.None? then o == End(s)
      else o == Go(s, if s.blobs.source.value.signatureOk then SubmitQueue else SubmitReject("file_signature_mismatch"))
    case SubmitReject(code) => o == Store(s, NO_BLOBS, Some(SubmitFail(code)))
    case SubmitFail(code) =>
      o == Guarded(s, Some({AwaitingUpload}),
                   Changes(status := Some(Failed), errorCode := Some(Some(code))), None, None)
    case SubmitQueue =>
      o == Guarded(s, Some({AwaitingUpload}),
                   Changes(status := Some(QueuedDetection), errorCode := Some(None)), None, None)
    case FinalizeRead(from, detections, rotation) =>
      var base := if s.blobs.approved.Some? then s.blobs.approved else s.blobs.draft;
      if s.row.status in {ReviewRequired, QueuedRedaction, Redacting, Complete} && s.row.expiresAt > s.now && base.Some?
      then o == Go(s, FinalizePut(from, Manifest(base.value.pageCount, detections, rotation)))
      else o == End(s)
    case FinalizePut(from, m) => o == Store(s, s.blobs.(approved := Some(m)), Some(FinalizeQueue(from, m)))
    case FinalizeQueue(from, m) =>
      o == Guarded(s, Some({from}),
                   Changes(status := Some(QueuedRedaction), findingCount := Some(|m.detections|),
                           autoFinalize := Some(false), errorCode := Some(None)),
                   None, None)
  }

  ghost predicate RetentionMoves(s: State, pc: Pc, o: Outcome)
    requires IsRetention(pc)
  {
    match pc
    case DeleteTombstone => o == Guarded(s, None, TOMBSTONE.(expiresAt := Some(s.now)), Some(DeleteSweep), None)
    case DeleteSweep => o == Store(s, NO_BLOBS, None)
    case ExpireTombstone => o == Guarded(s, None, TOMBSTONE.(expiresAt := Some(s.now)), Some(ExpireSweep), None)
    case ExpireSweep => o == Store(s, NO_BLOBS, Some(ExpireMark))
    case ExpireMark =>
      o == Guarded(s, Some({Deleted}), Changes(status := Some(Expired), errorCode := Some(None)), None, None)
  }

  /** Any failure of a library or storage call inside the task reaches the failure handler. */
  ghost predicate Raises(s: State, o: Outcome) {
    && o.row == s.row && o.blobs == s.blobs
    && o.next.Some? && o.next.value.FailRead? && !o.next.value.failure.Cancelled?
  }

  ghost predicate DetectMoves(s: State, pc: Pc, o: Outcome)
    requires InDetect(pc)
  {
    || Raises(s, o)
    || match pc
       case DetectLoad(auto) =>
         s.blobs.source.Some? && s.blobs.source.value.pages > 0 && o == Go(s, DetectCount(auto, s.blobs.source.value))
       case DetectCount(auto, doc) =>
         o == Guarded(s, Some({Detecting}), Changes(pageCount := Some(doc.pages), pagesCompleted := Some(0)),
                      Some(PreviewCheck(auto, doc, 0)), CONFLICT)
       case PreviewCheck(auto, doc, page) =>
         if page < doc.pages then o == Checked(s, Detecting, PreviewPut(auto, doc, page))
         else o == Go(s, DetectModel(auto, doc, 0))
       case PreviewPut(auto, doc, page) =>
         o == Store(s, s.blobs.(previews := s.blobs.previews + {page}), Some(PreviewCheck(auto, doc, page + 1)))
       case DetectModel(auto, doc, done) =>
         if done < doc.pages then
           // one page finished: its progress write ignores a conflict; or the model server is gone
           || o == Guarded(s, Some({Detecting}), Changes(pagesCompleted := Some(done + 1)),
                           Some(DetectModel(auto, doc, done + 1)), Some(DetectModel(auto, doc, done + 1)))
           || o == Go(s, Release)
         else
           && o.row == s.row && o.blobs == s.blobs
           && o.next.Some? && o.next.value.DetectCheck?
           && o.next.value.auto == auto && o.next.value.doc == doc
       case DetectCheck(auto, doc, ds) => o == Checked(s, Detecting, DetectReport(auto, doc, ds))
       case DetectReport(auto, doc, ds) =>
         o == Guarded(s, Some({Detecting}), Changes(pagesCompleted := Some(doc.pages), findingCount := Some(|ds|)),
                      Some(DraftPut(auto, doc, Manifest(doc.pages, ds, 0))), CONFLICT)
       case DraftPut(auto, doc, m) =>
         o == Store(s, s.blobs.(draft := Some(m)), Some(if auto then ApprovePut(doc, m) else ToReview(doc, m)))
       case ApprovePut(doc, m) => o == Store(s, s.blobs.(approved := Some(m)), Some(StartRedacting(doc, m)))
       case StartRedacting(doc, m) =>
         o == Guarded(s, Some({Detecting}), Changes(status := Some(Redacting), findingCount := Some(|m.detections|)),
                      Some(Render(doc, m)), CONFLICT)
       case ToReview(doc, m) =>
         o == Guarded(s, Some({Detecting}),
                      Changes(status := Some(ReviewRequired), findingCount := Some(|m.detections|)),
                      None, CONFLICT)
  }

  ghost predicate RedactMoves(env: Settings, s: State, pc: Pc, o: Outcome)
    requires InRedact(pc)
  {
    || Raises(s, o)
    || match pc
       case RedactLoad =>
         s.blobs.source.Some? && s.blobs.source.value.pages > 0 && o == Go(s, RedactManifest(s.blobs.source.value))
       case RedactManifest(doc) =>
         && s.blobs.approved.Some?
         && var m := s.blobs.approved.value;
            o == Go(s, if m.pageCount == doc.pages then Render(doc, m)
                    else FailRead(Validation("manifest_document_mismatch")))
       case Render(doc, m) => env.accepts(doc, m) && o == Go(s, OutputCheck(doc, m))
       case OutputCheck(doc, m) => o == Checked(s, Redacting, OutputPut(doc, m))
       case OutputPut(doc, m) => o == Store(s, s.blobs.(output := Some(Output(doc, m))), Some(MarkComplete(doc, m)))
       case MarkComplete(doc, m) =>
         o == Guarded(s, Some({Redacting}),
                      Changes(status := Some(Complete), pagesCompleted := Some(doc.pages),
                              findingCount := Some(|m.detections|), errorCode := Some(None)),
                      None, Some(CompleteRecheck))
  }

  ghost predicate SettleMoves(s: State, pc: Pc, o: Outcome)
    requires IsWorker(pc) && !InDetect(pc) && !InRedact(pc)
  {
    match pc
    case Release => o == Guarded(s, Some({Detecting}), Changes(status := Some(QueuedDetection)), None, None)
    case CompleteRecheck => o == Go(s, if Terminal(s.row.status) then CompleteSweep else FailRead(Cancelled))
    case CompleteSweep => o == Store(s, NO_BLOBS, Some(FailRead(Cancelled)))
    case FailRead(failure) =>
      if Terminal(s.row.status) then o == Go(s, FailSweep)
      else if failure.Cancelled? || s.row.status == Complete then o == End(s)
      else if failure.Validation? && s.row.status == Redacting && !s.row.autoFinalize
      then o == Go(s, FailToReview(failure.code))
      else o == Go(s, FailToFailed(failure.code))
    case FailSweep => o == Store(s, NO_BLOBS, None)
    case FailToReview(code) =>
      o == Guarded(s, Some({Redacting}),
                   Changes(status := Some(ReviewRequired), errorCode := Some(Some(Truncated(code)))), None, None)
    case FailToFailed(code) =>
      o == Guarded(s, Some({Detecting, Redacting}),
                   Changes(status := Some(Failed), errorCode := Some(Some(Truncated(code)))), None, None)
  }

  ghost predicate Moves(env: Settings, s: State, pc: Pc, o: Outcome) {
    if IsRequest(pc) then RequestMoves(env, s, pc, o)
    else if IsRetention(pc) then RetentionMoves(s, pc, o)
    else if InDetect(pc) then DetectMoves(s, pc, o)
    else if InRedact(pc) then RedactMoves(env, s, pc, o)
    else SettleMoves(s, pc, o)
  }

  // ---------------------------------------------------------------- the whole system

  datatype Label =
    | Tick(seconds: nat)
    | Begin(thread: nat, pc: Pc)       // a request, a deletion or a cleanup pass reads the row
    | Claim(thread: nat)               // a worker loop takes the job
    | Advance(thread: nat, o: Outcome)
    | Vanish(thread: nat)              // a thread dies
    | Crash                            // the worker process dies
    | Restart                          // it comes back and requeues

  /** What a request may start with, from the status check it makes first. */
  ghost predicate MayBegin(s: State, pc: Pc) {
    match pc
    case UploadPut(doc) => s.row.status == AwaitingUpload && s.row.expiresAt > s.now
    case SubmitHead => s.row.status == AwaitingUpload && s.row.expiresAt > s.now
    case FinalizeRead(from, ds, rotation) =>
      && s.row.expiresAt > s.now && s.row.status in {ReviewRequired, Complete} && from == s.row.status
      && s.row.pageCount.Some? && ValidEdits(ds, s.row.pageCount.value)
    case DeleteTombstone => !Terminal(s.row.status)
    case DeleteSweep => s.row.status == Deleted
    case ExpireTombstone => !Terminal(s.row.status) && s.row.expiresAt <= s.now
    case ExpireSweep => s.row.status == Deleted && s.row.expiresAt <= s.now
    case _ => false
  }

  ghost predicate Allowed(env: Settings, s: State, l: Label) {
    match l
    case Tick(_) => true
    case Begin(t, pc) => t !in s.threads && MayBegin(s, pc)
    case Claim(t) => s.running && t !in s.threads && Queued(s.row.status)
    case Advance(t, o) => t in s.threads && Moves(env, s, s.threads[t], o)
    case Vanish(t) => t in s.threads
    case Crash => s.running
    case Restart => !s.running
  }

  function Resume(threads: map<nat, Pc>, t: nat, next: Option<Pc>): map<nat, Pc> {
    if next.Some? then threads[t := next.value] else threads - {t}
  }

  function Workers(threads: map<nat, Pc>): set<nat> {
    set t | t in threads && IsWorker(threads[t])
  }

  /** Some submit has looked at the file and has not queued the job yet. */
  predicate Checking(threads: map<nat, Pc>) {
    exists t | t in threads :: threads[t].SubmitSignature? || threads[t].SubmitQueue?
  }

  predicate Raised(o: Outcome) {
    o.next.Some? && o.next.value.FailRead?
  }

  /** The steps that delete every file of the job. */
  predicate Sweeps(pc: Pc) {
    pc.SubmitReject? || pc.DeleteSweep? || pc.ExpireSweep? || pc.CompleteSweep? || pc.FailSweep?
  }

  /** A client's write to the source. */
  function Written(s: State, source: Last<Document>): History {
    s.history.(source := source,
               stray := s.history.stray || s.row.status != AwaitingUpload,
               swapped := s.history.swapped || Checking(s.threads))
  }

  predicate LateIf(s: State, event: bool) {
    s.late || (event && Terminal(s.row.status))
  }

  predicate NowLate(s: State, pc: Pc) {
    !Sweeps(pc) && LateIf(s, pc.UploadPut? || pc.FinalizePut? || (pc.Release? && s.blobs != NO_BLOBS))
  }

  /** The history after the step of a thread at `pc`. */
  function Recorded(s: State, pc: Pc, o: Outcome): History {
    var h := s.history;
    match pc
    case UploadPut(doc) => Written(s, FromClient(doc))
    case SubmitReject(_) => Written(s, Absent).(draft := Absent, approved := Absent, output := Absent)
    case FinalizePut(_, m) => h.(approved := FromClient(m))
    case DetectLoad(_) => if Raised(o) then h else h.(source := AtWorker)
    case RedactLoad => if Raised(o) then h else h.(source := AtWorker)
    case DraftPut(_, _, _) => if Raised(o) then h else h.(draft := AtWorker)
    case ApprovePut(_, _) => if Raised(o) then h else h.(approved := AtWorker)
    case RedactManifest(_) => if Raised(o) then h else h.(approved := AtWorker)
    case OutputPut(_, _) => if Raised(o) then h else h.(output := AtWorker)
    case _ => h
  }

  function Effect(s: State, l: Label): State
    requires l.Advance? || l.Vanish? ==> l.thread in s.threads
  {
    match l
    case Tick(n) => s.(now := s.now + n)
    case Begin(t, pc) => s.(threads := s.threads[t := pc])
    case Claim(t) =>
      var status := ClaimStatus(s.row.status);
      s.(row := Updated(s.row, Changes(status := Some(status)), s.now),
         threads := s.threads[t := if status == Detecting then DetectLoad(s.row.autoFinalize) else RedactLoad])
    case Advance(t, o) =>
      var pc := s.threads[t];
      s.(row := o.row, blobs := o.blobs, threads := Resume(s.threads, t, o.next),
         history := Recorded(s, pc, o), late := NowLate(s, pc))
    case Vanish(t) =>
      s.(threads := s.threads - {t}, late := LateIf(s, IsWorker(s.threads[t]) && s.blobs != NO_BLOBS))
    case Crash =>
      s.(running := false,
         threads := s.threads - Workers(s.threads),
         late := LateIf(s, Workers(s.threads) != {} && s.blobs != NO_BLOBS))
    case Restart => s.(running := true, row := Requeued(s.row, s.now))
  }

  ghost predicate Step(env: Settings, s: State, s': State) {
    exists l: Label :: Allowed(env, s, l) && s' == Effect(s, l)
  }

  ghost predicate Init(s: State) {
    && s.row.status == AwaitingUpload && s.row.pageCount == None && s.row.pagesCompleted == 0
    && s.row.expiresAt > s.now
    && s.blobs == NO_BLOBS && s.threads == map[] && s.history == NO_HISTORY && !s.late
  }

  /** State i of the run follows from the one before it. */
  ghost predicate StepAt(env: Settings, run: seq<State>, i: nat)
    requires 0 < i < |run|
  {
    Step(env, run[i - 1], run[i])
  }

  /** A finite run of the system from a newly created job. */
  ghost predicate IsRun(env: Settings, run: seq<State>) {
    && |run| > 0 && Init(run[0])
    && forall i | 0 < i < |run| :: StepAt(env, run, i)
  }
}
