/** The controllers as one interleaved machine over the shared cluster store.

    Every event is one store access of one controller, or one move of the environment. An event
    carries what the controller cannot choose (API failures, digests, list order, scanner output);
    an event that its controller is not ready for changes nothing. A run is a sequence of events. */
module Protocol {
  import opened Cluster
  import opened Naming

  /** `stampFailures` is false in the source. It selects a variant in which markFailed also sets
      completionTime. Both controllers get maxConcurrentScans from the same environment variable. */
  datatype Params = Params(
    sha: string -> Sum256,
    maxConcurrentScans: int,
    retention: int,
    stampFailures: bool)

  const DEFAULT_MAX_CONCURRENT_SCANS := 10
  const FAILED_RETRY_INTERVAL := 7200

  function EffectiveMaxConcurrentScans(p: Params): (limit: nat)
    ensures limit > 0
  {
    if p.maxConcurrentScans > 0 then p.maxConcurrentScans else DEFAULT_MAX_CONCURRENT_SCANS
  }

  // ── SecurityScanConfig controller ───────────────────────────────────────

  /** One call of ensureImageScanJob that the batch loop still has to make. */
  datatype Work = Work(image: string, scanner: string, digest: string, sourceNamespace: string)

  function WorkName(p: Params, w: Work): string {
    ImageToJobName(p.sha, w.image, w.scanner, w.digest)
  }

  datatype Batch = Batch(ns: string, config: string, work: seq<Work>, created: nat, capacity: nat)

  /** Where in ensureImageScanJob the controller stands. */
  datatype EnsureStage = AtGet | AtDelete | AtPatch | AtCreate

  datatype SscState =
    | SscIdle
    | Ensuring(batch: Batch, stage: EnsureStage)
    | Resetting(todo: seq<Key>)

  // ── ImageScanJob controller ─────────────────────────────────────────────

  /** The status writes of the controller; the terminal ones carry the batch Job they rest on. */
  datatype Verdict =
    | Started
    | Parsed(job: BatchJob, counts: Counts)
    | Unparsed(job: BatchJob)
    | Broken(job: BatchJob)

  datatype WorkerStage =
    | ToFind
    | ToCount
    | ToCreate
    | ToParse(job: BatchJob)
    | ToPatch(verdict: Verdict, at: Time)

  /** What a finished reconcile told the work queue. */
  datatype Outcome = Done | Requeue | Error

  datatype WorkerState =
    | WorkerIdle(outcome: Outcome)
    | Working(key: Key, base: ScanJob, stage: WorkerStage)

  // ── Cleaner ─────────────────────────────────────────────────────────────

  datatype Listed = Listed(key: Key, job: ScanJob)

  datatype CleanerState = CleanerIdle | Cleaning(cutoff: Time, todo: seq<Listed>)

  // ── The machine ─────────────────────────────────────────────────────────

  /** `manual`, `recounted`, `verdicts` and `retried` only record history: namespaces of manual
      creations, the counted Jobs that were not counted for a while, the last verdict written to an
      incarnation, and when the jobs of a name were deleted for a retry. */
  datatype State = State(
    now: Time,
    nextUid: nat,
    isjs: ScanJobs,
    jobs: map<Key, BatchJob>,
    ssc: SscState,
    worker: WorkerState,
    cleaner: CleanerState,
    manual: multiset<string>,
    recounted: set<Key>,
    verdicts: map<nat, Verdict>,
    retried: map<Key, seq<Time>>)

  datatype Event =
    | Tick(seconds: nat)
    // SecurityScanConfig controller
    | Snapshot(ns: string, config: string, images: seq<string>, scanners: seq<string>,
               digests: map<string, string>, sources: map<string, string>)
    | EnsureGet(ok: bool)
    | EnsureDelete(ok: bool)
    | EnsurePatch(ok: bool)
    | EnsureCreate(ok: bool)
    | ResetList(ns: string, config: string, order: seq<Key>)
    | ResetDelete(ok: bool)
    | SscCrash
    // ImageScanJob controller
    | WorkerGet(key: Key, ok: bool)
    | WorkerFind(ok: bool)
    | WorkerCount(ok: bool)
    | WorkerCreateJob(ok: bool)
    | WorkerParse(counts: Option<Counts>)
    | WorkerPatch(ok: bool)
    | WorkerCrash
    // batch system, garbage collector, users
    | JobMoves(key: Key, status: JobStatus)
    | JobGone(key: Key)
    | ManualScan(ns: string, image: string, scanner: string)
    | UserDelete(key: Key)
    // cleaner
    | CleanerList(order: seq<Key>)
    | CleanerDelete(ok: bool)

  function Lookup(m: map<string, string>, k: string): string {
    if k in m then m[k] else ""
  }

  /** needsScan for one image: the configured scanners without a job for it, in order. */
  function Needed(image: string, scanners: seq<string>, covered: set<(string, string)>): seq<string> {
    if scanners == [] then []
    else if (image, scanners[0]) in covered then Needed(image, scanners[1..], covered)
    else [scanners[0]] + Needed(image, scanners[1..], covered)
  }

  function WorkOf(image: string, scanners: seq<string>, digest: string, source: string): seq<Work> {
    seq(|scanners|, i requires 0 <= i < |scanners| => Work(image, scanners[i], digest, source))
  }

  /** The calls of ensureImageScanJob that one pass over the images would make without a cap. */
  function Worklist(
    images: seq<string>, scanners: seq<string>, covered: set<(string, string)>,
    digests: map<string, string>, sources: map<string, string>): seq<Work>
  {
    if images == [] then []
    else
      WorkOf(images[0], Needed(images[0], scanners, covered), Lookup(digests, images[0]), Lookup(sources, images[0]))
      + Worklist(images[1..], scanners, covered, digests, sources)
  }

  /** Listing, throttle and choice of work; the batch starts at its first call. */
  function AfterSnapshot(p: Params, s: State, e: Event): SscState
    requires e.Snapshot?
  {
    if !s.ssc.SscIdle? || !NoDuplicates(e.images) then s.ssc
    else
      var active := |Open(s.isjs, e.ns)|;
      if EffectiveMaxConcurrentScans(p) <= active then s.ssc
      else
        var work := Worklist(e.images, e.scanners, Covered(s.isjs, e.ns), e.digests, e.sources);
        Ensuring(Batch(e.ns, e.config, work, 0, EffectiveMaxConcurrentScans(p) - active), AtGet)
  }

  /** The loop goes on to its next call; `counted` says whether ensureImageScanJob returned nil. */
  function NextCall(b: Batch, counted: bool): SscState
    requires b.work != []
  {
    Ensuring(b.(work := b.work[1..], created := if counted then b.created + 1 else b.created), AtGet)
  }

  predicate WithinRetryInterval(now: Time, status: Status) {
    status.completionTime.Some? && now - status.completionTime.value < FAILED_RETRY_INTERVAL
  }

  function AfterEnsureGet(p: Params, s: State, ok: bool): SscState {
    if !s.ssc.Ensuring? || !s.ssc.stage.AtGet? then s.ssc
    else
      var b := s.ssc.batch;
      if b.work == [] || b.created >= b.capacity then SscIdle
      else
        var key := Key(b.ns, WorkName(p, b.work[0]));
        if !ok then NextCall(b, false)
        else if key !in s.isjs then Ensuring(b, AtCreate)
        else
          var existing := s.isjs[key];
          if existing.status.phase.Failed? then
            if WithinRetryInterval(s.now, existing.status) then NextCall(b, true)
            else Ensuring(b, AtDelete)
          else if existing.spec.sourceNamespace == "" && b.work[0].sourceNamespace != "" then Ensuring(b, AtPatch)
          else NextCall(b, true)
  }

  function Retries(s: State, key: Key): seq<Time> {
    if key in s.retried then s.retried[key] else []
  }

  function EnsureDeleteStep(p: Params, s: State, ok: bool): State {
    if !s.ssc.Ensuring? || !s.ssc.stage.AtDelete? || s.ssc.batch.work == [] then s
    else
      var b := s.ssc.batch;
      var key := Key(b.ns, WorkName(p, b.work[0]));
      if !ok || key !in s.isjs then s.(ssc := NextCall(b, false))
      else
        s.(isjs := s.isjs - {key}, ssc := Ensuring(b, AtCreate),
           retried := s.retried[key := Retries(s, key) + [s.now]])
  }

  function EnsurePatchStep(p: Params, s: State, ok: bool): State {
    if !s.ssc.Ensuring? || !s.ssc.stage.AtPatch? || s.ssc.batch.work == [] then s
    else
      var b := s.ssc.batch;
      var key := Key(b.ns, WorkName(p, b.work[0]));
      if !ok || key !in s.isjs then s.(ssc := NextCall(b, false))
      else
        var job := s.isjs[key];
        var filled := job.(spec := job.spec.(sourceNamespace := b.work[0].sourceNamespace));
        s.(isjs := s.isjs[key := filled], ssc := NextCall(b, true))
  }

  function NewScanJob(s: State, spec: Spec): ScanJob {
    ScanJob(s.nextUid, s.now, spec, FRESH)
  }

  function EnsureCreateStep(p: Params, s: State, ok: bool): State {
    if !s.ssc.Ensuring? || !s.ssc.stage.AtCreate? || s.ssc.batch.work == [] then s
    else
      var b := s.ssc.batch;
      var w := b.work[0];
      var key := Key(b.ns, WorkName(p, w));
      if !ok || key in s.isjs then s.(ssc := NextCall(b, false))
      else
        var job := NewScanJob(s, Spec(w.image, w.digest, w.scanner, Kubernetes, b.config, w.sourceNamespace));
        s.(isjs := s.isjs[key := job], nextUid := s.nextUid + 1, ssc := NextCall(b, true))
  }

  predicate OwnedBy(isjs: ScanJobs, ns: string, config: string, k: Key) {
    k in isjs && k.ns == ns && isjs[k].spec.configRef == config
  }

  function AfterResetList(s: State, e: Event): SscState
    requires e.ResetList?
  {
    if !s.ssc.SscIdle? || !NoDuplicates(e.order)
       || (set k | k in e.order) != (set k | k in s.isjs && OwnedBy(s.isjs, e.ns, e.config, k)) then s.ssc
    else Resetting(e.order)
  }

  function ResetDeleteStep(s: State, ok: bool): State {
    if !s.ssc.Resetting? then s
    else if s.ssc.todo == [] then s.(ssc := SscIdle)
    else
      var rest := Resetting(s.ssc.todo[1..]);
      if ok then s.(isjs := s.isjs - {s.ssc.todo[0]}, ssc := rest) else s.(ssc := rest)
  }

  function AfterWorkerGet(s: State, key: Key, ok: bool): WorkerState {
    if !s.worker.WorkerIdle? then s.worker
    else if !ok then WorkerIdle(Error)
    else if key !in s.isjs || Terminal(s.isjs[key].status.phase) then WorkerIdle(Done)
    else Working(key, s.isjs[key], ToFind)
  }

  /** The switch on the state of an existing batch Job. */
  function StageForJob(base: ScanJob, job: BatchJob, now: Time): Option<WorkerStage> {
    if JobSucceeded(job.status) then Some(ToParse(job))
    else if JobFailed(job.status) then Some(ToPatch(Broken(job), now))
    else if !base.status.phase.Running? then Some(ToPatch(Started, now))
    else None
  }

  function AfterWorkerFind(p: Params, s: State, ok: bool): WorkerState {
    if !s.worker.Working? || !s.worker.stage.ToFind? then s.worker
    else if !ok then WorkerIdle(Error)
    else
      var jobKey := JobKey(s.worker.key, s.worker.base.spec.scanner);
      if jobKey !in s.jobs then
        s.worker.(stage := if p.maxConcurrentScans > 0 then ToCount else ToCreate)
      else
        var next := StageForJob(s.worker.base, s.jobs[jobKey], s.now);
        if next.Some? then s.worker.(stage := next.value) else WorkerIdle(Requeue)
  }

  function AfterWorkerCount(p: Params, s: State, ok: bool): WorkerState {
    if !s.worker.Working? || !s.worker.stage.ToCount? then s.worker
    else if !ok then WorkerIdle(Error)
    else if |CountedJobs(s.jobs, s.worker.key.ns)| >= p.maxConcurrentScans then WorkerIdle(Requeue)
    else s.worker.(stage := ToCreate)
  }

  function WorkerCreateJobStep(s: State, ok: bool): State {
    if !s.worker.Working? || !s.worker.stage.ToCreate? then s
    else
      var w := s.worker;
      var scanner := w.base.spec.scanner;
      var jobKey := JobKey(w.key, scanner);
      if !ok || jobKey in s.jobs then s.(worker := WorkerIdle(Error))
      else
        var job := BatchJob(s.nextUid, w.base.uid, w.key.name, scanner, NEW_JOB);
        s.(jobs := s.jobs[jobKey := job], nextUid := s.nextUid + 1,
           worker := w.(stage := ToPatch(Started, s.now)))
  }

  /** `counts` is None when the pod log cannot be read or parsed. Posting the report comes after
      this and its failure is ignored. */
  function AfterWorkerParse(s: State, counts: Option<Counts>): WorkerState {
    if !s.worker.Working? || !s.worker.stage.ToParse? then s.worker
    else
      var job := s.worker.stage.job;
      var verdict := if counts.Some? then Parsed(job, counts.value) else Unparsed(job);
      s.worker.(stage := ToPatch(verdict, s.now))
  }

  /** setPhase, markCompleted and markFailed on the object read at the start of the reconcile. */
  function NextStatus(p: Params, base: ScanJob, key: Key, verdict: Verdict, at: Time): Status {
    var jobName := JobKey(key, base.spec.scanner).name;
    match verdict
    case Started =>
      base.status.(
        phase := Running,
        startTime := if base.status.phase.Unset? then Some(at) else base.status.startTime)
    case Parsed(_, counts) =>
      base.status.(phase := Completed, jobName := jobName, completionTime := Some(at), counts := counts)
    case Unparsed(_) => FailedStatus(p, base.status, jobName, at)
    case Broken(_) => FailedStatus(p, base.status, jobName, at)
  }

  function FailedStatus(p: Params, status: Status, jobName: string, at: Time): Status {
    status.(
      phase := Failed,
      jobName := jobName,
      completionTime := if p.stampFailures then Some(at) else status.completionTime)
  }

  /** A merge patch: only what differs between `base` and `next` is sent, and the server puts that
      into whatever it stores under the name now. */
  function MergePatch(stored: Status, base: Status, next: Status): Status {
    Status(
      if next.phase != base.phase then next.phase else stored.phase,
      if next.jobName != base.jobName then next.jobName else stored.jobName,
      if next.startTime != base.startTime then next.startTime else stored.startTime,
      if next.completionTime != base.completionTime then next.completionTime else stored.completionTime,
      Counts(
        if next.counts.critical != base.counts.critical then next.counts.critical else stored.counts.critical,
        if next.counts.high != base.counts.high then next.counts.high else stored.counts.high,
        if next.counts.medium != base.counts.medium then next.counts.medium else stored.counts.medium,
        if next.counts.low != base.counts.low then next.counts.low else stored.counts.low))
  }

  function WorkerPatchStep(p: Params, s: State, ok: bool): State {
    if !s.worker.Working? || !s.worker.stage.ToPatch? then s
    else if !ok || s.worker.key !in s.isjs then s.(worker := WorkerIdle(Error))
    else
      var w := s.worker;
      var verdict := w.stage.verdict;
      var stored := s.isjs[w.key];
      var next := NextStatus(p, w.base, w.key, verdict, w.stage.at);
      s.(isjs := s.isjs[w.key := stored.(status := MergePatch(stored.status, w.base.status, next))],
         verdicts := s.verdicts[stored.uid := verdict],
         worker := WorkerIdle(if verdict.Started? then Requeue else Done))
  }

  function JobMovesStep(s: State, key: Key, status: JobStatus): State {
    if key !in s.jobs then s
    else
      s.(jobs := s.jobs[key := s.jobs[key].(status := status)],
         recounted :=
           if !JobCounted(status) then s.recounted - {key}
           else if !JobCounted(s.jobs[key].status) then s.recounted + {key}
           else s.recounted)
  }

  function ManualScanStep(p: Params, s: State, ns: string, image: string, scanner: string): State {
    var key := Key(ns, ManualScanJobName(p.sha, image, scanner));
    if key in s.isjs then s
    else
      s.(isjs := s.isjs[key := NewScanJob(s, Spec(image, "", scanner, ByHand, "manual", ""))],
         nextUid := s.nextUid + 1,
         manual := s.manual + multiset{ns})
  }

  /** What runCleanup goes on to delete: terminal and not created after the cutoff. */
  predicate Stale(job: ScanJob, cutoff: Time) {
    Terminal(job.status.phase) && job.created <= cutoff
  }

  function StaleJobs(order: seq<Key>, isjs: ScanJobs, cutoff: Time): seq<Listed> {
    if order == [] then []
    else if order[0] in isjs && Stale(isjs[order[0]], cutoff) then
      [Listed(order[0], isjs[order[0]])] + StaleJobs(order[1..], isjs, cutoff)
    else StaleJobs(order[1..], isjs, cutoff)
  }

  function AfterCleanerList(p: Params, s: State, order: seq<Key>): CleanerState {
    if !s.cleaner.CleanerIdle? || !NoDuplicates(order) || (set k | k in order) != s.isjs.Keys then s.cleaner
    else Cleaning(s.now - p.retention, StaleJobs(order, s.isjs, s.now - p.retention))
  }

  function CleanerDeleteStep(s: State, ok: bool): State {
    if !s.cleaner.Cleaning? then s
    else if s.cleaner.todo == [] then s.(cleaner := CleanerIdle)
    else
      var rest := s.cleaner.(todo := s.cleaner.todo[1..]);
      if ok then s.(isjs := s.isjs - {s.cleaner.todo[0].key}, cleaner := rest) else s.(cleaner := rest)
  }

  function Step(p: Params, s: State, e: Event): State {
    match e
    case Tick(seconds) => s.(now := s.now + seconds)
    case Snapshot(_, _, _, _, _, _) => s.(ssc := AfterSnapshot(p, s, e))
    case EnsureGet(ok) => s.(ssc := AfterEnsureGet(p, s, ok))
    case EnsureDelete(ok) => EnsureDeleteStep(p, s, ok)
    case EnsurePatch(ok) => EnsurePatchStep(p, s, ok)
    case EnsureCreate(ok) => EnsureCreateStep(p, s, ok)
    case ResetList(_, _, _) => s.(ssc := AfterResetList(s, e))
    case ResetDelete(ok) => ResetDeleteStep(s, ok)
    case SscCrash => s.(ssc := SscIdle)
    case WorkerGet(key, ok) => s.(worker := AfterWorkerGet(s, key, ok))
    case WorkerFind(ok) => s.(worker := AfterWorkerFind(p, s, ok))
    case WorkerCount(ok) => s.(worker := AfterWorkerCount(p, s, ok))
    case WorkerCreateJob(ok) => WorkerCreateJobStep(s, ok)
    case WorkerParse(counts) => s.(worker := AfterWorkerParse(s, counts))
    case WorkerPatch(ok) => WorkerPatchStep(p, s, ok)
    case WorkerCrash => s.(worker := WorkerIdle(Error))
    case JobMoves(key, status) => JobMovesStep(s, key, status)
    case JobGone(key) => s.(jobs := s.jobs - {key}, recounted := s.recounted - {key})
    case ManualScan(ns, image, scanner) => ManualScanStep(p, s, ns, image, scanner)
    case UserDelete(key) => s.(isjs := s.isjs - {key})
    case CleanerList(order) => s.(cleaner := AfterCleanerList(p, s, order))
    case CleanerDelete(ok) => CleanerDeleteStep(s, ok)
  }

  function Run(p: Params, s: State, events: seq<Event>): State
    decreases |events|
  {
    if events == [] then s else Run(p, Step(p, s, events[0]), events[1..])
  }

  function Start(now: Time): State {
    State(now, 0, map[], map[], SscIdle, WorkerIdle(Done), CleanerIdle, multiset{}, {}, map[], map[])
  }
}
