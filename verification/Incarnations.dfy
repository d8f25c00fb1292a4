/** Verdicts and incarnations: when a terminal status speaks about the object that carries it. */
module Incarnations {
  import opened Cluster
  import opened Naming
  import opened Protocol
  import opened Steps
  import opened Lifecycle
  import opened BatchJobs

  /** The worker is in the middle of a reconcile of `key` that will still write, or create a Job, for the object
      it read. A reconcile that has only its Running patch left is past that. */
  predicate MidReconcile(worker: WorkerState, key: Key) {
    worker.Working? && worker.key == key && !(worker.stage.ToPatch? && worker.stage.verdict.Started?)
  }

  /** The hypothesis: a name is used again only after its batch Job is gone, and not in the middle of a
      reconcile of that name. */
  ghost predicate CleanReuse(p: Params, s: State, e: Event) {
    Creating(e) && CreatesFor(p, s, e) ==>
      && JobKey(CreatedKey(p, s, e), CreatedSpec(s, e).scanner) !in s.jobs
      && !MidReconcile(s.worker, CreatedKey(p, s, e))
  }

  ghost predicate AlwaysClean(p: Params, s: State, events: seq<Event>)
    decreases |events|
  {
    events != [] ==> CleanReuse(p, s, events[0]) && AlwaysClean(p, Step(p, s, events[0]), events[1..])
  }

  /** The batch Job behind a verdict belongs to this incarnation. */
  predicate OwnVerdict(uid: nat, verdict: Verdict) {
    !verdict.Started? ==> verdict.job.owner == uid
  }

  predicate OwnStage(uid: nat, stage: WorkerStage) {
    match stage
    case ToParse(job) => job.owner == uid
    case ToPatch(verdict, _) => OwnVerdict(uid, verdict)
    case _ => true
  }

  ghost predicate OwnJobs(isjs: ScanJobs, jobs: map<Key, BatchJob>) {
    forall k | k in isjs && JobKey(k, isjs[k].spec.scanner) in jobs ::
      jobs[JobKey(k, isjs[k].spec.scanner)].owner == isjs[k].uid
  }

  ghost predicate OwnVerdicts(s: State) {
    forall k | k in s.isjs && Terminal(s.isjs[k].status.phase) ::
      s.isjs[k].uid in s.verdicts && OwnVerdict(s.isjs[k].uid, s.verdicts[s.isjs[k].uid])
  }

  predicate OwnWorker(s: State) {
    s.worker.Working? && s.worker.key in s.isjs && MidReconcile(s.worker, s.worker.key) ==>
      && s.isjs[s.worker.key].uid == s.worker.base.uid
      && OwnStage(s.worker.base.uid, s.worker.stage)
  }

  ghost predicate Own(s: State) {
    OwnJobs(s.isjs, s.jobs) && OwnVerdicts(s) && OwnWorker(s)
  }

  lemma FewerKeepOwn(s: State, t: State)
    requires Own(s) && Deletes(s, t) && s.worker == t.worker
    requires forall j | j in t.jobs :: j in s.jobs && t.jobs[j].owner == s.jobs[j].owner
    ensures Own(t)
  {}

  lemma CreationKeepsOwn(p: Params, s: State, e: Event)
    requires Own(s) && Creating(e) && CreatesFor(p, s, e) && CleanReuse(p, s, e)
    ensures Own(Step(p, s, e))
  {
    OthersLeaveWorker(p, s, e);
    OthersLeaveJobs(p, s, e);
    CreatingStepsCreate(p, s, e);
  }

  lemma FindKeepsOwn(p: Params, s: State, ok: bool)
    requires Inv(p, s) && Own(s)
    ensures Own(s.(worker := AfterWorkerFind(p, s, ok)))
  {}

  lemma CreateJobKeepsOwn(p: Params, s: State, ok: bool)
    requires Inv(p, s) && Own(s)
    ensures Own(WorkerCreateJobStep(s, ok))
  {
    var t := WorkerCreateJobStep(s, ok);
    if t.jobs != s.jobs {
      forall k | k in s.isjs && JobKey(k, s.isjs[k].spec.scanner) == JobKey(s.worker.key, s.worker.base.spec.scanner)
        ensures k == s.worker.key
      {
        JobKeyInjective(k, s.isjs[k].spec.scanner, s.worker.key, s.worker.base.spec.scanner);
      }
    }
  }

  lemma MoveKeepsOwn(s: State, worker: WorkerState)
    requires Own(s) && OwnWorker(s.(worker := worker))
    ensures Own(s.(worker := worker))
  {}

  lemma ParseKeepsOwn(s: State, counts: Option<Counts>)
    requires Own(s)
    ensures Own(s.(worker := AfterWorkerParse(s, counts)))
  {
    MoveKeepsOwn(s, AfterWorkerParse(s, counts));
  }

  lemma CountKeepsOwn(p: Params, s: State, ok: bool)
    requires Own(s)
    ensures Own(s.(worker := AfterWorkerCount(p, s, ok)))
  {
    MoveKeepsOwn(s, AfterWorkerCount(p, s, ok));
  }

  lemma GetKeepsOwn(s: State, key: Key, ok: bool)
    requires Own(s)
    ensures Own(s.(worker := AfterWorkerGet(s, key, ok)))
  {
    MoveKeepsOwn(s, AfterWorkerGet(s, key, ok));
  }

  lemma StagesKeepOwn(p: Params, s: State, e: Event)
    requires Inv(p, s) && Own(s) && (e.WorkerFind? || e.WorkerCount? || e.WorkerParse?)
    ensures Own(Step(p, s, e))
  {
    if e.WorkerFind? {
      FindKeepsOwn(p, s, e.ok);
    } else if e.WorkerCount? {
      CountKeepsOwn(p, s, e.ok);
    } else {
      ParseKeepsOwn(s, e.counts);
    }
  }

  lemma LocalStepKeepsOwn(p: Params, s: State, e: Event)
    requires Inv(p, s) && Own(s) && WorkerLocal(e)
    ensures Own(Step(p, s, e))
  {
    if e.WorkerFind? || e.WorkerCount? || e.WorkerParse? {
      StagesKeepOwn(p, s, e);
    } else if e.WorkerGet? {
      GetKeepsOwn(s, e.key, e.ok);
    } else if e.WorkerCreateJob? {
      CreateJobKeepsOwn(p, s, e.ok);
    } else {
      MoveKeepsOwn(s, WorkerIdle(Error));
    }
  }

  lemma PatchKeepsOwn(p: Params, s: State, ok: bool)
    requires Inv(p, s) && Own(s)
    ensures Own(WorkerPatchStep(p, s, ok))
  {
    var t := WorkerPatchStep(p, s, ok);
    if t.isjs != s.isjs || t.verdicts != s.verdicts {
      PatchResult(p, s);
    }
  }

  lemma BackfillKeepsOwn(p: Params, s: State, ok: bool)
    requires Own(s)
    ensures Own(EnsurePatchStep(p, s, ok))
  {}

  lemma StepKeepsOwn(p: Params, s: State, e: Event)
    requires Inv(p, s) && Own(s) && CleanReuse(p, s, e)
    ensures Own(Step(p, s, e))
  {
    if WorkerLocal(e) {
      LocalStepKeepsOwn(p, s, e);
    } else if e.WorkerPatch? {
      PatchKeepsOwn(p, s, e.ok);
    } else if e.EnsurePatch? {
      BackfillKeepsOwn(p, s, e.ok);
    } else if Creating(e) && CreatesFor(p, s, e) {
      CreationKeepsOwn(p, s, e);
    } else {
      OthersLeaveWorker(p, s, e);
      JobsKeepLabels(p, s, e);
      if Creating(e) {
        CreatingStepsCreate(p, s, e);
      } else {
        QuietStepsDelete(p, s, e);
      }
      FewerKeepOwn(s, Step(p, s, e));
    }
  }

  lemma {:induction false} RunKeepsOwn(p: Params, s: State, events: seq<Event>)
    requires Inv(p, s) && Own(s) && AlwaysClean(p, s, events)
    ensures forall t | t in Along(p, s, events) :: Own(t)
    decreases |events|
  {
    if events != [] {
      StepKeepsInv(p, s, events[0]);
      StepKeepsOwn(p, s, events[0]);
      RunKeepsOwn(p, Step(p, s, events[0]), events[1..]);
    }
  }

  /** When names are only reused cleanly, every terminal status was computed from a batch Job created
      for that same incarnation. */
  lemma {:induction false} VerdictIsOwn(p: Params, now: Time, events: seq<Event>, k: Key)
    requires AlwaysClean(p, Start(now), events)
    requires var s := Run(p, Start(now), events); k in s.isjs && Terminal(s.isjs[k].status.phase)
    ensures var s := Run(p, Start(now), events);
      var uid := s.isjs[k].uid;
      uid in s.verdicts && !s.verdicts[uid].Started? && s.verdicts[uid].job.owner == uid
  {
    RunKeepsInv(p, Start(now), events);
    RunKeepsOwn(p, Start(now), events);
    EndsAlong(p, Start(now), events);
  }

  // ── Why the hypothesis is needed ────────────────────────────────────────

  predicate OldStage(p: Params, stage: WorkerStage, nextUid: nat) {
    match stage
    case ToCount => p.maxConcurrentScans > 0
    case ToParse(job) => job.owner < nextUid
    case ToPatch(verdict, _) => verdict.Started? || verdict.job.owner < nextUid
    case _ => true
  }

  /** Every Job, and every verdict on its way, belongs to an incarnation that already existed. */
  ghost predicate OldOwners(p: Params, s: State) {
    && (forall j | j in s.jobs :: s.jobs[j].owner < s.nextUid)
    && (s.worker.Working? ==> s.worker.base.uid < s.nextUid && OldStage(p, s.worker.stage, s.nextUid))
  }

  lemma LocalStepKeepsOldOwners(p: Params, s: State, e: Event)
    requires Inv(p, s) && OldOwners(p, s) && WorkerLocal(e) && !e.WorkerCreateJob?
    ensures OldOwners(p, Step(p, s, e))
  {
    OthersLeaveJobs(p, s, e);
    LocalStepsKeepObjects(p, s, e);
  }

  lemma StepKeepsOldOwners(p: Params, s: State, e: Event)
    requires Inv(p, s) && OldOwners(p, s)
    ensures OldOwners(p, Step(p, s, e))
  {
    if e.WorkerCreateJob? {
      assert Step(p, s, e) == WorkerCreateJobStep(s, e.ok);
    } else if WorkerLocal(e) {
      LocalStepKeepsOldOwners(p, s, e);
    } else {
      JobsKeepLabels(p, s, e);
      UidsOnlyGrow(p, s, e);
      if e.WorkerPatch? {
        PatchEndsReconcile(p, s, e.ok);
      } else {
        OthersLeaveWorker(p, s, e);
      }
    }
  }

  lemma UidsOnlyGrow(p: Params, s: State, e: Event)
    ensures s.nextUid <= Step(p, s, e).nextUid
  {
    if s.nextUid > 0 {
      StepForgetsUid(p, s, e, Key("", ""), s.nextUid - 1);
    }
  }

  lemma {:induction false} RunKeepsOldOwners(p: Params, s: State, events: seq<Event>)
    requires Inv(p, s) && OldOwners(p, s)
    ensures forall t | t in Along(p, s, events) :: OldOwners(p, t)
    decreases |events|
  {
    if events != [] {
      StepKeepsInv(p, s, events[0]);
      StepKeepsOldOwners(p, s, events[0]);
      RunKeepsOldOwners(p, Step(p, s, events[0]), events[1..]);
    }
  }

  predicate Creationless(events: seq<Event>) {
    forall i | 0 <= i < |events| :: !Creating(events[i])
  }

  lemma {:induction false} WithoutCreationIsClean(p: Params, s: State, events: seq<Event>)
    requires Creationless(events)
    ensures AlwaysClean(p, s, events)
    decreases |events|
  {
    if events != [] {
      WithoutCreationIsClean(p, Step(p, s, events[0]), events[1..]);
    }
  }

  /** A terminal status under the name that rests on another incarnation's Job. */
  predicate ForeignAt(s: State, k: Key) {
    && k in s.isjs && Terminal(s.isjs[k].status.phase)
    && !(s.isjs[k].uid in s.verdicts && OwnVerdict(s.isjs[k].uid, s.verdicts[s.isjs[k].uid]))
  }

  predicate Finished(status: JobStatus) {
    JobSucceeded(status) || JobFailed(status)
  }

  /** What the batch system does to a Job: a finished one stays as it is, and pods that ended stay counted. */
  predicate Follows(before: JobStatus, after: JobStatus) {
    && (Finished(before) ==> after == before)
    && before.succeeded <= after.succeeded && before.failed <= after.failed
  }

  ghost predicate Natural(p: Params, s: State, events: seq<Event>)
    decreases |events|
  {
    events != [] ==>
      && (events[0].JobMoves? && events[0].key in s.jobs ==> Follows(s.jobs[events[0].key].status, events[0].status))
      && Natural(p, Step(p, s, events[0]), events[1..])
  }

  /** A continuation that the batch system can make, without a creation, to a verdict of another incarnation's Job. */
  ghost predicate Hurts(p: Params, s: State, events: seq<Event>, k: Key) {
    Creationless(events) && Natural(p, s, events) && ForeignAt(Run(p, s, events), k)
  }

  ghost predicate CanHurt(p: Params, s: State, k: Key) {
    exists events :: Hurts(p, s, events, k)
  }

  lemma CanHurtLater(p: Params, s: State, e: Event, k: Key)
    requires CanHurt(p, Step(p, s, e), k) && !Creating(e)
    requires e.JobMoves? && e.key in s.jobs ==> Follows(s.jobs[e.key].status, e.status)
    ensures CanHurt(p, s, k)
  {
    var rest :| Hurts(p, Step(p, s, e), rest, k);
    RunTwo(p, s, e, rest);
    assert ([e] + rest)[0] == e && ([e] + rest)[1..] == rest;
    assert Hurts(p, s, [e] + rest, k);
  }

  lemma HurtAlready(p: Params, s: State, k: Key)
    requires ForeignAt(s, k)
    ensures CanHurt(p, s, k)
  {
    assert Hurts(p, s, [], k);
  }

  /** How a Job ends: one that has is left alone, and one that is still running fails, unless a pod of it succeeded. */
  function Ended(status: JobStatus): JobStatus {
    if Finished(status) then status
    else JobStatus(0, status.succeeded, status.failed + 1, true)
  }

  /** The verdict on a finished Job whose log cannot be read. */
  function VerdictOn(job: BatchJob): Verdict {
    if JobSucceeded(job.status) then Unparsed(job) else Broken(job)
  }

  /** A Job of an earlier incarnation under the name of a fresh one can fail it. */
  lemma OldJobHurts(p: Params, s: State, k: Key)
    requires k in s.isjs && s.isjs[k].status == FRESH
    requires var jobKey := JobKey(k, s.isjs[k].spec.scanner); jobKey in s.jobs && s.jobs[jobKey].owner != s.isjs[k].uid
    ensures CanHurt(p, s, k)
  {
    var jobKey := JobKey(k, s.isjs[k].spec.scanner);
    var crashed := s.(worker := WorkerIdle(Error));
    var moves := JobMoves(jobKey, Ended(s.jobs[jobKey].status));
    assert Step(p, s, WorkerCrash) == crashed && Step(p, crashed, moves) == JobMovesStep(crashed, jobKey, moves.status);
    EndedJobHurts(p, Step(p, crashed, moves), k);
    CanHurtLater(p, crashed, moves, k);
    CanHurtLater(p, s, WorkerCrash, k);
  }

  lemma EndedJobHurts(p: Params, s: State, k: Key)
    requires s.worker.WorkerIdle? && k in s.isjs && s.isjs[k].status == FRESH
    requires var jobKey := JobKey(k, s.isjs[k].spec.scanner);
      jobKey in s.jobs && Finished(s.jobs[jobKey].status) && s.jobs[jobKey].owner != s.isjs[k].uid
    ensures CanHurt(p, s, k)
  {
    var job := s.jobs[JobKey(k, s.isjs[k].spec.scanner)];
    var judged := s.(worker := Working(k, s.isjs[k], ToPatch(VerdictOn(job), s.now)));
    var got := s.(worker := Working(k, s.isjs[k], ToFind));
    var found := Step(p, got, WorkerFind(true));
    assert Step(p, s, WorkerGet(k, true)) == got;
    FoundEnded(p, got, k, job);
    FailurePatched(p, judged, k, job);
    HurtAlready(p, Step(p, judged, WorkerPatch(true)), k);
    CanHurtLater(p, judged, WorkerPatch(true), k);
    CanHurtLater(p, found, WorkerParse(None), k);
    CanHurtLater(p, got, WorkerFind(true), k);
    CanHurtLater(p, s, WorkerGet(k, true), k);
  }

  lemma FoundEnded(p: Params, s: State, k: Key, job: BatchJob)
    requires k in s.isjs && s.worker == Working(k, s.isjs[k], ToFind) && Finished(job.status)
    requires var jobKey := JobKey(k, s.isjs[k].spec.scanner); jobKey in s.jobs && s.jobs[jobKey] == job
    ensures Step(p, Step(p, s, WorkerFind(true)), WorkerParse(None))
         == s.(worker := Working(k, s.isjs[k], ToPatch(VerdictOn(job), s.now)))
  {
    var stage := if JobSucceeded(job.status) then ToParse(job) else ToPatch(Broken(job), s.now);
    var found := s.(worker := Working(k, s.isjs[k], stage));
    assert AfterWorkerFind(p, s, true) == found.worker;
    assert Step(p, s, WorkerFind(true)) == found;
    assert Step(p, found, WorkerParse(None)) == found.(worker := AfterWorkerParse(found, None));
  }

  lemma FailurePatched(p: Params, s: State, k: Key, job: BatchJob)
    requires k in s.isjs && s.isjs[k].status == FRESH && job.owner != s.isjs[k].uid
    requires s.worker == Working(k, s.isjs[k], ToPatch(VerdictOn(job), s.now))
    ensures ForeignAt(Step(p, s, WorkerPatch(true)), k)
  {}

  /** A verdict on its way when the name is reused lands on the new incarnation. */
  lemma VerdictInFlightHurts(p: Params, s: State, k: Key)
    requires Inv(p, s) && k in s.isjs && s.worker.Working? && s.worker.key == k && s.worker.stage.ToPatch?
    requires !s.worker.stage.verdict.Started? && s.worker.stage.verdict.job.owner != s.isjs[k].uid
    ensures CanHurt(p, s, k)
  {
    PatchResult(p, s);
    assert Step(p, s, WorkerPatch(true)) == WorkerPatchStep(p, s, true);
    HurtAlready(p, WorkerPatchStep(p, s, true), k);
    CanHurtLater(p, s, WorkerPatch(true), k);
  }

  lemma ParseInFlightHurts(p: Params, s: State, k: Key)
    requires Inv(p, s) && k in s.isjs && s.worker.Working? && s.worker.key == k && s.worker.stage.ToParse?
    requires s.worker.stage.job.owner != s.isjs[k].uid
    ensures CanHurt(p, s, k)
  {
    StepKeepsInv(p, s, WorkerParse(None));
    VerdictInFlightHurts(p, Step(p, s, WorkerParse(None)), k);
    CanHurtLater(p, s, WorkerParse(None), k);
  }

  /** The worker is at a stage of launching a Job for an earlier incarnation of the name. */
  predicate LaunchesForOld(s: State, k: Key) {
    && k in s.isjs && s.isjs[k].status == FRESH && s.worker.Working? && s.worker.key == k
    && s.worker.base.uid != s.isjs[k].uid && s.worker.base.spec.scanner == s.isjs[k].spec.scanner
    && JobKey(k, s.isjs[k].spec.scanner) !in s.jobs
  }

  /** A worker about to create a Job for the old incarnation leaves it to the new one. */
  lemma CreateInFlightHurts(p: Params, s: State, k: Key)
    requires LaunchesForOld(s, k) && s.worker.stage.ToCreate?
    ensures CanHurt(p, s, k)
  {
    assert Step(p, s, WorkerCreateJob(true)) == WorkerCreateJobStep(s, true);
    OldJobHurts(p, WorkerCreateJobStep(s, true), k);
    CanHurtLater(p, s, WorkerCreateJob(true), k);
  }

  lemma UncountedInFlightHurts(p: Params, s: State, k: Key)
    requires LaunchesForOld(s, k) && s.worker.stage.ToCount?
    requires |CountedJobs(s.jobs, k.ns)| < p.maxConcurrentScans
    ensures CanHurt(p, s, k)
  {
    var t := s.(worker := s.worker.(stage := ToCreate));
    assert AfterWorkerCount(p, s, true) == t.worker;
    CreateInFlightHurts(p, t, k);
    CanHurtLater(p, s, WorkerCount(true), k);
  }

  /** Other Jobs can go away until the cap has room. */
  lemma {:induction false} CountInFlightHurts(p: Params, s: State, k: Key)
    requires LaunchesForOld(s, k) && s.worker.stage.ToCount? && p.maxConcurrentScans > 0
    ensures CanHurt(p, s, k)
    decreases |s.jobs.Keys|
  {
    if CountedJobs(s.jobs, k.ns) == {} {
      UncountedInFlightHurts(p, s, k);
    } else {
      var j :| j in CountedJobs(s.jobs, k.ns);
      var t := s.(jobs := s.jobs - {j}, recounted := s.recounted - {j});
      assert t.jobs.Keys == s.jobs.Keys - {j} && Step(p, s, JobGone(j)) == t;
      CountInFlightHurts(p, t, k);
      CanHurtLater(p, s, JobGone(j), k);
    }
  }

  lemma FindInFlightHurts(p: Params, s: State, k: Key)
    requires LaunchesForOld(s, k) && s.worker.stage.ToFind?
    ensures CanHurt(p, s, k)
  {
    var t := s.(worker := AfterWorkerFind(p, s, true));
    if p.maxConcurrentScans > 0 {
      CountInFlightHurts(p, t, k);
    } else {
      CreateInFlightHurts(p, t, k);
    }
    CanHurtLater(p, s, WorkerFind(true), k);
  }

  lemma SameNameSameScanner(p: Params, name: string, a: string, b: string)
    requires Named(p, name, a) && Named(p, name, b)
    ensures a == b
  {
    var i, d :| name == ImageToJobName(p.sha, i, a, d);
    var j, e :| name == ImageToJobName(p.sha, j, b, e);
    NamesParseUniquely(p.sha, i, a, d, j, b, e);
  }

  /** In the state after an unclean creation the new object can receive a foreign verdict. */
  lemma UncleanStateHurts(p: Params, s: State, k: Key)
    requires Inv(p, s) && NamesAgree(p, s) && k in s.isjs && s.isjs[k].status == FRESH
    requires OldOwners(p, s.(nextUid := s.isjs[k].uid))
    requires JobKey(k, s.isjs[k].spec.scanner) in s.jobs || MidReconcile(s.worker, k)
    ensures CanHurt(p, s, k)
  {
    if JobKey(k, s.isjs[k].spec.scanner) in s.jobs {
      OldJobHurts(p, s, k);
    } else {
      SameNameSameScanner(p, k.name, s.worker.base.spec.scanner, s.isjs[k].spec.scanner);
      match s.worker.stage
      case ToFind => FindInFlightHurts(p, s, k);
      case ToCount => CountInFlightHurts(p, s, k);
      case ToCreate => CreateInFlightHurts(p, s, k);
      case ToParse(_) => ParseInFlightHurts(p, s, k);
      case ToPatch(_, _) => VerdictInFlightHurts(p, s, k);
    }
  }

  lemma UncleanCreation(p: Params, s: State, e: Event)
    requires Inv(p, s) && NamesAgree(p, s) && OldOwners(p, s)
    requires Creating(e) && CreatesFor(p, s, e) && !CleanReuse(p, s, e)
    ensures var t, k := Step(p, s, e), CreatedKey(p, s, e);
      && k in t.isjs && t.isjs[k].status == FRESH && OldOwners(p, t.(nextUid := t.isjs[k].uid))
      && (JobKey(k, t.isjs[k].spec.scanner) in t.jobs || MidReconcile(t.worker, k))
  {
    OthersLeaveWorker(p, s, e);
    OthersLeaveJobs(p, s, e);
  }

  /** From every reachable state: a creation that is not clean has a continuation, without any further creation,
      in which the new object ends with the verdict of another incarnation's Job. */
  lemma {:induction false} UncleanReuseHurts(p: Params, now: Time, events: seq<Event>, e: Event)
    requires var s := Run(p, Start(now), events); Creating(e) && CreatesFor(p, s, e) && !CleanReuse(p, s, e)
    ensures var s := Run(p, Start(now), events); CanHurt(p, Step(p, s, e), CreatedKey(p, s, e))
  {
    var s := Run(p, Start(now), events);
    StartKeepsInv(p, now);
    RunKeepsInv(p, Start(now), events);
    RunKeepsNames(p, Start(now), events);
    RunKeepsOldOwners(p, Start(now), events);
    EndsAlong(p, Start(now), events);
    UncleanCreation(p, s, e);
    StepKeepsInv(p, s, e);
    StepKeepsNames(p, s, e);
    UncleanStateHurts(p, Step(p, s, e), CreatedKey(p, s, e));
  }

  /** No continuation with clean reuses, or none that the batch system can make, gives a terminal status to an
      incarnation that another one's Job was run for. */
  ghost predicate NeverForeign(p: Params, s: State, naturally: bool) {
    forall more | AlwaysClean(p, s, more) && (naturally ==> Natural(p, s, more)) :: OwnVerdicts(Run(p, s, more))
  }

  /** The exact condition: after a run of clean reuses, the next creation is clean exactly when that never happens;
      and it is the same whether or not the batch system is held to what it can do. */
  lemma {:induction false} CleanReuseIsExact(p: Params, now: Time, events: seq<Event>, e: Event)
    requires AlwaysClean(p, Start(now), events)
    requires var s := Run(p, Start(now), events); Creating(e) && CreatesFor(p, s, e)
    ensures var s := Run(p, Start(now), events);
      && (CleanReuse(p, s, e) <==> NeverForeign(p, Step(p, s, e), true))
      && (CleanReuse(p, s, e) <==> NeverForeign(p, Step(p, s, e), false))
  {
    var s := Run(p, Start(now), events);
    if CleanReuse(p, s, e) {
      CleanMeansNeverForeign(p, now, events, e);
    } else {
      UncleanReuseHurts(p, now, events, e);
      var more :| Hurts(p, Step(p, s, e), more, CreatedKey(p, s, e));
      WithoutCreationIsClean(p, Step(p, s, e), more);
      assert !OwnVerdicts(Run(p, Step(p, s, e), more));
    }
  }

  lemma CleanMeansNeverForeign(p: Params, now: Time, events: seq<Event>, e: Event)
    requires AlwaysClean(p, Start(now), events) && CleanReuse(p, Run(p, Start(now), events), e)
    ensures var t := Step(p, Run(p, Start(now), events), e); NeverForeign(p, t, true) && NeverForeign(p, t, false)
  {
    var s := Run(p, Start(now), events);
    StartKeepsInv(p, now);
    RunKeepsInv(p, Start(now), events);
    RunKeepsOwn(p, Start(now), events);
    EndsAlong(p, Start(now), events);
    StepKeepsInv(p, s, e);
    StepKeepsOwn(p, s, e);
    forall more | AlwaysClean(p, Step(p, s, e), more)
      ensures OwnVerdicts(Run(p, Step(p, s, e), more))
    {
      RunKeepsOwn(p, Step(p, s, e), more);
      EndsAlong(p, Step(p, s, e), more);
    }
  }
}
