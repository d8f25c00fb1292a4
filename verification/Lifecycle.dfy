/** What every step keeps about a single ImageScanJob: the shape of its status, the verdict it
    rests on, and that terminal phases absorb. */
module Lifecycle {
  import opened Cluster
  import opened Protocol
  import opened Steps

  // ── The invariant ───────────────────────────────────────────────────────

  ghost predicate UniqueUids(s: State) {
    && (forall k | k in s.isjs :: s.isjs[k].uid < s.nextUid)
    && (forall k, l | k in s.isjs && l in s.isjs && k != l :: s.isjs[k].uid != s.isjs[l].uid)
  }

  predicate NotAfter(a: Option<Time>, b: Option<Time>) {
    a.Some? && b.Some? ==> a.value <= b.value
  }

  predicate WellShaped(p: Params, now: Time, status: Status) {
    && (status.completionTime.Some? <==> status.phase.Completed? || (p.stampFailures && status.phase.Failed?))
    && (status.counts != NO_COUNTS ==> status.phase.Completed?)
    && (status.phase.Unset? ==> status == FRESH)
    && !status.phase.Pending?
    && NotAfter(status.startTime, status.completionTime)
    && NotAfter(status.startTime, Some(now))
    && NotAfter(status.completionTime, Some(now))
  }

  ghost predicate AllWellShaped(p: Params, s: State) {
    forall k | k in s.isjs :: WellShaped(p, s.now, s.isjs[k].status)
  }

  predicate RestsOn(status: Status, verdict: Verdict) {
    match verdict
    case Started => false
    case Parsed(job, counts) => status.phase.Completed? && status.counts == counts && JobSucceeded(job.status)
    case Unparsed(job) => status.phase.Failed? && JobSucceeded(job.status)
    case Broken(job) => status.phase.Failed? && JobFailed(job.status)
  }

  ghost predicate AllJustified(s: State) {
    forall k | k in s.isjs && Terminal(s.isjs[k].status.phase) ::
      s.isjs[k].uid in s.verdicts && RestsOn(s.isjs[k].status, s.verdicts[s.isjs[k].uid])
  }

  predicate StageOk(now: Time, base: ScanJob, stage: WorkerStage) {
    match stage
    case ToParse(job) => JobSucceeded(job.status)
    case ToPatch(verdict, at) =>
      && at <= now
      && NotAfter(base.status.startTime, Some(at))
      && match verdict {
           case Started => true
           case Parsed(job, _) => JobSucceeded(job.status)
           case Unparsed(job) => JobSucceeded(job.status)
           case Broken(job) => JobFailed(job.status)
         }
    case _ => true
  }

  /** The object the worker read is still the stored one, or it was deleted, or a new incarnation
      of the name exists and nobody has written its status yet. */
  predicate BaseOk(isjs: ScanJobs, key: Key, base: ScanJob) {
    key in isjs ==>
      if isjs[key].uid == base.uid
      then isjs[key].status == base.status && isjs[key].spec.scanner == base.spec.scanner
      else isjs[key].status == FRESH
  }

  predicate WorkerOk(p: Params, s: State) {
    s.worker.Working? ==>
      && s.worker.base.uid < s.nextUid
      && !Terminal(s.worker.base.status.phase)
      && WellShaped(p, s.now, s.worker.base.status)
      && StageOk(s.now, s.worker.base, s.worker.stage)
      && BaseOk(s.isjs, s.worker.key, s.worker.base)
  }

  ghost predicate Inv(p: Params, s: State) {
    && UniqueUids(s)
    && AllWellShaped(p, s)
    && AllJustified(s)
    && WorkerOk(p, s)
  }

  lemma StartKeepsInv(p: Params, now: Time)
    ensures Inv(p, Start(now))
  {}

  // ── Each kind of step keeps it ──────────────────────────────────────────

  lemma DeletionKeepsInv(p: Params, s: State, t: State)
    requires Inv(p, s) && Deletes(s, t) && s.worker == t.worker
    ensures Inv(p, t)
  {}

  lemma CreationKeepsInv(p: Params, s: State, t: State, key: Key, spec: Spec)
    requires Inv(p, s) && Creates(s, t, key, spec) && s.worker == t.worker
    ensures Inv(p, t)
  {}

  lemma BackfillKeepsInv(p: Params, s: State, ok: bool)
    requires Inv(p, s)
    ensures Inv(p, EnsurePatchStep(p, s, ok))
  {}

  /** A step of the worker that writes no ImageScanJob. */
  ghost predicate MovesWorker(p: Params, s: State, t: State) {
    && t.isjs == s.isjs && s.now == t.now && s.nextUid <= t.nextUid && s.verdicts == t.verdicts
    && WorkerOk(p, t)
  }

  lemma WorkerMoveKeepsInv(p: Params, s: State, t: State)
    requires Inv(p, s) && MovesWorker(p, s, t)
    ensures Inv(p, t)
  {}

  /** What a landed status patch leaves under the name: the status computed for the object that was
      read, or that patch applied to a blank status when the name has a new incarnation. */
  lemma {:induction false} PatchResult(p: Params, s: State)
    requires Inv(p, s) && s.worker.Working? && s.worker.stage.ToPatch? && s.worker.key in s.isjs
    ensures var w := s.worker;
      var stored := s.isjs[w.key];
      var next := NextStatus(p, w.base, w.key, w.stage.verdict, w.stage.at);
      var merged := MergePatch(stored.status, w.base.status, next);
      && !Terminal(stored.status.phase)
      && (stored.uid == w.base.uid ==> merged == next)
      && WellShaped(p, s.now, merged)
      && (Terminal(merged.phase) <==> !w.stage.verdict.Started?)
      && (Terminal(merged.phase) ==> RestsOn(merged, w.stage.verdict))
  {}

  /** A merge patch over the object it was computed from gives the computed status, and one that changes nothing leaves
      any other object alone. */
  lemma {:induction false} PatchLaws(stored: Status, base: Status, next: Status)
    ensures MergePatch(base, base, next) == next
    ensures MergePatch(stored, base, base) == stored
  {}

  lemma WorkerPatchKeepsInv(p: Params, s: State, ok: bool)
    requires Inv(p, s)
    ensures Inv(p, WorkerPatchStep(p, s, ok))
  {
    var t := WorkerPatchStep(p, s, ok);
    if t.isjs != s.isjs {
      PatchResult(p, s);
    }
  }

  lemma WorkerFindMoves(p: Params, s: State, ok: bool)
    requires Inv(p, s)
    ensures MovesWorker(p, s, s.(worker := AfterWorkerFind(p, s, ok)))
  {}

  lemma WorkerCreateJobMoves(p: Params, s: State, ok: bool)
    requires Inv(p, s)
    ensures MovesWorker(p, s, WorkerCreateJobStep(s, ok))
  {}

  lemma WorkerParseMoves(p: Params, s: State, counts: Option<Counts>)
    requires Inv(p, s)
    ensures MovesWorker(p, s, s.(worker := AfterWorkerParse(s, counts)))
  {}

  lemma WorkerLocalSteps(p: Params, s: State, e: Event)
    requires Inv(p, s) && WorkerLocal(e)
    ensures MovesWorker(p, s, Step(p, s, e))
  {
    match e
    case WorkerFind(ok) => WorkerFindMoves(p, s, ok);
    case WorkerCreateJob(ok) => WorkerCreateJobMoves(p, s, ok);
    case WorkerParse(counts) => WorkerParseMoves(p, s, counts);
    case _ =>
  }

  lemma QuietKeepsInv(p: Params, s: State, e: Event)
    requires Inv(p, s) && Quiet(e)
    ensures Inv(p, Step(p, s, e))
  {
    QuietStepsDelete(p, s, e);
    OthersLeaveWorker(p, s, e);
    DeletionKeepsInv(p, s, Step(p, s, e));
  }

  lemma CreatingKeepsInv(p: Params, s: State, e: Event)
    requires Inv(p, s) && Creating(e)
    ensures Inv(p, Step(p, s, e))
  {
    CreatingStepsCreate(p, s, e);
    OthersLeaveWorker(p, s, e);
    if CreatesFor(p, s, e) {
      CreationKeepsInv(p, s, Step(p, s, e), CreatedKey(p, s, e), CreatedSpec(s, e));
    } else {
      DeletionKeepsInv(p, s, Step(p, s, e));
    }
  }

  lemma StepKeepsInv(p: Params, s: State, e: Event)
    requires Inv(p, s)
    ensures Inv(p, Step(p, s, e))
  {
    if Quiet(e) {
      QuietKeepsInv(p, s, e);
    } else if Creating(e) {
      CreatingKeepsInv(p, s, e);
    } else if WorkerLocal(e) {
      WorkerLocalSteps(p, s, e);
      WorkerMoveKeepsInv(p, s, Step(p, s, e));
    } else if e.EnsurePatch? {
      BackfillKeepsInv(p, s, e.ok);
    } else {
      WorkerPatchKeepsInv(p, s, e.ok);
    }
  }

  predicate KeepsTerminal(before: ScanJobs, after: ScanJobs) {
    forall k | k in before && Terminal(before[k].status.phase) :: k in after && after[k].status == before[k].status
  }

  lemma StatusPatchKeepsTerminal(p: Params, s: State, ok: bool)
    requires Inv(p, s)
    ensures KeepsTerminal(s.isjs, WorkerPatchStep(p, s, ok).isjs)
  {
    if s.worker.Working? && s.worker.stage.ToPatch? && s.worker.key in s.isjs {
      PatchResult(p, s);
    }
  }

  lemma BackfillKeepsTerminal(p: Params, s: State, ok: bool)
    ensures KeepsTerminal(s.isjs, EnsurePatchStep(p, s, ok).isjs)
  {}

  /** Patches leave terminal objects as they are. */
  lemma RewritesOnlyOpen(p: Params, s: State, e: Event)
    requires Inv(p, s) && Rewriting(e)
    ensures KeepsTerminal(s.isjs, Step(p, s, e).isjs)
  {
    if e.WorkerPatch? {
      StatusPatchKeepsTerminal(p, s, e.ok);
    } else {
      BackfillKeepsTerminal(p, s, e.ok);
    }
  }

  lemma {:induction false} RunKeepsInv(p: Params, s: State, events: seq<Event>)
    requires Inv(p, s)
    ensures Inv(p, Run(p, s, events))
    decreases |events|
  {
    if events != [] {
      StepKeepsInv(p, s, events[0]);
      RunKeepsInv(p, Step(p, s, events[0]), events[1..]);
    }
  }

  // ── Theorems ────────────────────────────────────────────────────────────

  /** In the source as written, every reachable status has a completion time exactly when it is
      Completed, counts only then, and never a start after its completion. */
  lemma {:induction false} StatusShape(p: Params, now: Time, events: seq<Event>, k: Key)
    requires !p.stampFailures
    requires k in Run(p, Start(now), events).isjs
    ensures var status := Run(p, Start(now), events).isjs[k].status;
      && (status.completionTime.Some? <==> status.phase.Completed?)
      && (status.counts != NO_COUNTS ==> status.phase.Completed?)
      && (status.phase.Unset? ==> status == FRESH)
      && !status.phase.Pending?
      && (status.startTime.Some? && status.completionTime.Some? ==>
            status.startTime.value <= status.completionTime.value)
  {
    RunKeepsInv(p, Start(now), events);
  }

  /** In the Job's own fields: what is Completed rests on a Job with a success and no active pod, and on the counts that
      its output parsed to; what is Failed on a Job with the Failed condition, or on such a success whose output did
      not parse. Failed pods alone fail nothing. */
  lemma {:induction false} VerdictsAreJustified(p: Params, now: Time, events: seq<Event>, k: Key)
    requires k in Run(p, Start(now), events).isjs
    ensures var s := Run(p, Start(now), events);
      var uid, status := s.isjs[k].uid, s.isjs[k].status;
      status.phase.Completed? ==> exists job ::
        && (uid, Parsed(job, status.counts)) in s.verdicts.Items
        && job.status.succeeded > 0 && job.status.active == 0
    ensures var s := Run(p, Start(now), events);
      var uid, status := s.isjs[k].uid, s.isjs[k].status;
      status.phase.Failed? ==> exists job ::
        || ((uid, Broken(job)) in s.verdicts.Items && job.status.failedCondition)
        || ((uid, Unparsed(job)) in s.verdicts.Items && job.status.succeeded > 0 && job.status.active == 0)
  {
    RunKeepsInv(p, Start(now), events);
    var s := Run(p, Start(now), events);
    var uid := s.isjs[k].uid;
    if Terminal(s.isjs[k].status.phase) {
      assert (uid, s.verdicts[uid]) in s.verdicts.Items;
      assert RestsOn(s.isjs[k].status, s.verdicts[uid]);
    }
  }

  lemma TerminalStep(p: Params, s: State, e: Event, k: Key)
    requires Inv(p, s) && k in s.isjs && Terminal(s.isjs[k].status.phase)
    ensures Holds(Step(p, s, e), k, s.isjs[k].uid) ==> Step(p, s, e).isjs[k].status == s.isjs[k].status
  {
    if Quiet(e) {
      QuietStepsDelete(p, s, e);
    } else if Creating(e) {
      CreatingStepsCreate(p, s, e);
    } else if WorkerLocal(e) {
      LocalStepsKeepObjects(p, s, e);
    } else {
      RewritesOnlyOpen(p, s, e);
    }
  }

  /** Completed and Failed absorb: as long as the incarnation exists its status stays as it is. */
  lemma {:induction false} TerminalAbsorbs(p: Params, s: State, events: seq<Event>, k: Key)
    requires Inv(p, s) && k in s.isjs && Terminal(s.isjs[k].status.phase)
    requires Holds(Run(p, s, events), k, s.isjs[k].uid)
    ensures Run(p, s, events).isjs[k].status == s.isjs[k].status
    decreases |events|
  {
    if events != [] {
      var t := Step(p, s, events[0]);
      StepKeepsInv(p, s, events[0]);
      TerminalStep(p, s, events[0], k);
      if Holds(t, k, s.isjs[k].uid) {
        TerminalAbsorbs(p, t, events[1..], k);
      } else {
        StepForgetsUid(p, s, events[0], k, s.isjs[k].uid);
        UidNeverReturns(p, t, events[1..], k, s.isjs[k].uid);
      }
    }
  }

  /** After its first read the worker is done only by its patch. */
  lemma OnlyPatchesAreDone(p: Params, s: State, e: Event)
    requires Step(p, s, e).worker == WorkerIdle(Done) != s.worker
    ensures e.WorkerPatch? || e.WorkerGet?
  {
    if !WorkerEvent(e) {
      OthersLeaveWorker(p, s, e);
    }
  }

  lemma PatchedMeansTerminal(p: Params, s: State, ok: bool)
    requires Inv(p, s) && s.worker.Working?
    requires WorkerPatchStep(p, s, ok).worker == WorkerIdle(Done)
    ensures var t := WorkerPatchStep(p, s, ok);
      s.worker.key in t.isjs && Terminal(t.isjs[s.worker.key].status.phase)
  {
    if s.worker.stage.ToPatch? && s.worker.key in s.isjs {
      PatchResult(p, s);
    }
  }

  /** A reconcile that ends without an error and without asking to be requeued leaves the scan job
      terminal; one that stops at its first read leaves it terminal or absent. */
  lemma {:induction false} DoneMeansTerminal(p: Params, s: State, e: Event)
    requires Inv(p, s)
    requires s.worker.Working? || e.WorkerGet?
    requires Step(p, s, e).worker == WorkerIdle(Done) != s.worker
    ensures var t := Step(p, s, e);
      if s.worker.Working?
      then s.worker.key in t.isjs && Terminal(t.isjs[s.worker.key].status.phase)
      else e.key in t.isjs ==> Terminal(t.isjs[e.key].status.phase)
  {
    if e.WorkerGet? {
      assert Step(p, s, e) == s.(worker := AfterWorkerGet(s, e.key, e.ok));
    } else {
      OnlyPatchesAreDone(p, s, e);
      PatchedMeansTerminal(p, s, e.ok);
    }
  }

  /** The two-hour guard on failed jobs never holds a retry back: whenever ensureImageScanJob finds a
      Failed job it goes on to delete it. */
  lemma {:induction false} RetryGuardNeverHolds(p: Params, now: Time, events: seq<Event>)
    requires !p.stampFailures
    requires var s := Run(p, Start(now), events);
      && s.ssc.Ensuring? && s.ssc.stage.AtGet?
      && s.ssc.batch.work != [] && s.ssc.batch.created < s.ssc.batch.capacity
    requires var s := Run(p, Start(now), events);
      var k := Key(s.ssc.batch.ns, WorkName(p, s.ssc.batch.work[0]));
      k in s.isjs && s.isjs[k].status.phase.Failed?
    ensures var s := Run(p, Start(now), events);
      Step(p, s, EnsureGet(true)).ssc == Ensuring(s.ssc.batch, AtDelete)
  {
    RunKeepsInv(p, Start(now), events);
  }
}
