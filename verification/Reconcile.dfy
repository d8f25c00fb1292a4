/** One undisturbed reconcile of an ImageScanJob. */
module Reconcile {
  import opened Cluster
  import opened Naming
  import opened Protocol
  import opened Steps

  /** Which API requests of one reconcile fail, and what the pod log parses to. */
  datatype Answers = Answers(
    onGet: bool, onFind: bool, onCount: bool, onCreate: bool, onPatch: bool, counts: Option<Counts>)

  datatype World = World(isjs: ScanJobs, jobs: map<Key, BatchJob>, nextUid: nat)

  function Patched(
    p: Params, w: World, key: Key, base: ScanJob, verdict: Verdict, now: Time, a: Answers): (World, Outcome)
  {
    if a.onPatch || key !in w.isjs then (w, Error)
    else
      var stored := w.isjs[key];
      var next := NextStatus(p, base, key, verdict, now);
      (w.(isjs := w.isjs[key := stored.(status := MergePatch(stored.status, base.status, next))]),
       if verdict.Started? then Requeue else Done)
  }

  function WithoutJob(p: Params, w: World, key: Key, base: ScanJob, now: Time, a: Answers): (World, Outcome) {
    var jobKey := JobKey(key, base.spec.scanner);
    if p.maxConcurrentScans > 0 && a.onCount then (w, Error)
    else if p.maxConcurrentScans > 0 && |CountedJobs(w.jobs, key.ns)| >= p.maxConcurrentScans then (w, Requeue)
    else if a.onCreate || jobKey in w.jobs then (w, Error)
    else
      var job := BatchJob(w.nextUid, base.uid, key.name, base.spec.scanner, NEW_JOB);
      Patched(p, w.(jobs := w.jobs[jobKey := job], nextUid := w.nextUid + 1), key, base, Started, now, a)
  }

  function WithJob(
    p: Params, w: World, key: Key, base: ScanJob, job: BatchJob, now: Time, a: Answers): (World, Outcome)
  {
    if JobSucceeded(job.status) then
      Patched(p, w, key, base, if a.counts.Some? then Parsed(job, a.counts.value) else Unparsed(job), now, a)
    else if JobFailed(job.status) then Patched(p, w, key, base, Broken(job), now, a)
    else if !base.status.phase.Running? then Patched(p, w, key, base, Started, now, a)
    else (w, Requeue)
  }

  /** What the reconcile leaves behind and what it tells the work queue. */
  function ReconcileJob(p: Params, w: World, key: Key, now: Time, a: Answers): (World, Outcome) {
    if a.onGet then (w, Error)
    else if key !in w.isjs || Terminal(w.isjs[key].status.phase) then (w, Done)
    else if a.onFind then (w, Error)
    else
      var base := w.isjs[key];
      var jobKey := JobKey(key, base.spec.scanner);
      if jobKey in w.jobs then WithJob(p, w, key, base, w.jobs[jobKey], now, a)
      else WithoutJob(p, w, key, base, now, a)
  }

  // ── What it comes to, in the fields of the Job ──────────────────────────

  /** An undisturbed reconcile of an open scan job whose batch Job exists goes by that Job's active and succeeded pods
      and its Failed condition, and by nothing else. */
  ghost predicate Judged(w: World, key: Key, now: Time, a: Answers, after: World, outcome: Outcome)
    requires key in w.isjs
  {
    var job := w.isjs[key];
    var jobKey := Key(key.ns, key.name + if job.spec.scanner == "grype" then "-grype" else "-trivy");
    jobKey in w.jobs ==>
      var pods := w.jobs[jobKey].status;
      var succeeded := pods.succeeded > 0 && pods.active == 0;
      var before := job.status;
      var next :=
        if succeeded && a.counts.Some? then
          Status(Completed, jobKey.name, before.startTime, Some(now), a.counts.value)
        else if succeeded || pods.failedCondition then
          Status(Failed, jobKey.name, before.startTime, before.completionTime, before.counts)
        else if before.phase.Running? then before
        else Status(Running, before.jobName, if before.phase.Unset? then Some(now) else before.startTime,
                    before.completionTime, before.counts);
      var writes := succeeded || pods.failedCondition || !before.phase.Running?;
      (after, outcome) ==
        (w.(isjs := w.isjs[key := job.(status := if writes && a.onPatch then before else next)]),
         if writes && a.onPatch then Error else if succeeded || pods.failedCondition then Done else Requeue)
  }

  /** And without a batch Job it starts one, unless the cap is used up. */
  ghost predicate Launched(p: Params, w: World, key: Key, now: Time, a: Answers, after: World, outcome: Outcome)
    requires key in w.isjs
  {
    var job := w.isjs[key];
    var jobKey := Key(key.ns, key.name + if job.spec.scanner == "grype" then "-grype" else "-trivy");
    var counted := |set j | && j in w.jobs && j.ns == key.ns
                            && (|| w.jobs[j].status.active > 0
                                || (w.jobs[j].status.succeeded == 0 && w.jobs[j].status.failed == 0))|;
    jobKey !in w.jobs ==>
      var launched := BatchJob(w.nextUid, job.uid, key.name, job.spec.scanner, JobStatus(0, 0, 0, false));
      var jobs := w.jobs[jobKey := launched];
      var startTime := if job.status.phase.Unset? then Some(now) else job.status.startTime;
      (after, outcome) ==
        if p.maxConcurrentScans > 0 && a.onCount then (w, Error)
        else if p.maxConcurrentScans > 0 && counted >= p.maxConcurrentScans then (w, Requeue)
        else if a.onCreate then (w, Error)
        else if a.onPatch then (World(w.isjs, jobs, w.nextUid + 1), Error)
        else
          (World(w.isjs[key := job.(status := job.status.(phase := Running, startTime := startTime))],
                 jobs, w.nextUid + 1), Requeue)
  }

  lemma {:induction false} JobIsJudged(p: Params, w: World, key: Key, now: Time, a: Answers)
    requires !p.stampFailures && key in w.isjs && !a.onGet && !a.onFind
    requires !w.isjs[key].status.phase.Completed? && !w.isjs[key].status.phase.Failed?
    ensures var (after, outcome) := ReconcileJob(p, w, key, now, a); Judged(w, key, now, a, after, outcome)
  {
    assert w.isjs[key := w.isjs[key]] == w.isjs;
  }

  lemma {:induction false} JobIsLaunched(p: Params, w: World, key: Key, now: Time, a: Answers)
    requires key in w.isjs && !a.onGet && !a.onFind
    requires !w.isjs[key].status.phase.Completed? && !w.isjs[key].status.phase.Failed?
    ensures var (after, outcome) := ReconcileJob(p, w, key, now, a); Launched(p, w, key, now, a, after, outcome)
  {
    assert CountedJobs(w.jobs, key.ns)
        == set j | && j in w.jobs && j.ns == key.ns
                   && (|| w.jobs[j].status.active > 0
                       || (w.jobs[j].status.succeeded == 0 && w.jobs[j].status.failed == 0));
  }

  /** So a Running scan job whose Job has neither a success nor the Failed condition is left alone and looked at again,
      however many of its pods have failed. */
  lemma {:induction false} AttemptsAreWaitedFor(p: Params, w: World, key: Key, now: Time, a: Answers)
    requires key in w.isjs && w.isjs[key].status.phase.Running? && !a.onGet && !a.onFind
    requires var job := w.isjs[key];
      var jobKey := Key(key.ns, key.name + if job.spec.scanner == "grype" then "-grype" else "-trivy");
      jobKey in w.jobs && w.jobs[jobKey].status.succeeded == 0 && !w.jobs[jobKey].status.failedCondition
    ensures ReconcileJob(p, w, key, now, a) == (w, Requeue)
  {}

  function WorldOf(s: State): World {
    World(s.isjs, s.jobs, s.nextUid)
  }

  function ReconcileEvents(key: Key, a: Answers): seq<Event> {
    [WorkerGet(key, !a.onGet)] + RestEvents(a)
  }

  function RestEvents(a: Answers): seq<Event> {
    [WorkerFind(!a.onFind)] + LastEvents(a)
  }

  function LastEvents(a: Answers): seq<Event> {
    [WorkerCount(!a.onCount), WorkerCreateJob(!a.onCreate), WorkerParse(a.counts), WorkerPatch(!a.onPatch)]
  }

  function LastFour(p: Params, s: State, a: Answers): State {
    var s1 := s.(worker := AfterWorkerCount(p, s, !a.onCount));
    var s2 := WorkerCreateJobStep(s1, !a.onCreate);
    var s3 := s2.(worker := AfterWorkerParse(s2, a.counts));
    WorkerPatchStep(p, s3, !a.onPatch)
  }

  lemma RunLastFour(p: Params, s: State, a: Answers)
    ensures Run(p, s, LastEvents(a)) == LastFour(p, s, a)
  {
    FourSteps(p, s, WorkerCount(!a.onCount), WorkerCreateJob(!a.onCreate),
              WorkerParse(a.counts), WorkerPatch(!a.onPatch));
  }

  lemma LastFourIdle(p: Params, s: State, a: Answers)
    requires s.worker.WorkerIdle?
    ensures LastFour(p, s, a) == s
  {}

  lemma LastFourAtPatch(p: Params, s: State, a: Answers)
    requires s.worker.Working? && s.worker.stage.ToPatch?
    ensures LastFour(p, s, a) == WorkerPatchStep(p, s, !a.onPatch)
  {}

  lemma LastFourAtParse(p: Params, s: State, a: Answers)
    requires s.worker.Working? && s.worker.stage.ToParse?
    ensures LastFour(p, s, a) == WorkerPatchStep(p, s.(worker := AfterWorkerParse(s, a.counts)), !a.onPatch)
  {}

  lemma LastFourAtCreate(p: Params, s: State, a: Answers)
    requires s.worker.Working? && s.worker.stage.ToCreate?
    ensures var t := WorkerCreateJobStep(s, !a.onCreate);
      LastFour(p, s, a) == if t.worker.Working? then WorkerPatchStep(p, t, !a.onPatch) else t
  {}

  lemma LastFourAtCount(p: Params, s: State, a: Answers)
    requires s.worker.Working? && s.worker.stage.ToCount?
    ensures LastFour(p, s, a) == LastFour(p, s.(worker := AfterWorkerCount(p, s, !a.onCount)), a)
  {}

  lemma PatchStage(p: Params, s: State, key: Key, base: ScanJob, verdict: Verdict, a: Answers)
    requires s.worker == Working(key, base, ToPatch(verdict, s.now))
    ensures var (w, outcome) := Patched(p, WorldOf(s), key, base, verdict, s.now, a);
      var t := WorkerPatchStep(p, s, !a.onPatch);
      WorldOf(t) == w && t.worker == WorkerIdle(outcome)
  {}

  lemma CreateStage(p: Params, s: State, key: Key, base: ScanJob, a: Answers)
    requires s.worker == Working(key, base, ToCreate)
    requires p.maxConcurrentScans > 0 ==> !a.onCount && |CountedJobs(s.jobs, key.ns)| < p.maxConcurrentScans
    ensures var (w, outcome) := WithoutJob(p, WorldOf(s), key, base, s.now, a);
      var t := LastFour(p, s, a);
      WorldOf(t) == w && t.worker == WorkerIdle(outcome)
  {
    LastFourAtCreate(p, s, a);
    var t := WorkerCreateJobStep(s, !a.onCreate);
    if t.worker.Working? {
      PatchStage(p, t, key, base, Started, a);
    }
  }

  lemma NoJobStage(p: Params, s: State, key: Key, base: ScanJob, a: Answers)
    requires s.worker == Working(key, base, if p.maxConcurrentScans > 0 then ToCount else ToCreate)
    ensures var (w, outcome) := WithoutJob(p, WorldOf(s), key, base, s.now, a);
      var t := LastFour(p, s, a);
      WorldOf(t) == w && t.worker == WorkerIdle(outcome)
  {
    if p.maxConcurrentScans <= 0 {
      CreateStage(p, s, key, base, a);
    } else {
      LastFourAtCount(p, s, a);
      var t := s.(worker := AfterWorkerCount(p, s, !a.onCount));
      if t.worker.Working? {
        CreateStage(p, t, key, base, a);
      } else {
        LastFourIdle(p, t, a);
      }
    }
  }

  lemma JobStage(p: Params, s: State, key: Key, base: ScanJob, job: BatchJob, a: Answers)
    requires var next := StageForJob(base, job, s.now);
      s.worker == if next.Some? then Working(key, base, next.value) else WorkerIdle(Requeue)
    ensures var (w, outcome) := WithJob(p, WorldOf(s), key, base, job, s.now, a);
      var t := LastFour(p, s, a);
      WorldOf(t) == w && t.worker == WorkerIdle(outcome)
  {
    if s.worker.WorkerIdle? {
      LastFourIdle(p, s, a);
    } else if s.worker.stage.ToParse? {
      LastFourAtParse(p, s, a);
      var t := s.(worker := AfterWorkerParse(s, a.counts));
      PatchStage(p, t, key, base, t.worker.stage.verdict, a);
    } else {
      LastFourAtPatch(p, s, a);
      PatchStage(p, s, key, base, s.worker.stage.verdict, a);
    }
  }

  lemma FindStage(p: Params, s: State, key: Key, a: Answers)
    requires key in s.isjs && s.worker == Working(key, s.isjs[key], ToFind) && !Terminal(s.isjs[key].status.phase)
    ensures var (w, outcome) := ReconcileJob(p, WorldOf(s), key, s.now, a.(onGet := false));
      var t := LastFour(p, s.(worker := AfterWorkerFind(p, s, !a.onFind)), a);
      WorldOf(t) == w && t.worker == WorkerIdle(outcome)
  {
    var base := s.isjs[key];
    var jobKey := JobKey(key, base.spec.scanner);
    var t := s.(worker := AfterWorkerFind(p, s, !a.onFind));
    var b := a.(onGet := false);
    if a.onFind {
      LastFourIdle(p, t, a);
    } else if jobKey !in s.jobs {
      NoJobStage(p, t, key, base, b);
    } else {
      JobStage(p, t, key, base, s.jobs[jobKey], b);
    }
  }

  /** An undisturbed reconcile does what the worker's events do in that order. */
  lemma {:induction false} ReconcileIsARun(p: Params, s: State, key: Key, a: Answers)
    requires s.worker.WorkerIdle?
    ensures var (w, outcome) := ReconcileJob(p, WorldOf(s), key, s.now, a);
      var t := Run(p, s, ReconcileEvents(key, a));
      WorldOf(t) == w && t.worker == WorkerIdle(outcome)
  {
    var s1 := s.(worker := AfterWorkerGet(s, key, !a.onGet));
    RunTwo(p, s, WorkerGet(key, !a.onGet), RestEvents(a));
    RunTwo(p, s1, WorkerFind(!a.onFind), LastEvents(a));
    var s2 := s1.(worker := AfterWorkerFind(p, s1, !a.onFind));
    RunLastFour(p, s2, a);
    if s1.worker.Working? {
      FindStage(p, s1, key, a);
    } else {
      LastFourIdle(p, s2, a);
    }
  }
}
