/** Concrete runs: what the promises do not survive without their hypotheses. */
module Scenarios {
  import opened Cluster
  import opened Naming
  import opened Protocol
  import opened Steps
  import opened DoubleScan

  // ── One scheduled scan ──────────────────────────────────────────────────

  function ScheduledWork(image: string, digest: string): Work {
    Work(image, "trivy", digest, "")
  }

  function ScheduledKey(p: Params, ns: string, image: string, digest: string): Key {
    Key(ns, ImageToJobName(p.sha, image, "trivy", digest))
  }

  function ScheduledJob(s: State, image: string, digest: string): ScanJob {
    NewScanJob(s, Spec(image, digest, "trivy", Kubernetes, "config", ""))
  }

  function SnapshotOf(ns: string, image: string, digest: string): Event {
    Snapshot(ns, "config", [image], ["trivy"], map[image := digest], map[])
  }

  predicate ReadyFor(p: Params, s: State, ns: string, image: string) {
    s.ssc.SscIdle? && (image, "trivy") !in Covered(s.isjs, ns) && |Open(s.isjs, ns)| < EffectiveMaxConcurrentScans(p)
  }

  lemma SnapshotStarts(p: Params, s: State, ns: string, image: string, digest: string) returns (free: nat)
    requires ReadyFor(p, s, ns, image)
    ensures free > 0
    ensures Step(p, s, SnapshotOf(ns, image, digest))
         == s.(ssc := Ensuring(Batch(ns, "config", [ScheduledWork(image, digest)], 0, free), AtGet))
  {
    free := EffectiveMaxConcurrentScans(p) - |Open(s.isjs, ns)|;
    OneCall(image, digest, Covered(s.isjs, ns));
    assert AfterSnapshot(p, s, SnapshotOf(ns, image, digest))
        == Ensuring(Batch(ns, "config", [ScheduledWork(image, digest)], 0, free), AtGet);
  }

  lemma OneCall(image: string, digest: string, covered: set<(string, string)>)
    requires (image, "trivy") !in covered
    ensures Worklist([image], ["trivy"], covered, map[image := digest], map[]) == [ScheduledWork(image, digest)]
  {
    assert ["trivy"][1..] == [] && [image][1..] == [];
    assert Needed(image, ["trivy"], covered) == ["trivy"];
    assert WorkOf(image, ["trivy"], digest, "") == [ScheduledWork(image, digest)];
  }

  function ScheduleEvents(ns: string, image: string, digest: string): seq<Event> {
    [SnapshotOf(ns, image, digest), EnsureGet(true), EnsureCreate(true), EnsureGet(true)]
  }

  /** A cycle over one new image creates its job. */
  lemma Scheduled(p: Params, s: State, ns: string, image: string, digest: string)
    requires ReadyFor(p, s, ns, image) && ScheduledKey(p, ns, image, digest) !in s.isjs
    ensures Run(p, s, ScheduleEvents(ns, image, digest))
         == s.(isjs := s.isjs[ScheduledKey(p, ns, image, digest) := ScheduledJob(s, image, digest)],
               nextUid := s.nextUid + 1)
  {
    var free := SnapshotStarts(p, s, ns, image, digest);
    var s1 := Step(p, s, SnapshotOf(ns, image, digest));
    FourSteps(p, s, SnapshotOf(ns, image, digest), EnsureGet(true), EnsureCreate(true), EnsureGet(true));
  }

  /** A cycle over one new image, from the start. */
  function AfterFirstScan(p: Params, now: Time, ns: string, image: string, digest: string): State {
    Start(now).(isjs := map[ScheduledKey(p, ns, image, digest) := ScheduledJob(Start(now), image, digest)],
                nextUid := 1)
  }

  // ── Manual scans break both promises ────────────────────────────────────

  /** What a registry lookup that succeeds returns: the algorithm and 64 hex digits. */
  predicate Resolved(digest: string) {
    |digest| == 71 && digest[..7] == "sha256:"
  }

  /** One scheduled and one manual scan of the same image: two open jobs for one pair, under a digest
      name and under a hash name, and one job more than a limit of one allows. */
  lemma {:induction false} ManualScanDoubles(p: Params, now: Time, ns: string, image: string, digest: string)
    requires p.maxConcurrentScans == 1 && Resolved(digest)
    ensures var events := ScheduleEvents(ns, image, digest) + [ManualScan(ns, image, "trivy")];
      var s := Run(p, Start(now), events);
      && !OnePerPair(s.isjs, ns)
      && |Open(s.isjs, ns)| == EffectiveMaxConcurrentScans(p) + 1
  {
    var s0 := Start(now);
    assert Open(s0.isjs, ns) == {};
    Scheduled(p, s0, ns, image, digest);
    var s1 := Run(p, s0, ScheduleEvents(ns, image, digest));
    ManualScanAdds(p, s1, ns, image, digest);
    RunThen(p, s0, ScheduleEvents(ns, image, digest), ManualScan(ns, image, "trivy"));
  }

  lemma ManualScanAdds(p: Params, s: State, ns: string, image: string, digest: string)
    requires Resolved(digest)
    requires var k := ScheduledKey(p, ns, image, digest);
      s.isjs.Keys == {k} && Pair(s.isjs[k]) == (image, "trivy") && s.isjs[k].status == FRESH
    ensures var t := Step(p, s, ManualScan(ns, image, "trivy"));
      !OnePerPair(t.isjs, ns) && |Open(t.isjs, ns)| == 2
  {
    DigestNameIsNoFallback(p.sha, image, "trivy", digest, image, "trivy", "");
    TwoOpenForOnePair(ManualScanStep(p, s, ns, image, "trivy").isjs,
                      ScheduledKey(p, ns, image, digest), Key(ns, ManualScanJobName(p.sha, image, "trivy")));
  }

  lemma TwoOpenForOnePair(isjs: ScanJobs, k: Key, l: Key)
    requires k != l && k.ns == l.ns && isjs.Keys == {k, l}
    requires Pair(isjs[k]) == Pair(isjs[l]) && isjs[k].status == FRESH && isjs[l].status == FRESH
    ensures !OnePerPair(isjs, k.ns) && |Open(isjs, k.ns)| == 2
  {
    assert Open(isjs, k.ns) == {k, l};
  }

  // ── A scan that fails ───────────────────────────────────────────────────

  const FAILED_TWICE := JobStatus(0, 0, 2, true)

  function FailedJob(s: State, key: Key): BatchJob
    requires key in s.isjs
  {
    BatchJob(s.nextUid, s.isjs[key].uid, key.name, "trivy", FAILED_TWICE)
  }

  /** The state after a first scan of a fresh trivy job whose batch Job fails. */
  function AfterFailure(p: Params, s: State, key: Key): State
    requires key in s.isjs
  {
    var jobKey := JobKey(key, "trivy");
    var completion := if p.stampFailures then Some(s.now) else None;
    var failed := s.isjs[key].(status := Status(Failed, jobKey.name, Some(s.now), completion, NO_COUNTS));
    s.(isjs := s.isjs[key := failed],
       jobs := s.jobs[jobKey := FailedJob(s, key)],
       recounted := s.recounted - {jobKey},
       nextUid := s.nextUid + 1,
       worker := WorkerIdle(Done),
       verdicts := s.verdicts[s.isjs[key].uid := Broken(FailedJob(s, key))])
  }

  predicate FreshTrivy(s: State, key: Key) {
    key in s.isjs && s.isjs[key].status == FRESH && s.isjs[key].spec.scanner == "trivy"
  }

  function LaunchEvents(key: Key): seq<Event> {
    [WorkerGet(key, true), WorkerFind(true), WorkerCount(true), WorkerCreateJob(true), WorkerPatch(true)]
  }

  /** The state once the batch Job of a fresh trivy job is running. */
  function AfterLaunch(s: State, key: Key): State
    requires key in s.isjs
  {
    s.(isjs := s.isjs[key := s.isjs[key].(status := FRESH.(phase := Running, startTime := Some(s.now)))],
       jobs := s.jobs[JobKey(key, "trivy") := FailedJob(s, key).(status := NEW_JOB)],
       nextUid := s.nextUid + 1,
       worker := WorkerIdle(Requeue),
       verdicts := s.verdicts[s.isjs[key].uid := Started])
  }

  /** A fresh trivy job that the idle worker may launch: no Job yet, and the cap leaves room. */
  predicate ReadyToLaunch(p: Params, s: State, key: Key) {
    && s.worker.WorkerIdle? && FreshTrivy(s, key) && JobKey(key, "trivy") !in s.jobs
    && (p.maxConcurrentScans > 0 ==> |CountedJobs(s.jobs, key.ns)| < p.maxConcurrentScans)
  }

  lemma GetFindCount(p: Params, s: State, key: Key)
    requires ReadyToLaunch(p, s, key)
    ensures Step(p, Step(p, Step(p, s, WorkerGet(key, true)), WorkerFind(true)), WorkerCount(true))
         == s.(worker := Working(key, s.isjs[key], ToCreate))
  {}

  lemma CreateJob(p: Params, s: State, key: Key)
    requires FreshTrivy(s, key) && JobKey(key, "trivy") !in s.jobs
    ensures Step(p, s.(worker := Working(key, s.isjs[key], ToCreate)), WorkerCreateJob(true))
         == s.(jobs := s.jobs[JobKey(key, "trivy") := FailedJob(s, key).(status := NEW_JOB)],
               nextUid := s.nextUid + 1,
               worker := Working(key, s.isjs[key], ToPatch(Started, s.now)))
  {}

  lemma PatchRunning(p: Params, s: State, key: Key)
    requires FreshTrivy(s, key) && s.worker == Working(key, s.isjs[key], ToPatch(Started, s.now))
    ensures Step(p, s, WorkerPatch(true))
         == s.(isjs := s.isjs[key := s.isjs[key].(status := FRESH.(phase := Running, startTime := Some(s.now)))],
               worker := WorkerIdle(Requeue),
               verdicts := s.verdicts[s.isjs[key].uid := Started])
  {}

  lemma Launched(p: Params, s: State, key: Key)
    requires ReadyToLaunch(p, s, key)
    ensures Run(p, s, LaunchEvents(key)) == AfterLaunch(s, key)
  {
    var rest := [WorkerFind(true), WorkerCount(true), WorkerCreateJob(true), WorkerPatch(true)];
    var got := Step(p, s, WorkerGet(key, true));
    RunTwo(p, s, WorkerGet(key, true), rest);
    assert LaunchEvents(key) == [WorkerGet(key, true)] + rest;
    FourSteps(p, got, WorkerFind(true), WorkerCount(true), WorkerCreateJob(true), WorkerPatch(true));
    GetFindCount(p, s, key);
    CreateJob(p, s, key);
    PatchRunning(p, s.(jobs := s.jobs[JobKey(key, "trivy") := FailedJob(s, key).(status := NEW_JOB)],
                       nextUid := s.nextUid + 1,
                       worker := Working(key, s.isjs[key], ToPatch(Started, s.now))), key);
  }

  /** A reconcile of an open trivy job whose name already has a failed batch Job. */
  function JudgeEvents(key: Key): seq<Event> {
    [WorkerGet(key, true), WorkerFind(true), WorkerPatch(true)]
  }

  function AfterJudge(p: Params, s: State, key: Key): State
    requires key in s.isjs && JobKey(key, "trivy") in s.jobs
  {
    var jobKey := JobKey(key, "trivy");
    var job := s.isjs[key];
    s.(isjs := s.isjs[key := job.(status := FailedStatus(p, job.status, jobKey.name, s.now))],
       worker := WorkerIdle(Done),
       verdicts := s.verdicts[job.uid := Broken(s.jobs[jobKey])])
  }

  predicate ReadyToJudge(s: State, key: Key) {
    && s.worker.WorkerIdle?
    && key in s.isjs && s.isjs[key].spec.scanner == "trivy" && !Terminal(s.isjs[key].status.phase)
    && JobKey(key, "trivy") in s.jobs && s.jobs[JobKey(key, "trivy")].status == FAILED_TWICE
  }

  lemma GetAndFindFailed(p: Params, s: State, key: Key)
    requires ReadyToJudge(s, key)
    ensures Step(p, Step(p, s, WorkerGet(key, true)), WorkerFind(true))
         == s.(worker := Working(key, s.isjs[key], ToPatch(Broken(s.jobs[JobKey(key, "trivy")]), s.now)))
  {}

  lemma PatchFailed(p: Params, s: State, key: Key)
    requires ReadyToJudge(s, key)
    ensures var verdict := Broken(s.jobs[JobKey(key, "trivy")]);
      Step(p, s.(worker := Working(key, s.isjs[key], ToPatch(verdict, s.now))), WorkerPatch(true))
        == AfterJudge(p, s, key)
  {}

  lemma Judged(p: Params, s: State, key: Key)
    requires ReadyToJudge(s, key)
    ensures Run(p, s, JudgeEvents(key)) == AfterJudge(p, s, key)
  {
    ThreeSteps(p, s, WorkerGet(key, true), WorkerFind(true), WorkerPatch(true));
    GetAndFindFailed(p, s, key);
    PatchFailed(p, s, key);
  }

  function FailureEvents(key: Key): seq<Event> {
    LaunchEvents(key) + [JobMoves(JobKey(key, "trivy"), FAILED_TWICE)] + JudgeEvents(key)
  }

  lemma FailedOnce(p: Params, s: State, key: Key)
    requires ReadyToLaunch(p, s, key)
    ensures Run(p, s, FailureEvents(key)) == AfterFailure(p, s, key)
  {
    var moves := JobMoves(JobKey(key, "trivy"), FAILED_TWICE);
    Launched(p, s, key);
    RunThen(p, s, LaunchEvents(key), moves);
    var t := AfterLaunch(s, key);
    var u := t.(jobs := s.jobs[JobKey(key, "trivy") := FailedJob(s, key)],
                recounted := s.recounted - {JobKey(key, "trivy")});
    assert Step(p, t, moves) == u;
    Judged(p, u, key);
    RunAppend(p, s, LaunchEvents(key) + [moves], JudgeEvents(key));
    assert AfterJudge(p, u, key) == AfterFailure(p, s, key);
  }

  // ── A retry ─────────────────────────────────────────────────────────────

  function RetryEvents(ns: string, image: string, digest: string): seq<Event> {
    [SnapshotOf(ns, image, digest), EnsureGet(true), EnsureDelete(true), EnsureCreate(true)]
  }

  function AfterRetry(p: Params, s: State, ns: string, image: string, digest: string): State {
    var key := ScheduledKey(p, ns, image, digest);
    s.(isjs := s.isjs[key := ScheduledJob(s, image, digest)], nextUid := s.nextUid + 1,
       retried := s.retried[key := Retries(s, key) + [s.now]])
  }

  /** A cycle over an image whose job failed without a completion time replaces that job. */
  lemma Retried(p: Params, s: State, ns: string, image: string, digest: string)
    requires ReadyFor(p, s, ns, image)
    requires var key := ScheduledKey(p, ns, image, digest);
      key in s.isjs && s.isjs[key].status.phase.Failed? && s.isjs[key].status.completionTime.None?
    ensures Run(p, s, RetryEvents(ns, image, digest) + [EnsureGet(true)]) == AfterRetry(p, s, ns, image, digest)
  {
    var free := SnapshotStarts(p, s, ns, image, digest);
    var events := RetryEvents(ns, image, digest);
    FourSteps(p, s, SnapshotOf(ns, image, digest), EnsureGet(true), EnsureDelete(true), EnsureCreate(true));
    RetryCall(p, s, ns, image, digest, free);
    RunThen(p, s, events, EnsureGet(true));
  }

  /** The only call of the cycle, and the get that ends the batch. */
  lemma RetryCall(p: Params, s: State, ns: string, image: string, digest: string, free: nat)
    requires s.ssc.SscIdle? && free > 0
    requires var key := ScheduledKey(p, ns, image, digest);
      key in s.isjs && s.isjs[key].status.phase.Failed? && s.isjs[key].status.completionTime.None?
    ensures var s1 := s.(ssc := Ensuring(RetryBatch(ns, image, digest, free), AtGet));
      var s4 := Step(p, Step(p, Step(p, s1, EnsureGet(true)), EnsureDelete(true)), EnsureCreate(true));
      Step(p, s4, EnsureGet(true)) == AfterRetry(p, s, ns, image, digest)
  {
    RetryDeletes(p, s, ns, image, digest, free);
    RetryCreates(p, s, ns, image, digest, free);
  }

  function RetryBatch(ns: string, image: string, digest: string, free: nat): Batch {
    Batch(ns, "config", [ScheduledWork(image, digest)], 0, free)
  }

  function AfterRetryDelete(p: Params, s: State, ns: string, image: string, digest: string, free: nat): State {
    var key := ScheduledKey(p, ns, image, digest);
    s.(isjs := s.isjs - {key}, ssc := Ensuring(RetryBatch(ns, image, digest, free), AtCreate),
       retried := s.retried[key := Retries(s, key) + [s.now]])
  }

  lemma RetryDeletes(p: Params, s: State, ns: string, image: string, digest: string, free: nat)
    requires s.ssc.SscIdle? && free > 0
    requires var key := ScheduledKey(p, ns, image, digest);
      key in s.isjs && s.isjs[key].status.phase.Failed? && s.isjs[key].status.completionTime.None?
    ensures var s1 := s.(ssc := Ensuring(RetryBatch(ns, image, digest, free), AtGet));
      Step(p, Step(p, s1, EnsureGet(true)), EnsureDelete(true)) == AfterRetryDelete(p, s, ns, image, digest, free)
  {
    var s1 := s.(ssc := Ensuring(RetryBatch(ns, image, digest, free), AtGet));
    assert AfterEnsureGet(p, s1, true) == Ensuring(RetryBatch(ns, image, digest, free), AtDelete);
    assert Step(p, s1, EnsureGet(true)) == s1.(ssc := AfterEnsureGet(p, s1, true));
  }

  lemma RetryCreates(p: Params, s: State, ns: string, image: string, digest: string, free: nat)
    requires s.ssc.SscIdle? && free > 0
    ensures Step(p, Step(p, AfterRetryDelete(p, s, ns, image, digest, free), EnsureCreate(true)), EnsureGet(true))
         == AfterRetry(p, s, ns, image, digest)
  {
    var key := ScheduledKey(p, ns, image, digest);
    assert (s.isjs - {key})[key := ScheduledJob(s, image, digest)] == s.isjs[key := ScheduledJob(s, image, digest)];
  }

  // ── Retries without spacing, verdicts without a scan ────────────────────

  /** The first scan of the image fails. */
  function FirstFailure(p: Params, ns: string, image: string, digest: string): seq<Event> {
    ScheduleEvents(ns, image, digest) + FailureEvents(ScheduledKey(p, ns, image, digest))
  }

  lemma FirstFailureRuns(p: Params, now: Time, ns: string, image: string, digest: string)
    ensures Run(p, Start(now), FirstFailure(p, ns, image, digest))
         == AfterFailure(p, AfterFirstScan(p, now, ns, image, digest), ScheduledKey(p, ns, image, digest))
  {
    var key := ScheduledKey(p, ns, image, digest);
    var s0 := Start(now);
    assert Open(s0.isjs, ns) == {} && CountedJobs(s0.jobs, ns) == {};
    Scheduled(p, s0, ns, image, digest);
    var s1 := Run(p, s0, ScheduleEvents(ns, image, digest));
    FailedOnce(p, s1, key);
    RunAppend(p, s0, ScheduleEvents(ns, image, digest), FailureEvents(key));
  }

  lemma NothingOpen(p: Params, s: State, key: Key, image: string)
    requires s.ssc.SscIdle? && s.isjs.Keys == {key} && s.isjs[key].status.phase.Failed?
    ensures ReadyFor(p, s, key.ns, image)
  {
    assert Open(s.isjs, key.ns) == {};
  }

  function OneRetry(p: Params, ns: string, image: string, digest: string): seq<Event> {
    RetryEvents(ns, image, digest) + [EnsureGet(true)] + JudgeEvents(ScheduledKey(p, ns, image, digest))
  }

  /** Replacing a failed job whose batch Job still exists: the replacement fails on the old Job. */
  lemma RetryFailsAtOnce(p: Params, s: State, ns: string, image: string, digest: string)
    requires !p.stampFailures && s.ssc.SscIdle? && s.worker.WorkerIdle?
    requires var key := ScheduledKey(p, ns, image, digest);
      && s.isjs.Keys == {key} && s.isjs[key].status.phase.Failed? && s.isjs[key].status.completionTime.None?
      && JobKey(key, "trivy") in s.jobs && s.jobs[JobKey(key, "trivy")].status == FAILED_TWICE
    ensures var key := ScheduledKey(p, ns, image, digest);
      Run(p, s, OneRetry(p, ns, image, digest)) == AfterJudge(p, AfterRetry(p, s, ns, image, digest), key)
  {
    var key := ScheduledKey(p, ns, image, digest);
    NothingOpen(p, s, key, image);
    Retried(p, s, ns, image, digest);
    var t := AfterRetry(p, s, ns, image, digest);
    Judged(p, t, key);
    RunAppend(p, s, RetryEvents(ns, image, digest) + [EnsureGet(true)], JudgeEvents(key));
  }

  /** One failure, then a retry: the new incarnation is Failed, on the batch Job of the old one. */
  lemma {:induction false} StaleJobFailsRetry(p: Params, now: Time, ns: string, image: string, digest: string)
    requires !p.stampFailures
    ensures var s := Run(p, Start(now), FirstFailure(p, ns, image, digest) + OneRetry(p, ns, image, digest));
      var key := ScheduledKey(p, ns, image, digest);
      && s.isjs.Keys == {key} && s.isjs[key].status.phase.Failed? && s.isjs[key].status.completionTime.None?
      && s.isjs[key].uid == 2 && 2 in s.verdicts && s.verdicts[2].Broken? && s.verdicts[2].job.owner == 0
      && s.retried == map[key := [now]]
      && s.now == now && s.ssc.SscIdle? && s.worker.WorkerIdle?
      && JobKey(key, "trivy") in s.jobs && s.jobs[JobKey(key, "trivy")].status == FAILED_TWICE
  {
    var first := FirstFailure(p, ns, image, digest);
    FirstFailureRuns(p, now, ns, image, digest);
    var s := Run(p, Start(now), first);
    RetryFailsAtOnce(p, s, ns, image, digest);
    RunAppend(p, Start(now), first, OneRetry(p, ns, image, digest));
    var t := AfterRetry(p, s, ns, image, digest);
    var key := ScheduledKey(p, ns, image, digest);
    assert t.isjs[key] == ScheduledJob(s, image, digest);
    assert Retries(s, key) == [];
    var u := AfterJudge(p, t, key);
    assert u.isjs.Keys == {key};
    assert u.retried == map[key := [now]] by { assert [] + [now] == [now]; }
  }

  /** Two retries of one name in the same second. */
  lemma {:induction false} RetriesAreNotSpaced(p: Params, now: Time, ns: string, image: string, digest: string)
    requires !p.stampFailures
    ensures var events :=
        FirstFailure(p, ns, image, digest) + OneRetry(p, ns, image, digest) + OneRetry(p, ns, image, digest);
      Run(p, Start(now), events).retried == map[ScheduledKey(p, ns, image, digest) := [now, now]]
  {
    var first := FirstFailure(p, ns, image, digest) + OneRetry(p, ns, image, digest);
    StaleJobFailsRetry(p, now, ns, image, digest);
    var s := Run(p, Start(now), first);
    RetryFailsAtOnce(p, s, ns, image, digest);
    RunAppend(p, Start(now), first, OneRetry(p, ns, image, digest));
    assert [now] + [now] == [now, now];
  }

  // ── The cleaner deletes a retry ─────────────────────────────────────────

  function CleanerRun(p: Params, ns: string, image: string, digest: string): seq<Event>
    requires p.retention >= 0
  {
    FirstFailure(p, ns, image, digest)
    + [Tick(p.retention)]
    + [CleanerList([ScheduledKey(p, ns, image, digest)])]
    + (RetryEvents(ns, image, digest) + [EnsureGet(true)])
  }

  lemma CleanerLists(p: Params, s: State, key: Key)
    requires p.retention >= 0 && s.cleaner.CleanerIdle? && s.isjs.Keys == {key} && s.isjs[key].status.phase.Failed?
    requires s.isjs[key].created + p.retention <= s.now
    ensures Step(p, s, CleanerList([key])) == s.(cleaner := Cleaning(s.now - p.retention, [Listed(key, s.isjs[key])]))
  {
    var order := [key];
    assert order[0] == key;
    assert (set k | k in order) == s.isjs.Keys;
    assert order[1..] == [];
    var cutoff := s.now - p.retention;
    assert StaleJobs(order, s.isjs, cutoff) == [Listed(key, s.isjs[key])] + StaleJobs(order[1..], s.isjs, cutoff);
    assert AfterCleanerList(p, s, order) == Cleaning(s.now - p.retention, [Listed(key, s.isjs[key])]);
  }

  lemma ListedThenRetried(p: Params, s: State, ns: string, image: string, digest: string)
    requires p.retention >= 0 && s.cleaner.CleanerIdle? && s.ssc.SscIdle?
    requires var key := ScheduledKey(p, ns, image, digest);
      && s.isjs.Keys == {key} && s.isjs[key].status.phase.Failed? && s.isjs[key].status.completionTime.None?
      && s.isjs[key].created + p.retention <= s.now
    ensures var key := ScheduledKey(p, ns, image, digest);
      var t := Run(p, Step(p, s, CleanerList([key])), RetryEvents(ns, image, digest) + [EnsureGet(true)]);
      && key in t.isjs && t.isjs[key].status == FRESH && t.isjs[key].created == t.now
      && t.cleaner.Cleaning? && t.cleaner.todo != [] && t.cleaner.todo[0].key == key
  {
    var key := ScheduledKey(p, ns, image, digest);
    CleanerLists(p, s, key);
    var t := Step(p, s, CleanerList([key]));
    NothingOpen(p, t, key, image);
    Retried(p, t, ns, image, digest);
  }

  lemma CleanerHits(p: Params, s: State, key: Key)
    requires s.cleaner.Cleaning? && s.cleaner.todo != [] && s.cleaner.todo[0].key == key
    ensures key !in Step(p, s, CleanerDelete(true)).isjs
  {}

  /** A failed job is listed, then replaced for a retry: the cleaner's next delete hits the replacement,
      which is open and has just been created. */
  lemma {:induction false} CleanerDeletesRetry(p: Params, now: Time, ns: string, image: string, digest: string)
    requires !p.stampFailures && p.retention >= 0
    ensures var s := Run(p, Start(now), CleanerRun(p, ns, image, digest));
      var key := ScheduledKey(p, ns, image, digest);
      && key in s.isjs && !Terminal(s.isjs[key].status.phase) && s.isjs[key].created == s.now
      && key !in Step(p, s, CleanerDelete(true)).isjs
  {
    var key := ScheduledKey(p, ns, image, digest);
    var first := FirstFailure(p, ns, image, digest);
    FirstFailureRuns(p, now, ns, image, digest);
    RunThen(p, Start(now), first, Tick(p.retention));
    RunThen(p, Start(now), first + [Tick(p.retention)], CleanerList([key]));
    RunAppend(p, Start(now), first + [Tick(p.retention)] + [CleanerList([key])],
              RetryEvents(ns, image, digest) + [EnsureGet(true)]);
    var s := Run(p, Start(now), first);
    var t := s.(now := s.now + p.retention);
    assert Step(p, s, Tick(p.retention)) == t;
    ListedThenRetried(p, t, ns, image, digest);
    CleanerHits(p, Run(p, Step(p, t, CleanerList([key])), RetryEvents(ns, image, digest) + [EnsureGet(true)]), key);
  }

  // ── A verdict lands on another incarnation ──────────────────────────────

  const SUCCEEDED := JobStatus(0, 1, 0, false)

  /** The batch Job of a launched scan succeeds and the worker starts to read its log. */
  function ReadingEvents(key: Key): seq<Event> {
    [JobMoves(JobKey(key, "trivy"), SUCCEEDED), WorkerGet(key, true), WorkerFind(true)]
  }

  function AfterReading(s: State, key: Key): State
    requires key in s.isjs && JobKey(key, "trivy") in s.jobs
  {
    var jobKey := JobKey(key, "trivy");
    var job := s.jobs[jobKey].(status := SUCCEEDED);
    s.(jobs := s.jobs[jobKey := job], recounted := s.recounted - {jobKey},
       worker := Working(key, s.isjs[key], ToParse(job)))
  }

  lemma Reading(p: Params, s: State, key: Key)
    requires s.worker.WorkerIdle? && key in s.isjs && JobKey(key, "trivy") in s.jobs
    requires s.isjs[key].status.phase.Running? && s.isjs[key].spec.scanner == "trivy"
    ensures Run(p, s, ReadingEvents(key)) == AfterReading(s, key)
  {
    ThreeSteps(p, s, JobMoves(JobKey(key, "trivy"), SUCCEEDED), WorkerGet(key, true), WorkerFind(true));
  }

  /** A user deletes the scan job, its batch Job goes with it, and the next cycle creates the job anew. */
  function ReplaceEvents(p: Params, ns: string, image: string, digest: string): seq<Event> {
    var key := ScheduledKey(p, ns, image, digest);
    [UserDelete(key), JobGone(JobKey(key, "trivy"))] + ScheduleEvents(ns, image, digest)
  }

  lemma Replaced(p: Params, s: State, ns: string, image: string, digest: string)
    requires s.ssc.SscIdle? && s.isjs.Keys == {ScheduledKey(p, ns, image, digest)}
    requires s.jobs.Keys == {JobKey(ScheduledKey(p, ns, image, digest), "trivy")}
    ensures Run(p, s, ReplaceEvents(p, ns, image, digest))
         == s.(isjs := map[ScheduledKey(p, ns, image, digest) := ScheduledJob(s, image, digest)],
               jobs := map[], recounted := s.recounted - {JobKey(ScheduledKey(p, ns, image, digest), "trivy")},
               nextUid := s.nextUid + 1)
  {
    var key := ScheduledKey(p, ns, image, digest);
    var deletes := [UserDelete(key), JobGone(JobKey(key, "trivy"))];
    var t := s.(isjs := map[], jobs := map[], recounted := s.recounted - {JobKey(key, "trivy")});
    Emptied(p, s, key);
    RunAppend(p, s, deletes, ScheduleEvents(ns, image, digest));
    assert Open(t.isjs, ns) == {};
    Scheduled(p, t, ns, image, digest);
  }

  lemma Emptied(p: Params, s: State, key: Key)
    requires s.isjs.Keys == {key} && s.jobs.Keys == {JobKey(key, "trivy")}
    ensures Run(p, s, [UserDelete(key), JobGone(JobKey(key, "trivy"))])
         == s.(isjs := map[], jobs := map[], recounted := s.recounted - {JobKey(key, "trivy")})
  {
    TwoSteps(p, s, UserDelete(key), JobGone(JobKey(key, "trivy")));
    assert s.isjs - {key} == map[] && s.jobs - {JobKey(key, "trivy")} == map[];
  }

  lemma ParseAndPatch(p: Params, s: State, key: Key, counts: Counts)
    requires FreshTrivy(s, key)
    requires s.worker.Working? && s.worker.key == key && s.worker.stage.ToParse?
    requires s.worker.base.status == FRESH.(phase := Running, startTime := s.worker.base.status.startTime)
    ensures var jobName := JobKey(key, s.worker.base.spec.scanner).name;
      var done := Status(Completed, jobName, None, Some(s.now), counts);
      Run(p, s, [WorkerParse(Some(counts)), WorkerPatch(true)])
        == s.(isjs := s.isjs[key := s.isjs[key].(status := done)],
              verdicts := s.verdicts[s.isjs[key].uid := Parsed(s.worker.stage.job, counts)],
              worker := WorkerIdle(Done))
  {
    RunTwo(p, s, WorkerParse(Some(counts)), [WorkerPatch(true)]);
    assert [WorkerParse(Some(counts))] + [WorkerPatch(true)] == [WorkerParse(Some(counts)), WorkerPatch(true)];
    RunOne(p, Step(p, s, WorkerParse(Some(counts))), WorkerPatch(true));
  }

  function InFlightRun(p: Params, ns: string, image: string, digest: string, counts: Counts): seq<Event> {
    var key := ScheduledKey(p, ns, image, digest);
    ScheduleEvents(ns, image, digest) + LaunchEvents(key) + ReadingEvents(key)
    + ReplaceEvents(p, ns, image, digest) + [WorkerParse(Some(counts)), WorkerPatch(true)]
  }

  lemma LaunchedAndRead(p: Params, now: Time, ns: string, image: string, digest: string)
    ensures var key := ScheduledKey(p, ns, image, digest);
      Run(p, Start(now), ScheduleEvents(ns, image, digest) + LaunchEvents(key) + ReadingEvents(key))
        == AfterReading(AfterLaunch(AfterFirstScan(p, now, ns, image, digest), key), key)
  {
    var key := ScheduledKey(p, ns, image, digest);
    var s0 := Start(now);
    assert Open(s0.isjs, ns) == {} && CountedJobs(s0.jobs, ns) == {};
    Scheduled(p, s0, ns, image, digest);
    var s1 := Run(p, s0, ScheduleEvents(ns, image, digest));
    Launched(p, s1, key);
    RunAppend(p, s0, ScheduleEvents(ns, image, digest), LaunchEvents(key));
    Reading(p, AfterLaunch(s1, key), key);
    RunAppend(p, s0, ScheduleEvents(ns, image, digest) + LaunchEvents(key), ReadingEvents(key));
  }

  /** The patch of a reconcile that began before the name was reused completes the new incarnation, for
      which no batch Job has ever been created. */
  lemma {:induction false} VerdictLandsOnReplacement(
    p: Params, now: Time, ns: string, image: string, digest: string, counts: Counts)
    ensures var s := Run(p, Start(now), InFlightRun(p, ns, image, digest, counts));
      var key := ScheduledKey(p, ns, image, digest);
      && key in s.isjs && s.isjs[key].uid == 2 && s.jobs == map[]
      && s.isjs[key].status.phase.Completed? && s.isjs[key].status.counts == counts
      && 2 in s.verdicts && s.verdicts[2].Parsed? && s.verdicts[2].job.owner == 0
  {
    var key := ScheduledKey(p, ns, image, digest);
    var first := ScheduleEvents(ns, image, digest) + LaunchEvents(key) + ReadingEvents(key);
    LaunchedAndRead(p, now, ns, image, digest);
    var s := Run(p, Start(now), first);
    Replaced(p, s, ns, image, digest);
    RunAppend(p, Start(now), first, ReplaceEvents(p, ns, image, digest));
    var t := Run(p, Start(now), first + ReplaceEvents(p, ns, image, digest));
    ParseAndPatch(p, t, key, counts);
    RunAppend(p, Start(now), first + ReplaceEvents(p, ns, image, digest),
              [WorkerParse(Some(counts)), WorkerPatch(true)]);
  }

  // ── A backoff exceeds the cap ───────────────────────────────────────────

  /** A Job between two attempts: one pod failed, none active. */
  const BACKING_OFF := JobStatus(0, 0, 1, false)
  const SECOND_ATTEMPT := JobStatus(1, 0, 1, false)

  function TwoScans(p: Params, ns: string, image: string, digest: string): seq<Event> {
    ScheduleEvents(ns, image, digest) + [ManualScan(ns, image, "trivy")]
  }

  function BackoffRun(p: Params, ns: string, image: string, digest: string): seq<Event> {
    var k, l := ScheduledKey(p, ns, image, digest), Key(ns, ManualScanJobName(p.sha, image, "trivy"));
    TwoScans(p, ns, image, digest)
    + LaunchEvents(k) + [JobMoves(JobKey(k, "trivy"), BACKING_OFF)]
    + LaunchEvents(l) + [JobMoves(JobKey(k, "trivy"), SECOND_ATTEMPT)]
  }

  lemma TwoNames(p: Params, ns: string, image: string, digest: string)
    requires Resolved(digest)
    ensures var k, l := ScheduledKey(p, ns, image, digest), Key(ns, ManualScanJobName(p.sha, image, "trivy"));
      k != l && JobKey(k, "trivy") != JobKey(l, "trivy")
  {
    DigestNameIsNoFallback(p.sha, image, "trivy", digest, image, "trivy", "");
    JobKeyInjective(ScheduledKey(p, ns, image, digest), "trivy",
                    Key(ns, ManualScanJobName(p.sha, image, "trivy")), "trivy");
  }

  lemma ManualScanJoins(p: Params, s: State, ns: string, image: string, k: Key)
    requires FreshTrivy(s, k) && Key(ns, ManualScanJobName(p.sha, image, "trivy")) !in s.isjs
    ensures var t := Step(p, s, ManualScan(ns, image, "trivy"));
      && FreshTrivy(t, k) && FreshTrivy(t, Key(ns, ManualScanJobName(p.sha, image, "trivy")))
      && t.worker == s.worker && t.jobs == s.jobs
  {
    var t := ManualScanStep(p, s, ns, image, "trivy");
    assert FreshTrivy(t, k);
  }

  lemma SecondScanFollows(p: Params, now: Time, ns: string, image: string, digest: string)
    ensures Run(p, Start(now), TwoScans(p, ns, image, digest))
         == Step(p, AfterFirstScan(p, now, ns, image, digest), ManualScan(ns, image, "trivy"))
  {
    assert Open(Start(now).isjs, ns) == {};
    Scheduled(p, Start(now), ns, image, digest);
    RunThen(p, Start(now), ScheduleEvents(ns, image, digest), ManualScan(ns, image, "trivy"));
    assert Run(p, Start(now), ScheduleEvents(ns, image, digest)) == AfterFirstScan(p, now, ns, image, digest);
  }

  /** Launching `l` while the Job of `k` backs off, and the second attempt of that Job. */
  lemma LaunchDuringBackoff(p: Params, s: State, k: Key, l: Key)
    requires p.maxConcurrentScans == 1 && k.ns == l.ns && k != l && JobKey(k, "trivy") != JobKey(l, "trivy")
    requires FreshTrivy(s, l) && s.worker.WorkerIdle?
    requires s.jobs.Keys == {JobKey(k, "trivy")} && s.jobs[JobKey(k, "trivy")].status == BACKING_OFF
    ensures var t := Run(p, s, LaunchEvents(l) + [JobMoves(JobKey(k, "trivy"), SECOND_ATTEMPT)]);
      |CountedJobs(t.jobs, k.ns)| == 2
  {
    assert CountedJobs(s.jobs, l.ns) == {};
    Launched(p, s, l);
    RunThen(p, s, LaunchEvents(l), JobMoves(JobKey(k, "trivy"), SECOND_ATTEMPT));
    BothCounted(s.jobs, JobKey(k, "trivy"), JobKey(l, "trivy"), FailedJob(s, l).(status := NEW_JOB));
    assert Step(p, AfterLaunch(s, l), JobMoves(JobKey(k, "trivy"), SECOND_ATTEMPT))
        == JobMovesStep(AfterLaunch(s, l), JobKey(k, "trivy"), SECOND_ATTEMPT);
  }

  lemma BothCounted(jobs: map<Key, BatchJob>, k: Key, l: Key, launched: BatchJob)
    requires k != l && k.ns == l.ns && jobs.Keys == {k} && launched.status == NEW_JOB
    ensures var after := jobs[l := launched];
      |CountedJobs(after[k := after[k].(status := SECOND_ATTEMPT)], k.ns)| == 2
  {
    var after := jobs[l := launched];
    assert CountedJobs(after[k := after[k].(status := SECOND_ATTEMPT)], k.ns) == {k, l};
  }

  lemma LaunchThenBackoff(p: Params, s: State, k: Key)
    requires ReadyToLaunch(p, s, k) && s.jobs == map[]
    ensures Run(p, s, LaunchEvents(k) + [JobMoves(JobKey(k, "trivy"), BACKING_OFF)])
         == JobMovesStep(AfterLaunch(s, k), JobKey(k, "trivy"), BACKING_OFF)
  {
    Launched(p, s, k);
    RunThen(p, s, LaunchEvents(k), JobMoves(JobKey(k, "trivy"), BACKING_OFF));
    assert Step(p, AfterLaunch(s, k), JobMoves(JobKey(k, "trivy"), BACKING_OFF))
        == JobMovesStep(AfterLaunch(s, k), JobKey(k, "trivy"), BACKING_OFF);
  }

  /** The state in which the Job of `k` backs off. */
  lemma BackoffReached(p: Params, now: Time, ns: string, image: string, digest: string) returns (s: State)
    requires p.maxConcurrentScans == 1 && Resolved(digest)
    ensures var k, l := ScheduledKey(p, ns, image, digest), Key(ns, ManualScanJobName(p.sha, image, "trivy"));
      && s == Run(p, Start(now), TwoScans(p, ns, image, digest)
                                 + (LaunchEvents(k) + [JobMoves(JobKey(k, "trivy"), BACKING_OFF)]))
      && k != l && JobKey(k, "trivy") != JobKey(l, "trivy")
      && FreshTrivy(s, l) && s.worker.WorkerIdle?
      && s.jobs.Keys == {JobKey(k, "trivy")} && s.jobs[JobKey(k, "trivy")].status == BACKING_OFF
  {
    var k := ScheduledKey(p, ns, image, digest);
    var toBackoff := LaunchEvents(k) + [JobMoves(JobKey(k, "trivy"), BACKING_OFF)];
    TwoNames(p, ns, image, digest);
    ManualScanJoins(p, AfterFirstScan(p, now, ns, image, digest), ns, image, k);
    SecondScanFollows(p, now, ns, image, digest);
    var first := Run(p, Start(now), TwoScans(p, ns, image, digest));
    assert CountedJobs(first.jobs, ns) == {};
    LaunchThenBackoff(p, first, k);
    RunAppend(p, Start(now), TwoScans(p, ns, image, digest), toBackoff);
    s := Run(p, Start(now), TwoScans(p, ns, image, digest) + toBackoff);
  }


  /** A Job that fails once is not counted until its second attempt starts; another Job created in
      between brings the count to two under a cap of one. */
  lemma {:induction false} BackoffExceedsCap(p: Params, now: Time, ns: string, image: string, digest: string)
    requires p.maxConcurrentScans == 1 && Resolved(digest)
    ensures |CountedJobs(Run(p, Start(now), BackoffRun(p, ns, image, digest)).jobs, ns)| == 2
  {
    var k, l := ScheduledKey(p, ns, image, digest), Key(ns, ManualScanJobName(p.sha, image, "trivy"));
    var toBackoff := LaunchEvents(k) + [JobMoves(JobKey(k, "trivy"), BACKING_OFF)];
    var toSecond := LaunchEvents(l) + [JobMoves(JobKey(k, "trivy"), SECOND_ATTEMPT)];
    var s := BackoffReached(p, now, ns, image, digest);
    LaunchDuringBackoff(p, s, k, l);
    RunAppend(p, Start(now), TwoScans(p, ns, image, digest) + toBackoff, toSecond);
    assert BackoffRun(p, ns, image, digest) == TwoScans(p, ns, image, digest) + toBackoff + toSecond;
  }

  // ── A manual scan shortens the interval ─────────────────────────────────

  /** The cycle that finds the failed job of a pair decides to delete it. */
  function DecideEvents(ns: string, image: string): seq<Event> {
    [SnapshotOf(ns, image, ""), EnsureGet(true)]
  }

  predicate FailedLongAgo(p: Params, s: State, key: Key) {
    && s.ssc.SscIdle? && s.isjs.Keys == {key} && s.isjs[key].status.phase.Failed?
    && s.isjs[key].status.completionTime.Some?
    && s.now - s.isjs[key].status.completionTime.value >= FAILED_RETRY_INTERVAL
  }

  lemma Decided(p: Params, s: State, ns: string, image: string) returns (free: nat)
    requires FailedLongAgo(p, s, ScheduledKey(p, ns, image, ""))
    ensures free > 0
    ensures Run(p, s, DecideEvents(ns, image)) == s.(ssc := Ensuring(RetryBatch(ns, image, "", free), AtDelete))
  {
    NothingOpen(p, s, ScheduledKey(p, ns, image, ""), image);
    free := SnapshotStarts(p, s, ns, image, "");
    TwoSteps(p, s, SnapshotOf(ns, image, ""), EnsureGet(true));
    var s1 := s.(ssc := Ensuring(RetryBatch(ns, image, "", free), AtGet));
    assert AfterEnsureGet(p, s1, true) == Ensuring(RetryBatch(ns, image, "", free), AtDelete);
  }

  /** Meanwhile somebody deletes the failed job and starts the scan again by hand, and the worker finds the Job of
      the deleted one. */
  function SwapEvents(key: Key, image: string): seq<Event> {
    [UserDelete(key), ManualScan(key.ns, image, "trivy")] + [WorkerGet(key, true), WorkerFind(true)]
  }

  function SwappedJob(s: State, image: string): ScanJob {
    NewScanJob(s, Spec(image, "", "trivy", ByHand, "manual", ""))
  }

  function AfterSwap(p: Params, s: State, ns: string, image: string): State {
    s.(isjs := map[ScheduledKey(p, ns, image, "") := SwappedJob(s, image)], nextUid := s.nextUid + 1,
       manual := s.manual + multiset{ns})
  }

  lemma SwappedByHand(p: Params, s: State, ns: string, image: string)
    requires s.isjs.Keys == {ScheduledKey(p, ns, image, "")}
    ensures Run(p, s, [UserDelete(ScheduledKey(p, ns, image, "")), ManualScan(ns, image, "trivy")])
         == AfterSwap(p, s, ns, image)
  {
    var key := ScheduledKey(p, ns, image, "");
    TwoSteps(p, s, UserDelete(key), ManualScan(ns, image, "trivy"));
    assert s.isjs - {key} == map[];
    assert Step(p, s, UserDelete(key)) == s.(isjs := map[]);
    assert ManualScanStep(p, s.(isjs := map[]), ns, image, "trivy") == AfterSwap(p, s, ns, image);
  }

  lemma Swapped(p: Params, s: State, ns: string, image: string)
    requires s.worker.WorkerIdle?
    requires var key := ScheduledKey(p, ns, image, "");
      s.isjs.Keys == {key} && JobKey(key, "trivy") in s.jobs && s.jobs[JobKey(key, "trivy")].status == FAILED_TWICE
    ensures var key := ScheduledKey(p, ns, image, "");
      Run(p, s, SwapEvents(key, image))
        == AfterSwap(p, s, ns, image).(
             worker := Working(key, SwappedJob(s, image), ToPatch(Broken(s.jobs[JobKey(key, "trivy")]), s.now)))
  {
    var key := ScheduledKey(p, ns, image, "");
    SwappedByHand(p, s, ns, image);
    GetAndFindFailed(p, AfterSwap(p, s, ns, image), key);
    TwoSteps(p, AfterSwap(p, s, ns, image), WorkerGet(key, true), WorkerFind(true));
    RunAppend(p, s, [UserDelete(key), ManualScan(ns, image, "trivy")], [WorkerGet(key, true), WorkerFind(true)]);
  }

  /** A second later the delete goes through and the job is created anew; then the worker's patch, of the second
      before, lands on it. */
  function LateEvents(): seq<Event> {
    [Tick(1), EnsureDelete(true), EnsureCreate(true)] + [WorkerPatch(true), EnsureGet(true)]
  }

  lemma LateRetry(p: Params, s: State, ns: string, image: string, free: nat)
    requires free > 0 && s.ssc == Ensuring(RetryBatch(ns, image, "", free), AtDelete)
    requires s.isjs.Keys == {ScheduledKey(p, ns, image, "")} && s.retried == map[]
    ensures var key := ScheduledKey(p, ns, image, "");
      var t := s.(now := s.now + 1);
      Run(p, s, [Tick(1), EnsureDelete(true), EnsureCreate(true)])
        == t.(isjs := map[key := ScheduledJob(t, image, "")], nextUid := s.nextUid + 1,
              retried := map[key := [t.now]], ssc := NextCall(RetryBatch(ns, image, "", free), true))
  {
    ThreeSteps(p, s, Tick(1), EnsureDelete(true), EnsureCreate(true));
    assert Step(p, s, Tick(1)) == s.(now := s.now + 1);
    LateDelete(p, s.(now := s.now + 1), ns, image, free);
    LateCreate(p, s.(now := s.now + 1), ns, image, free);
  }

  function AfterLateDelete(p: Params, s: State, ns: string, image: string, free: nat): State {
    s.(isjs := map[], retried := map[ScheduledKey(p, ns, image, "") := [s.now]],
       ssc := Ensuring(RetryBatch(ns, image, "", free), AtCreate))
  }

  lemma LateDelete(p: Params, s: State, ns: string, image: string, free: nat)
    requires s.ssc == Ensuring(RetryBatch(ns, image, "", free), AtDelete)
    requires s.isjs.Keys == {ScheduledKey(p, ns, image, "")} && s.retried == map[]
    ensures Step(p, s, EnsureDelete(true)) == AfterLateDelete(p, s, ns, image, free)
  {
    assert s.isjs - {ScheduledKey(p, ns, image, "")} == map[] && [] + [s.now] == [s.now];
    assert EnsureDeleteStep(p, s, true) == AfterLateDelete(p, s, ns, image, free);
  }

  lemma LateCreate(p: Params, s: State, ns: string, image: string, free: nat)
    ensures Step(p, AfterLateDelete(p, s, ns, image, free), EnsureCreate(true))
         == AfterLateDelete(p, s, ns, image, free).(
              isjs := map[ScheduledKey(p, ns, image, "") := ScheduledJob(s, image, "")], nextUid := s.nextUid + 1,
              ssc := NextCall(RetryBatch(ns, image, "", free), true))
  {
    assert EnsureCreateStep(p, AfterLateDelete(p, s, ns, image, free), true).isjs
        == map[ScheduledKey(p, ns, image, "") := ScheduledJob(s, image, "")];
  }

  lemma LatePatch(p: Params, s: State, key: Key, at: Time)
    requires p.stampFailures && s.isjs.Keys == {key} && s.isjs[key].status == FRESH
    requires s.worker.Working? && s.worker.key == key && s.worker.base.status == FRESH
    requires s.worker.stage.ToPatch? && s.worker.stage.verdict.Broken? && s.worker.stage.at == at
    requires s.ssc.Ensuring? && s.ssc.stage.AtGet? && s.ssc.batch.work == []
    ensures var t := Run(p, s, [WorkerPatch(true), EnsureGet(true)]);
      && t.isjs.Keys == {key} && t.isjs[key].status.phase.Failed? && t.isjs[key].status.completionTime == Some(at)
      && t.ssc.SscIdle? && t.now == s.now && t.retried == s.retried
  {
    TwoSteps(p, s, WorkerPatch(true), EnsureGet(true));
    assert Step(p, s, WorkerPatch(true)) == WorkerPatchStep(p, s, true);
  }

  /** A cycle with the swap in its middle. */
  function LateRetryEvents(p: Params, ns: string, image: string): seq<Event> {
    DecideEvents(ns, image) + SwapEvents(ScheduledKey(p, ns, image, ""), image) + LateEvents()
  }

  /** The next cycle, as soon as it may delete the job. */
  function EarlyRetryEvents(ns: string, image: string): seq<Event> {
    [Tick(FAILED_RETRY_INTERVAL - 1)] + DecideEvents(ns, image) + [EnsureDelete(true)]
  }

  lemma FirstRetryIsLate(p: Params, s: State, ns: string, image: string)
    requires p.stampFailures && s.worker.WorkerIdle? && s.retried == map[]
    requires var key := ScheduledKey(p, ns, image, "");
      && FailedLongAgo(p, s, key)
      && JobKey(key, "trivy") in s.jobs && s.jobs[JobKey(key, "trivy")].status == FAILED_TWICE
    ensures var key := ScheduledKey(p, ns, image, "");
      var t := Run(p, s, LateRetryEvents(p, ns, image));
      && t.isjs.Keys == {key} && t.isjs[key].status.phase.Failed? && t.isjs[key].status.completionTime == Some(s.now)
      && t.ssc.SscIdle? && t.now == s.now + 1 && t.retried == map[key := [s.now + 1]]
  {
    var key := ScheduledKey(p, ns, image, "");
    var free := Decided(p, s, ns, image);
    var decided := Run(p, s, DecideEvents(ns, image));
    Swapped(p, decided, ns, image);
    var swapped := Run(p, decided, SwapEvents(key, image));
    LateRetry(p, swapped, ns, image, free);
    var late := Run(p, swapped, [Tick(1), EnsureDelete(true), EnsureCreate(true)]);
    LatePatch(p, late, key, s.now);
    RunAppend(p, swapped, [Tick(1), EnsureDelete(true), EnsureCreate(true)], [WorkerPatch(true), EnsureGet(true)]);
    RunAppend(p, s, DecideEvents(ns, image), SwapEvents(key, image));
    RunAppend(p, s, DecideEvents(ns, image) + SwapEvents(key, image), LateEvents());
  }

  lemma SecondRetryIsEarly(p: Params, s: State, ns: string, image: string, at: Time)
    requires var key := ScheduledKey(p, ns, image, "");
      && s.ssc.SscIdle? && s.isjs.Keys == {key} && s.isjs[key].status.phase.Failed?
      && s.isjs[key].status.completionTime == Some(at) && s.now == at + 1 && s.retried == map[key := [at + 1]]
    ensures Run(p, s, EarlyRetryEvents(ns, image)).retried
         == map[ScheduledKey(p, ns, image, "") := [at + 1, at + FAILED_RETRY_INTERVAL]]
  {
    var wait := Tick(FAILED_RETRY_INTERVAL - 1);
    var t := s.(now := at + FAILED_RETRY_INTERVAL);
    var free := Decided(p, t, ns, image);
    RunOne(p, s, wait);
    assert Step(p, s, wait) == t;
    RunAppend(p, s, [wait], DecideEvents(ns, image));
    RunThen(p, s, [wait] + DecideEvents(ns, image), EnsureDelete(true));
    SecondDelete(p, t.(ssc := Ensuring(RetryBatch(ns, image, "", free), AtDelete)), ns, image, free, at);
  }

  lemma SecondDelete(p: Params, s: State, ns: string, image: string, free: nat, at: Time)
    requires s.ssc == Ensuring(RetryBatch(ns, image, "", free), AtDelete)
    requires ScheduledKey(p, ns, image, "") in s.isjs && s.retried == map[ScheduledKey(p, ns, image, "") := [at + 1]]
    ensures Step(p, s, EnsureDelete(true)).retried == map[ScheduledKey(p, ns, image, "") := [at + 1, s.now]]
  {
    assert [at + 1] + [s.now] == [at + 1, s.now];
    assert Step(p, s, EnsureDelete(true)) == EnsureDeleteStep(p, s, true);
  }

  /** Why the spaced variant excludes manual scans: with one, two retries of a name come a second too close. */
  lemma {:induction false} ManualScanShortensInterval(p: Params, now: Time, ns: string, image: string)
    requires p.stampFailures
    ensures var events := AgedFailure(p, ns, image) + (LateRetryEvents(p, ns, image) + EarlyRetryEvents(ns, image));
      var first := now + FAILED_RETRY_INTERVAL + 1;
      Run(p, Start(now), events).retried
        == map[ScheduledKey(p, ns, image, "") := [first, first + FAILED_RETRY_INTERVAL - 1]]
  {
    FailureAges(p, now, ns, image);
    TwoEarlyRetries(p, Run(p, Start(now), AgedFailure(p, ns, image)), ns, image);
    RunAppend(p, Start(now), AgedFailure(p, ns, image), LateRetryEvents(p, ns, image) + EarlyRetryEvents(ns, image));
  }

  /** A first failure, and the wait until its retry is due. */
  function AgedFailure(p: Params, ns: string, image: string): seq<Event> {
    FirstFailure(p, ns, image, "") + [Tick(FAILED_RETRY_INTERVAL)]
  }

  lemma FailureAges(p: Params, now: Time, ns: string, image: string)
    requires p.stampFailures
    ensures var key := ScheduledKey(p, ns, image, "");
      var s := Run(p, Start(now), AgedFailure(p, ns, image));
      && s.worker.WorkerIdle? && s.retried == map[] && s.now == now + FAILED_RETRY_INTERVAL
      && FailedLongAgo(p, s, key)
      && JobKey(key, "trivy") in s.jobs && s.jobs[JobKey(key, "trivy")].status == FAILED_TWICE
  {
    FirstFailureRuns(p, now, ns, image, "");
    RunThen(p, Start(now), FirstFailure(p, ns, image, ""), Tick(FAILED_RETRY_INTERVAL));
    var s := Run(p, Start(now), FirstFailure(p, ns, image, ""));
    assert Step(p, s, Tick(FAILED_RETRY_INTERVAL)) == s.(now := s.now + FAILED_RETRY_INTERVAL);
  }

  lemma TwoEarlyRetries(p: Params, s: State, ns: string, image: string)
    requires p.stampFailures && s.worker.WorkerIdle? && s.retried == map[]
    requires var key := ScheduledKey(p, ns, image, "");
      && FailedLongAgo(p, s, key)
      && JobKey(key, "trivy") in s.jobs && s.jobs[JobKey(key, "trivy")].status == FAILED_TWICE
    ensures Run(p, s, LateRetryEvents(p, ns, image) + EarlyRetryEvents(ns, image)).retried
         == map[ScheduledKey(p, ns, image, "") := [s.now + 1, s.now + FAILED_RETRY_INTERVAL]]
  {
    FirstRetryIsLate(p, s, ns, image);
    SecondRetryIsEarly(p, Run(p, s, LateRetryEvents(p, ns, image)), ns, image, s.now);
    RunAppend(p, s, LateRetryEvents(p, ns, image), EarlyRetryEvents(ns, image));
  }
}
