/** Batch Jobs over whole runs: their number, and which scan job each belongs to. */
module BatchJobs {
  import opened Cluster
  import opened Naming
  import opened Protocol
  import opened Steps

  // ── The cap ─────────────────────────────────────────────────────────────

  /** The counted Jobs of a namespace that were counted all along. */
  function SteadyJobs(s: State, ns: string): set<Key> {
    CountedJobs(s.jobs, ns) - s.recounted
  }

  ghost predicate Capped(s: State, ns: string, bound: nat) {
    && |SteadyJobs(s, ns)| <= bound
    && (s.worker.Working? && s.worker.stage.ToCreate? && s.worker.key.ns == ns ==> |SteadyJobs(s, ns)| < bound)
  }

  lemma CreateJobKeepsCap(s: State, ok: bool, ns: string, bound: nat)
    requires Capped(s, ns, bound)
    ensures Capped(WorkerCreateJobStep(s, ok), ns, bound)
  {
    var t := WorkerCreateJobStep(s, ok);
    if t.jobs != s.jobs {
      var key := JobKey(s.worker.key, s.worker.base.spec.scanner);
      if key.ns == ns {
        GrowsByAtMostOne(SteadyJobs(s, ns), SteadyJobs(t, ns), key);
      } else {
        SubsetSize(SteadyJobs(t, ns), SteadyJobs(s, ns));
      }
    }
  }

  lemma JobMovesKeepsCap(s: State, key: Key, status: JobStatus, ns: string, bound: nat)
    requires Capped(s, ns, bound)
    ensures Capped(JobMovesStep(s, key, status), ns, bound)
  {
    SubsetSize(SteadyJobs(JobMovesStep(s, key, status), ns), SteadyJobs(s, ns));
  }

  lemma JobGoneKeepsCap(s: State, key: Key, ns: string, bound: nat)
    requires Capped(s, ns, bound)
    ensures Capped(s.(jobs := s.jobs - {key}, recounted := s.recounted - {key}), ns, bound)
  {
    SubsetSize(SteadyJobs(s.(jobs := s.jobs - {key}, recounted := s.recounted - {key}), ns), SteadyJobs(s, ns));
  }

  /** The worker gets to create a Job only past the count. */
  lemma CountGuardsCreation(p: Params, s: State, e: Event)
    requires p.maxConcurrentScans > 0 && WorkerEvent(e) && !e.WorkerCreateJob?
    ensures var t := Step(p, s, e);
      t.worker.Working? && t.worker.stage.ToCreate? ==>
        t.worker == s.worker || |CountedJobs(s.jobs, t.worker.key.ns)| < p.maxConcurrentScans
  {
    if e.WorkerFind? {
      assert Step(p, s, e).worker == AfterWorkerFind(p, s, e.ok);
    }
  }

  lemma OtherStepKeepsCap(p: Params, s: State, e: Event, ns: string, bound: nat)
    requires 0 < p.maxConcurrentScans <= bound && Capped(s, ns, bound)
    requires !e.WorkerCreateJob? && !e.JobMoves? && !e.JobGone?
    ensures Capped(Step(p, s, e), ns, bound)
  {
    OthersLeaveJobs(p, s, e);
    SubsetSize(SteadyJobs(s, ns), CountedJobs(s.jobs, ns));
    if WorkerEvent(e) {
      CountGuardsCreation(p, s, e);
    } else {
      OthersLeaveWorker(p, s, e);
    }
  }

  lemma StepKeepsCap(p: Params, s: State, e: Event, ns: string, bound: nat)
    requires 0 < p.maxConcurrentScans <= bound && Capped(s, ns, bound)
    ensures Capped(Step(p, s, e), ns, bound)
  {
    if e.WorkerCreateJob? {
      CreateJobKeepsCap(s, e.ok, ns, bound);
    } else if e.JobMoves? {
      JobMovesKeepsCap(s, e.key, e.status, ns, bound);
    } else if e.JobGone? {
      JobGoneKeepsCap(s, e.key, ns, bound);
    } else {
      OtherStepKeepsCap(p, s, e, ns, bound);
    }
  }

  lemma {:induction false} RunKeepsCap(p: Params, s: State, events: seq<Event>, ns: string, bound: nat)
    requires 0 < p.maxConcurrentScans <= bound && Capped(s, ns, bound)
    ensures Capped(Run(p, s, events), ns, bound)
    decreases |events|
  {
    if events != [] {
      StepKeepsCap(p, s, events[0], ns, bound);
      RunKeepsCap(p, Step(p, s, events[0]), events[1..], ns, bound);
    }
  }

  lemma SplitCounted(s: State, ns: string)
    ensures |CountedJobs(s.jobs, ns)| == |SteadyJobs(s, ns)| + |CountedJobs(s.jobs, ns) * s.recounted|
  {
    assert CountedJobs(s.jobs, ns) == SteadyJobs(s, ns) + CountedJobs(s.jobs, ns) * s.recounted;
    assert SteadyJobs(s, ns) !! CountedJobs(s.jobs, ns) * s.recounted;
  }

  /** In every reachable state the counted Jobs other than those that are counted again keep within the cap; so
      the cap is exceeded by no more than the Jobs that are counted again now. */
  lemma {:induction false} JobCapHolds(p: Params, now: Time, events: seq<Event>, ns: string)
    requires p.maxConcurrentScans > 0
    ensures var s := Run(p, Start(now), events);
      && |CountedJobs(s.jobs, ns) - s.recounted| <= p.maxConcurrentScans
      && |CountedJobs(s.jobs, ns)| <= p.maxConcurrentScans + |CountedJobs(s.jobs, ns) * s.recounted|
  {
    assert SteadyJobs(Start(now), ns) == {};
    RunKeepsCap(p, Start(now), events, ns, p.maxConcurrentScans);
    SplitCounted(Run(p, Start(now), events), ns);
  }

  /** A Job that the worker is about to create. */
  function AboutToCreate(s: State, ns: string): nat {
    if s.worker.Working? && s.worker.stage.ToCreate? && s.worker.key.ns == ns then 1 else 0
  }

  predicate WithinCap(p: Params, s: State, ns: string) {
    |CountedJobs(s.jobs, ns)| + AboutToCreate(s, ns) <= p.maxConcurrentScans
  }

  /** A Job that was not counted becomes counted again. */
  predicate CountsAgain(s: State, e: Event, ns: string) {
    && e.JobMoves? && e.key in s.jobs && e.key.ns == ns
    && !JobCounted(s.jobs[e.key].status) && JobCounted(e.status)
  }

  /** And it does while the counted Jobs and the one about to be created use up the cap. */
  predicate Recounts(p: Params, s: State, e: Event, ns: string) {
    CountsAgain(s, e, ns) && |CountedJobs(s.jobs, ns)| + AboutToCreate(s, ns) == p.maxConcurrentScans
  }

  lemma CreateKeepsWithinCap(p: Params, s: State, ok: bool, ns: string)
    requires WithinCap(p, s, ns)
    ensures WithinCap(p, WorkerCreateJobStep(s, ok), ns)
  {
    var t := WorkerCreateJobStep(s, ok);
    if t.jobs != s.jobs {
      var key := JobKey(s.worker.key, s.worker.base.spec.scanner);
      if key.ns == ns {
        GrowsByAtMostOne(CountedJobs(s.jobs, ns), CountedJobs(t.jobs, ns), key);
      } else {
        SubsetSize(CountedJobs(t.jobs, ns), CountedJobs(s.jobs, ns));
      }
    }
  }

  lemma MovedCount(jobs: map<Key, BatchJob>, key: Key, status: JobStatus, ns: string)
    requires key in jobs
    ensures var after := jobs[key := jobs[key].(status := status)];
      if key.ns == ns && !JobCounted(jobs[key].status) && JobCounted(status)
      then |CountedJobs(after, ns)| == |CountedJobs(jobs, ns)| + 1
      else |CountedJobs(after, ns)| <= |CountedJobs(jobs, ns)|
  {
    var after := jobs[key := jobs[key].(status := status)];
    if key.ns == ns && !JobCounted(jobs[key].status) && JobCounted(status) {
      assert CountedJobs(after, ns) == CountedJobs(jobs, ns) + {key};
    } else {
      SubsetSize(CountedJobs(after, ns), CountedJobs(jobs, ns));
    }
  }

  lemma MoveExceedsCapIff(p: Params, s: State, e: Event, ns: string)
    requires WithinCap(p, s, ns) && e.JobMoves?
    ensures WithinCap(p, Step(p, s, e), ns) <==> !Recounts(p, s, e, ns)
  {
    assert Step(p, s, e) == JobMovesStep(s, e.key, e.status);
    if e.key in s.jobs {
      MovedCount(s.jobs, e.key, e.status, ns);
    }
  }

  lemma JobGoneKeepsWithinCap(p: Params, s: State, key: Key, ns: string)
    requires WithinCap(p, s, ns)
    ensures WithinCap(p, Step(p, s, JobGone(key)), ns)
  {
    SubsetSize(CountedJobs(Step(p, s, JobGone(key)).jobs, ns), CountedJobs(s.jobs, ns));
  }

  lemma WithinCapIff(p: Params, s: State, e: Event, ns: string)
    requires p.maxConcurrentScans > 0 && WithinCap(p, s, ns)
    ensures WithinCap(p, Step(p, s, e), ns) <==> !Recounts(p, s, e, ns)
  {
    if e.WorkerCreateJob? {
      CreateKeepsWithinCap(p, s, e.ok, ns);
    } else if e.JobMoves? {
      MoveExceedsCapIff(p, s, e, ns);
    } else if e.JobGone? {
      JobGoneKeepsWithinCap(p, s, e.key, ns);
    } else {
      OthersLeaveJobs(p, s, e);
      if WorkerEvent(e) {
        CountGuardsCreation(p, s, e);
      } else {
        OthersLeaveWorker(p, s, e);
      }
    }
  }

  // ── When the cap is kept ────────────────────────────────────────────────

  /** A worker that goes to create a Job has found none, and nobody else creates any. */
  predicate NoJobYet(s: State) {
    s.worker.Working? && (s.worker.stage.ToCount? || s.worker.stage.ToCreate?) ==>
      JobKey(s.worker.key, s.worker.base.spec.scanner) !in s.jobs
  }

  lemma LocalStepKeepsNoJob(p: Params, s: State, e: Event)
    requires NoJobYet(s) && WorkerLocal(e) && !e.WorkerCreateJob?
    ensures NoJobYet(Step(p, s, e))
  {
    OthersLeaveJobs(p, s, e);
    if e.WorkerFind? {
      assert Step(p, s, e).worker == AfterWorkerFind(p, s, e.ok);
    }
  }

  lemma StepKeepsNoJob(p: Params, s: State, e: Event)
    requires NoJobYet(s)
    ensures NoJobYet(Step(p, s, e))
  {
    if e.WorkerCreateJob? {
      assert Step(p, s, e) == WorkerCreateJobStep(s, e.ok);
    } else if WorkerLocal(e) {
      LocalStepKeepsNoJob(p, s, e);
    } else {
      JobsKeepLabels(p, s, e);
      if e.WorkerPatch? {
        PatchEndsReconcile(p, s, e.ok);
      } else {
        OthersLeaveWorker(p, s, e);
      }
    }
  }

  lemma {:induction false} RunKeepsNoJob(p: Params, s: State, events: seq<Event>)
    requires NoJobYet(s)
    ensures NoJobYet(Run(p, s, events))
    decreases |events|
  {
    if events != [] {
      StepKeepsNoJob(p, s, events[0]);
      RunKeepsNoJob(p, Step(p, s, events[0]), events[1..]);
    }
  }

  /** No Job of the namespace becomes counted again. */
  ghost predicate NoRecount(p: Params, s: State, events: seq<Event>, ns: string)
    decreases |events|
  {
    events != [] ==> !CountsAgain(s, events[0], ns) && NoRecount(p, Step(p, s, events[0]), events[1..], ns)
  }

  /** Only Jobs that were counted again are taken for that. */
  lemma {:induction false} RecountedCameBack(p: Params, s: State, events: seq<Event>, ns: string)
    requires NoRecount(p, s, events, ns) && forall k | k in s.recounted :: k.ns != ns
    ensures forall k | k in Run(p, s, events).recounted :: k.ns != ns
    decreases |events|
  {
    if events != [] {
      StepRecounts(p, s, events[0], ns);
      RecountedCameBack(p, Step(p, s, events[0]), events[1..], ns);
    }
  }

  lemma StepRecounts(p: Params, s: State, e: Event, ns: string)
    requires !CountsAgain(s, e, ns)
    ensures forall k | k in Step(p, s, e).recounted && k.ns == ns :: k in s.recounted
  {
    if e.JobMoves? {
      assert Step(p, s, e) == JobMovesStep(s, e.key, e.status);
    } else if e.WorkerCreateJob? {
      assert Step(p, s, e) == WorkerCreateJobStep(s, e.ok);
    } else if !e.JobGone? {
      OthersLeaveJobs(p, s, e);
    }
  }

  /** Whatever happens next, the counted Jobs keep to the cap as long as none is counted again. */
  ghost predicate KeepsCap(p: Params, s: State, ns: string) {
    forall more | NoRecount(p, s, more, ns) :: |CountedJobs(Run(p, s, more).jobs, ns)| <= p.maxConcurrentScans
  }

  lemma {:induction false} RunKeepsWithinCap(p: Params, s: State, events: seq<Event>, ns: string)
    requires p.maxConcurrentScans > 0 && WithinCap(p, s, ns) && NoRecount(p, s, events, ns)
    ensures WithinCap(p, Run(p, s, events), ns)
    decreases |events|
  {
    if events != [] {
      WithinCapIff(p, s, events[0], ns);
      RunKeepsWithinCap(p, Step(p, s, events[0]), events[1..], ns);
    }
  }

  lemma CreationIsCounted(p: Params, s: State, ns: string)
    requires NoJobYet(s) && AboutToCreate(s, ns) == 1
    ensures |CountedJobs(Run(p, s, [WorkerCreateJob(true)]).jobs, ns)| == |CountedJobs(s.jobs, ns)| + 1
  {
    var w := s.worker;
    var job := BatchJob(s.nextUid, w.base.uid, w.key.name, w.base.spec.scanner, NEW_JOB);
    RunOne(p, s, WorkerCreateJob(true));
    assert Step(p, s, WorkerCreateJob(true)) == WorkerCreateJobStep(s, true);
    NewJobIsCounted(s.jobs, JobKey(w.key, w.base.spec.scanner), job);
  }

  lemma NewJobIsCounted(jobs: map<Key, BatchJob>, key: Key, job: BatchJob)
    requires key !in jobs && job.status == NEW_JOB
    ensures |CountedJobs(jobs[key := job], key.ns)| == |CountedJobs(jobs, key.ns)| + 1
  {
    assert CountedJobs(jobs[key := job], key.ns) == CountedJobs(jobs, key.ns) + {key};
  }

  lemma {:induction false} KeepsCapIff(p: Params, s: State, ns: string)
    requires p.maxConcurrentScans > 0 && NoJobYet(s)
    ensures KeepsCap(p, s, ns) <==> WithinCap(p, s, ns)
  {
    if WithinCap(p, s, ns) {
      forall more | NoRecount(p, s, more, ns)
        ensures |CountedJobs(Run(p, s, more).jobs, ns)| <= p.maxConcurrentScans
      {
        RunKeepsWithinCap(p, s, more, ns);
      }
    } else if |CountedJobs(s.jobs, ns)| > p.maxConcurrentScans {
      assert NoRecount(p, s, [], ns) && Run(p, s, []) == s;
    } else {
      CreationIsCounted(p, s, ns);
      assert [WorkerCreateJob(true)][1..] == [];
      assert NoRecount(p, s, [WorkerCreateJob(true)], ns);
    }
  }

  /** The exact condition for the cap, in every reachable state: it is kept from there on, as long as no Job is
      counted again, if and only if the counted Jobs and the one about to be created keep to it. */
  lemma {:induction false} CapIsKeptIff(p: Params, now: Time, events: seq<Event>, ns: string)
    requires p.maxConcurrentScans > 0
    ensures var s := Run(p, Start(now), events); KeepsCap(p, s, ns) <==> WithinCap(p, s, ns)
  {
    RunKeepsNoJob(p, Start(now), events);
    KeepsCapIff(p, Run(p, Start(now), events), ns);
  }

  /** Among all steps from a state from which the cap is kept, exactly the recounts with the cap used up lead to one
      from which it can be exceeded without any other. */
  lemma {:induction false} CapIsLostIff(p: Params, now: Time, events: seq<Event>, e: Event, ns: string)
    requires p.maxConcurrentScans > 0 && KeepsCap(p, Run(p, Start(now), events), ns)
    ensures var s := Run(p, Start(now), events); KeepsCap(p, Step(p, s, e), ns) <==> !Recounts(p, s, e, ns)
  {
    var s := Run(p, Start(now), events);
    RunKeepsNoJob(p, Start(now), events);
    StepKeepsNoJob(p, s, e);
    KeepsCapIff(p, s, ns);
    KeepsCapIff(p, Step(p, s, e), ns);
    WithinCapIff(p, s, e, ns);
  }

  ghost predicate NeverRecounts(p: Params, s: State, events: seq<Event>, ns: string)
    decreases |events|
  {
    events != [] ==> !Recounts(p, s, events[0], ns) && NeverRecounts(p, Step(p, s, events[0]), events[1..], ns)
  }

  ghost predicate AlwaysKeepsCap(p: Params, s: State, events: seq<Event>, ns: string)
    decreases |events|
  {
    KeepsCap(p, s, ns) && (events != [] ==> AlwaysKeepsCap(p, Step(p, s, events[0]), events[1..], ns))
  }

  lemma {:induction false} KeepsAllAlong(p: Params, s: State, events: seq<Event>, ns: string)
    requires p.maxConcurrentScans > 0 && NoJobYet(s) && WithinCap(p, s, ns)
    ensures AlwaysKeepsCap(p, s, events, ns) <==> NeverRecounts(p, s, events, ns)
    ensures NeverRecounts(p, s, events, ns) ==> |CountedJobs(Run(p, s, events).jobs, ns)| <= p.maxConcurrentScans
    decreases |events|
  {
    KeepsCapIff(p, s, ns);
    if events != [] {
      var t := Step(p, s, events[0]);
      StepKeepsNoJob(p, s, events[0]);
      WithinCapIff(p, s, events[0], ns);
      KeepsCapIff(p, t, ns);
      if WithinCap(p, t, ns) {
        KeepsAllAlong(p, t, events[1..], ns);
      }
    }
  }

  /** Over whole runs: each state of a run is one from which the cap is kept, if and only if no Job is counted again
      with the cap used up; and then the run itself keeps it. */
  lemma {:induction false} CapHoldsIff(p: Params, now: Time, events: seq<Event>, ns: string)
    requires p.maxConcurrentScans > 0
    ensures AlwaysKeepsCap(p, Start(now), events, ns) <==> NeverRecounts(p, Start(now), events, ns)
    ensures NeverRecounts(p, Start(now), events, ns) ==>
      |CountedJobs(Run(p, Start(now), events).jobs, ns)| <= p.maxConcurrentScans
  {
    assert CountedJobs(Start(now).jobs, ns) == {};
    KeepsAllAlong(p, Start(now), events, ns);
  }

  // ── One Job per scan job ────────────────────────────────────────────────

  ghost predicate Named(p: Params, name: string, scanner: string) {
    exists image, digest :: name == ImageToJobName(p.sha, image, scanner, digest)
  }

  /** Every scan job has a generated name for its scanner, and every batch Job sits under the name
      derived from the scan job it is labelled with. */
  ghost predicate NamesAgree(p: Params, s: State) {
    && (forall k | k in s.isjs :: Named(p, k.name, s.isjs[k].spec.scanner))
    && (s.worker.Working? ==> Named(p, s.worker.key.name, s.worker.base.spec.scanner))
    && (forall j | j in s.jobs ::
          && Named(p, s.jobs[j].ownerName, s.jobs[j].scanner)
          && j == JobKey(Key(j.ns, s.jobs[j].ownerName), s.jobs[j].scanner))
  }

  lemma CreatedNameIsGenerated(p: Params, s: State, e: Event)
    requires Creating(e) && CreatesFor(p, s, e)
    ensures Named(p, CreatedKey(p, s, e).name, CreatedSpec(s, e).scanner)
  {
    CreatingStepsCreate(p, s, e);
    if e.ManualScan? {
      ManualNameIsFallbackName(p.sha, e.image, e.scanner, e.image, e.scanner, "");
      assert CreatedKey(p, s, e).name == ImageToJobName(p.sha, e.image, e.scanner, "");
    }
  }

  lemma WorkerKeepsNames(p: Params, s: State, e: Event)
    requires NamesAgree(p, s) && WorkerLocal(e)
    ensures NamesAgree(p, Step(p, s, e))
  {
    LocalStepsKeepObjects(p, s, e);
    if e.WorkerCreateJob? {
      assert Step(p, s, e) == WorkerCreateJobStep(s, e.ok);
    } else {
      OthersLeaveJobs(p, s, e);
      WorkerKeepsItsKey(p, s, e);
    }
  }

  lemma WorkerKeepsItsKey(p: Params, s: State, e: Event)
    requires WorkerLocal(e) && !e.WorkerCreateJob?
    ensures var t := Step(p, s, e);
      t.worker.Working? ==>
        if s.worker.Working? then t.worker.key == s.worker.key && t.worker.base == s.worker.base
        else t.worker.key in s.isjs && t.worker.base == s.isjs[t.worker.key]
  {}

  lemma ObjectsKeepNames(p: Params, s: State, t: State)
    requires NamesAgree(p, s)
    requires forall k | k in t.isjs :: k in s.isjs && t.isjs[k].spec.scanner == s.isjs[k].spec.scanner
    requires forall j | j in t.jobs ::
      j in s.jobs && t.jobs[j].ownerName == s.jobs[j].ownerName && t.jobs[j].scanner == s.jobs[j].scanner
    requires t.worker.Working? ==> t.worker == s.worker
    ensures NamesAgree(p, t)
  {}

  lemma JobsKeepLabels(p: Params, s: State, e: Event)
    requires !e.WorkerCreateJob?
    ensures var t := Step(p, s, e);
      forall j | j in t.jobs ::
        && j in s.jobs && t.jobs[j].ownerName == s.jobs[j].ownerName
        && t.jobs[j].scanner == s.jobs[j].scanner && t.jobs[j].owner == s.jobs[j].owner
  {
    if !e.JobMoves? && !e.JobGone? {
      OthersLeaveJobs(p, s, e);
    }
  }

  lemma PatchEndsReconcile(p: Params, s: State, ok: bool)
    ensures var t := WorkerPatchStep(p, s, ok); t.worker.Working? ==> t.worker == s.worker
  {}

  lemma StepKeepsNames(p: Params, s: State, e: Event)
    requires NamesAgree(p, s)
    ensures NamesAgree(p, Step(p, s, e))
  {
    var t := Step(p, s, e);
    if WorkerLocal(e) {
      WorkerKeepsNames(p, s, e);
    } else {
      JobsKeepLabels(p, s, e);
      if e.WorkerPatch? {
        PatchEndsReconcile(p, s, e.ok);
      } else {
        OthersLeaveWorker(p, s, e);
      }
      if Creating(e) && CreatesFor(p, s, e) {
        CreatedNameIsGenerated(p, s, e);
      } else {
        ObjectsShrink(p, s, e);
        ObjectsKeepNames(p, s, t);
      }
    }
  }

  lemma ObjectsShrink(p: Params, s: State, e: Event)
    requires !WorkerLocal(e) && (Creating(e) ==> !CreatesFor(p, s, e))
    ensures var t := Step(p, s, e);
      forall k | k in t.isjs ::
        k in s.isjs && t.isjs[k].uid == s.isjs[k].uid && t.isjs[k].spec.scanner == s.isjs[k].spec.scanner
  {
    if Quiet(e) {
      QuietStepsDelete(p, s, e);
    } else if Creating(e) {
      CreatingStepsCreate(p, s, e);
    } else {
      RewritingStepsRewrite(p, s, e);
      var t := Step(p, s, e);
      forall k | k in t.isjs
        ensures t.isjs[k].spec.scanner == s.isjs[k].spec.scanner
      {
        assert t.isjs[k].spec.(sourceNamespace := "").scanner == s.isjs[k].spec.(sourceNamespace := "").scanner;
      }
    }
  }

  lemma {:induction false} RunKeepsNames(p: Params, s: State, events: seq<Event>)
    requires NamesAgree(p, s)
    ensures forall t | t in Along(p, s, events) :: NamesAgree(p, t)
    decreases |events|
  {
    if events != [] {
      StepKeepsNames(p, s, events[0]);
      RunKeepsNames(p, Step(p, s, events[0]), events[1..]);
    }
  }

  /** In every reachable state a scan job's name labels at most one batch Job of the namespace, however
      often the controller stopped between creating a Job and recording it. */
  lemma {:induction false} OneJobPerScanJob(p: Params, now: Time, events: seq<Event>, i: Key, j: Key)
    requires var jobs := Run(p, Start(now), events).jobs;
      i in jobs && j in jobs && i.ns == j.ns && jobs[i].ownerName == jobs[j].ownerName
    ensures i == j
  {
    RunKeepsNames(p, Start(now), events);
    EndsAlong(p, Start(now), events);
    var s := Run(p, Start(now), events);
    var a, d :| s.jobs[i].ownerName == ImageToJobName(p.sha, a, s.jobs[i].scanner, d);
    var b, e :| s.jobs[j].ownerName == ImageToJobName(p.sha, b, s.jobs[j].scanner, e);
    NamesParseUniquely(p.sha, a, s.jobs[i].scanner, d, b, s.jobs[j].scanner, e);
  }
}
