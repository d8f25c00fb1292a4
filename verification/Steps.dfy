/** What each kind of event can touch. */
module Steps {
  import opened Cluster
  import opened Naming
  import opened Protocol

  // ── Kinds of events ─────────────────────────────────────────────────────

  /** Events of the SecurityScanConfig controller that at most delete ImageScanJobs. */
  predicate QuietSsc(e: Event) {
    e.Snapshot? || e.EnsureGet? || e.EnsureDelete? || e.ResetList? || e.ResetDelete? || e.SscCrash?
  }

  /** Events that at most delete ImageScanJobs. */
  predicate Quiet(e: Event) {
    || QuietSsc(e) || e.Tick? || e.JobMoves? || e.JobGone? || e.UserDelete? || e.CleanerList? || e.CleanerDelete?
  }

  /** Events of the ImageScanJob controller that write no ImageScanJob. */
  predicate WorkerLocal(e: Event) {
    e.WorkerGet? || e.WorkerFind? || e.WorkerCount? || e.WorkerCreateJob? || e.WorkerParse? || e.WorkerCrash?
  }

  predicate Creating(e: Event) {
    e.EnsureCreate? || e.ManualScan?
  }

  predicate Rewriting(e: Event) {
    e.WorkerPatch? || e.EnsurePatch?
  }

  predicate SscEvent(e: Event) {
    QuietSsc(e) || e.EnsureCreate? || e.EnsurePatch?
  }

  predicate WorkerEvent(e: Event) {
    WorkerLocal(e) || e.WorkerPatch?
  }

  // ── What they do ────────────────────────────────────────────────────────

  ghost predicate Deletes(s: State, t: State) {
    && t.isjs.Keys <= s.isjs.Keys
    && (forall k | k in t.isjs :: t.isjs[k] == s.isjs[k])
    && s.now <= t.now && s.nextUid <= t.nextUid
    && s.verdicts == t.verdicts && s.manual == t.manual
  }

  ghost predicate Creates(s: State, t: State, key: Key, spec: Spec) {
    && key !in s.isjs
    && t.isjs == s.isjs[key := NewScanJob(s, spec)]
    && t.nextUid == s.nextUid + 1
    && s.now == t.now && s.verdicts == t.verdicts
  }

  /** The same objects, with another source namespace or status. */
  ghost predicate Rewrites(s: State, t: State) {
    && t.isjs.Keys == s.isjs.Keys
    && (forall k | k in t.isjs ::
          && t.isjs[k].uid == s.isjs[k].uid
          && t.isjs[k].created == s.isjs[k].created
          && t.isjs[k].spec.(sourceNamespace := "") == s.isjs[k].spec.(sourceNamespace := ""))
    && s.now == t.now && s.nextUid == t.nextUid && s.manual == t.manual
  }

  lemma DeleteStepDeletes(p: Params, s: State, ok: bool)
    ensures Deletes(s, EnsureDeleteStep(p, s, ok))
  {}

  lemma ResetStepDeletes(s: State, ok: bool)
    ensures Deletes(s, ResetDeleteStep(s, ok))
  {}

  lemma QuietSscStepsDelete(p: Params, s: State, e: Event)
    requires QuietSsc(e)
    ensures Deletes(s, Step(p, s, e))
  {
    if e.EnsureDelete? {
      DeleteStepDeletes(p, s, e.ok);
    } else if e.ResetDelete? {
      ResetStepDeletes(s, e.ok);
    }
  }

  lemma QuietStepsDelete(p: Params, s: State, e: Event)
    requires Quiet(e)
    ensures Deletes(s, Step(p, s, e))
  {
    if QuietSsc(e) {
      QuietSscStepsDelete(p, s, e);
    }
  }

  /** The key that a creating event would create. */
  function CreatedKey(p: Params, s: State, e: Event): Key
    requires Creating(e)
  {
    match e
    case ManualScan(ns, image, scanner) => Key(ns, ManualScanJobName(p.sha, image, scanner))
    case EnsureCreate(_) =>
      if s.ssc.Ensuring? && s.ssc.batch.work != [] then Key(s.ssc.batch.ns, WorkName(p, s.ssc.batch.work[0]))
      else Key("", "")
  }

  /** The spec that a creating event would create. */
  function CreatedSpec(s: State, e: Event): Spec
    requires Creating(e)
  {
    match e
    case ManualScan(ns, image, scanner) => Spec(image, "", scanner, ByHand, "manual", "")
    case EnsureCreate(_) =>
      if s.ssc.Ensuring? && s.ssc.batch.work != [] then
        var w := s.ssc.batch.work[0];
        Spec(w.image, w.digest, w.scanner, Kubernetes, s.ssc.batch.config, w.sourceNamespace)
      else Spec("", "", "", Kubernetes, "", "")
  }

  ghost predicate CreatesFor(p: Params, s: State, e: Event)
    requires Creating(e)
  {
    Creates(s, Step(p, s, e), CreatedKey(p, s, e), CreatedSpec(s, e))
  }

  lemma CreatingStepsCreate(p: Params, s: State, e: Event)
    requires Creating(e)
    ensures var t := Step(p, s, e);
      if CreatesFor(p, s, e) then
        if e.ManualScan?
        then t.manual == s.manual + multiset{e.ns}
        else
          && t.manual == s.manual
          && s.ssc.Ensuring? && s.ssc.stage.AtCreate? && s.ssc.batch.work != []
          && t.ssc == NextCall(s.ssc.batch, true)
      else
        && t.isjs == s.isjs && Deletes(s, t)
        && (t.ssc == s.ssc || (s.ssc.Ensuring? && s.ssc.batch.work != [] && t.ssc == NextCall(s.ssc.batch, false)))
  {}

  lemma BackfillRewrites(p: Params, s: State, ok: bool)
    ensures Rewrites(s, EnsurePatchStep(p, s, ok))
  {}

  lemma StatusPatchRewrites(p: Params, s: State, ok: bool)
    ensures Rewrites(s, WorkerPatchStep(p, s, ok))
  {}

  lemma RewritingStepsRewrite(p: Params, s: State, e: Event)
    requires Rewriting(e)
    ensures Rewrites(s, Step(p, s, e))
  {
    if e.EnsurePatch? {
      BackfillRewrites(p, s, e.ok);
    } else {
      StatusPatchRewrites(p, s, e.ok);
    }
  }

  lemma CreateJobKeepsObjects(p: Params, s: State, ok: bool)
    ensures var t := WorkerCreateJobStep(s, ok);
      t.isjs == s.isjs && Deletes(s, t) && t.ssc == s.ssc && t.cleaner == s.cleaner
  {}

  lemma LocalStepsKeepObjects(p: Params, s: State, e: Event)
    requires WorkerLocal(e)
    ensures var t := Step(p, s, e);
      t.isjs == s.isjs && Deletes(s, t) && t.ssc == s.ssc && t.cleaner == s.cleaner
  {
    if e.WorkerCreateJob? {
      CreateJobKeepsObjects(p, s, e.ok);
    }
  }

  lemma OnlyManualScansCount(p: Params, s: State, e: Event)
    requires !e.ManualScan?
    ensures Step(p, s, e).manual == s.manual
  {
    if Quiet(e) {
      QuietStepsDelete(p, s, e);
    } else if Creating(e) {
      CreatingStepsCreate(p, s, e);
    } else if WorkerLocal(e) {
      LocalStepsKeepObjects(p, s, e);
    } else {
      RewritingStepsRewrite(p, s, e);
    }
  }

  lemma ManualOnlyGrows(p: Params, s: State, e: Event, ns: string)
    ensures s.manual[ns] <= Step(p, s, e).manual[ns]
  {
    if e.ManualScan? {
      CreatingStepsCreate(p, s, e);
    } else {
      OnlyManualScansCount(p, s, e);
    }
  }

  // ── What they leave alone ───────────────────────────────────────────────

  lemma WorkerLeavesSsc(p: Params, s: State, e: Event)
    requires WorkerEvent(e)
    ensures Step(p, s, e).ssc == s.ssc && Step(p, s, e).retried == s.retried
  {
    if e.WorkerPatch? {
      assert Step(p, s, e) == WorkerPatchStep(p, s, e.ok);
    } else if e.WorkerCreateJob? {
      assert Step(p, s, e) == WorkerCreateJobStep(s, e.ok);
    }
  }

  lemma OthersLeaveSsc(p: Params, s: State, e: Event)
    requires !SscEvent(e)
    ensures Step(p, s, e).ssc == s.ssc && Step(p, s, e).retried == s.retried
  {
    if WorkerEvent(e) {
      WorkerLeavesSsc(p, s, e);
    }
  }

  lemma OthersLeaveWorker(p: Params, s: State, e: Event)
    requires !WorkerEvent(e)
    ensures Step(p, s, e).worker == s.worker
  {}

  lemma QuietSscLeavesJobs(p: Params, s: State, e: Event)
    requires QuietSsc(e)
    ensures Step(p, s, e).jobs == s.jobs && Step(p, s, e).recounted == s.recounted
  {
    if e.EnsureDelete? {
      assert Step(p, s, e) == EnsureDeleteStep(p, s, e.ok);
    } else if e.ResetDelete? {
      assert Step(p, s, e) == ResetDeleteStep(s, e.ok);
    }
  }

  lemma SscLeavesJobs(p: Params, s: State, e: Event)
    requires SscEvent(e)
    ensures Step(p, s, e).jobs == s.jobs && Step(p, s, e).recounted == s.recounted
  {
    if QuietSsc(e) {
      QuietSscLeavesJobs(p, s, e);
    }
  }

  lemma OthersLeaveJobs(p: Params, s: State, e: Event)
    requires !e.WorkerCreateJob? && !e.JobMoves? && !e.JobGone?
    ensures Step(p, s, e).jobs == s.jobs && Step(p, s, e).recounted == s.recounted
  {
    if SscEvent(e) {
      SscLeavesJobs(p, s, e);
    }
  }

  /** The SecurityScanConfig controller keeps its batch, goes on to the next call, or gives it up. */
  predicate Advances(before: SscState, after: SscState) {
    after.Ensuring? ==>
      && before.Ensuring?
      && (|| after.batch == before.batch
          || (before.batch.work != []
              && (after == NextCall(before.batch, true) || after == NextCall(before.batch, false))))
  }

  lemma EnsureGetAdvances(p: Params, s: State, ok: bool)
    ensures Advances(s.ssc, AfterEnsureGet(p, s, ok))
  {}

  lemma SscAdvances(p: Params, s: State, e: Event)
    requires !e.Snapshot?
    ensures Advances(s.ssc, Step(p, s, e).ssc)
  {
    if e.EnsureGet? {
      EnsureGetAdvances(p, s, e.ok);
      assert Step(p, s, e).ssc == AfterEnsureGet(p, s, e.ok);
    } else if !SscEvent(e) {
      OthersLeaveSsc(p, s, e);
    }
  }

  // ── Incarnations ────────────────────────────────────────────────────────

  ghost predicate Holds(s: State, k: Key, uid: nat) {
    k in s.isjs && s.isjs[k].uid == uid
  }

  lemma StepForgetsUid(p: Params, s: State, e: Event, k: Key, uid: nat)
    requires uid < s.nextUid
    ensures uid < Step(p, s, e).nextUid
    ensures Holds(Step(p, s, e), k, uid) ==> Holds(s, k, uid)
  {
    if Quiet(e) {
      QuietStepsDelete(p, s, e);
    } else if Creating(e) {
      CreatingStepsCreate(p, s, e);
    } else if WorkerLocal(e) {
      LocalStepsKeepObjects(p, s, e);
    } else {
      RewritingStepsRewrite(p, s, e);
    }
  }

  /** An incarnation that is gone from its name never comes back to it. */
  lemma {:induction false} UidNeverReturns(p: Params, s: State, events: seq<Event>, k: Key, uid: nat)
    requires uid < s.nextUid && !Holds(s, k, uid)
    ensures !Holds(Run(p, s, events), k, uid)
    decreases |events|
  {
    if events != [] {
      StepForgetsUid(p, s, events[0], k, uid);
      UidNeverReturns(p, Step(p, s, events[0]), events[1..], k, uid);
    }
  }

  /** The states of a run, from the first to the last. */
  function Along(p: Params, s: State, events: seq<Event>): seq<State>
    decreases |events|
  {
    [s] + if events == [] then [] else Along(p, Step(p, s, events[0]), events[1..])
  }

  lemma {:induction false} EndsAlong(p: Params, s: State, events: seq<Event>)
    ensures Run(p, s, events) in Along(p, s, events)
    decreases |events|
  {
    if events != [] {
      EndsAlong(p, Step(p, s, events[0]), events[1..]);
    }
  }

  lemma {:induction false} RunAppend(p: Params, s: State, first: seq<Event>, second: seq<Event>)
    ensures Run(p, s, first + second) == Run(p, Run(p, s, first), second)
    decreases |first|
  {
    if first == [] {
      assert first + second == second;
    } else {
      assert (first + second)[1..] == first[1..] + second;
      RunAppend(p, Step(p, s, first[0]), first[1..], second);
    }
  }

  lemma RunThen(p: Params, s: State, events: seq<Event>, e: Event)
    ensures Run(p, s, events + [e]) == Step(p, Run(p, s, events), e)
  {
    RunAppend(p, s, events, [e]);
    assert [e][1..] == [];
  }

  lemma RunOne(p: Params, s: State, a: Event)
    ensures Run(p, s, [a]) == Step(p, s, a)
  {
    assert [a][1..] == [];
  }

  lemma {:induction false} RunTwo(p: Params, s: State, a: Event, rest: seq<Event>)
    ensures Run(p, s, [a] + rest) == Run(p, Step(p, s, a), rest)
  {
    assert ([a] + rest)[1..] == rest;
  }

  lemma TwoSteps(p: Params, s: State, a: Event, b: Event)
    ensures Run(p, s, [a, b]) == Step(p, Step(p, s, a), b)
  {
    RunTwo(p, s, a, [b]);
    RunOne(p, Step(p, s, a), b);
    assert [a] + [b] == [a, b];
  }

  lemma ThreeSteps(p: Params, s: State, a: Event, b: Event, c: Event)
    ensures Run(p, s, [a, b, c]) == Step(p, Step(p, Step(p, s, a), b), c)
  {
    RunTwo(p, s, a, [b, c]);
    TwoSteps(p, Step(p, s, a), b, c);
    assert [a] + [b, c] == [a, b, c];
  }

  lemma FourSteps(p: Params, s: State, a: Event, b: Event, c: Event, d: Event)
    ensures Run(p, s, [a, b, c, d]) == Step(p, Step(p, Step(p, Step(p, s, a), b), c), d)
  {
    RunTwo(p, s, a, [b, c, d]);
    ThreeSteps(p, Step(p, s, a), b, c, d);
    assert [a] + [b, c, d] == [a, b, c, d];
  }
}
