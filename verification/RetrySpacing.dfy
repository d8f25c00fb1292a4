/** The two-hour retry interval in the variant of the source whose markFailed sets completionTime. */
module RetrySpacing {
  import opened Cluster
  import opened Protocol
  import opened Steps
  import opened Lifecycle

  predicate SpacedOut(times: seq<Time>) {
    forall i | 0 < i < |times| :: times[i] - times[i - 1] >= FAILED_RETRY_INTERVAL
  }

  /** Every completion time under the name, stored or about to be written, is at or after its last retry. */
  predicate RetryOk(s: State, k: Key) {
    k in s.retried ==>
      var times := s.retried[k];
      && times != [] && SpacedOut(times)
      && times[|times| - 1] <= s.now
      && (k in s.isjs ==> NotAfter(Some(times[|times| - 1]), s.isjs[k].status.completionTime))
      && (s.worker.Working? && s.worker.key == k && s.worker.stage.ToPatch? ==> times[|times| - 1] <= s.worker.stage.at)
  }

  /** What the controller is about to delete for a retry failed at least two hours ago. */
  predicate DeleteOk(p: Params, s: State, ns: string) {
    s.ssc.Ensuring? && s.ssc.stage.AtDelete? && s.ssc.batch.ns == ns && s.ssc.batch.work != [] ==>
      var k := Key(ns, WorkName(p, s.ssc.batch.work[0]));
      k in s.isjs ==>
        var status := s.isjs[k].status;
        status.phase.Failed? && status.completionTime.Some? && !WithinRetryInterval(s.now, status)
  }

  ghost predicate Spaced(p: Params, s: State, ns: string) {
    s.manual[ns] == 0 ==> DeleteOk(p, s, ns) && forall k: Key | k.ns == ns :: RetryOk(s, k)
  }

  /** Steps that leave statuses, retries and the worker's pending write as they are. */
  lemma FrameKeepsRetryOk(s: State, t: State, k: Key)
    requires RetryOk(s, k) && s.now <= t.now && t.retried == s.retried
    requires k in t.isjs ==>
      t.isjs[k].status.completionTime.None? || (k in s.isjs && t.isjs[k].status == s.isjs[k].status)
    requires t.worker.Working? && t.worker.stage.ToPatch? ==> t.worker == s.worker || t.worker.stage.at == s.now
    ensures RetryOk(t, k)
  {}

  lemma FrameKeepsDeleteOk(p: Params, s: State, t: State, ns: string)
    requires DeleteOk(p, s, ns) && s.now <= t.now && t.ssc == s.ssc
    requires forall k | k in t.isjs && k.ns == ns ::
      k in s.isjs && (s.isjs[k].status.phase.Failed? ==> t.isjs[k].status == s.isjs[k].status)
    ensures DeleteOk(p, t, ns)
  {}

  lemma KeepsDeleteOnGet(p: Params, s: State, ok: bool, ns: string)
    requires p.stampFailures && Inv(p, s) && DeleteOk(p, s, ns)
    ensures DeleteOk(p, Step(p, s, EnsureGet(ok)), ns)
  {
    assert Step(p, s, EnsureGet(ok)) == s.(ssc := AfterEnsureGet(p, s, ok));
  }

  /** Only the get moves the controller to a delete; other events find it there and wait, or move it on. */
  lemma DeleteStageWaits(p: Params, s: State, e: Event)
    requires e.ResetList? || e.ResetDelete? || e.SscCrash? || e.Snapshot?
    ensures var t := Step(p, s, e);
      t.ssc.Ensuring? && t.ssc.stage.AtDelete? ==> t == s
  {
    if e.Snapshot? {
      assert Step(p, s, e) == s.(ssc := AfterSnapshot(p, s, e));
    }
  }

  lemma CallLeavesDelete(p: Params, s: State, e: Event)
    requires e.EnsureDelete? || e.EnsurePatch? || e.EnsureCreate?
    ensures var t := Step(p, s, e);
      t.ssc.Ensuring? && t.ssc.stage.AtDelete? ==> t == s
  {
    match e
    case EnsureDelete(ok) => assert Step(p, s, e) == EnsureDeleteStep(p, s, ok);
    case EnsurePatch(ok) => assert Step(p, s, e) == EnsurePatchStep(p, s, ok);
    case EnsureCreate(ok) => assert Step(p, s, e) == EnsureCreateStep(p, s, ok);
  }

  lemma SscKeepsDeleteOk(p: Params, s: State, e: Event, ns: string)
    requires p.stampFailures && Inv(p, s) && DeleteOk(p, s, ns) && SscEvent(e)
    ensures DeleteOk(p, Step(p, s, e), ns)
  {
    if e.EnsureGet? {
      KeepsDeleteOnGet(p, s, e.ok, ns);
    } else if e.EnsureDelete? || e.EnsurePatch? || e.EnsureCreate? {
      CallLeavesDelete(p, s, e);
    } else {
      DeleteStageWaits(p, s, e);
    }
  }

  lemma RetryIsSpaced(p: Params, s: State, ok: bool, k: Key)
    requires Inv(p, s) && RetryOk(s, k) && DeleteOk(p, s, k.ns)
    ensures RetryOk(EnsureDeleteStep(p, s, ok), k)
  {
    var t := EnsureDeleteStep(p, s, ok);
    if t.retried != s.retried && k == Key(s.ssc.batch.ns, WorkName(p, s.ssc.batch.work[0])) {
      var times := Retries(s, k);
      assert t.retried[k] == times + [s.now];
      assert SpacedOut(times + [s.now]);
    }
  }

  lemma BackfillKeepsRetryOk(p: Params, s: State, ok: bool, k: Key)
    requires RetryOk(s, k)
    ensures RetryOk(EnsurePatchStep(p, s, ok), k)
  {}

  lemma SscKeepsRetryOk(p: Params, s: State, e: Event, k: Key)
    requires Inv(p, s) && RetryOk(s, k) && DeleteOk(p, s, k.ns) && SscEvent(e)
    ensures RetryOk(Step(p, s, e), k)
  {
    if e.EnsureDelete? {
      RetryIsSpaced(p, s, e.ok, k);
    } else if e.EnsurePatch? {
      BackfillKeepsRetryOk(p, s, e.ok, k);
    } else {
      OthersLeaveWorker(p, s, e);
      SscRetriesOnlyOnDelete(p, s, e);
      if QuietSsc(e) {
        QuietSscStepsDelete(p, s, e);
      } else {
        CreatingStepsCreate(p, s, e);
      }
      FrameKeepsRetryOk(s, Step(p, s, e), k);
    }
  }

  lemma SscRetriesOnlyOnDelete(p: Params, s: State, e: Event)
    requires SscEvent(e) && !e.EnsureDelete?
    ensures Step(p, s, e).retried == s.retried
  {
    if e.ResetDelete? {
      assert Step(p, s, e) == ResetDeleteStep(s, e.ok);
    } else if e.EnsurePatch? {
      assert Step(p, s, e) == EnsurePatchStep(p, s, e.ok);
    } else if e.EnsureCreate? {
      assert Step(p, s, e) == EnsureCreateStep(p, s, e.ok);
    }
  }

  lemma WorkerStampsNow(p: Params, s: State, e: Event)
    requires WorkerLocal(e)
    ensures var t := Step(p, s, e);
      t.worker.Working? && t.worker.stage.ToPatch? ==> t.worker == s.worker || t.worker.stage.at == s.now
  {
    if e.WorkerFind? {
      assert Step(p, s, e).worker == AfterWorkerFind(p, s, e.ok);
    }
  }

  lemma PatchKeepsRetryOk(p: Params, s: State, ok: bool, k: Key)
    requires Inv(p, s) && RetryOk(s, k)
    ensures RetryOk(WorkerPatchStep(p, s, ok), k)
  {}

  lemma OtherStepKeepsRetryOk(p: Params, s: State, e: Event, k: Key)
    requires Inv(p, s) && RetryOk(s, k) && !SscEvent(e)
    ensures RetryOk(Step(p, s, e), k)
  {
    var t := Step(p, s, e);
    if e.WorkerPatch? {
      PatchKeepsRetryOk(p, s, e.ok, k);
    } else {
      OthersLeaveSsc(p, s, e);
      if WorkerLocal(e) {
        LocalStepsKeepObjects(p, s, e);
        WorkerStampsNow(p, s, e);
      } else {
        OthersLeaveWorker(p, s, e);
        if Creating(e) {
          CreatingStepsCreate(p, s, e);
        } else {
          QuietStepsDelete(p, s, e);
        }
      }
      FrameKeepsRetryOk(s, t, k);
    }
  }

  lemma OtherStepKeepsDeleteOk(p: Params, s: State, e: Event, ns: string)
    requires Inv(p, s) && DeleteOk(p, s, ns) && !SscEvent(e)
    requires Step(p, s, e).manual[ns] == s.manual[ns]
    ensures DeleteOk(p, Step(p, s, e), ns)
  {
    OthersLeaveSsc(p, s, e);
    if Quiet(e) {
      QuietStepsDelete(p, s, e);
    } else if Creating(e) {
      CreatingStepsCreate(p, s, e);
    } else if WorkerLocal(e) {
      LocalStepsKeepObjects(p, s, e);
    } else {
      RewritingStepsRewrite(p, s, e);
      RewritesOnlyOpen(p, s, e);
    }
    FrameKeepsDeleteOk(p, s, Step(p, s, e), ns);
  }

  lemma StepKeepsSpaced(p: Params, s: State, e: Event, ns: string)
    requires p.stampFailures && Inv(p, s) && Spaced(p, s, ns)
    ensures Spaced(p, Step(p, s, e), ns)
  {
    var t := Step(p, s, e);
    ManualOnlyGrows(p, s, e, ns);
    if t.manual[ns] == 0 {
      if SscEvent(e) {
        SscKeepsDeleteOk(p, s, e, ns);
      } else {
        OtherStepKeepsDeleteOk(p, s, e, ns);
      }
      forall k: Key | k.ns == ns
        ensures RetryOk(t, k)
      {
        if SscEvent(e) {
          SscKeepsRetryOk(p, s, e, k);
        } else {
          OtherStepKeepsRetryOk(p, s, e, k);
        }
      }
    }
  }

  lemma {:induction false} RunKeepsSpaced(p: Params, s: State, events: seq<Event>, ns: string)
    requires p.stampFailures && Inv(p, s) && Spaced(p, s, ns)
    ensures forall t | t in Along(p, s, events) :: Spaced(p, t, ns)
    decreases |events|
  {
    if events != [] {
      StepKeepsInv(p, s, events[0]);
      StepKeepsSpaced(p, s, events[0], ns);
      RunKeepsSpaced(p, Step(p, s, events[0]), events[1..], ns);
    }
  }

  /** Were failures stamped with a completion time, retries of one name would be two hours apart in every
      run without manual scans in the namespace. */
  lemma {:induction false} StampedRetriesAreSpaced(p: Params, now: Time, events: seq<Event>, k: Key)
    requires p.stampFailures
    requires var s := Run(p, Start(now), events); s.manual[k.ns] == 0 && k in s.retried
    ensures SpacedOut(Run(p, Start(now), events).retried[k])
  {
    StartKeepsInv(p, now);
    RunKeepsSpaced(p, Start(now), events, k.ns);
    EndsAlong(p, Start(now), events);
    assert RetryOk(Run(p, Start(now), events), k);
  }
}
