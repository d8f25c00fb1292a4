/** The scan limit over whole runs. */
module ScanLimit {
  import opened Cluster
  import opened Protocol
  import opened Steps
  import opened Lifecycle

  // ── The invariant ───────────────────────────────────────────────────────

  /** Creations that the running batch may still make in `ns`. */
  function Reserved(ssc: SscState, ns: string): int {
    if ssc.Ensuring? && ssc.batch.ns == ns then ssc.batch.capacity - ssc.batch.created else 0
  }

  predicate BatchOk(ssc: SscState) {
    ssc.Ensuring? ==>
      && ssc.batch.created <= ssc.batch.capacity
      && (!ssc.stage.AtGet? ==> ssc.batch.work != [] && ssc.batch.created < ssc.batch.capacity)
  }

  /** Either the scheduled jobs alone, or all of them against the manual creations. */
  datatype Scope = Scheduled | All

  function Scoped(isjs: ScanJobs, ns: string, scope: Scope): set<Key> {
    if scope.Scheduled? then OpenFrom(isjs, ns, Kubernetes) else Open(isjs, ns)
  }

  function Slack(s: State, ns: string, scope: Scope): nat {
    if scope.Scheduled? then 0 else s.manual[ns]
  }

  /** The open jobs in scope and the reserved creations stay within `bound` and the manual creations. */
  ghost predicate Bounded(s: State, ns: string, scope: Scope, bound: int) {
    BatchOk(s.ssc) && |Scoped(s.isjs, ns, scope)| + Reserved(s.ssc, ns) <= bound + Slack(s, ns, scope)
  }

  // ── Steps ───────────────────────────────────────────────────────────────

  lemma ScopeIsPart(isjs: ScanJobs, ns: string, scope: Scope)
    ensures |Scoped(isjs, ns, scope)| <= |Open(isjs, ns)|
  {
    SubsetSize(Scoped(isjs, ns, scope), Open(isjs, ns));
  }

  lemma DeletionOpensNothing(s: State, t: State, ns: string, scope: Scope)
    requires Deletes(s, t)
    ensures |Scoped(t.isjs, ns, scope)| <= |Scoped(s.isjs, ns, scope)|
  {
    SubsetSize(Scoped(t.isjs, ns, scope), Scoped(s.isjs, ns, scope));
  }

  lemma CreationOpensOne(s: State, t: State, key: Key, spec: Spec, ns: string, scope: Scope)
    requires Creates(s, t, key, spec)
    ensures |Scoped(t.isjs, ns, scope)| <= |Scoped(s.isjs, ns, scope)|
      + if key.ns == ns && (scope.Scheduled? ==> spec.source == Kubernetes) then 1 else 0
  {
    if key.ns == ns && (scope.Scheduled? ==> spec.source == Kubernetes) {
      GrowsByAtMostOne(Scoped(s.isjs, ns, scope), Scoped(t.isjs, ns, scope), key);
    } else {
      SubsetSize(Scoped(t.isjs, ns, scope), Scoped(s.isjs, ns, scope));
    }
  }

  lemma SameSource(s: State, t: State, k: Key)
    requires Rewrites(s, t) && k in t.isjs
    ensures t.isjs[k].spec.source == s.isjs[k].spec.source
  {
    assert t.isjs[k].spec.(sourceNamespace := "").source == s.isjs[k].spec.(sourceNamespace := "").source;
  }

  /** Status writes and backfills open nothing: a patch only ever lands on a job that was open. */
  lemma WritesOpenNothing(p: Params, s: State, e: Event, ns: string, scope: Scope)
    requires Inv(p, s) && Rewriting(e)
    ensures |Scoped(Step(p, s, e).isjs, ns, scope)| <= |Scoped(s.isjs, ns, scope)|
  {
    RewritingStepsRewrite(p, s, e);
    RewritesOnlyOpen(p, s, e);
    OnlyOpenStaysOpen(s, Step(p, s, e), ns, scope);
  }

  lemma OnlyOpenStaysOpen(s: State, t: State, ns: string, scope: Scope)
    requires Rewrites(s, t) && KeepsTerminal(s.isjs, t.isjs)
    ensures |Scoped(t.isjs, ns, scope)| <= |Scoped(s.isjs, ns, scope)|
  {
    forall k | k in Scoped(t.isjs, ns, scope)
      ensures k in Scoped(s.isjs, ns, scope)
    {
      SameSource(s, t, k);
    }
    SubsetSize(Scoped(t.isjs, ns, scope), Scoped(s.isjs, ns, scope));
  }

  lemma GetReservesNothing(p: Params, s: State, ok: bool, ns: string)
    requires BatchOk(s.ssc)
    ensures BatchOk(AfterEnsureGet(p, s, ok)) && Reserved(AfterEnsureGet(p, s, ok), ns) <= Reserved(s.ssc, ns)
  {}

  /** Every move of the SecurityScanConfig controller but a snapshot or a creation keeps its reservation or
      gives up part of it. */
  lemma {:induction false} SscMovesReserveNothing(p: Params, s: State, e: Event, ns: string)
    requires BatchOk(s.ssc) && SscEvent(e) && !e.EnsureCreate? && !e.Snapshot?
    ensures BatchOk(Step(p, s, e).ssc) && Reserved(Step(p, s, e).ssc, ns) <= Reserved(s.ssc, ns)
  {
    if e.EnsureGet? {
      GetReservesNothing(p, s, e.ok, ns);
      assert Step(p, s, e).ssc == AfterEnsureGet(p, s, e.ok);
    }
  }

  lemma SnapshotReservesFreeSlots(p: Params, s: State, e: Event, ns: string)
    requires BatchOk(s.ssc) && e.Snapshot?
    ensures var t := Step(p, s, e);
      && BatchOk(t.ssc) && t.isjs == s.isjs && t.manual == s.manual
      && (Reserved(t.ssc, ns) == Reserved(s.ssc, ns)
          || |Open(s.isjs, ns)| + Reserved(t.ssc, ns) <= EffectiveMaxConcurrentScans(p))
  {
    var t := Step(p, s, e);
    assert t == s.(ssc := AfterSnapshot(p, s, e));
  }

  lemma CreationKeepsBound(p: Params, s: State, e: Event, ns: string, scope: Scope, bound: int)
    requires Bounded(s, ns, scope, bound) && Creating(e)
    ensures Bounded(Step(p, s, e), ns, scope, bound)
  {
    CreatingStepsCreate(p, s, e);
    if CreatesFor(p, s, e) {
      CreationOpensOne(s, Step(p, s, e), CreatedKey(p, s, e), CreatedSpec(s, e), ns, scope);
      if e.ManualScan? {
        OthersLeaveSsc(p, s, e);
      }
    }
  }

  lemma SnapshotKeepsBound(p: Params, s: State, e: Event, ns: string, scope: Scope, bound: int)
    requires Bounded(s, ns, scope, bound) && e.Snapshot?
    requires EffectiveMaxConcurrentScans(p) <= bound + Slack(s, ns, scope)
    ensures Bounded(Step(p, s, e), ns, scope, bound)
  {
    SnapshotReservesFreeSlots(p, s, e, ns);
    ScopeIsPart(s.isjs, ns, scope);
  }

  lemma StepKeepsBound(p: Params, s: State, e: Event, ns: string, scope: Scope, bound: int)
    requires Inv(p, s) && Bounded(s, ns, scope, bound)
    requires EffectiveMaxConcurrentScans(p) <= bound + Slack(s, ns, scope)
    ensures Bounded(Step(p, s, e), ns, scope, bound)
  {
    if e.Snapshot? {
      SnapshotKeepsBound(p, s, e, ns, scope, bound);
    } else if Creating(e) {
      CreationKeepsBound(p, s, e, ns, scope, bound);
    } else {
      if SscEvent(e) {
        SscMovesReserveNothing(p, s, e, ns);
      } else {
        OthersLeaveSsc(p, s, e);
      }
      OtherStepsOpenNothing(p, s, e, ns, scope);
    }
  }

  lemma OtherStepsOpenNothing(p: Params, s: State, e: Event, ns: string, scope: Scope)
    requires Inv(p, s) && !Creating(e)
    ensures |Scoped(Step(p, s, e).isjs, ns, scope)| <= |Scoped(s.isjs, ns, scope)|
    ensures Step(p, s, e).manual == s.manual
  {
    if Quiet(e) {
      QuietStepsDelete(p, s, e);
      DeletionOpensNothing(s, Step(p, s, e), ns, scope);
    } else if WorkerLocal(e) {
      LocalStepsKeepObjects(p, s, e);
    } else {
      RewritingStepsRewrite(p, s, e);
      WritesOpenNothing(p, s, e, ns, scope);
    }
  }

  lemma {:induction false} RunKeepsBound(p: Params, s: State, events: seq<Event>, ns: string, scope: Scope, bound: int)
    requires Inv(p, s) && Bounded(s, ns, scope, bound)
    requires EffectiveMaxConcurrentScans(p) <= bound + Slack(s, ns, scope)
    ensures forall t | t in Along(p, s, events) :: Bounded(t, ns, scope, bound)
    decreases |events|
  {
    if events != [] {
      StepKeepsInv(p, s, events[0]);
      StepKeepsBound(p, s, events[0], ns, scope, bound);
      ManualOnlyGrows(p, s, events[0], ns);
      RunKeepsBound(p, Step(p, s, events[0]), events[1..], ns, scope, bound);
    }
  }

  // ── Theorems ────────────────────────────────────────────────────────────

  lemma SplitOpen(isjs: ScanJobs, ns: string)
    ensures |Open(isjs, ns)| == |OpenFrom(isjs, ns, Kubernetes)| + |OpenFrom(isjs, ns, ByHand)|
  {
    assert Open(isjs, ns) == OpenFrom(isjs, ns, Kubernetes) + OpenFrom(isjs, ns, ByHand);
    assert OpenFrom(isjs, ns, Kubernetes) !! OpenFrom(isjs, ns, ByHand);
  }

  /** The jobs that configs schedule keep within the limit in every run, whatever is started by hand. */
  lemma {:induction false} ScheduledJobsKeepLimit(p: Params, now: Time, events: seq<Event>, ns: string)
    ensures |OpenFrom(Run(p, Start(now), events).isjs, ns, Kubernetes)| <= EffectiveMaxConcurrentScans(p)
  {
    StartKeepsInv(p, now);
    assert Scoped(Start(now).isjs, ns, Scheduled) == {};
    RunKeepsBound(p, Start(now), events, ns, Scheduled, EffectiveMaxConcurrentScans(p));
    EndsAlong(p, Start(now), events);
  }

  /** So in every reachable state a namespace exceeds the limit by no more than the manual jobs now open. */
  lemma {:induction false} ScanLimitHolds(p: Params, now: Time, events: seq<Event>, ns: string)
    ensures var isjs := Run(p, Start(now), events).isjs;
      |Open(isjs, ns)| <= EffectiveMaxConcurrentScans(p) + |OpenFrom(isjs, ns, ByHand)|
  {
    ScheduledJobsKeepLimit(p, now, events, ns);
    SplitOpen(Run(p, Start(now), events).isjs, ns);
  }

  function Max(a: int, b: int): int {
    if a <= b then b else a
  }

  /** A restart, with a new limit, under which jobs are already open: the scheduled ones stay within the limit
      or within what the restart found, and all of them within that and the manual scans made since. */
  lemma {:induction false} ScanLimitAfterRestart(p: Params, s: State, events: seq<Event>, ns: string)
    requires Inv(p, s) && s.ssc.SscIdle?
    ensures var t, limit := Run(p, s, events), EffectiveMaxConcurrentScans(p);
      && |OpenFrom(t.isjs, ns, Kubernetes)| <= Max(limit, |OpenFrom(s.isjs, ns, Kubernetes)|)
      && |Open(t.isjs, ns)| <= Max(limit, |Open(s.isjs, ns)|) + t.manual[ns] - s.manual[ns]
  {
    var limit := EffectiveMaxConcurrentScans(p);
    RunKeepsBound(p, s, events, ns, Scheduled, Max(limit, |OpenFrom(s.isjs, ns, Kubernetes)|));
    RunKeepsBound(p, s, events, ns, All, Max(limit, |Open(s.isjs, ns)|) - s.manual[ns]);
    EndsAlong(p, s, events);
  }

  lemma {:induction false} RunKeepsBatchOk(p: Params, s: State, events: seq<Event>)
    requires Inv(p, s) && BatchOk(s.ssc)
    ensures forall t | t in Along(p, s, events) :: BatchOk(t.ssc)
    decreases |events|
  {
    if events != [] {
      StepKeepsInv(p, s, events[0]);
      BatchStaysOk(p, s, events[0], "");
      RunKeepsBatchOk(p, Step(p, s, events[0]), events[1..]);
    }
  }

  lemma BatchStaysOk(p: Params, s: State, e: Event, ns: string)
    requires Inv(p, s) && BatchOk(s.ssc)
    ensures BatchOk(Step(p, s, e).ssc)
  {
    var bound := Max(EffectiveMaxConcurrentScans(p), |Scoped(s.isjs, ns, Scheduled)| + Reserved(s.ssc, ns));
    StepKeepsBound(p, s, e, ns, Scheduled, bound);
  }
}
