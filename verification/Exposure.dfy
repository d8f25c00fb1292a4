/** How far beyond the scan limit a namespace can still get, and which manual scans take it there. */
module Exposure {
  import opened Cluster
  import opened Naming
  import opened Protocol
  import opened Steps
  import opened Lifecycle
  import opened Ensure
  import opened ScanLimit

  // ── What the running batch can still add ────────────────────────────────

  /** The names that no key of the set has. */
  function Unheld(names: set<string>, keys: set<Key>, ns: string): set<string> {
    set name | name in names && Key(ns, name) !in keys
  }

  /** The current call can create nothing any more: it is at its backfill, or at a delete that finds nothing. */
  predicate HeadIsOut(p: Params, s: State) {
    && s.ssc.Ensuring? && s.ssc.batch.work != []
    && (|| s.ssc.stage.AtPatch?
        || (s.ssc.stage.AtDelete? && Key(s.ssc.batch.ns, WorkName(p, s.ssc.batch.work[0])) !in s.isjs))
  }

  /** The calls that may still create a job. */
  function CallsLeft(p: Params, s: State): seq<Work>
    requires s.ssc.Ensuring?
  {
    if HeadIsOut(p, s) then s.ssc.batch.work[1..] else s.ssc.batch.work
  }

  function BatchNames(p: Params, s: State, ns: string): set<string> {
    if s.ssc.Ensuring? && s.ssc.batch.ns == ns then Names(p, CallsLeft(p, s)) else {}
  }

  /** Those of their names that no open job holds. */
  function NewNames(p: Params, s: State, ns: string): set<string> {
    Unheld(BatchNames(p, s, ns), Open(s.isjs, ns), ns)
  }

  function Min(a: int, b: int): int {
    if a <= b then a else b
  }

  /** The open jobs and those that the batch can still add: it needs a slot and a new name for each. */
  function Exposed(p: Params, s: State, ns: string): int {
    |Open(s.isjs, ns)| + Min(Reserved(s.ssc, ns), |NewNames(p, s, ns)|)
  }

  lemma OneNameLess(slots: int, names: int, taken: bool)
    ensures 1 + Min(slots, names - if taken then 1 else 0)
         == Min(slots, names) + if taken && names <= slots then 0 else 1
  {}

  // ── It never grows by itself ────────────────────────────────────────────

  lemma {:induction false} HeldByFew(names: set<string>, keys: set<Key>, ns: string)
    requires forall name | name in names :: Key(ns, name) in keys
    ensures |names| <= |keys|
  {
    if names != {} {
      var name :| name in names;
      HeldByFew(names - {name}, keys - {Key(ns, name)}, ns);
    }
  }

  /** Each key given up frees at most one name. */
  lemma FreedNames(names: set<string>, fewer: set<string>, keys: set<Key>, less: set<Key>, ns: string)
    requires fewer <= names && less <= keys
    ensures |Unheld(fewer, less, ns)| + |less| <= |Unheld(names, keys, ns)| + |keys|
    ensures |less| <= |keys|
  {
    var gone := keys - less;
    var freed := set name | name in fewer && Key(ns, name) in gone;
    HeldByFew(freed, gone, ns);
    SubsetSize(Unheld(fewer, less, ns), Unheld(names, keys, ns) + freed);
    assert |Unheld(names, keys, ns) + freed| <= |Unheld(names, keys, ns)| + |freed|;
    assert keys == less + gone;
  }

  /** A key taken takes its name. */
  lemma TakenName(names: set<string>, rest: set<string>, keys: set<Key>, after: set<Key>, key: Key)
    requires names <= rest + {key.name} && rest <= names + {key.name} && key !in keys && after == keys + {key}
    ensures key.name in names <==> key.name in Unheld(names, keys, key.ns)
    ensures |Unheld(rest, after, key.ns)| == |Unheld(names, keys, key.ns)| - if key.name in names then 1 else 0
    ensures |after| == |keys| + 1
  {
    assert Unheld(rest, after, key.ns) == Unheld(names, keys, key.ns) - {key.name};
  }

  lemma HeldName(names: set<string>, rest: set<string>, keys: set<Key>, key: Key)
    requires rest <= names <= rest + {key.name} && key in keys
    ensures Unheld(rest, keys, key.ns) == Unheld(names, keys, key.ns)
  {}

  /** Fewer open jobs free as many names at most. */
  lemma FewerExposeLess(p: Params, s: State, t: State, ns: string)
    requires Open(t.isjs, ns) <= Open(s.isjs, ns) && BatchNames(p, t, ns) <= BatchNames(p, s, ns)
    requires Reserved(t.ssc, ns) <= Reserved(s.ssc, ns)
    ensures Exposed(p, t, ns) <= Exposed(p, s, ns)
  {
    FreedNames(BatchNames(p, s, ns), BatchNames(p, t, ns), Open(s.isjs, ns), Open(t.isjs, ns), ns);
  }

  lemma OpenShrinks(p: Params, s: State, e: Event, ns: string)
    requires Inv(p, s) && (Creating(e) ==> !CreatesFor(p, s, e))
    ensures Open(Step(p, s, e).isjs, ns) <= Open(s.isjs, ns) && Step(p, s, e).isjs.Keys <= s.isjs.Keys
  {
    if Quiet(e) {
      QuietStepsDelete(p, s, e);
    } else if Creating(e) {
      CreatingStepsCreate(p, s, e);
    } else if WorkerLocal(e) {
      LocalStepsKeepObjects(p, s, e);
    } else {
      RewritingStepsRewrite(p, s, e);
      RewritesOnlyOpen(p, s, e);
    }
  }

  lemma HeadStaysOut(p: Params, s: State, e: Event)
    requires HeadIsOut(p, s) && !e.Snapshot?
    ensures var t := Step(p, s, e); t.ssc.Ensuring? && t.ssc.batch == s.ssc.batch ==> t.ssc == s.ssc
  {
    match e
    case EnsureGet(ok) => assert Step(p, s, e).ssc == AfterEnsureGet(p, s, ok);
    case EnsureDelete(ok) => assert Step(p, s, e) == EnsureDeleteStep(p, s, ok);
    case EnsurePatch(ok) => assert Step(p, s, e) == EnsurePatchStep(p, s, ok);
    case EnsureCreate(ok) => assert Step(p, s, e) == EnsureCreateStep(p, s, ok);
    case ResetDelete(ok) => assert Step(p, s, e) == ResetDeleteStep(s, ok);
    case ResetList(_, _, _) => assert Step(p, s, e).ssc == AfterResetList(s, e);
    case SscCrash =>
    case _ => OthersLeaveSsc(p, s, e);
  }

  lemma NamesOfTail(p: Params, work: seq<Work>)
    requires work != []
    ensures Names(p, work) == Names(p, work[1..]) + {WorkName(p, work[0])}
  {
    forall i | 0 <= i < |work[1..]|
      ensures WorkName(p, work[1..][i]) in Names(p, work)
    {
      assert work[1..][i] == work[i + 1];
    }
    forall i | 0 <= i < |work|
      ensures WorkName(p, work[i]) in Names(p, work[1..]) + {WorkName(p, work[0])}
    {
      if i > 0 {
        assert work[1..][i - 1] == work[i];
      }
    }
  }

  lemma AdvancingShrinks(p: Params, s: State, t: State, ns: string)
    requires Advances(s.ssc, t.ssc) && t.isjs.Keys <= s.isjs.Keys
    requires HeadIsOut(p, s) && t.ssc.Ensuring? && t.ssc.batch == s.ssc.batch ==> t.ssc == s.ssc
    ensures BatchNames(p, t, ns) <= BatchNames(p, s, ns)
  {
    if t.ssc.Ensuring? && s.ssc.batch.work != [] {
      NamesOfTail(p, s.ssc.batch.work);
    }
  }

  lemma BatchShrinks(p: Params, s: State, e: Event, ns: string)
    requires Inv(p, s) && BatchOk(s.ssc) && !e.Snapshot? && (Creating(e) ==> !CreatesFor(p, s, e))
    ensures var t := Step(p, s, e);
      BatchNames(p, t, ns) <= BatchNames(p, s, ns) && Reserved(t.ssc, ns) <= Reserved(s.ssc, ns)
  {
    SscAdvances(p, s, e);
    OpenShrinks(p, s, e, ns);
    if HeadIsOut(p, s) {
      HeadStaysOut(p, s, e);
    }
    AdvancingShrinks(p, s, Step(p, s, e), ns);
    if Creating(e) {
      CreatingStepsCreate(p, s, e);
    } else if SscEvent(e) {
      SscMovesReserveNothing(p, s, e, ns);
    } else {
      OthersLeaveSsc(p, s, e);
    }
  }

  lemma OpenWith(isjs: ScanJobs, key: Key, job: ScanJob)
    requires key !in Open(isjs, key.ns) && job.status == FRESH
    ensures Open(isjs[key := job], key.ns) == Open(isjs, key.ns) + {key}
  {}

  lemma OpenElsewhere(isjs: ScanJobs, key: Key, job: ScanJob, ns: string)
    requires key.ns != ns
    ensures Open(isjs[key := job], ns) == Open(isjs, ns)
  {}

  /** A job for the current call uses up a slot and a new name. */
  lemma JobForCallKeepsExposed(p: Params, s: State, t: State, job: ScanJob)
    requires s.ssc.Ensuring? && s.ssc.batch.work != [] && !HeadIsOut(p, s) && job.status == FRESH
    requires var key := Key(s.ssc.batch.ns, WorkName(p, s.ssc.batch.work[0]));
      key !in Open(s.isjs, key.ns) && t.isjs == s.isjs[key := job] && t.ssc == NextCall(s.ssc.batch, true)
    ensures Exposed(p, t, s.ssc.batch.ns) == Exposed(p, s, s.ssc.batch.ns)
  {
    var b := s.ssc.batch;
    var key := Key(b.ns, WorkName(p, b.work[0]));
    NamesOfTail(p, b.work);
    OpenWith(s.isjs, key, job);
    TakenName(Names(p, b.work), Names(p, b.work[1..]), Open(s.isjs, key.ns), Open(t.isjs, key.ns), key);
  }

  lemma CreationKeepsExposed(p: Params, s: State, e: Event, ns: string)
    requires BatchOk(s.ssc) && e.EnsureCreate? && CreatesFor(p, s, e)
    ensures Exposed(p, Step(p, s, e), ns) <= Exposed(p, s, ns)
  {
    CreatingStepsCreate(p, s, e);
    var t, key, job := Step(p, s, e), CreatedKey(p, s, e), NewScanJob(s, CreatedSpec(s, e));
    if key.ns == ns {
      JobForCallKeepsExposed(p, s, t, job);
    } else {
      OpenElsewhere(s.isjs, key, job, ns);
    }
  }

  lemma SnapshotExposes(p: Params, s: State, e: Event, ns: string)
    requires BatchOk(s.ssc) && e.Snapshot?
    ensures Exposed(p, Step(p, s, e), ns) <= Max(EffectiveMaxConcurrentScans(p), Exposed(p, s, ns))
  {
    var t := Step(p, s, e);
    assert t == s.(ssc := AfterSnapshot(p, s, e));
  }

  lemma ElsewhereExposesNothing(p: Params, s: State, e: Event, ns: string)
    requires e.ManualScan? && e.ns != ns
    ensures Exposed(p, Step(p, s, e), ns) == Exposed(p, s, ns)
  {
    var t := Step(p, s, e);
    var key := Key(e.ns, ManualScanJobName(p.sha, e.image, e.scanner));
    var job := NewScanJob(s, Spec(e.image, "", e.scanner, ByHand, "manual", ""));
    assert t == ManualScanStep(p, s, e.ns, e.image, e.scanner);
    if key !in s.isjs {
      OpenElsewhere(s.isjs, key, job, ns);
      NamesElsewhere(p, s, t, key, ns);
    }
  }

  lemma NamesElsewhere(p: Params, s: State, t: State, key: Key, ns: string)
    requires t.ssc == s.ssc && t.isjs.Keys == s.isjs.Keys + {key} && key.ns != ns
    ensures BatchNames(p, t, ns) == BatchNames(p, s, ns)
  {}

  /** Only a manual scan of the namespace, and a snapshot up to the limit, raise it. */
  lemma StepExposes(p: Params, s: State, e: Event, ns: string)
    requires Inv(p, s) && BatchOk(s.ssc) && !(e.ManualScan? && e.ns == ns)
    ensures Exposed(p, Step(p, s, e), ns) <= Max(EffectiveMaxConcurrentScans(p), Exposed(p, s, ns))
  {
    if e.Snapshot? {
      SnapshotExposes(p, s, e, ns);
    } else if e.ManualScan? {
      ElsewhereExposesNothing(p, s, e, ns);
    } else if e.EnsureCreate? && CreatesFor(p, s, e) {
      CreationKeepsExposed(p, s, e, ns);
    } else {
      OpenShrinks(p, s, e, ns);
      BatchShrinks(p, s, e, ns);
      FewerExposeLess(p, s, Step(p, s, e), ns);
    }
  }

  predicate NothingByHand(events: seq<Event>, ns: string) {
    forall i | 0 <= i < |events| :: !(events[i].ManualScan? && events[i].ns == ns)
  }

  lemma {:induction false} RunExposes(p: Params, s: State, events: seq<Event>, ns: string)
    requires Inv(p, s) && BatchOk(s.ssc) && NothingByHand(events, ns)
    ensures Exposed(p, Run(p, s, events), ns) <= Max(EffectiveMaxConcurrentScans(p), Exposed(p, s, ns))
    decreases |events|
  {
    if events != [] {
      StepExposes(p, s, events[0], ns);
      StepKeepsInv(p, s, events[0]);
      BatchStaysOk(p, s, events[0], ns);
      RunExposes(p, Step(p, s, events[0]), events[1..], ns);
    }
  }

  // ── It can all come true ────────────────────────────────────────────────

  function Skipped(s: State): State
    requires s.ssc.Ensuring? && s.ssc.batch.work != []
  {
    s.(ssc := NextCall(s.ssc.batch, false))
  }

  /** The current call creates a job, under a name that has just been freed of any job not open. */
  function Created(p: Params, s: State): State
    requires s.ssc.Ensuring? && s.ssc.batch.work != []
  {
    var b := s.ssc.batch;
    var w := b.work[0];
    var job := NewScanJob(s, Spec(w.image, w.digest, w.scanner, Kubernetes, b.config, w.sourceNamespace));
    s.(isjs := s.isjs[Key(b.ns, WorkName(p, w)) := job], nextUid := s.nextUid + 1, ssc := NextCall(b, true))
  }

  predicate HeadIsHeld(p: Params, s: State)
    requires s.ssc.Ensuring? && s.ssc.batch.work != []
  {
    var key := Key(s.ssc.batch.ns, WorkName(p, s.ssc.batch.work[0]));
    key in Open(s.isjs, key.ns)
  }

  lemma SkippingKeepsExposed(p: Params, s: State)
    requires s.ssc.Ensuring? && s.ssc.batch.work != [] && (HeadIsOut(p, s) || HeadIsHeld(p, s))
    ensures Exposed(p, Skipped(s), s.ssc.batch.ns) == Exposed(p, s, s.ssc.batch.ns)
  {
    var b := s.ssc.batch;
    if !HeadIsOut(p, s) {
      NamesOfTail(p, b.work);
      HeldName(Names(p, b.work), Names(p, b.work[1..]), Open(s.isjs, b.ns), Key(b.ns, WorkName(p, b.work[0])));
    }
  }

  lemma CreatingKeepsExposed(p: Params, s: State)
    requires s.ssc.Ensuring? && s.ssc.batch.work != [] && !HeadIsOut(p, s) && !HeadIsHeld(p, s)
    ensures Exposed(p, Created(p, s), s.ssc.batch.ns) == Exposed(p, s, s.ssc.batch.ns)
  {
    var key := Key(s.ssc.batch.ns, WorkName(p, s.ssc.batch.work[0]));
    JobForCallKeepsExposed(p, s, Created(p, s), Created(p, s).isjs[key]);
  }

  /** A call about to get: it can be made to create its job, or to do nothing. */
  lemma GetCanCreate(p: Params, s: State)
    requires s.ssc.Ensuring? && s.ssc.stage.AtGet? && s.ssc.batch.work != []
    requires s.ssc.batch.created < s.ssc.batch.capacity
    ensures var key := Key(s.ssc.batch.ns, WorkName(p, s.ssc.batch.work[0]));
      Run(p, s, [UserDelete(key), EnsureGet(true), EnsureCreate(true)]) == Created(p, s)
    ensures Run(p, s, [EnsureGet(false)]) == Skipped(s)
  {
    var key := Key(s.ssc.batch.ns, WorkName(p, s.ssc.batch.work[0]));
    var t := s.(isjs := s.isjs - {key});
    ThreeSteps(p, s, UserDelete(key), EnsureGet(true), EnsureCreate(true));
    assert Step(p, s, UserDelete(key)) == t;
    assert Step(p, t, EnsureGet(true)) == t.(ssc := Ensuring(s.ssc.batch, AtCreate));
    CreateAfterDelete(p, s);
    RunOne(p, s, EnsureGet(false));
  }

  lemma CreateAfterDelete(p: Params, s: State)
    requires s.ssc.Ensuring? && s.ssc.batch.work != []
    ensures var b := s.ssc.batch;
      var t := s.(isjs := s.isjs - {Key(b.ns, WorkName(p, b.work[0]))}, ssc := Ensuring(b, AtCreate));
      Step(p, t, EnsureCreate(true)) == Created(p, s)
  {
    var b := s.ssc.batch;
    var key := Key(b.ns, WorkName(p, b.work[0]));
    var t := s.(isjs := s.isjs - {key}, ssc := Ensuring(b, AtCreate));
    assert Step(p, t, EnsureCreate(true)) == EnsureCreateStep(p, t, true);
    assert (s.isjs - {key})[key := Created(p, s).isjs[key]] == s.isjs[key := Created(p, s).isjs[key]];
  }

  /** From a call about to get on, the whole batch can be made to create what it can. */
  lemma {:induction false} BatchCanCreate(p: Params, s: State, ns: string) returns (events: seq<Event>)
    requires s.ssc.Ensuring? && s.ssc.stage.AtGet? && BatchOk(s.ssc) && s.ssc.batch.ns == ns
    ensures NothingByHand(events, ns) && |Open(Run(p, s, events).isjs, ns)| >= Exposed(p, s, ns)
    decreases |s.ssc.batch.work|
  {
    if s.ssc.batch.work == [] || s.ssc.batch.created == s.ssc.batch.capacity {
      events := [];
      NothingCreatable(p, s);
    } else {
      var first, t := CallCanCreate(p, s, ns);
      var rest := BatchCanCreate(p, t, ns);
      RunAppend(p, s, first, rest);
      events := first + rest;
    }
  }

  lemma CallCanCreate(p: Params, s: State, ns: string) returns (events: seq<Event>, t: State)
    requires s.ssc.Ensuring? && s.ssc.stage.AtGet? && BatchOk(s.ssc) && s.ssc.batch.ns == ns
    requires s.ssc.batch.work != [] && s.ssc.batch.created < s.ssc.batch.capacity
    ensures NothingByHand(events, ns) && t == Run(p, s, events)
    ensures t.ssc.Ensuring? && t.ssc.stage.AtGet? && BatchOk(t.ssc) && t.ssc.batch.ns == ns
    ensures t.ssc.batch.work == s.ssc.batch.work[1..] && Exposed(p, t, ns) == Exposed(p, s, ns)
  {
    var key := Key(ns, WorkName(p, s.ssc.batch.work[0]));
    GetCanCreate(p, s);
    if HeadIsHeld(p, s) {
      SkippingKeepsExposed(p, s);
      events, t := [EnsureGet(false)], Skipped(s);
    } else {
      CreatingKeepsExposed(p, s);
      events, t := [UserDelete(key), EnsureGet(true), EnsureCreate(true)], Created(p, s);
    }
  }

  lemma NothingCreatable(p: Params, s: State)
    requires s.ssc.Ensuring? && BatchOk(s.ssc)
    requires s.ssc.batch.work == [] || s.ssc.batch.created == s.ssc.batch.capacity
    ensures Exposed(p, s, s.ssc.batch.ns) == |Open(s.isjs, s.ssc.batch.ns)|
  {
    if s.ssc.batch.work == [] {
      assert Names(p, s.ssc.batch.work) == {};
    }
  }

  /** From the other stages of a call, the same events lead to its next call. */
  lemma StageCanCreate(p: Params, s: State, ns: string) returns (events: seq<Event>, t: State)
    requires s.ssc.Ensuring? && !s.ssc.stage.AtGet? && BatchOk(s.ssc) && s.ssc.batch.ns == ns
    ensures NothingByHand(events, ns) && t == Run(p, s, events)
    ensures t.ssc.Ensuring? && t.ssc.stage.AtGet? && BatchOk(t.ssc) && t.ssc.batch.ns == ns
    ensures Exposed(p, t, ns) == Exposed(p, s, ns)
  {
    if HeadIsOut(p, s) || HeadIsHeld(p, s) {
      SkippingKeepsExposed(p, s);
      events := StageCanSkip(p, s);
      t := Skipped(s);
    } else if s.ssc.stage.AtDelete? {
      CreatingKeepsExposed(p, s);
      DeleteThenCreate(p, s);
      events := [EnsureDelete(true), EnsureCreate(true)];
      t := Run(p, s, events);
      SameExposed(p, t, Created(p, s), ns);
    } else {
      CreatingKeepsExposed(p, s);
      ClearThenCreate(p, s);
      events := [UserDelete(Key(ns, WorkName(p, s.ssc.batch.work[0]))), EnsureCreate(true)];
      t := Created(p, s);
    }
  }

  lemma StageCanSkip(p: Params, s: State) returns (events: seq<Event>)
    requires s.ssc.Ensuring? && !s.ssc.stage.AtGet? && s.ssc.batch.work != []
    requires s.ssc.stage.AtCreate? || s.ssc.stage.AtPatch? || s.ssc.stage.AtDelete?
    ensures NothingByHand(events, s.ssc.batch.ns) && Run(p, s, events) == Skipped(s)
  {
    if s.ssc.stage.AtPatch? {
      events := [EnsurePatch(false)];
      assert Step(p, s, EnsurePatch(false)) == EnsurePatchStep(p, s, false);
    } else if s.ssc.stage.AtDelete? {
      events := [EnsureDelete(false)];
      assert Step(p, s, EnsureDelete(false)) == EnsureDeleteStep(p, s, false);
    } else {
      events := [EnsureCreate(false)];
      assert Step(p, s, EnsureCreate(false)) == EnsureCreateStep(p, s, false);
    }
    RunOne(p, s, events[0]);
  }

  lemma SameExposed(p: Params, s: State, t: State, ns: string)
    requires s.isjs == t.isjs && s.ssc == t.ssc
    ensures Exposed(p, s, ns) == Exposed(p, t, ns)
  {}

  lemma ClearThenCreate(p: Params, s: State)
    requires s.ssc.Ensuring? && s.ssc.stage.AtCreate? && s.ssc.batch.work != []
    ensures var key := Key(s.ssc.batch.ns, WorkName(p, s.ssc.batch.work[0]));
      Run(p, s, [UserDelete(key), EnsureCreate(true)]) == Created(p, s)
  {
    var key := Key(s.ssc.batch.ns, WorkName(p, s.ssc.batch.work[0]));
    TwoSteps(p, s, UserDelete(key), EnsureCreate(true));
    assert Step(p, s, UserDelete(key)) == s.(isjs := s.isjs - {key}, ssc := Ensuring(s.ssc.batch, AtCreate));
    CreateAfterDelete(p, s);
  }

  lemma DeleteThenCreate(p: Params, s: State)
    requires s.ssc.Ensuring? && s.ssc.stage.AtDelete? && s.ssc.batch.work != []
    requires Key(s.ssc.batch.ns, WorkName(p, s.ssc.batch.work[0])) in s.isjs
    ensures var t := Run(p, s, [EnsureDelete(true), EnsureCreate(true)]);
      t == Created(p, s).(retried := t.retried)
  {
    var b := s.ssc.batch;
    var key := Key(b.ns, WorkName(p, b.work[0]));
    TwoSteps(p, s, EnsureDelete(true), EnsureCreate(true));
    var t := Step(p, s, EnsureDelete(true));
    assert t == EnsureDeleteStep(p, s, true);
    CreateAfterDelete(p, s.(retried := t.retried));
    assert t == s.(isjs := s.isjs - {key}, ssc := Ensuring(b, AtCreate), retried := t.retried);
  }

  lemma {:induction false} AllCanCreate(p: Params, s: State, ns: string) returns (events: seq<Event>)
    requires BatchOk(s.ssc)
    ensures NothingByHand(events, ns) && |Open(Run(p, s, events).isjs, ns)| >= Exposed(p, s, ns)
  {
    if !s.ssc.Ensuring? || s.ssc.batch.ns != ns {
      events := [];
    } else if s.ssc.stage.AtGet? {
      events := BatchCanCreate(p, s, ns);
    } else {
      var first, t := StageCanCreate(p, s, ns);
      var rest := BatchCanCreate(p, t, ns);
      RunAppend(p, s, first, rest);
      events := first + rest;
    }
  }

  // ── Theorems ────────────────────────────────────────────────────────────

  /** Whatever happens next, the namespace keeps to the limit as long as nothing is started there by hand. */
  ghost predicate KeepsLimit(p: Params, s: State, ns: string) {
    forall more | NothingByHand(more, ns) :: |Open(Run(p, s, more).isjs, ns)| <= EffectiveMaxConcurrentScans(p)
  }

  lemma {:induction false} KeepsLimitIff(p: Params, s: State, ns: string)
    requires Inv(p, s) && BatchOk(s.ssc)
    ensures KeepsLimit(p, s, ns) <==> Exposed(p, s, ns) <= EffectiveMaxConcurrentScans(p)
  {
    if Exposed(p, s, ns) <= EffectiveMaxConcurrentScans(p) {
      forall more | NothingByHand(more, ns)
        ensures |Open(Run(p, s, more).isjs, ns)| <= EffectiveMaxConcurrentScans(p)
      {
        RunExposes(p, s, more, ns);
        RunKeepsBatchOk(p, s, more);
        EndsAlong(p, s, more);
        assert Min(Reserved(Run(p, s, more).ssc, ns), |NewNames(p, Run(p, s, more), ns)|) >= 0;
      }
    } else {
      var more := AllCanCreate(p, s, ns);
      assert |Open(Run(p, s, more).isjs, ns)| > EffectiveMaxConcurrentScans(p);
    }
  }

  /** The exact condition for the limit, in every reachable state: it is kept from there on, without further scans by
      hand, if and only if the open jobs and those that the running batch can still add keep to it. */
  lemma {:induction false} LimitIsKeptIff(p: Params, now: Time, events: seq<Event>, ns: string)
    ensures var s := Run(p, Start(now), events);
      KeepsLimit(p, s, ns) <==> Exposed(p, s, ns) <= EffectiveMaxConcurrentScans(p)
  {
    StartKeepsInv(p, now);
    RunKeepsInv(p, Start(now), events);
    RunKeepsBatchOk(p, Start(now), events);
    EndsAlong(p, Start(now), events);
    KeepsLimitIff(p, Run(p, Start(now), events), ns);
  }

  /** A manual scan that creates a job when the open jobs and those that the batch can add make up the limit, unless
      it takes one of the batch's names and the batch has a slot for each of them. */
  predicate Crosses(p: Params, s: State, e: Event, ns: string) {
    && e.ManualScan? && e.ns == ns && Key(ns, ManualScanJobName(p.sha, e.image, e.scanner)) !in s.isjs
    && Exposed(p, s, ns) == EffectiveMaxConcurrentScans(p)
    && !(ManualScanJobName(p.sha, e.image, e.scanner) in NewNames(p, s, ns)
         && |NewNames(p, s, ns)| <= Reserved(s.ssc, ns))
  }

  /** A manual scan costs the namespace one, or nothing when it takes a name that the batch would have created. */
  lemma ManualScanExposes(p: Params, s: State, e: Event)
    requires BatchOk(s.ssc) && e.ManualScan? && Key(e.ns, ManualScanJobName(p.sha, e.image, e.scanner)) !in s.isjs
    ensures var name := ManualScanJobName(p.sha, e.image, e.scanner);
      Exposed(p, Step(p, s, e), e.ns) == Exposed(p, s, e.ns)
        + if name in NewNames(p, s, e.ns) && |NewNames(p, s, e.ns)| <= Reserved(s.ssc, e.ns) then 0 else 1
  {
    var key := Key(e.ns, ManualScanJobName(p.sha, e.image, e.scanner));
    var job := NewScanJob(s, Spec(e.image, "", e.scanner, ByHand, "manual", ""));
    var t := Step(p, s, e);
    assert t == ManualScanStep(p, s, e.ns, e.image, e.scanner);
    OpenWith(s.isjs, key, job);
    JobExposes(p, s, t, key);
  }

  lemma JobExposes(p: Params, s: State, t: State, key: Key)
    requires BatchOk(s.ssc) && t.ssc == s.ssc && key !in s.isjs && t.isjs.Keys == s.isjs.Keys + {key}
    requires Open(t.isjs, key.ns) == Open(s.isjs, key.ns) + {key}
    ensures Exposed(p, t, key.ns) == Exposed(p, s, key.ns)
        + if key.name in NewNames(p, s, key.ns) && |NewNames(p, s, key.ns)| <= Reserved(s.ssc, key.ns) then 0 else 1
  {
    var n := |NewNames(p, s, key.ns)|;
    NamesWithJob(p, s, t, key);
    OneNameLess(Reserved(s.ssc, key.ns), n, key.name in NewNames(p, s, key.ns));
    TakenName(BatchNames(p, s, key.ns), BatchNames(p, t, key.ns), Open(s.isjs, key.ns), Open(t.isjs, key.ns), key);
  }

  /** A job that takes a name can at most bring back a delete that found nothing, of a call with that name. */
  lemma NamesWithJob(p: Params, s: State, t: State, key: Key)
    requires t.ssc == s.ssc && t.isjs.Keys == s.isjs.Keys + {key}
    ensures BatchNames(p, s, key.ns) <= BatchNames(p, t, key.ns) <= BatchNames(p, s, key.ns) + {key.name}
  {
    if s.ssc.Ensuring? && s.ssc.batch.work != [] {
      NamesOfTail(p, s.ssc.batch.work);
    }
  }

  lemma CrossesIff(p: Params, s: State, e: Event, ns: string)
    requires Inv(p, s) && BatchOk(s.ssc) && Exposed(p, s, ns) <= EffectiveMaxConcurrentScans(p)
    ensures Exposed(p, Step(p, s, e), ns) <= EffectiveMaxConcurrentScans(p) <==> !Crosses(p, s, e, ns)
  {
    if !(e.ManualScan? && e.ns == ns) {
      StepExposes(p, s, e, ns);
    } else if Key(ns, ManualScanJobName(p.sha, e.image, e.scanner)) !in s.isjs {
      ManualScanExposes(p, s, e);
    } else {
      assert Step(p, s, e) == ManualScanStep(p, s, e.ns, e.image, e.scanner) == s;
    }
  }

  /** Among all steps from a state from which the limit is kept, exactly those manual scans lead to one from which it
      can be exceeded without any other. */
  lemma {:induction false} LimitIsLostIff(p: Params, now: Time, events: seq<Event>, e: Event, ns: string)
    requires KeepsLimit(p, Run(p, Start(now), events), ns)
    ensures var s := Run(p, Start(now), events); KeepsLimit(p, Step(p, s, e), ns) <==> !Crosses(p, s, e, ns)
  {
    var s := Run(p, Start(now), events);
    StartKeepsInv(p, now);
    RunKeepsInv(p, Start(now), events);
    RunKeepsBatchOk(p, Start(now), events);
    EndsAlong(p, Start(now), events);
    KeepsLimitIff(p, s, ns);
    StepKeepsInv(p, s, e);
    BatchStaysOk(p, s, e, ns);
    KeepsLimitIff(p, Step(p, s, e), ns);
    CrossesIff(p, s, e, ns);
  }

  ghost predicate NeverCrosses(p: Params, s: State, events: seq<Event>, ns: string)
    decreases |events|
  {
    events != [] ==> !Crosses(p, s, events[0], ns) && NeverCrosses(p, Step(p, s, events[0]), events[1..], ns)
  }

  ghost predicate AlwaysKeepsLimit(p: Params, s: State, events: seq<Event>, ns: string)
    decreases |events|
  {
    KeepsLimit(p, s, ns) && (events != [] ==> AlwaysKeepsLimit(p, Step(p, s, events[0]), events[1..], ns))
  }

  lemma {:induction false} KeepsAllAlong(p: Params, s: State, events: seq<Event>, ns: string)
    requires Inv(p, s) && BatchOk(s.ssc) && Exposed(p, s, ns) <= EffectiveMaxConcurrentScans(p)
    ensures AlwaysKeepsLimit(p, s, events, ns) <==> NeverCrosses(p, s, events, ns)
    ensures NeverCrosses(p, s, events, ns) ==> |Open(Run(p, s, events).isjs, ns)| <= EffectiveMaxConcurrentScans(p)
    decreases |events|
  {
    KeepsLimitIff(p, s, ns);
    if events == [] {
      assert NothingByHand([], ns) && Run(p, s, []) == s;
    }
    if events != [] {
      var t := Step(p, s, events[0]);
      StepKeepsInv(p, s, events[0]);
      BatchStaysOk(p, s, events[0], ns);
      CrossesIff(p, s, events[0], ns);
      KeepsLimitIff(p, t, ns);
      if Exposed(p, t, ns) <= EffectiveMaxConcurrentScans(p) {
        KeepsAllAlong(p, t, events[1..], ns);
      }
    }
  }

  /** Over whole runs: each state of a run is one from which the limit is kept, if and only if no manual scan of the
      run crosses it; and then the run itself keeps it. */
  lemma {:induction false} LimitHoldsIff(p: Params, now: Time, events: seq<Event>, ns: string)
    ensures AlwaysKeepsLimit(p, Start(now), events, ns) <==> NeverCrosses(p, Start(now), events, ns)
    ensures NeverCrosses(p, Start(now), events, ns) ==>
      |Open(Run(p, Start(now), events).isjs, ns)| <= EffectiveMaxConcurrentScans(p)
  {
    StartKeepsInv(p, now);
    assert Open(Start(now).isjs, ns) == {};
    KeepsAllAlong(p, Start(now), events, ns);
  }

  // ── A creation whose reply is lost ──────────────────────────────────────

  /** A creation that lands while its reply is lost, which the machine has no event for: the controller goes on as
      after one that failed. */
  function CreateReplyLost(p: Params, s: State): State {
    EnsureCreateStep(p, s, true).(ssc := EnsureCreateStep(p, s, false).ssc)
  }

  /** Such a loss would let the namespace go one further exactly when the batch has more names than slots left:
      otherwise it has no use for the slot that the job took without being counted. */
  lemma {:induction false} LostReplyCostsASlot(p: Params, s: State)
    requires s.ssc.Ensuring? && s.ssc.stage.AtCreate? && s.ssc.batch.work != [] && BatchOk(s.ssc)
    requires Key(s.ssc.batch.ns, WorkName(p, s.ssc.batch.work[0])) !in s.isjs
    ensures var t, ns := CreateReplyLost(p, s), s.ssc.batch.ns;
      && |Open(t.isjs, ns)| + Reserved(t.ssc, ns) == |Open(s.isjs, ns)| + Reserved(s.ssc, ns) + 1
      && Exposed(p, t, ns)
         == Exposed(p, s, ns) + if |NewNames(p, s, ns)| > Reserved(s.ssc, ns) then 1 else 0
  {
    var b := s.ssc.batch;
    var w := b.work[0];
    var key := Key(b.ns, WorkName(p, w));
    var job := NewScanJob(s, Spec(w.image, w.digest, w.scanner, Kubernetes, b.config, w.sourceNamespace));
    OpenWith(s.isjs, key, job);
    UncountedJobExposes(p, s, CreateReplyLost(p, s), key);
  }

  lemma UncountedJobExposes(p: Params, s: State, t: State, key: Key)
    requires s.ssc.Ensuring? && s.ssc.stage.AtCreate? && s.ssc.batch.work != [] && BatchOk(s.ssc)
    requires key == Key(s.ssc.batch.ns, WorkName(p, s.ssc.batch.work[0])) && key !in s.isjs
    requires Open(t.isjs, key.ns) == Open(s.isjs, key.ns) + {key} && t.ssc == NextCall(s.ssc.batch, false)
    ensures |Open(t.isjs, key.ns)| == |Open(s.isjs, key.ns)| + 1 && Reserved(t.ssc, key.ns) == Reserved(s.ssc, key.ns)
    ensures Exposed(p, t, key.ns)
         == Exposed(p, s, key.ns) + if |NewNames(p, s, key.ns)| > Reserved(s.ssc, key.ns) then 1 else 0
  {
    var work := s.ssc.batch.work;
    NamesOfTail(p, work);
    OneNameLess(Reserved(s.ssc, key.ns), |NewNames(p, s, key.ns)|, true);
    TakenName(Names(p, work), Names(p, work[1..]), Open(s.isjs, key.ns), Open(t.isjs, key.ns), key);
  }
}
