/** At most one scan job per image and scanner, over whole runs. */
module DoubleScan {
  import opened Cluster
  import opened Naming
  import opened Protocol
  import opened Steps
  import opened Lifecycle

  /** No two jobs of the namespace that have not failed scan the same image with the same scanner. */
  ghost predicate OnePerPair(isjs: ScanJobs, ns: string) {
    forall k, l |
      && k in isjs && k.ns == ns && !isjs[k].status.phase.Failed?
      && l in isjs && l.ns == ns && !isjs[l].status.phase.Failed?
      && Pair(isjs[k]) == Pair(isjs[l]) :: k == l
  }

  function WorkPair(w: Work): (string, string) {
    (w.image, w.scanner)
  }

  predicate OneDigestPerImage(work: seq<Work>) {
    forall i, j | 0 <= i < |work| && 0 <= j < |work| && work[i].image == work[j].image ::
      work[i].digest == work[j].digest
  }

  /** A job that already holds a pair the batch still works on has the name the batch would use. */
  ghost predicate HeldUnderOwnName(p: Params, isjs: ScanJobs, ns: string, work: seq<Work>) {
    forall k, i |
      && k in isjs && k.ns == ns && !isjs[k].status.phase.Failed?
      && 0 <= i < |work| && WorkPair(work[i]) == Pair(isjs[k]) :: k.name == WorkName(p, work[i])
  }

  /** The jobs of a namespace that a config's cycle created. */
  function ScheduledJobs(isjs: ScanJobs): ScanJobs {
    map k | k in isjs && isjs[k].spec.source == Kubernetes :: isjs[k]
  }

  ghost predicate NoDouble(p: Params, s: State, ns: string) {
    && OnePerPair(ScheduledJobs(s.isjs), ns)
    && (s.ssc.Ensuring? && s.ssc.batch.ns == ns ==>
          OneDigestPerImage(s.ssc.batch.work) && HeldUnderOwnName(p, ScheduledJobs(s.isjs), ns, s.ssc.batch.work))
  }

  // ── The worklist ────────────────────────────────────────────────────────

  lemma {:induction false} NeededIsUncovered(image: string, scanners: seq<string>, covered: set<(string, string)>)
    ensures forall i | 0 <= i < |Needed(image, scanners, covered)| ::
      (image, Needed(image, scanners, covered)[i]) !in covered
  {
    if scanners != [] {
      NeededIsUncovered(image, scanners[1..], covered);
    }
  }

  predicate FromSnapshot(w: Work, covered: set<(string, string)>, digests: map<string, string>) {
    WorkPair(w) !in covered && w.digest == Lookup(digests, w.image)
  }

  /** The batch asks only for uncovered pairs, and with one digest per image. */
  lemma {:induction false} WorklistIsFresh(
    images: seq<string>, scanners: seq<string>, covered: set<(string, string)>,
    digests: map<string, string>, sources: map<string, string>)
    ensures var work := Worklist(images, scanners, covered, digests, sources);
      && (forall i | 0 <= i < |work| :: FromSnapshot(work[i], covered, digests))
      && OneDigestPerImage(work)
  {
    if images != [] {
      NeededIsUncovered(images[0], scanners, covered);
      var needed := Needed(images[0], scanners, covered);
      var head := WorkOf(images[0], needed, Lookup(digests, images[0]), Lookup(sources, images[0]));
      assert forall i | 0 <= i < |head| :: FromSnapshot(head[i], covered, digests);
      WorklistIsFresh(images[1..], scanners, covered, digests, sources);
    }
    var work := Worklist(images, scanners, covered, digests, sources);
    assert forall i | 0 <= i < |work| :: FromSnapshot(work[i], covered, digests);
  }

  lemma {:induction false} NeededIff(image: string, scanners: seq<string>, covered: set<(string, string)>, s: string)
    ensures s in Needed(image, scanners, covered) <==> s in scanners && (image, s) !in covered
  {
    if scanners != [] {
      NeededIff(image, scanners[1..], covered, s);
      assert scanners == [scanners[0]] + scanners[1..];
    }
  }

  /** Exactly the calls of a batch: an image and a scanner of the lists that no job covers, with what the lookups gave
      for the image. */
  lemma {:induction false} WorklistIff(
    images: seq<string>, scanners: seq<string>, covered: set<(string, string)>,
    digests: map<string, string>, sources: map<string, string>, w: Work)
    ensures w in Worklist(images, scanners, covered, digests, sources) <==>
      && w.image in images && w.scanner in scanners && (w.image, w.scanner) !in covered
      && w.digest == (if w.image in digests then digests[w.image] else "")
      && w.sourceNamespace == (if w.image in sources then sources[w.image] else "")
  {
    if images != [] {
      var needed := Needed(images[0], scanners, covered);
      var head := WorkOf(images[0], needed, Lookup(digests, images[0]), Lookup(sources, images[0]));
      WorklistIff(images[1..], scanners, covered, digests, sources, w);
      NeededIff(images[0], scanners, covered, w.scanner);
      assert images == [images[0]] + images[1..];
      if w.scanner in needed {
        var i: nat :| i < |needed| && needed[i] == w.scanner;
        assert head[i].scanner == w.scanner;
      }
    }
  }

  // ── Preservation ────────────────────────────────────────────────────────

  /** Jobs that have not failed in `after` are the same, with the same pair, in `isjs`. */
  ghost predicate NothingNew(isjs: ScanJobs, after: ScanJobs) {
    forall k | k in after ::
      && k in isjs && after[k].uid == isjs[k].uid
      && Pair(after[k]) == Pair(isjs[k]) && after[k].spec.source == isjs[k].spec.source
      && (isjs[k].status.phase.Failed? ==> after[k].status.phase.Failed?)
  }

  lemma FewerKeepNoDouble(p: Params, s: State, t: State, ns: string)
    requires NoDouble(p, s, ns) && NothingNew(s.isjs, t.isjs) && Advances(s.ssc, t.ssc)
    ensures NoDouble(p, t, ns)
  {
    assert NothingNew(ScheduledJobs(s.isjs), ScheduledJobs(t.isjs));
  }

  lemma SnapshotKeepsNoDouble(p: Params, s: State, e: Event, ns: string)
    requires NoDouble(p, s, ns) && e.Snapshot?
    ensures NoDouble(p, Step(p, s, e), ns)
  {
    var t := Step(p, s, e);
    assert t == s.(ssc := AfterSnapshot(p, s, e));
    WorklistIsFresh(e.images, e.scanners, Covered(s.isjs, e.ns), e.digests, e.sources);
    if t.ssc != s.ssc && e.ns == ns {
      var work := t.ssc.batch.work;
      forall k, i | k in s.isjs && k.ns == ns && !s.isjs[k].status.phase.Failed? && 0 <= i < |work|
        ensures WorkPair(work[i]) != Pair(s.isjs[k])
      {
        assert Pair(s.isjs[k]) in Covered(s.isjs, ns);
        assert FromSnapshot(work[i], Covered(s.isjs, e.ns), e.digests);
      }
    }
  }

  lemma CreationKeepsNoDouble(p: Params, s: State, e: Event, ns: string)
    requires NoDouble(p, s, ns) && e.EnsureCreate? && CreatesFor(p, s, e)
    ensures NoDouble(p, Step(p, s, e), ns)
  {
    CreatingStepsCreate(p, s, e);
    var t := Step(p, s, e);
    var b := s.ssc.batch;
    var key := CreatedKey(p, s, e);
    assert ScheduledJobs(t.isjs) == ScheduledJobs(s.isjs)[key := t.isjs[key]];
    if b.ns == ns {
      CreatedUnderOwnName(p, ScheduledJobs(s.isjs), ns, b.work, t.isjs[key]);
    }
  }

  /** The job that the first call of the batch creates, under a name that is free. */
  lemma CreatedUnderOwnName(p: Params, isjs: ScanJobs, ns: string, work: seq<Work>, job: ScanJob)
    requires OnePerPair(isjs, ns) && OneDigestPerImage(work) && HeldUnderOwnName(p, isjs, ns, work)
    requires work != [] && Key(ns, WorkName(p, work[0])) !in isjs && Pair(job) == WorkPair(work[0])
    ensures var after := isjs[Key(ns, WorkName(p, work[0])) := job];
      OnePerPair(after, ns) && HeldUnderOwnName(p, after, ns, work)
  {
    var key := Key(ns, WorkName(p, work[0]));
    forall k | k in isjs && k.ns == ns && !isjs[k].status.phase.Failed?
      ensures Pair(isjs[k]) != Pair(job)
    {
      assert Pair(isjs[k]) == Pair(job) ==> k == key;
    }
  }

  lemma ManualKeepsNoDouble(p: Params, s: State, e: Event, ns: string)
    requires NoDouble(p, s, ns) && e.ManualScan? && CreatesFor(p, s, e)
    ensures NoDouble(p, Step(p, s, e), ns)
  {
    OthersLeaveSsc(p, s, e);
    assert ScheduledJobs(Step(p, s, e).isjs) == ScheduledJobs(s.isjs);
  }

  lemma OtherStepsKeepNoDouble(p: Params, s: State, e: Event, ns: string)
    requires Inv(p, s) && NoDouble(p, s, ns) && !e.Snapshot? && (Creating(e) ==> !CreatesFor(p, s, e))
    ensures NoDouble(p, Step(p, s, e), ns)
  {
    SscAdvances(p, s, e);
    StepAddsNothing(p, s, e);
    FewerKeepNoDouble(p, s, Step(p, s, e), ns);
  }

  lemma StepKeepsNoDouble(p: Params, s: State, e: Event, ns: string)
    requires Inv(p, s) && NoDouble(p, s, ns)
    ensures NoDouble(p, Step(p, s, e), ns)
  {
    if e.Snapshot? {
      SnapshotKeepsNoDouble(p, s, e, ns);
    } else if !Creating(e) || !CreatesFor(p, s, e) {
      OtherStepsKeepNoDouble(p, s, e, ns);
    } else if e.EnsureCreate? {
      CreationKeepsNoDouble(p, s, e, ns);
    } else {
      ManualKeepsNoDouble(p, s, e, ns);
    }
  }

  lemma StepAddsNothing(p: Params, s: State, e: Event)
    requires Inv(p, s) && (Creating(e) ==> !CreatesFor(p, s, e))
    ensures NothingNew(s.isjs, Step(p, s, e).isjs)
  {
    if Quiet(e) {
      QuietStepsDelete(p, s, e);
    } else if Creating(e) {
      CreatingStepsCreate(p, s, e);
    } else if WorkerLocal(e) {
      LocalStepsKeepObjects(p, s, e);
    } else {
      RewritingStepsRewrite(p, s, e);
      RewritesOnlyOpen(p, s, e);
      RewritesAddNothing(s, Step(p, s, e));
    }
  }

  lemma RewritesAddNothing(s: State, t: State)
    requires Rewrites(s, t) && KeepsTerminal(s.isjs, t.isjs)
    ensures NothingNew(s.isjs, t.isjs)
  {
    forall k | k in t.isjs
      ensures Pair(t.isjs[k]) == Pair(s.isjs[k]) && t.isjs[k].spec.source == s.isjs[k].spec.source
    {
      assert t.isjs[k].spec.(sourceNamespace := "") == s.isjs[k].spec.(sourceNamespace := "");
    }
  }

  lemma {:induction false} RunKeepsNoDouble(p: Params, s: State, events: seq<Event>, ns: string)
    requires Inv(p, s) && NoDouble(p, s, ns)
    ensures forall t | t in Along(p, s, events) :: NoDouble(p, t, ns)
    decreases |events|
  {
    if events != [] {
      StepKeepsInv(p, s, events[0]);
      StepKeepsNoDouble(p, s, events[0], ns);
      RunKeepsNoDouble(p, Step(p, s, events[0]), events[1..], ns);
    }
  }

  // ── Names tell where a job comes from ───────────────────────────────────

  /** Every job has the name that its source gives it. */
  predicate NamedBySource(p: Params, k: Key, spec: Spec) {
    k.name ==
      if spec.source == ByHand then ManualScanJobName(p.sha, spec.image, spec.scanner)
      else ImageToJobName(p.sha, spec.image, spec.scanner, spec.digest)
  }

  ghost predicate AllNamed(p: Params, isjs: ScanJobs) {
    forall k | k in isjs :: NamedBySource(p, k, isjs[k].spec)
  }

  lemma StepKeepsNamed(p: Params, s: State, e: Event)
    requires AllNamed(p, s.isjs)
    ensures AllNamed(p, Step(p, s, e).isjs)
  {
    if Quiet(e) {
      QuietStepsDelete(p, s, e);
    } else if Creating(e) {
      CreatingStepsCreate(p, s, e);
    } else if WorkerLocal(e) {
      LocalStepsKeepObjects(p, s, e);
    } else {
      RewritingStepsRewrite(p, s, e);
      RewritesKeepNamed(p, s, Step(p, s, e));
    }
  }

  lemma RewritesKeepNamed(p: Params, s: State, t: State)
    requires Rewrites(s, t) && AllNamed(p, s.isjs)
    ensures AllNamed(p, t.isjs)
  {
    forall k | k in t.isjs
      ensures NamedBySource(p, k, t.isjs[k].spec)
    {
      assert t.isjs[k].spec.(sourceNamespace := "") == s.isjs[k].spec.(sourceNamespace := "");
      assert NamedBySource(p, k, s.isjs[k].spec.(sourceNamespace := ""));
    }
  }

  lemma {:induction false} RunKeepsNamed(p: Params, s: State, events: seq<Event>)
    requires AllNamed(p, s.isjs)
    ensures AllNamed(p, Run(p, s, events).isjs)
    decreases |events|
  {
    if events != [] {
      StepKeepsNamed(p, s, events[0]);
      RunKeepsNamed(p, Step(p, s, events[0]), events[1..]);
    }
  }

  // ── Theorems ────────────────────────────────────────────────────────────

  /** Among the jobs that configs schedule, every reachable state has at most one that has not failed for each
      image and scanner, whatever digests resolve or fail, tags share a digest, scanners are listed twice, or
      scans are started by hand. */
  lemma {:induction false} NoDoubleScan(p: Params, now: Time, events: seq<Event>, ns: string)
    ensures OnePerPair(ScheduledJobs(Run(p, Start(now), events).isjs), ns)
  {
    StartKeepsInv(p, now);
    RunKeepsNoDouble(p, Start(now), events, ns);
    EndsAlong(p, Start(now), events);
  }

  predicate Live(isjs: ScanJobs, ns: string, k: Key) {
    k in isjs && k.ns == ns && !isjs[k].status.phase.Failed?
  }

  /** A manual job, under the hash name, beside a scheduled job of the same pair under a digest name. */
  predicate Doubles(p: Params, isjs: ScanJobs, ns: string, k: Key, l: Key) {
    && Live(isjs, ns, k) && Live(isjs, ns, l) && Pair(isjs[k]) == Pair(isjs[l])
    && isjs[k].spec.source == ByHand && k.name == ManualScanJobName(p.sha, isjs[k].spec.image, isjs[k].spec.scanner)
    && isjs[l].spec.source == Kubernetes && |isjs[l].spec.digest| > 15
  }

  /** Two live jobs of a pair are not both scheduled, and not both manual; and the names they have then differ
      only when the scheduled one used a digest. */
  lemma TwoOfAPair(p: Params, isjs: ScanJobs, ns: string, k: Key, l: Key)
    requires AllNamed(p, isjs) && OnePerPair(ScheduledJobs(isjs), ns)
    requires Live(isjs, ns, k) && Live(isjs, ns, l) && Pair(isjs[k]) == Pair(isjs[l]) && k != l
    ensures Doubles(p, isjs, ns, k, l) || Doubles(p, isjs, ns, l, k)
  {
    assert NamedBySource(p, k, isjs[k].spec) && NamedBySource(p, l, isjs[l].spec);
    DifferentSources(p, isjs, ns, k, l);
    if isjs[k].spec.source == ByHand {
      ScheduledUnderDigest(p, k, isjs[k].spec, l, isjs[l].spec);
    } else {
      ScheduledUnderDigest(p, l, isjs[l].spec, k, isjs[k].spec);
    }
  }

  lemma DifferentSources(p: Params, isjs: ScanJobs, ns: string, k: Key, l: Key)
    requires AllNamed(p, isjs) && OnePerPair(ScheduledJobs(isjs), ns)
    requires Live(isjs, ns, k) && Live(isjs, ns, l) && Pair(isjs[k]) == Pair(isjs[l]) && k != l
    ensures isjs[k].spec.source != isjs[l].spec.source
  {
    assert NamedBySource(p, k, isjs[k].spec) && NamedBySource(p, l, isjs[l].spec);
    assert isjs[k].spec.source == Kubernetes ==> k in ScheduledJobs(isjs);
    assert isjs[l].spec.source == Kubernetes ==> l in ScheduledJobs(isjs);
  }

  lemma ScheduledUnderDigest(p: Params, k: Key, byHand: Spec, l: Key, scheduled: Spec)
    requires byHand.source == ByHand && scheduled.source == Kubernetes
    requires NamedBySource(p, k, byHand) && NamedBySource(p, l, scheduled)
    requires byHand.image == scheduled.image && byHand.scanner == scheduled.scanner && k.ns == l.ns && k != l
    ensures |scheduled.digest| > 15
  {}

  /** The exact condition: in any reachable state an image and scanner have two jobs that have not failed
      exactly when one was started by hand and the other scheduled under a digest; and never three. */
  lemma {:induction false} DoublesAreManual(p: Params, now: Time, events: seq<Event>, ns: string)
    ensures var isjs := Run(p, Start(now), events).isjs;
      && (!OnePerPair(isjs, ns) <==> exists k, l :: Doubles(p, isjs, ns, k, l))
      && (forall k, l, m | Doubles(p, isjs, ns, k, l) && Live(isjs, ns, m) && Pair(isjs[m]) == Pair(isjs[k]) ::
            m == k || m == l)
  {
    var isjs := Run(p, Start(now), events).isjs;
    NoDoubleScan(p, now, events, ns);
    RunKeepsNamed(p, Start(now), events);
    if !OnePerPair(isjs, ns) {
      var k, l :| Live(isjs, ns, k) && Live(isjs, ns, l) && Pair(isjs[k]) == Pair(isjs[l]) && k != l;
      TwoOfAPair(p, isjs, ns, k, l);
    }
    forall k, l, m | Doubles(p, isjs, ns, k, l) && Live(isjs, ns, m) && Pair(isjs[m]) == Pair(isjs[k]) && m != k
      ensures m == l
    {
      TwoOfAPair(p, isjs, ns, k, m);
      assert m in ScheduledJobs(isjs) && l in ScheduledJobs(isjs);
    }
  }

  lemma DoublesIfCovered(p: Params, s: State, e: Event, ns: string)
    requires OnePerPair(s.isjs, ns) && Creating(e) && CreatesFor(p, s, e) && CreatedKey(p, s, e).ns == ns
    ensures OnePerPair(Step(p, s, e).isjs, ns)
       <==> forall k | Live(s.isjs, ns, k) :: Pair(s.isjs[k]) != (CreatedSpec(s, e).image, CreatedSpec(s, e).scanner)
  {
    var t, key := Step(p, s, e), CreatedKey(p, s, e);
    var pair := (CreatedSpec(s, e).image, CreatedSpec(s, e).scanner);
    assert Pair(t.isjs[key]) == pair && Live(t.isjs, ns, key);
    if k :| Live(s.isjs, ns, k) && Pair(s.isjs[k]) == pair {
      assert Live(t.isjs, ns, k) && Pair(t.isjs[k]) == Pair(t.isjs[key]);
    }
  }

  /** A manual scan makes the first double of a namespace exactly when a config scheduled its pair under a digest,
      and that job has not failed. */
  lemma {:induction false} ManualDoublesIff(p: Params, now: Time, events: seq<Event>, e: Event)
    requires var s := Run(p, Start(now), events);
      e.ManualScan? && CreatesFor(p, s, e) && OnePerPair(s.isjs, e.ns)
    ensures var s := Run(p, Start(now), events);
      !OnePerPair(Step(p, s, e).isjs, e.ns)
      <==> exists k | Live(s.isjs, e.ns, k) ::
             Pair(s.isjs[k]) == (e.image, e.scanner) && s.isjs[k].spec.source == Kubernetes
             && |s.isjs[k].spec.digest| > 15
  {
    var s := Run(p, Start(now), events);
    DoublesIfCovered(p, s, e, e.ns);
    forall k | Live(s.isjs, e.ns, k) && Pair(s.isjs[k]) == (e.image, e.scanner)
      ensures s.isjs[k].spec.source == Kubernetes && |s.isjs[k].spec.digest| > 15
    {
      CreationDoubles(p, now, events, e, k);
    }
  }

  /** What a created job makes a double with: a job of the other source. */
  lemma CreationDoubles(p: Params, now: Time, events: seq<Event>, e: Event, k: Key)
    requires var s := Run(p, Start(now), events);
      && Creating(e) && CreatesFor(p, s, e) && Live(s.isjs, CreatedKey(p, s, e).ns, k)
      && Pair(s.isjs[k]) == (CreatedSpec(s, e).image, CreatedSpec(s, e).scanner)
    ensures var s := Run(p, Start(now), events);
      var t, key := Step(p, s, e), CreatedKey(p, s, e);
      && t.isjs[k] == s.isjs[k]
      && (Doubles(p, t.isjs, key.ns, k, key) || Doubles(p, t.isjs, key.ns, key, k))
  {
    var s := Run(p, Start(now), events);
    var t, key := Step(p, s, e), CreatedKey(p, s, e);
    NoDoubleScan(p, now, events + [e], key.ns);
    RunKeepsNamed(p, Start(now), events + [e]);
    RunThen(p, Start(now), events, e);
    TwoOfAPair(p, t.isjs, key.ns, k, key);
  }

  /** The jobs that hold a pair the batch still works on came after `uid`. */
  ghost predicate HeldSince(s: State, ns: string, uid: nat) {
    s.ssc.Ensuring? && s.ssc.batch.ns == ns ==>
      var work := s.ssc.batch.work;
      forall k, i | Live(s.isjs, ns, k) && 0 <= i < |work| && WorkPair(work[i]) == Pair(s.isjs[k]) ::
        s.isjs[k].uid >= uid
  }

  lemma SnapshotHoldsNone(p: Params, s: State, e: Event, ns: string, uid: nat)
    requires e.Snapshot? && s.ssc.SscIdle?
    ensures HeldSince(Step(p, s, e), ns, uid)
  {
    var t := Step(p, s, e);
    assert t == s.(ssc := AfterSnapshot(p, s, e));
    WorklistIsFresh(e.images, e.scanners, Covered(s.isjs, e.ns), e.digests, e.sources);
    if t.ssc.Ensuring? && e.ns == ns {
      var work := t.ssc.batch.work;
      forall k, i | Live(s.isjs, ns, k) && 0 <= i < |work|
        ensures WorkPair(work[i]) != Pair(s.isjs[k])
      {
        assert Pair(s.isjs[k]) in Covered(s.isjs, ns);
        assert FromSnapshot(work[i], Covered(s.isjs, e.ns), e.digests);
      }
    }
  }

  lemma FewerHeldSince(s: State, t: State, ns: string, uid: nat)
    requires HeldSince(s, ns, uid) && NothingNew(s.isjs, t.isjs) && Advances(s.ssc, t.ssc)
    ensures HeldSince(t, ns, uid)
  {}

  lemma CreatedHeldSince(s: State, t: State, key: Key, spec: Spec, ns: string, uid: nat)
    requires HeldSince(s, ns, uid) && Creates(s, t, key, spec) && Advances(s.ssc, t.ssc) && uid <= s.nextUid
    ensures HeldSince(t, ns, uid)
  {}

  lemma StepHeldSince(p: Params, s: State, e: Event, ns: string, uid: nat)
    requires Inv(p, s) && HeldSince(s, ns, uid) && uid <= s.nextUid && !e.Snapshot?
    ensures HeldSince(Step(p, s, e), ns, uid)
  {
    SscAdvances(p, s, e);
    if Creating(e) && CreatesFor(p, s, e) {
      CreatedHeldSince(s, Step(p, s, e), CreatedKey(p, s, e), CreatedSpec(s, e), ns, uid);
    } else {
      StepAddsNothing(p, s, e);
      FewerHeldSince(s, Step(p, s, e), ns, uid);
    }
  }

  lemma {:induction false} RunHeldSince(p: Params, s: State, events: seq<Event>, ns: string, uid: nat)
    requires Inv(p, s) && HeldSince(s, ns, uid) && uid <= s.nextUid
    requires forall i | 0 <= i < |events| :: !events[i].Snapshot?
    ensures HeldSince(Run(p, s, events), ns, uid)
    decreases |events|
  {
    if events != [] {
      StepHeldSince(p, s, events[0], ns, uid);
      StepKeepsInv(p, s, events[0]);
      if uid > 0 {
        StepForgetsUid(p, s, events[0], Key("", ""), uid - 1);
      }
      RunHeldSince(p, Step(p, s, events[0]), events[1..], ns, uid);
    }
  }

  /** A call of a batch makes the first double of a namespace exactly when a job of its pair that has not failed was
      started by hand after the snapshot of the batch. */
  lemma {:induction false} ScheduledDoublesIff(
    p: Params, now: Time, before: seq<Event>, snapshot: Event, between: seq<Event>, ok: bool, ns: string)
    requires Run(p, Start(now), before).ssc.SscIdle? && snapshot.Snapshot?
    requires forall i | 0 <= i < |between| :: !between[i].Snapshot?
    requires var t := Run(p, Start(now), before + [snapshot] + between);
      && CreatesFor(p, t, EnsureCreate(ok)) && OnePerPair(t.isjs, ns)
      && CreatedKey(p, t, EnsureCreate(ok)).ns == ns
    ensures var uid := Run(p, Start(now), before).nextUid;
      var t := Run(p, Start(now), before + [snapshot] + between);
      var spec := CreatedSpec(t, EnsureCreate(ok));
      !OnePerPair(Step(p, t, EnsureCreate(ok)).isjs, ns)
      <==> exists k | Live(t.isjs, ns, k) ::
             Pair(t.isjs[k]) == (spec.image, spec.scanner) && t.isjs[k].spec.source == ByHand && t.isjs[k].uid >= uid
  {
    var s := Run(p, Start(now), before);
    var events := before + [snapshot] + between;
    var t := Run(p, Start(now), events);
    CallsHeldSince(p, now, before, snapshot, between, ns);
    CreatingStepsCreate(p, t, EnsureCreate(ok));
    DoublesIfCovered(p, t, EnsureCreate(ok), ns);
    var spec := CreatedSpec(t, EnsureCreate(ok));
    forall k | Live(t.isjs, ns, k) && Pair(t.isjs[k]) == (spec.image, spec.scanner)
      ensures t.isjs[k].spec.source == ByHand && t.isjs[k].uid >= s.nextUid
    {
      CreationDoubles(p, now, events, EnsureCreate(ok), k);
      assert WorkPair(t.ssc.batch.work[0]) == Pair(t.isjs[k]);
    }
  }

  lemma CallsHeldSince(
    p: Params, now: Time, before: seq<Event>, snapshot: Event, between: seq<Event>, ns: string)
    requires Run(p, Start(now), before).ssc.SscIdle? && snapshot.Snapshot?
    requires forall i | 0 <= i < |between| :: !between[i].Snapshot?
    ensures HeldSince(Run(p, Start(now), before + [snapshot] + between), ns, Run(p, Start(now), before).nextUid)
  {
    var s := Run(p, Start(now), before);
    StartKeepsInv(p, now);
    RunKeepsInv(p, Start(now), before);
    StepKeepsInv(p, s, snapshot);
    QuietSscStepsDelete(p, s, snapshot);
    SnapshotHoldsNone(p, s, snapshot, ns, s.nextUid);
    RunHeldSince(p, Step(p, s, snapshot), between, ns, s.nextUid);
    RunThen(p, Start(now), before, snapshot);
    RunAppend(p, Start(now), before + [snapshot], between);
  }
}
