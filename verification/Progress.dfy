/** How far one undisturbed cycle gets, and how many cycles cover everything. */
module Progress {
  import opened Cluster
  import opened Protocol
  import opened DoubleScan
  import opened Ensure

  // ── What is missing ─────────────────────────────────────────────────────

  function Missing(wanted: seq<Work>, covered: set<(string, string)>): seq<Work> {
    if wanted == [] then []
    else if WorkPair(wanted[0]) in covered then Missing(wanted[1..], covered)
    else [wanted[0]] + Missing(wanted[1..], covered)
  }

  lemma {:induction false} MissingConcat(a: seq<Work>, b: seq<Work>, covered: set<(string, string)>)
    ensures Missing(a + b, covered) == Missing(a, covered) + Missing(b, covered)
  {
    if a == [] {
      assert a + b == b;
    } else {
      assert (a + b)[1..] == a[1..] + b;
      MissingConcat(a[1..], b, covered);
    }
  }

  lemma {:induction false} MissingOfImage(
    image: string, scanners: seq<string>, digest: string, source: string, covered: set<(string, string)>)
    ensures WorkOf(image, Needed(image, scanners, covered), digest, source)
         == Missing(WorkOf(image, scanners, digest, source), covered)
  {
    var all := WorkOf(image, scanners, digest, source);
    if scanners != [] {
      var rest := Needed(image, scanners[1..], covered);
      assert all[1..] == WorkOf(image, scanners[1..], digest, source);
      MissingOfImage(image, scanners[1..], digest, source, covered);
      assert WorkOf(image, [scanners[0]] + rest, digest, source) == [all[0]] + WorkOf(image, rest, digest, source);
    }
  }

  lemma {:induction false} NeededOfNothing(image: string, scanners: seq<string>)
    ensures Needed(image, scanners, {}) == scanners
  {
    if scanners != [] {
      NeededOfNothing(image, scanners[1..]);
    }
  }

  /** The full list: all scanners of the first image in their order, then those of the other images. */
  lemma {:induction false} FullListNext(
    images: seq<string>, scanners: seq<string>, digests: map<string, string>, sources: map<string, string>)
    requires images != []
    ensures var digest := if images[0] in digests then digests[images[0]] else "";
      var source := if images[0] in sources then sources[images[0]] else "";
      Worklist(images, scanners, {}, digests, sources)
        == seq(|scanners|, i requires 0 <= i < |scanners| => Work(images[0], scanners[i], digest, source))
         + Worklist(images[1..], scanners, {}, digests, sources)
  {
    NeededOfNothing(images[0], scanners);
  }

  /** A cycle works on what is missing from the full list of images and scanners, in order. */
  lemma {:induction false} WorklistIsMissing(
    images: seq<string>, scanners: seq<string>, covered: set<(string, string)>,
    digests: map<string, string>, sources: map<string, string>)
    ensures Worklist(images, scanners, covered, digests, sources)
         == Missing(Worklist(images, scanners, {}, digests, sources), covered)
  {
    if images != [] {
      var digest, source := Lookup(digests, images[0]), Lookup(sources, images[0]);
      WorklistIsMissing(images[1..], scanners, covered, digests, sources);
      MissingOfImage(images[0], scanners, digest, source, covered);
      NeededOfNothing(images[0], scanners);
      MissingConcat(WorkOf(images[0], scanners, digest, source),
                    Worklist(images[1..], scanners, {}, digests, sources), covered);
    }
  }

  // ── One call ────────────────────────────────────────────────────────────

  predicate HeldByOther(p: Params, c: Cycle, isjs: ScanJobs, w: Work) {
    WorkKey(p, c, w) in isjs && !isjs[WorkKey(p, c, w)].status.phase.Failed?
  }

  /** No failed job is within its retry interval; so it is in every reachable state of the source. */
  predicate NoneWaiting(c: Cycle, isjs: ScanJobs) {
    forall k | k in isjs && isjs[k].status.phase.Failed? :: !WithinRetryInterval(c.now, isjs[k].status)
  }

  /** A call for an uncovered pair always returns nil and so uses a slot. It covers the pair exactly when
      no job that has not failed holds the name; otherwise the pairs covered stay as they were. */
  lemma {:induction false} CallCoversIff(p: Params, c: Cycle, store: Store, w: Work)
    requires WorkPair(w) !in Covered(store.isjs, c.ns) && NoneWaiting(c, store.isjs)
    ensures var (after, ok) := EnsureJob(p, c, store, w, NO_FAULTS);
      && ok
      && (WorkPair(w) in Covered(after.isjs, c.ns) <==> !HeldByOther(p, c, store.isjs, w))
      && (HeldByOther(p, c, store.isjs, w) ==> Covered(after.isjs, c.ns) == Covered(store.isjs, c.ns))
  {
    if HeldByOther(p, c, store.isjs, w) {
      HeldCallKeeps(p, c, store, w);
    } else {
      CallCreates(p, c, store, w);
    }
  }

  lemma SameCovered(before: ScanJobs, after: ScanJobs, ns: string)
    requires before.Keys == after.Keys
    requires forall k | k in after :: Pair(after[k]) == Pair(before[k]) && after[k].status == before[k].status
    ensures Covered(after, ns) == Covered(before, ns)
  {
    forall pair
      ensures pair in Covered(before, ns) <==> pair in Covered(after, ns)
    {
      if pair in Covered(before, ns) {
        var k :| k in before && k.ns == ns && !before[k].status.phase.Failed? && pair == Pair(before[k]);
        assert k in after;
      }
      if pair in Covered(after, ns) {
        var k :| k in after && k.ns == ns && !after[k].status.phase.Failed? && pair == Pair(after[k]);
        assert k in before;
      }
    }
  }

  /** A call whose name is free, or held by a failed job, puts a new job there and touches nothing else. */
  lemma CallCreates(p: Params, c: Cycle, store: Store, w: Work)
    requires !HeldByOther(p, c, store.isjs, w) && NoneWaiting(c, store.isjs)
    ensures var (after, ok) := EnsureJob(p, c, store, w, NO_FAULTS);
      && ok
      && after.isjs == store.isjs[WorkKey(p, c, w) := JobFor(c, store, w)]
      && Covered(after.isjs, c.ns) == Covered(store.isjs, c.ns) + {WorkPair(w)}
      && NoneWaiting(c, after.isjs)
  {
    var key := WorkKey(p, c, w);
    var after := EnsureJob(p, c, store, w, NO_FAULTS).0;
    assert (store.isjs - {key})[key := JobFor(c, store, w)] == store.isjs[key := JobFor(c, store, w)];
    CoveredGrows(store.isjs, key, JobFor(c, store, w));
  }

  lemma CoveredGrows(isjs: ScanJobs, key: Key, job: ScanJob)
    requires key in isjs ==> isjs[key].status.phase.Failed?
    requires !job.status.phase.Failed?
    ensures Covered(isjs[key := job], key.ns) == Covered(isjs, key.ns) + {Pair(job)}
  {
    var after := isjs[key := job];
    forall pair | pair in Covered(isjs, key.ns)
      ensures pair in Covered(after, key.ns)
    {
      var k :| k in isjs && k.ns == key.ns && !isjs[k].status.phase.Failed? && pair == Pair(isjs[k]);
      assert k in after && after[k] == isjs[k];
    }
    assert key in after && Pair(job) in Covered(after, key.ns);
  }

  // ── One cycle ───────────────────────────────────────────────────────────

  predicate DistinctNames(p: Params, work: seq<Work>) {
    forall i, j | 0 <= i < j < |work| :: WorkName(p, work[i]) != WorkName(p, work[j])
  }

  predicate NoneHeld(p: Params, c: Cycle, isjs: ScanJobs, work: seq<Work>) {
    forall i | 0 <= i < |work| :: !HeldByOther(p, c, isjs, work[i])
  }

  function Pairs(work: seq<Work>): set<(string, string)> {
    set i | 0 <= i < |work| :: WorkPair(work[i])
  }

  lemma AllButOne(p: Params, c: Cycle, store: Store, work: seq<Work>, n: nat)
    requires n < |work|
    ensures var (before, count) := EnsureAll(p, c, store, work[..n], NEVER);
      var (after, ok) := EnsureJob(p, c, before, work[n], NO_FAULTS);
      EnsureAll(p, c, store, work[..n + 1], NEVER) == (after, if ok then count + 1 else count)
  {
    EnsureNext(p, c, store, work[..n], work[n], NEVER);
    assert work[..n] + [work[n]] == work[..n + 1];
  }

  // ── What calls cover when names are held or shared ──────────────────────

  /** The names that jobs hold which have not failed. */
  function HeldNames(isjs: ScanJobs, ns: string): set<string> {
    set k | k in isjs && k.ns == ns && !isjs[k].status.phase.Failed? :: k.name
  }

  /** No job that has not failed holds the name of the call, and no call before it has that name. */
  predicate ComesFirst(p: Params, c: Cycle, isjs: ScanJobs, work: seq<Work>, j: nat)
    requires j < |work|
  {
    WorkName(p, work[j]) !in HeldNames(isjs, c.ns) + Names(p, work[..j])
  }

  /** The pairs of those of the first `n` calls that come first to a free name. */
  function CreatedPairs(p: Params, c: Cycle, isjs: ScanJobs, work: seq<Work>, n: nat): set<(string, string)>
    requires n <= |work|
  {
    set j | 0 <= j < n && ComesFirst(p, c, isjs, work, j) :: WorkPair(work[j])
  }

  /** What `n` calls without faults have done, whatever their names: all returned nil, the pairs covered are those of
      the calls that came first to a free name, and the names of all calls are held. */
  ghost predicate CoveredExactly(p: Params, c: Cycle, store: Store, work: seq<Work>, n: nat, after: Store, count: nat)
    requires n <= |work|
  {
    && count == n
    && NoneWaiting(c, after.isjs)
    && Covered(after.isjs, c.ns) == Covered(store.isjs, c.ns) + CreatedPairs(p, c, store.isjs, work, n)
    && HeldNames(after.isjs, c.ns) == HeldNames(store.isjs, c.ns) + Names(p, work[..n])
  }

  lemma HeldIff(p: Params, c: Cycle, isjs: ScanJobs, w: Work)
    ensures HeldByOther(p, c, isjs, w) <==> WorkName(p, w) in HeldNames(isjs, c.ns)
  {
    if k :| k in isjs && k.ns == c.ns && !isjs[k].status.phase.Failed? && k.name == WorkName(p, w) {
      assert k == WorkKey(p, c, w);
    }
  }

  lemma SameHeld(before: ScanJobs, after: ScanJobs, ns: string)
    requires before.Keys == after.Keys && forall k | k in after :: after[k].status == before[k].status
    ensures HeldNames(after, ns) == HeldNames(before, ns)
  {
    assert forall k :: k in after <==> k in before;
  }

  /** A call whose name is held at most fills in a source namespace. */
  lemma HeldCallKeeps(p: Params, c: Cycle, store: Store, w: Work)
    requires HeldByOther(p, c, store.isjs, w) && NoneWaiting(c, store.isjs)
    ensures var (after, ok) := EnsureJob(p, c, store, w, NO_FAULTS);
      && ok && NoneWaiting(c, after.isjs)
      && Covered(after.isjs, c.ns) == Covered(store.isjs, c.ns)
      && HeldNames(after.isjs, c.ns) == HeldNames(store.isjs, c.ns)
  {
    var after := EnsureJob(p, c, store, w, NO_FAULTS).0;
    assert after.isjs.Keys == store.isjs.Keys;
    assert forall k | k in after.isjs ::
      Pair(after.isjs[k]) == Pair(store.isjs[k]) && after.isjs[k].status == store.isjs[k].status;
    SameCovered(store.isjs, after.isjs, c.ns);
    SameHeld(store.isjs, after.isjs, c.ns);
  }

  lemma HeldGrows(isjs: ScanJobs, key: Key, job: ScanJob)
    requires job.status == FRESH
    ensures HeldNames(isjs[key := job], key.ns) == HeldNames(isjs, key.ns) + {key.name}
  {
    var after := isjs[key := job];
    assert key in after;
    forall k | k in isjs && k.ns == key.ns && !isjs[k].status.phase.Failed?
      ensures k.name in HeldNames(after, key.ns)
    {
      assert k in after;
    }
  }

  /** After a call its name is held; and its pair is newly covered only if the name was not held before. */
  lemma CallHoldsItsName(p: Params, c: Cycle, store: Store, w: Work)
    requires NoneWaiting(c, store.isjs)
    ensures var (after, ok) := EnsureJob(p, c, store, w, NO_FAULTS);
      && ok && NoneWaiting(c, after.isjs)
      && HeldNames(after.isjs, c.ns) == HeldNames(store.isjs, c.ns) + {WorkName(p, w)}
      && Covered(after.isjs, c.ns)
         == Covered(store.isjs, c.ns) + if WorkName(p, w) in HeldNames(store.isjs, c.ns) then {} else {WorkPair(w)}
  {
    HeldIff(p, c, store.isjs, w);
    if HeldByOther(p, c, store.isjs, w) {
      HeldCallKeeps(p, c, store, w);
    } else {
      CallCreates(p, c, store, w);
      HeldGrows(store.isjs, WorkKey(p, c, w), JobFor(c, store, w));
    }
  }

  lemma CreatedPairsNext(p: Params, c: Cycle, isjs: ScanJobs, work: seq<Work>, n: nat)
    requires n < |work|
    ensures CreatedPairs(p, c, isjs, work, n + 1)
         == CreatedPairs(p, c, isjs, work, n) + if ComesFirst(p, c, isjs, work, n) then {WorkPair(work[n])} else {}
  {}

  lemma NamesNext(p: Params, work: seq<Work>, n: nat)
    requires n < |work|
    ensures Names(p, work[..n + 1]) == Names(p, work[..n]) + {WorkName(p, work[n])}
  {
    assert work[..n + 1] == work[..n] + [work[n]];
    forall i | 0 <= i < n
      ensures WorkName(p, work[..n][i]) in Names(p, work[..n + 1])
    {
      assert work[..n + 1][i] == work[..n][i];
    }
    assert work[..n + 1][n] == work[n];
  }

  lemma CoversNextExactly(p: Params, c: Cycle, store: Store, work: seq<Work>, n: nat, before: Store)
    requires n < |work| && CoveredExactly(p, c, store, work, n, before, n)
    ensures var (after, ok) := EnsureJob(p, c, before, work[n], NO_FAULTS);
      ok && CoveredExactly(p, c, store, work, n + 1, after, n + 1)
  {
    CreatedPairsNext(p, c, store.isjs, work, n);
    NamesNext(p, work, n);
    CallHoldsItsName(p, c, before, work[n]);
  }

  lemma CoversOneMoreExactly(p: Params, c: Cycle, store: Store, work: seq<Work>, n: nat)
    requires n < |work|
    requires var (before, count) := EnsureAll(p, c, store, work[..n], NEVER);
      CoveredExactly(p, c, store, work, n, before, count)
    ensures var (after, count) := EnsureAll(p, c, store, work[..n + 1], NEVER);
      CoveredExactly(p, c, store, work, n + 1, after, count)
  {
    CoversNextExactly(p, c, store, work, n, EnsureAll(p, c, store, work[..n], NEVER).0);
    AllButOne(p, c, store, work, n);
  }

  /** Exactly which pairs a batch covers, without any condition on its names: those of the calls that come first to a
      name that no job holds which has not failed. Every other call uses its slot in vain. */
  lemma {:induction false} CallsCoverExactly(p: Params, c: Cycle, store: Store, work: seq<Work>, n: nat)
    requires n <= |work| && NoneWaiting(c, store.isjs)
    ensures var (after, count) := EnsureAll(p, c, store, work[..n], NEVER);
      CoveredExactly(p, c, store, work, n, after, count)
    decreases n
  {
    if n == 0 {
      assert work[..0] == [];
    } else {
      CallsCoverExactly(p, c, store, work, n - 1);
      CoversOneMoreExactly(p, c, store, work, n - 1);
    }
  }

  function Min(a: nat, b: nat): nat {
    if a <= b then a else b
  }

  /** The number of calls a batch makes when none fails: the smaller of its capacity and its worklist. */
  lemma {:induction false} BatchLength(p: Params, c: Cycle, store: Store, work: seq<Work>, n: nat, capacity: nat)
    requires n <= |work| && NoneWaiting(c, store.isjs)
    requires RoomForLast(p, c, store, work[..n], NEVER, capacity)
    requires n < |work| ==> EnsureAll(p, c, store, work[..n], NEVER).1 == capacity
    ensures n == Min(capacity, |work|)
  {
    CallsCoverExactly(p, c, store, work, n);
    if n > 0 {
      CallsCoverExactly(p, c, store, work, n - 1);
      assert work[..n][..n - 1] == work[..n - 1];
    }
  }

  lemma {:induction false} MissingIsOutside(wanted: seq<Work>, covered: set<(string, string)>)
    ensures forall w :: w in Missing(wanted, covered) <==> w in wanted && WorkPair(w) !in covered
  {
    if wanted != [] {
      MissingIsOutside(wanted[1..], covered);
      assert wanted == [wanted[0]] + wanted[1..];
    }
  }

  lemma {:induction false} MissingTwice(wanted: seq<Work>, covered: set<(string, string)>, more: set<(string, string)>)
    ensures Missing(wanted, covered + more) == Missing(Missing(wanted, covered), more)
  {
    if wanted != [] {
      MissingTwice(wanted[1..], covered, more);
      MissingConcat([wanted[0]], Missing(wanted[1..], covered), more);
    }
  }

  lemma {:induction false} MissingNothing(work: seq<Work>, pairs: set<(string, string)>)
    requires forall i | 0 <= i < |work| :: WorkPair(work[i]) !in pairs
    ensures Missing(work, pairs) == work
  {
    if work != [] {
      MissingNothing(work[1..], pairs);
    }
  }

  lemma {:induction false} MissingAll(work: seq<Work>, pairs: set<(string, string)>)
    requires forall i | 0 <= i < |work| :: WorkPair(work[i]) in pairs
    ensures Missing(work, pairs) == []
  {
    if work != [] {
      MissingAll(work[1..], pairs);
    }
  }

  predicate DistinctPairs(work: seq<Work>) {
    forall i, j | 0 <= i < j < |work| :: WorkPair(work[i]) != WorkPair(work[j])
  }

  lemma MissingAfterPrefix(work: seq<Work>, n: nat)
    requires n <= |work| && DistinctPairs(work)
    ensures Missing(work, Pairs(work[..n])) == work[n..]
  {
    assert Missing(work[..n], Pairs(work[..n])) == [] && Missing(work[n..], Pairs(work[..n])) == work[n..] by {
      PrefixPairs(work, n);
      MissingAll(work[..n], Pairs(work[..n]));
      MissingNothing(work[n..], Pairs(work[..n]));
    }
    assert work == work[..n] + work[n..];
    MissingConcat(work[..n], work[n..], Pairs(work[..n]));
  }

  lemma PrefixPairs(work: seq<Work>, n: nat)
    requires n <= |work| && DistinctPairs(work)
    ensures var first, rest := work[..n], work[n..];
      && (forall i | 0 <= i < |first| :: WorkPair(first[i]) in Pairs(first))
      && (forall i | 0 <= i < |rest| :: WorkPair(rest[i]) !in Pairs(first))
  {
    var first, rest := work[..n], work[n..];
    forall i, j | 0 <= i < |first| && 0 <= j < |rest|
      ensures WorkPair(first[i]) != WorkPair(rest[j])
    {
      assert first[i] == work[i] && rest[j] == work[n + j];
    }
  }

  /** The names that are still needed are distinct and free, and so are the pairs. */
  ghost predicate Ready(p: Params, c: Cycle, isjs: ScanJobs, work: seq<Work>) {
    DistinctNames(p, work) && DistinctPairs(work) && NoneHeld(p, c, isjs, work) && NoneWaiting(c, isjs)
  }

  function AfterCycle(p: Params, c: Cycle, store: Store, work: seq<Work>, capacity: nat): ScanJobs {
    EnsureAll(p, c, store, work[..Min(capacity, |work|)], NEVER).0.isjs
  }

  lemma AllFreeAreCreated(p: Params, c: Cycle, isjs: ScanJobs, work: seq<Work>, n: nat)
    requires n <= |work| && DistinctNames(p, work) && NoneHeld(p, c, isjs, work)
    ensures CreatedPairs(p, c, isjs, work, n) == Pairs(work[..n])
  {
    forall j | 0 <= j < n
      ensures ComesFirst(p, c, isjs, work, j)
    {
      HeldIff(p, c, isjs, work[j]);
      assert forall i | 0 <= i < j :: work[..j][i] == work[i];
    }
    assert forall j | 0 <= j < n :: work[..n][j] == work[j];
  }

  /** One cycle without faults: what was missing loses exactly its first min(capacity, missing) entries. */
  lemma {:induction false} CycleCoversPrefix(p: Params, c: Cycle, store: Store, wanted: seq<Work>, capacity: nat)
    requires Ready(p, c, store.isjs, Missing(wanted, Covered(store.isjs, c.ns)))
    ensures var work := Missing(wanted, Covered(store.isjs, c.ns));
      Missing(wanted, Covered(AfterCycle(p, c, store, work, capacity), c.ns)) == work[Min(capacity, |work|)..]
  {
    var covered := Covered(store.isjs, c.ns);
    var work := Missing(wanted, covered);
    var n := Min(capacity, |work|);
    CallsCoverExactly(p, c, store, work, n);
    AllFreeAreCreated(p, c, store.isjs, work, n);
    MissingTwice(wanted, covered, Pairs(work[..n]));
    MissingAfterPrefix(work, n);
  }

  // ── Many cycles ─────────────────────────────────────────────────────────

  /** The pairs of a list of calls, in order. */
  function PairList(work: seq<Work>): seq<(string, string)> {
    seq(|work|, i requires 0 <= i < |work| => WorkPair(work[i]))
  }

  /** The (image, scanner) pairs that are not covered, in the order in which a cycle works on them. */
  function MissingPairs(
    images: seq<string>, scanners: seq<string>, covered: set<(string, string)>): seq<(string, string)>
  {
    PairList(Worklist(images, scanners, covered, map[], map[]))
  }

  lemma PairListConcat(a: seq<Work>, b: seq<Work>)
    ensures PairList(a + b) == PairList(a) + PairList(b)
  {}

  lemma PairsOfImage(image: string, scanners: seq<string>, digest: string, source: string)
    ensures PairList(WorkOf(image, scanners, digest, source)) == PairList(WorkOf(image, scanners, "", ""))
  {}

  /** What is missing does not depend on what the lookups of a cycle return. */
  lemma {:induction false} LookupsDoNotMatter(
    images: seq<string>, scanners: seq<string>, covered: set<(string, string)>,
    digests: map<string, string>, sources: map<string, string>)
    ensures PairList(Worklist(images, scanners, covered, digests, sources)) == MissingPairs(images, scanners, covered)
  {
    if images != [] {
      var needed := Needed(images[0], scanners, covered);
      LookupsDoNotMatter(images[1..], scanners, covered, digests, sources);
      PairsOfImage(images[0], needed, Lookup(digests, images[0]), Lookup(sources, images[0]));
      PairListConcat(WorkOf(images[0], needed, Lookup(digests, images[0]), Lookup(sources, images[0])),
                     Worklist(images[1..], scanners, covered, digests, sources));
      PairListConcat(WorkOf(images[0], needed, "", ""), Worklist(images[1..], scanners, covered, map[], map[]));
    }
  }

  /** One cycle among many: when it runs and what it finds, what its lookups return, the calls it makes and the
      store it leaves. */
  datatype Round = Round(
    c: Cycle, store: Store, digests: map<string, string>, sources: map<string, string>,
    attempted: seq<Work>, after: Store)

  function RoundWork(images: seq<string>, scanners: seq<string>, r: Round): seq<Work> {
    Worklist(images, scanners, Covered(r.store.isjs, r.c.ns), r.digests, r.sources)
  }

  /** The slots that the throttle leaves. */
  function FreeSlots(p: Params, r: Round): nat {
    var open := |Open(r.store.isjs, r.c.ns)|;
    if EffectiveMaxConcurrentScans(p) <= open then 0 else EffectiveMaxConcurrentScans(p) - open
  }

  /** The cycle runs undisturbed and without faults, and no failed job waits for its retry. */
  ghost predicate CleanRound(p: Params, images: seq<string>, scanners: seq<string>, r: Round) {
    && CycleDone(p, r.c, r.store, RoundWork(images, scanners, r), NEVER, r.attempted, r.after)
    && NoneWaiting(r.c, r.store.isjs)
  }

  /** Besides, the names that it still needs are distinct, and no job that has not failed holds one of them. */
  ghost predicate GoodRound(p: Params, images: seq<string>, scanners: seq<string>, r: Round) {
    var work := RoundWork(images, scanners, r);
    CleanRound(p, images, scanners, r) && DistinctNames(p, work) && NoneHeld(p, r.c, r.store.isjs, work)
  }

  lemma NamesSeparatePairs(p: Params, work: seq<Work>)
    requires OneDigestPerImage(work) && DistinctNames(p, work)
    ensures DistinctPairs(work)
  {}

  lemma RoundAttempts(p: Params, images: seq<string>, scanners: seq<string>, r: Round)
    requires CleanRound(p, images, scanners, r)
    ensures var work := RoundWork(images, scanners, r);
      r.attempted == work[..Min(FreeSlots(p, r), |work|)]
  {
    var work := RoundWork(images, scanners, r);
    var n := |r.attempted|;
    assert r.attempted == work[..n];
    if FreeSlots(p, r) > 0 {
      BatchLength(p, r.c, r.store, work, n, FreeSlots(p, r));
    }
  }

  lemma RoundLeaves(p: Params, images: seq<string>, scanners: seq<string>, r: Round)
    requires GoodRound(p, images, scanners, r)
    ensures var work := RoundWork(images, scanners, r);
      Worklist(images, scanners, Covered(r.after.isjs, r.c.ns), r.digests, r.sources)
        == work[Min(FreeSlots(p, r), |work|)..]
  {
    var ns, work := r.c.ns, RoundWork(images, scanners, r);
    WorklistIsFresh(images, scanners, Covered(r.store.isjs, ns), r.digests, r.sources);
    NamesSeparatePairs(p, work);
    RoundAttempts(p, images, scanners, r);
    WorklistIsMissing(images, scanners, Covered(r.store.isjs, ns), r.digests, r.sources);
    WorklistIsMissing(images, scanners, Covered(r.after.isjs, ns), r.digests, r.sources);
    CycleCoversPrefix(p, r.c, r.store, Worklist(images, scanners, {}, r.digests, r.sources), FreeSlots(p, r));
  }

  lemma PairListDrop(work: seq<Work>, n: nat)
    requires n <= |work|
    ensures PairList(work[n..]) == PairList(work)[n..]
  {}

  /** One cycle takes exactly min(free slots, missing) pairs off what is missing, from the front. */
  lemma {:induction false} RoundCovers(p: Params, images: seq<string>, scanners: seq<string>, r: Round)
    requires GoodRound(p, images, scanners, r)
    ensures var missing := MissingPairs(images, scanners, Covered(r.store.isjs, r.c.ns));
      MissingPairs(images, scanners, Covered(r.after.isjs, r.c.ns)) == missing[Min(FreeSlots(p, r), |missing|)..]
  {
    var work := RoundWork(images, scanners, r);
    RoundLeaves(p, images, scanners, r);
    PairListDrop(work, Min(FreeSlots(p, r), |work|));
    LookupsDoNotMatter(images, scanners, Covered(r.store.isjs, r.c.ns), r.digests, r.sources);
    LookupsDoNotMatter(images, scanners, Covered(r.after.isjs, r.c.ns), r.digests, r.sources);
  }

  // ── When a cycle gets on, and when it finishes ──────────────────────────

  lemma RoundCoversExactly(p: Params, images: seq<string>, scanners: seq<string>, r: Round)
    requires CleanRound(p, images, scanners, r)
    ensures var work := RoundWork(images, scanners, r);
      var n := Min(FreeSlots(p, r), |work|);
      Covered(r.after.isjs, r.c.ns) == Covered(r.store.isjs, r.c.ns) + CreatedPairs(p, r.c, r.store.isjs, work, n)
  {
    var work := RoundWork(images, scanners, r);
    RoundAttempts(p, images, scanners, r);
    CallsCoverExactly(p, r.c, r.store, work, Min(FreeSlots(p, r), |work|));
  }

  /** A name that is free is created by the first of the calls that have it. */
  lemma {:induction false} FirstOfItsName(p: Params, c: Cycle, isjs: ScanJobs, work: seq<Work>, j: nat)
    requires j < |work| && !HeldByOther(p, c, isjs, work[j])
    ensures exists i | 0 <= i <= j :: WorkName(p, work[i]) == WorkName(p, work[j]) && ComesFirst(p, c, isjs, work, i)
    decreases j
  {
    HeldIff(p, c, isjs, work[j]);
    if earlier :| 0 <= earlier < j && WorkName(p, work[earlier]) == WorkName(p, work[j]) {
      FirstOfItsName(p, c, isjs, work, earlier);
    } else {
      assert forall k | 0 <= k < |work[..j]| :: work[..j][k] == work[k];
      assert ComesFirst(p, c, isjs, work, j);
    }
  }

  lemma FirstIsFree(p: Params, c: Cycle, isjs: ScanJobs, work: seq<Work>, j: nat)
    requires j < |work| && ComesFirst(p, c, isjs, work, j)
    ensures !HeldByOther(p, c, isjs, work[j])
    ensures forall i | 0 <= i < j :: WorkName(p, work[i]) != WorkName(p, work[j])
  {
    HeldIff(p, c, isjs, work[j]);
    forall i | 0 <= i < j
      ensures WorkName(p, work[i]) in Names(p, work[..j])
    {
      assert work[..j][i] == work[i];
    }
  }

  /** The exact condition for progress: a cycle covers something new if and only if one of the calls that its slots
      allow has a name that no job holds which has not failed. When older tags of digests that are scanned already
      take all its slots, it covers nothing, and neither does the next cycle over the same jobs. */
  lemma {:induction false} RoundProgressesIff(p: Params, images: seq<string>, scanners: seq<string>, r: Round)
    requires CleanRound(p, images, scanners, r)
    ensures var work := RoundWork(images, scanners, r);
      Covered(r.after.isjs, r.c.ns) != Covered(r.store.isjs, r.c.ns)
      <==> exists j | 0 <= j < Min(FreeSlots(p, r), |work|) :: !HeldByOther(p, r.c, r.store.isjs, work[j])
  {
    var covered := Covered(r.store.isjs, r.c.ns);
    var work := RoundWork(images, scanners, r);
    var n := Min(FreeSlots(p, r), |work|);
    RoundCoversExactly(p, images, scanners, r);
    WorklistIsFresh(images, scanners, covered, r.digests, r.sources);
    if j :| 0 <= j < n && !HeldByOther(p, r.c, r.store.isjs, work[j]) {
      FirstOfItsName(p, r.c, r.store.isjs, work, j);
      var i :| 0 <= i <= j && ComesFirst(p, r.c, r.store.isjs, work, i);
      assert WorkPair(work[i]) in CreatedPairs(p, r.c, r.store.isjs, work, n);
      assert FromSnapshot(work[i], covered, r.digests);
    } else {
      forall j | 0 <= j < n && ComesFirst(p, r.c, r.store.isjs, work, j)
        ensures false
      {
        FirstIsFree(p, r.c, r.store.isjs, work, j);
      }
      assert CreatedPairs(p, r.c, r.store.isjs, work, n) == {};
    }
  }

  /** The names still needed are free, and calls for different pairs have different ones. */
  predicate NamesSuffice(p: Params, c: Cycle, isjs: ScanJobs, work: seq<Work>) {
    && NoneHeld(p, c, isjs, work)
    && forall i, j | 0 <= i < |work| && 0 <= j < |work| && WorkName(p, work[i]) == WorkName(p, work[j]) ::
         WorkPair(work[i]) == WorkPair(work[j])
  }

  lemma CreatesAllIff(p: Params, c: Cycle, isjs: ScanJobs, work: seq<Work>)
    requires OneDigestPerImage(work)
    ensures (forall j | 0 <= j < |work| :: WorkPair(work[j]) in CreatedPairs(p, c, isjs, work, |work|))
       <==> NamesSuffice(p, c, isjs, work)
  {
    if forall j | 0 <= j < |work| :: WorkPair(work[j]) in CreatedPairs(p, c, isjs, work, |work|) {
      AllCreatedSuffice(p, c, isjs, work);
    } else if NamesSuffice(p, c, isjs, work) {
      forall j | 0 <= j < |work|
        ensures WorkPair(work[j]) in CreatedPairs(p, c, isjs, work, |work|)
      {
        FirstOfItsName(p, c, isjs, work, j);
        var i :| 0 <= i <= j && WorkName(p, work[i]) == WorkName(p, work[j]) && ComesFirst(p, c, isjs, work, i);
        assert WorkPair(work[i]) == WorkPair(work[j]);
      }
    }
  }

  lemma CreatorOf(p: Params, c: Cycle, isjs: ScanJobs, work: seq<Work>, j: nat)
    requires OneDigestPerImage(work) && j < |work| && WorkPair(work[j]) in CreatedPairs(p, c, isjs, work, |work|)
    ensures exists i | 0 <= i < |work| && ComesFirst(p, c, isjs, work, i) ::
      WorkPair(work[i]) == WorkPair(work[j]) && WorkName(p, work[i]) == WorkName(p, work[j])
  {
    var i :| 0 <= i < |work| && ComesFirst(p, c, isjs, work, i) && WorkPair(work[i]) == WorkPair(work[j]);
    assert WorkName(p, work[i]) == WorkName(p, work[j]);
  }

  lemma AllCreatedSuffice(p: Params, c: Cycle, isjs: ScanJobs, work: seq<Work>)
    requires OneDigestPerImage(work)
    requires forall j | 0 <= j < |work| :: WorkPair(work[j]) in CreatedPairs(p, c, isjs, work, |work|)
    ensures NamesSuffice(p, c, isjs, work)
  {
    forall j | 0 <= j < |work|
      ensures !HeldByOther(p, c, isjs, work[j])
    {
      CreatorOf(p, c, isjs, work, j);
      var i :| 0 <= i < |work| && ComesFirst(p, c, isjs, work, i)
        && WorkPair(work[i]) == WorkPair(work[j]) && WorkName(p, work[i]) == WorkName(p, work[j]);
      FirstIsFree(p, c, isjs, work, i);
    }
    forall j, k | 0 <= j < |work| && 0 <= k < |work| && WorkName(p, work[j]) == WorkName(p, work[k])
      ensures WorkPair(work[j]) == WorkPair(work[k])
    {
      CreatorOf(p, c, isjs, work, j);
      var a :| 0 <= a < |work| && ComesFirst(p, c, isjs, work, a)
        && WorkPair(work[a]) == WorkPair(work[j]) && WorkName(p, work[a]) == WorkName(p, work[j]);
      CreatorOf(p, c, isjs, work, k);
      var b :| 0 <= b < |work| && ComesFirst(p, c, isjs, work, b)
        && WorkPair(work[b]) == WorkPair(work[k]) && WorkName(p, work[b]) == WorkName(p, work[k]);
      FirstIsFree(p, c, isjs, work, a);
      FirstIsFree(p, c, isjs, work, b);
      assert a == b;
    }
  }

  /** The exact condition for finishing: a cycle with a slot for every call leaves nothing missing if and only if the
      names that it needs are free and tell different pairs apart. */
  lemma {:induction false} RoundFinishesIff(p: Params, images: seq<string>, scanners: seq<string>, r: Round)
    requires CleanRound(p, images, scanners, r) && |RoundWork(images, scanners, r)| <= FreeSlots(p, r)
    ensures MissingPairs(images, scanners, Covered(r.after.isjs, r.c.ns)) == []
       <==> NamesSuffice(p, r.c, r.store.isjs, RoundWork(images, scanners, r))
  {
    var ns, work := r.c.ns, RoundWork(images, scanners, r);
    var created := CreatedPairs(p, r.c, r.store.isjs, work, |work|);
    var left := Worklist(images, scanners, Covered(r.after.isjs, ns), r.digests, r.sources);
    assert left == Missing(work, created) by {
      RoundCoversExactly(p, images, scanners, r);
      WorklistIsMissing(images, scanners, Covered(r.store.isjs, ns), r.digests, r.sources);
      WorklistIsMissing(images, scanners, Covered(r.after.isjs, ns), r.digests, r.sources);
      MissingTwice(Worklist(images, scanners, {}, r.digests, r.sources), Covered(r.store.isjs, ns), created);
    }
    LookupsDoNotMatter(images, scanners, Covered(r.after.isjs, ns), r.digests, r.sources);
    assert |PairList(left)| == |left|;
    WorklistIsFresh(images, scanners, Covered(r.store.isjs, ns), r.digests, r.sources);
    NoneMissingIff(work, created);
    CreatesAllIff(p, r.c, r.store.isjs, work);
  }

  lemma NoneMissingIff(work: seq<Work>, pairs: set<(string, string)>)
    ensures Missing(work, pairs) == [] <==> forall j | 0 <= j < |work| :: WorkPair(work[j]) in pairs
  {
    MissingIsOutside(work, pairs);
    if forall j | 0 <= j < |work| :: WorkPair(work[j]) in pairs {
      MissingAll(work, pairs);
    } else {
      var j :| 0 <= j < |work| && WorkPair(work[j]) !in pairs;
      assert work[j] in Missing(work, pairs);
    }
  }

  lemma OpenGrows(isjs: ScanJobs, key: Key, job: ScanJob)
    requires job.status == FRESH && (key in isjs ==> isjs[key].status.phase.Failed?)
    ensures |Open(isjs[key := job], key.ns)| == |Open(isjs, key.ns)| + 1
  {
    assert Open(isjs[key := job], key.ns) == Open(isjs, key.ns) + {key};
  }

  lemma FreeCallOpens(p: Params, c: Cycle, store: Store, w: Work)
    requires !HeldByOther(p, c, store.isjs, w) && NoneWaiting(c, store.isjs)
    ensures |Open(EnsureJob(p, c, store, w, NO_FAULTS).0.isjs, c.ns)| == |Open(store.isjs, c.ns)| + 1
  {
    CallCreates(p, c, store, w);
    OpenGrows(store.isjs, WorkKey(p, c, w), JobFor(c, store, w));
  }

  lemma NextOpens(p: Params, c: Cycle, store: Store, work: seq<Work>, n: nat)
    requires n < |work| && DistinctNames(p, work) && NoneHeld(p, c, store.isjs, work) && NoneWaiting(c, store.isjs)
    ensures |Open(EnsureAll(p, c, store, work[..n + 1], NEVER).0.isjs, c.ns)|
         == |Open(EnsureAll(p, c, store, work[..n], NEVER).0.isjs, c.ns)| + 1
  {
    var (before, count) := EnsureAll(p, c, store, work[..n], NEVER);
    assert CoveredExactly(p, c, store, work, n, before, count) by {
      CallsCoverExactly(p, c, store, work, n);
    }
    NextIsFree(p, c, store, work, n, before);
    FreeCallOpens(p, c, before, work[n]);
    AllButOne(p, c, store, work, n);
  }

  lemma {:induction false} CallsOpen(p: Params, c: Cycle, store: Store, work: seq<Work>, n: nat)
    requires n <= |work| && DistinctNames(p, work) && NoneHeld(p, c, store.isjs, work) && NoneWaiting(c, store.isjs)
    ensures |Open(EnsureAll(p, c, store, work[..n], NEVER).0.isjs, c.ns)| == |Open(store.isjs, c.ns)| + n
    decreases n
  {
    if n > 0 {
      CallsOpen(p, c, store, work, n - 1);
      NextOpens(p, c, store, work, n - 1);
    } else {
      assert work[..0] == [];
    }
  }

  lemma NextIsFree(p: Params, c: Cycle, store: Store, work: seq<Work>, n: nat, before: Store)
    requires n < |work| && DistinctNames(p, work) && NoneHeld(p, c, store.isjs, work)
    requires CoveredExactly(p, c, store, work, n, before, n)
    ensures !HeldByOther(p, c, before.isjs, work[n])
  {
    HeldIff(p, c, before.isjs, work[n]);
    HeldIff(p, c, store.isjs, work[n]);
    assert forall i | 0 <= i < n :: work[..n][i] == work[i];
  }

  /** A cycle with enough to do, under names that are distinct and free, fills the namespace up to the limit: the
      setting, or ten when there is none. */
  lemma {:induction false} CycleReachesLimit(p: Params, images: seq<string>, scanners: seq<string>, r: Round)
    requires GoodRound(p, images, scanners, r)
    requires |Open(r.store.isjs, r.c.ns)| <= if p.maxConcurrentScans > 0 then p.maxConcurrentScans else 10
    requires |Open(r.store.isjs, r.c.ns)| + |RoundWork(images, scanners, r)|
      >= if p.maxConcurrentScans > 0 then p.maxConcurrentScans else 10
    ensures |set k | && k in r.after.isjs && k.ns == r.c.ns && !r.after.isjs[k].status.phase.Completed?
                     && !r.after.isjs[k].status.phase.Failed?|
      == if p.maxConcurrentScans > 0 then p.maxConcurrentScans else 10
  {
    var work := RoundWork(images, scanners, r);
    RoundAttempts(p, images, scanners, r);
    CallsOpen(p, r.c, r.store, work, Min(FreeSlots(p, r), |work|));
    assert Open(r.after.isjs, r.c.ns)
        == set k | && k in r.after.isjs && k.ns == r.c.ns && !r.after.isjs[k].status.phase.Completed?
                   && !r.after.isjs[k].status.phase.Failed?;
  }

  function TotalSlots(p: Params, rounds: seq<Round>): nat {
    if rounds == [] then 0 else TotalSlots(p, rounds[..|rounds| - 1]) + FreeSlots(p, rounds[|rounds| - 1])
  }

  /** Cycles over one namespace. Between two of them jobs run, finish, are cleaned up and looked up anew; `kept`
      says that the covered pairs are the same afterwards, and otherwise they may also have become more. */
  ghost predicate Rounds(
    p: Params, images: seq<string>, scanners: seq<string>, ns: string, rounds: seq<Round>, kept: bool)
  {
    && rounds != []
    && (forall i | 0 <= i < |rounds| :: rounds[i].c.ns == ns && GoodRound(p, images, scanners, rounds[i]))
    && (forall i | 0 < i < |rounds| ::
          && Covered(rounds[i - 1].after.isjs, ns) <= Covered(rounds[i].store.isjs, ns)
          && (kept ==> Covered(rounds[i].store.isjs, ns) == Covered(rounds[i - 1].after.isjs, ns)))
  }

  lemma FewerRounds(p: Params, images: seq<string>, scanners: seq<string>, ns: string, rounds: seq<Round>, kept: bool)
    requires Rounds(p, images, scanners, ns, rounds, kept) && |rounds| > 1
    ensures Rounds(p, images, scanners, ns, rounds[..|rounds| - 1], kept)
  {
    var front := rounds[..|rounds| - 1];
    assert forall i | 0 <= i < |front| :: front[i] == rounds[i];
  }

  lemma LastRound(p: Params, images: seq<string>, scanners: seq<string>, ns: string, rounds: seq<Round>)
    requires Rounds(p, images, scanners, ns, rounds, true) && |rounds| > 1
    ensures var front, last := rounds[..|rounds| - 1], rounds[|rounds| - 1];
      && GoodRound(p, images, scanners, last) && last.c.ns == ns
      && Covered(last.store.isjs, ns) == Covered(front[|front| - 1].after.isjs, ns)
  {}

  /** What is missing is what is left of `first` once `done` slots are used. */
  ghost predicate LeftOf(
    images: seq<string>, scanners: seq<string>, covered: set<(string, string)>,
    first: seq<(string, string)>, done: nat)
  {
    MissingPairs(images, scanners, covered) == first[Min(done, |first|)..]
  }

  lemma NextRound(
    p: Params, images: seq<string>, scanners: seq<string>, r: Round, first: seq<(string, string)>, done: nat)
    requires GoodRound(p, images, scanners, r)
    requires LeftOf(images, scanners, Covered(r.store.isjs, r.c.ns), first, done)
    ensures LeftOf(images, scanners, Covered(r.after.isjs, r.c.ns), first, done + FreeSlots(p, r))
  {
    RoundCovers(p, images, scanners, r);
    DropTwice(first, Min(done, |first|), FreeSlots(p, r));
  }

  lemma DropTwice<T>(s: seq<T>, a: nat, b: nat)
    requires a <= |s|
    ensures s[a..][Min(b, |s[a..]|)..] == s[Min(a + b, |s|)..]
  {}

  /** What is missing after the last of the cycles is what their slots have left of what was missing at first. */
  ghost predicate SlotsLeave(p: Params, images: seq<string>, scanners: seq<string>, ns: string, rounds: seq<Round>)
    requires rounds != []
  {
    LeftOf(images, scanners, Covered(rounds[|rounds| - 1].after.isjs, ns),
           MissingPairs(images, scanners, Covered(rounds[0].store.isjs, ns)), TotalSlots(p, rounds))
  }

  lemma FirstRoundLeaves(p: Params, images: seq<string>, scanners: seq<string>, r: Round)
    requires GoodRound(p, images, scanners, r)
    ensures SlotsLeave(p, images, scanners, r.c.ns, [r])
  {
    OneRound(p, r);
    AllIsLeft(images, scanners, Covered(r.store.isjs, r.c.ns));
    NextRound(p, images, scanners, r, MissingPairs(images, scanners, Covered(r.store.isjs, r.c.ns)), 0);
  }

  lemma OneRound(p: Params, r: Round)
    ensures TotalSlots(p, [r]) == FreeSlots(p, r)
  {
    assert [r][..0] == [];
  }

  lemma AllIsLeft(images: seq<string>, scanners: seq<string>, covered: set<(string, string)>)
    ensures LeftOf(images, scanners, covered, MissingPairs(images, scanners, covered), 0)
  {}

  lemma LastRoundLeaves(
    p: Params, images: seq<string>, scanners: seq<string>, front: seq<Round>, r: Round)
    requires front != [] && SlotsLeave(p, images, scanners, r.c.ns, front) && GoodRound(p, images, scanners, r)
    requires Covered(r.store.isjs, r.c.ns) == Covered(front[|front| - 1].after.isjs, r.c.ns)
    ensures SlotsLeave(p, images, scanners, r.c.ns, front + [r])
  {
    Appended(p, front, r);
    NextRound(p, images, scanners, r, MissingPairs(images, scanners, Covered(front[0].store.isjs, r.c.ns)),
              TotalSlots(p, front));
  }

  lemma Appended(p: Params, front: seq<Round>, r: Round)
    requires front != []
    ensures (front + [r])[0] == front[0] && (front + [r])[|front + [r]| - 1] == r
    ensures TotalSlots(p, front + [r]) == TotalSlots(p, front) + FreeSlots(p, r)
  {
    assert (front + [r])[..|front|] == front;
  }

  lemma {:induction false} RoundsLeave(
    p: Params, images: seq<string>, scanners: seq<string>, ns: string, rounds: seq<Round>)
    requires Rounds(p, images, scanners, ns, rounds, true)
    ensures SlotsLeave(p, images, scanners, ns, rounds)
    decreases |rounds|
  {
    if |rounds| == 1 {
      FirstRoundLeaves(p, images, scanners, rounds[0]);
      assert rounds == [rounds[0]];
    } else {
      var front, last := rounds[..|rounds| - 1], rounds[|rounds| - 1];
      FewerRounds(p, images, scanners, ns, rounds, true);
      LastRound(p, images, scanners, ns, rounds);
      RoundsLeave(p, images, scanners, ns, front);
      LastRoundLeaves(p, images, scanners, front, last);
      assert rounds == front + [last];
    }
  }

  /** After any number of cycles, each with its own clock, digests and free slots, what is missing is what the
      slots have not used up. */
  lemma {:induction false} CyclesCover(
    p: Params, images: seq<string>, scanners: seq<string>, ns: string, rounds: seq<Round>)
    requires Rounds(p, images, scanners, ns, rounds, true)
    ensures var first := MissingPairs(images, scanners, Covered(rounds[0].store.isjs, ns));
      MissingPairs(images, scanners, Covered(rounds[|rounds| - 1].after.isjs, ns))
        == first[Min(TotalSlots(p, rounds), |first|)..]
  {
    RoundsLeave(p, images, scanners, ns, rounds);
  }

  lemma {:induction false} MoreCoveredLessNeeded(
    image: string, scanners: seq<string>, covered: set<(string, string)>, more: set<(string, string)>)
    requires covered <= more
    ensures |Needed(image, scanners, more)| <= |Needed(image, scanners, covered)|
  {
    if scanners != [] {
      MoreCoveredLessNeeded(image, scanners[1..], covered, more);
    }
  }

  lemma {:induction false} MoreCoveredLessMissing(
    images: seq<string>, scanners: seq<string>, covered: set<(string, string)>, more: set<(string, string)>)
    requires covered <= more
    ensures |MissingPairs(images, scanners, more)| <= |MissingPairs(images, scanners, covered)|
  {
    if images != [] {
      MoreCoveredLessNeeded(images[0], scanners, covered, more);
      MoreCoveredLessMissing(images[1..], scanners, covered, more);
    }
  }

  /** When other pairs may become covered meanwhile, at most that much is left. */
  lemma {:induction false} CyclesLeaveAtMost(
    p: Params, images: seq<string>, scanners: seq<string>, ns: string, rounds: seq<Round>)
    requires Rounds(p, images, scanners, ns, rounds, false)
    ensures var first := |MissingPairs(images, scanners, Covered(rounds[0].store.isjs, ns))|;
      |MissingPairs(images, scanners, Covered(rounds[|rounds| - 1].after.isjs, ns))|
        <= first - Min(TotalSlots(p, rounds), first)
    decreases |rounds|
  {
    var n := |rounds| - 1;
    RoundCovers(p, images, scanners, rounds[n]);
    if n == 0 {
      assert rounds[..0] == [];
    } else {
      FewerRounds(p, images, scanners, ns, rounds, false);
      CyclesLeaveAtMost(p, images, scanners, ns, rounds[..n]);
      MoreCoveredLessMissing(images, scanners,
                             Covered(rounds[n - 1].after.isjs, ns), Covered(rounds[n].store.isjs, ns));
    }
  }

  lemma {:induction false} EachRoundGives(p: Params, rounds: seq<Round>)
    requires forall i | 0 <= i < |rounds| :: FreeSlots(p, rounds[i]) > 0
    ensures TotalSlots(p, rounds) >= |rounds|
  {
    if rounds != [] {
      EachRoundGives(p, rounds[..|rounds| - 1]);
    }
  }

  /** So repeated cycles end with nothing left to scan, as soon as their free slots add up to what was missing at
      first: after at most that many cycles when each finds a free slot. */
  lemma {:induction false} EverythingIsCovered(
    p: Params, images: seq<string>, scanners: seq<string>, ns: string, rounds: seq<Round>)
    requires Rounds(p, images, scanners, ns, rounds, false)
    requires var first := |MissingPairs(images, scanners, Covered(rounds[0].store.isjs, ns))|;
      || TotalSlots(p, rounds) >= first
      || (|rounds| >= first && forall i | 0 <= i < |rounds| :: FreeSlots(p, rounds[i]) > 0)
    ensures MissingPairs(images, scanners, Covered(rounds[|rounds| - 1].after.isjs, ns)) == []
  {
    CyclesLeaveAtMost(p, images, scanners, ns, rounds);
    if forall i | 0 <= i < |rounds| :: FreeSlots(p, rounds[i]) > 0 {
      EachRoundGives(p, rounds);
    }
  }
}
