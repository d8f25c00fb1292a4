/** One undisturbed call of ensureImageScanJob, and a sequence of them. */
module Ensure {
  import opened Cluster
  import opened Naming
  import opened Protocol
  import opened Steps

  /** Which API requests of one call fail. */
  datatype Faults = Faults(onGet: bool, onPatch: bool, onDelete: bool, onCreate: bool)

  const NO_FAULTS := Faults(false, false, false, false)

  /** A sequence of calls in which no request fails. */
  const NEVER: nat -> Faults := i => NO_FAULTS

  datatype Store = Store(isjs: ScanJobs, nextUid: nat)

  /** Where a cycle creates its jobs, for which config, and when. */
  datatype Cycle = Cycle(ns: string, config: string, now: Time)

  function WorkKey(p: Params, c: Cycle, w: Work): Key {
    Key(c.ns, WorkName(p, w))
  }

  function Names(p: Params, work: seq<Work>): set<string> {
    set i | 0 <= i < |work| :: WorkName(p, work[i])
  }

  function JobFor(c: Cycle, store: Store, w: Work): ScanJob {
    ScanJob(store.nextUid, c.now, Spec(w.image, w.digest, w.scanner, Kubernetes, c.config, w.sourceNamespace), FRESH)
  }

  function Create(p: Params, c: Cycle, store: Store, w: Work, faults: Faults): (Store, bool) {
    var key := WorkKey(p, c, w);
    if faults.onCreate || key in store.isjs then (store, false)
    else (Store(store.isjs[key := JobFor(c, store, w)], store.nextUid + 1), true)
  }

  /** The store after the call, and whether the call returned nil. */
  function EnsureJob(p: Params, c: Cycle, store: Store, w: Work, faults: Faults): (Store, bool) {
    var key := WorkKey(p, c, w);
    if faults.onGet then (store, false)
    else if key !in store.isjs then Create(p, c, store, w, faults)
    else
      var existing := store.isjs[key];
      if existing.status.phase.Failed? then
        if WithinRetryInterval(c.now, existing.status) then (store, true)
        else if faults.onDelete then (store, false)
        else Create(p, c, store.(isjs := store.isjs - {key}), w, faults)
      else if existing.spec.sourceNamespace == "" && w.sourceNamespace != "" then
        if faults.onPatch then (store, false)
        else
          var filled := existing.(spec := existing.spec.(sourceNamespace := w.sourceNamespace));
          (store.(isjs := store.isjs[key := filled]), true)
      else (store, true)
  }

  /** What a call comes to, in the fields of the job that holds its name. It succeeds unless a request that it makes
      fails; it leaves a new job, a filled-in namespace, a gap where the create failed after the delete, or everything
      as it was. */
  ghost predicate Ensured(p: Params, c: Cycle, before: Store, w: Work, faults: Faults, after: Store, ok: bool) {
    var key := Key(c.ns, ImageToJobName(p.sha, w.image, w.scanner, w.digest));
    var spec := Spec(w.image, w.digest, w.scanner, Kubernetes, c.config, w.sourceNamespace);
    var created := ScanJob(before.nextUid, c.now, spec, Status(Unset, "", None, None, Counts(0, 0, 0, 0)));
    var held := if key in before.isjs then Some(before.isjs[key]) else None;
    var failed := held.Some? && held.value.status.phase.Failed?;
    var waits := failed && held.value.status.completionTime.Some?
      && c.now - held.value.status.completionTime.value < 2 * 60 * 60;
    var fills := held.Some? && !failed && held.value.spec.sourceNamespace == "" && w.sourceNamespace != "";
    var creates := held.None? || (failed && !waits);
    && (ok <==> !faults.onGet && (fills ==> !faults.onPatch)
                && (creates ==> !faults.onCreate && (failed ==> !faults.onDelete)))
    && after.nextUid == before.nextUid + (if ok && creates then 1 else 0)
    && after.isjs == if ok && creates then before.isjs[key := created]
                     else if ok && fills then
                       before.isjs[key := held.value.(spec := held.value.spec.(sourceNamespace := w.sourceNamespace))]
                     else if creates && failed && !faults.onGet && !faults.onDelete then before.isjs - {key}
                     else before.isjs
  }

  lemma {:induction false} CallEnsures(p: Params, c: Cycle, store: Store, w: Work, faults: Faults)
    ensures var (after, ok) := EnsureJob(p, c, store, w, faults); Ensured(p, c, store, w, faults, after, ok)
  {
    var key := WorkKey(p, c, w);
    assert (store.isjs - {key})[key := JobFor(c, store, w)] == store.isjs[key := JobFor(c, store, w)];
  }

  function EnsureEvents(faults: Faults): seq<Event> {
    [EnsureGet(!faults.onGet), EnsurePatch(!faults.onPatch),
     EnsureDelete(!faults.onDelete), EnsureCreate(!faults.onCreate)]
  }

  /** An undisturbed call does to the store what the machine's events do in that order. */
  lemma {:induction false} EnsureIsARun(p: Params, s: State, faults: Faults)
    requires s.ssc.Ensuring? && s.ssc.stage.AtGet?
    requires s.ssc.batch.work != [] && s.ssc.batch.created < s.ssc.batch.capacity
    ensures var b := s.ssc.batch;
      var (store, ok) := EnsureJob(p, Cycle(b.ns, b.config, s.now), Store(s.isjs, s.nextUid), b.work[0], faults);
      var t := Run(p, s, EnsureEvents(faults));
      t == s.(isjs := store.isjs, nextUid := store.nextUid, ssc := NextCall(b, ok), retried := t.retried)
  {
    GetAndPatchStages(p, s, faults);
    var got := s.(ssc := AfterEnsureGet(p, s, !faults.onGet));
    DeleteAndCreateStages(p, EnsurePatchStep(p, got, !faults.onPatch), faults);
    RunIsStages(p, s, faults);
  }

  lemma RunIsStages(p: Params, s: State, faults: Faults)
    ensures Run(p, s, EnsureEvents(faults))
         == EnsureCreateStep(p, EnsureDeleteStep(p, EnsurePatchStep(p,
              s.(ssc := AfterEnsureGet(p, s, !faults.onGet)), !faults.onPatch), !faults.onDelete), !faults.onCreate)
  {
    FourSteps(p, s, EnsureGet(!faults.onGet), EnsurePatch(!faults.onPatch),
              EnsureDelete(!faults.onDelete), EnsureCreate(!faults.onCreate));
  }

  lemma GetAndPatchStages(p: Params, s: State, faults: Faults)
    requires s.ssc.Ensuring? && s.ssc.stage.AtGet?
    requires s.ssc.batch.work != [] && s.ssc.batch.created < s.ssc.batch.capacity
    ensures var b := s.ssc.batch;
      var c := Cycle(b.ns, b.config, s.now);
      var key := WorkKey(p, c, b.work[0]);
      var t := EnsurePatchStep(p, s.(ssc := AfterEnsureGet(p, s, !faults.onGet)), !faults.onPatch);
      var (store, ok) := EnsureJob(p, c, Store(s.isjs, s.nextUid), b.work[0], faults);
      if !faults.onGet && key !in s.isjs then t == s.(ssc := Ensuring(b, AtCreate))
      else if !faults.onGet && s.isjs[key].status.phase.Failed? && !WithinRetryInterval(s.now, s.isjs[key].status)
      then t == s.(ssc := Ensuring(b, AtDelete))
      else t == s.(isjs := store.isjs, nextUid := store.nextUid, ssc := NextCall(b, ok))
  {}

  lemma DeleteAndCreateStages(p: Params, s: State, faults: Faults)
    requires s.ssc.Ensuring?
    ensures var b := s.ssc.batch;
      var t := EnsureCreateStep(p, EnsureDeleteStep(p, s, !faults.onDelete), !faults.onCreate);
      if s.ssc.stage.AtGet? || s.ssc.stage.AtPatch? || b.work == [] then t == s
      else
        var c := Cycle(b.ns, b.config, s.now);
        var key := WorkKey(p, c, b.work[0]);
        var before := Store(if s.ssc.stage.AtDelete? then s.isjs - {key} else s.isjs, s.nextUid);
        var (store, ok) := Create(p, c, before, b.work[0], faults);
        if s.ssc.stage.AtDelete? && (faults.onDelete || key !in s.isjs)
        then t == s.(ssc := NextCall(b, false))
        else t == s.(isjs := store.isjs, nextUid := store.nextUid, ssc := NextCall(b, ok), retried := t.retried)
  {}

  // ── A sequence of calls ─────────────────────────────────────────────────

  /** Calls for `work` in order; the i-th call overall meets `faults(i)`. Returns how many returned nil. */
  function EnsureAll(p: Params, c: Cycle, store: Store, work: seq<Work>, faults: nat -> Faults): (Store, nat)
    decreases |work|
  {
    if work == [] then (store, 0)
    else
      var last := |work| - 1;
      var (before, count) := EnsureAll(p, c, store, work[..last], faults);
      var (after, ok) := EnsureJob(p, c, before, work[last], faults(last));
      (after, if ok then count + 1 else count)
  }

  lemma EnsureNext(p: Params, c: Cycle, store: Store, work: seq<Work>, w: Work, faults: nat -> Faults)
    ensures var (before, count) := EnsureAll(p, c, store, work, faults);
      var (after, ok) := EnsureJob(p, c, before, w, faults(|work|));
      EnsureAll(p, c, store, work + [w], faults) == (after, if ok then count + 1 else count)
  {
    assert (work + [w])[..|work|] == work;
  }

  /** Images whose digests differ behind the algorithm get a job each: two calls without faults, under names that are
      free, leave two new jobs. */
  lemma {:induction false} TwoDigestsTwoJobs(p: Params, c: Cycle, store: Store, v: Work, w: Work)
    requires |v.digest| > 15 && |w.digest| > 15 && v.digest[7..15] != w.digest[7..15]
    requires Key(c.ns, "scan-" + v.digest[7..15] + "-" + v.scanner) !in store.isjs
    requires Key(c.ns, "scan-" + w.digest[7..15] + "-" + w.scanner) !in store.isjs
    ensures var k := Key(c.ns, "scan-" + v.digest[7..15] + "-" + v.scanner);
      var l := Key(c.ns, "scan-" + w.digest[7..15] + "-" + w.scanner);
      var first := Spec(v.image, v.digest, v.scanner, Kubernetes, c.config, v.sourceNamespace);
      var second := Spec(w.image, w.digest, w.scanner, Kubernetes, c.config, w.sourceNamespace);
      var isjs := store.isjs[k := ScanJob(store.nextUid, c.now, first, FRESH)];
      EnsureAll(p, c, store, [v, w], NEVER)
        == (Store(isjs[l := ScanJob(store.nextUid + 1, c.now, second, FRESH)], store.nextUid + 2), 2)
    ensures "scan-" + v.digest[7..15] + "-" + v.scanner != "scan-" + w.digest[7..15] + "-" + w.scanner
  {
    NameSpelled(p.sha, v.image, v.scanner, v.digest);
    NameSpelled(p.sha, w.image, w.scanner, w.digest);
    DigestNamesIff(p.sha, v.image, v.scanner, v.digest, w.image, w.scanner, w.digest);
    EnsureNext(p, c, store, [v], w, NEVER);
    EnsureNext(p, c, store, [], v, NEVER);
    assert [v] + [w] == [v, w] && [] + [v] == [v];
  }

  /** The batch was not full before its last call. */
  ghost predicate RoomForLast(
    p: Params, c: Cycle, store: Store, work: seq<Work>, faults: nat -> Faults, capacity: nat)
  {
    work != [] ==> EnsureAll(p, c, store, work[..|work| - 1], faults).1 < capacity
  }

  lemma RoomForNext(
    p: Params, c: Cycle, store: Store, work: seq<Work>, w: Work, faults: nat -> Faults, capacity: nat,
    before: Store, created: nat)
    requires (before, created) == EnsureAll(p, c, store, work, faults) && created < capacity
    ensures RoomForLast(p, c, store, work + [w], faults, capacity)
    ensures var (after, ok) := EnsureJob(p, c, before, w, faults(|work|));
      EnsureAll(p, c, store, work + [w], faults) == (after, if ok then created + 1 else created)
  {
    EnsureNext(p, c, store, work, w, faults);
    assert (work + [w])[..|work|] == work;
  }

  /** The machine's state once the first `n` calls of its batch are made without disturbance. */
  ghost predicate Reached(p: Params, s: State, n: nat, faults: nat -> Faults, t: State)
    requires s.ssc.Ensuring? && n <= |s.ssc.batch.work|
  {
    var b := s.ssc.batch;
    var (store, count) := EnsureAll(p, Cycle(b.ns, b.config, s.now), Store(s.isjs, s.nextUid), b.work[..n], faults);
    && t == s.(isjs := store.isjs, nextUid := store.nextUid, ssc := t.ssc, retried := t.retried)
    && t.ssc == Ensuring(b.(work := b.work[n..], created := count), AtGet)
  }

  lemma ReachesNext(p: Params, s: State, n: nat, faults: nat -> Faults, t: State)
    requires s.ssc.Ensuring? && n < |s.ssc.batch.work| && Reached(p, s, n, faults, t)
    requires t.ssc.batch.created < t.ssc.batch.capacity
    ensures Reached(p, s, n + 1, faults, Run(p, t, EnsureEvents(faults(n))))
  {
    var b := s.ssc.batch;
    EnsureNext(p, Cycle(b.ns, b.config, s.now), Store(s.isjs, s.nextUid), b.work[..n], b.work[n], faults);
    EnsureIsARun(p, t, faults(n));
    assert b.work[..n] + [b.work[n]] == b.work[..n + 1];
    assert b.work[n..][0] == b.work[n] && b.work[n..][1..] == b.work[n + 1..];
  }

  lemma RoomBefore(p: Params, c: Cycle, store: Store, work: seq<Work>, n: nat, faults: nat -> Faults, capacity: nat)
    requires 0 < n <= |work| && RoomForLast(p, c, store, work[..n], faults, capacity)
    ensures EnsureAll(p, c, store, work[..n - 1], faults).1 < capacity
    ensures RoomForLast(p, c, store, work[..n - 1], faults, capacity)
  {
    assert work[..n][..n - 1] == work[..n - 1];
    CountsOnlyGrow(p, c, store, work[..n - 1], faults);
  }

  /** An undisturbed batch that stops within its capacity is one of the machine's runs. */
  lemma {:induction false} BatchIsARun(p: Params, s: State, n: nat, faults: nat -> Faults) returns (events: seq<Event>)
    requires s.ssc.Ensuring? && s.ssc.stage.AtGet? && s.ssc.batch.created == 0 && n <= |s.ssc.batch.work|
    requires var b := s.ssc.batch;
      RoomForLast(p, Cycle(b.ns, b.config, s.now), Store(s.isjs, s.nextUid), b.work[..n], faults, b.capacity)
    ensures Reached(p, s, n, faults, Run(p, s, events))
    decreases n
  {
    var b := s.ssc.batch;
    if n == 0 {
      events := [];
      assert b.work[0..] == b.work;
    } else {
      RoomBefore(p, Cycle(b.ns, b.config, s.now), Store(s.isjs, s.nextUid), b.work, n, faults, b.capacity);
      var before := BatchIsARun(p, s, n - 1, faults);
      ReachesNext(p, s, n - 1, faults, Run(p, s, before));
      RunAppend(p, s, before, EnsureEvents(faults(n - 1)));
      events := before + EnsureEvents(faults(n - 1));
    }
  }

  lemma CountsOnlyGrow(p: Params, c: Cycle, store: Store, work: seq<Work>, faults: nat -> Faults)
    ensures work != [] ==>
      EnsureAll(p, c, store, work[..|work| - 1], faults).1 <= EnsureAll(p, c, store, work, faults).1
  {}

  /** What a cycle has done: the calls are the shortest prefix of the wanted work that fills the free slots, or
      all of it. */
  ghost predicate CycleDone(
    p: Params, c: Cycle, before: Store, work: seq<Work>, faults: nat -> Faults, attempted: seq<Work>, after: Store)
  {
    var open := |Open(before.isjs, c.ns)|;
    var limit := EffectiveMaxConcurrentScans(p);
    && attempted <= work
    && after == EnsureAll(p, c, before, attempted, faults).0
    && (limit <= open ==> attempted == [])
    && (open < limit ==>
          && RoomForLast(p, c, before, attempted, faults, limit - open)
          && (attempted != work ==> EnsureAll(p, c, before, attempted, faults).1 == limit - open))
  }

  lemma {:induction false} EveryCallReturnsNil(
    p: Params, c: Cycle, store: Store, work: seq<Work>, faults: nat -> Faults)
    requires forall i :: faults(i) == NO_FAULTS
    ensures EnsureAll(p, c, store, work, faults).1 == |work|
    decreases |work|
  {
    if work != [] {
      EveryCallReturnsNil(p, c, store, work[..|work| - 1], faults);
    }
  }

  /** The calls made are the first ones of the work, as many as there are slots: the setting, or ten when there is none,
      less the jobs that are neither Completed nor Failed. */
  ghost predicate FillsSlots(p: Params, c: Cycle, before: Store, work: seq<Work>, attempted: seq<Work>) {
    var open := |set k | && k in before.isjs && k.ns == c.ns && !before.isjs[k].status.phase.Completed?
                         && !before.isjs[k].status.phase.Failed?|;
    var slots := (if p.maxConcurrentScans > 0 then p.maxConcurrentScans else 10) - open;
    attempted == work[..if slots < 0 then 0 else if slots <= |work| then slots else |work|]
  }

  lemma {:induction false} CycleFillsSlots(
    p: Params, c: Cycle, before: Store, work: seq<Work>, faults: nat -> Faults, attempted: seq<Work>, after: Store)
    requires CycleDone(p, c, before, work, faults, attempted, after) && forall i :: faults(i) == NO_FAULTS
    ensures FillsSlots(p, c, before, work, attempted)
  {
    assert Open(before.isjs, c.ns) == set k | && k in before.isjs && k.ns == c.ns
                                              && !before.isjs[k].status.phase.Completed?
                                              && !before.isjs[k].status.phase.Failed?;
    EveryCallReturnsNil(p, c, before, attempted, faults);
    if attempted != [] {
      EveryCallReturnsNil(p, c, before, attempted[..|attempted| - 1], faults);
    }
    assert attempted == work[..|attempted|];
  }
}
