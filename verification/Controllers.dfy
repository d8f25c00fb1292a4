/** The controllers' own loops, over a store that nobody else touches meanwhile. */
module Controllers {
  import opened Cluster
  import opened Naming
  import opened Protocol
  import opened Ensure
  import opened Reconcile

  /** The images that still have a call after the first `n`. */
  function ImagesFrom(work: seq<Work>, n: nat): set<string> {
    set i | n <= i < |work| :: work[i].image
  }

  lemma {:induction false} WorklistAppend(
    images: seq<string>, image: string, scanners: seq<string>, covered: set<(string, string)>,
    digests: map<string, string>, sources: map<string, string>)
    ensures Worklist(images + [image], scanners, covered, digests, sources)
         == Worklist(images, scanners, covered, digests, sources)
          + WorkOf(image, Needed(image, scanners, covered), Lookup(digests, image), Lookup(sources, image))
  {
    if images == [] {
      assert images + [image] == [image] && [image][1..] == [];
    } else {
      assert (images + [image])[1..] == images[1..] + [image];
      WorklistAppend(images[1..], image, scanners, covered, digests, sources);
    }
  }

  /** Every call for an image of the list has that image. */
  lemma {:induction false} WorklistImages(
    images: seq<string>, scanners: seq<string>, covered: set<(string, string)>,
    digests: map<string, string>, sources: map<string, string>)
    ensures forall w | w in Worklist(images, scanners, covered, digests, sources) :: w.image in images
  {
    if images != [] {
      WorklistImages(images[1..], scanners, covered, digests, sources);
    }
  }

  /** What the batch loop has done once its images ask for `work`: the calls made are a prefix of it, and
      the shortest one with `capacity` nil returns; `pending` counts the images with a call not made. */
  ghost predicate BatchSoFar(
    p: Params, c: Cycle, start: Store, work: seq<Work>, faults: nat -> Faults, capacity: nat,
    store: Store, created: nat, pending: nat, attempted: seq<Work>)
  {
    && attempted <= work
    && created <= capacity
    && (attempted != work ==> created == capacity)
    && RoomForLast(p, c, start, attempted, faults, capacity)
    && (store, created) == EnsureAll(p, c, start, attempted, faults)
    && pending == |ImagesFrom(work, |attempted|)|
  }

  lemma TakeOneMore<T>(before: seq<T>, s: seq<T>, i: nat)
    requires i < |s|
    ensures before + s[..i + 1] == before + s[..i] + [s[i]]
  {}

  lemma NextImage(
    images: seq<string>, i: nat, scanners: seq<string>, covered: set<(string, string)>,
    digests: map<string, string>, sources: map<string, string>)
    requires i < |images| && NoDuplicates(images)
    ensures var image := images[i];
      var calls := WorkOf(image, Needed(image, scanners, covered), Lookup(digests, image), Lookup(sources, image));
      var work := Worklist(images[..i], scanners, covered, digests, sources);
      && Worklist(images[..i + 1], scanners, covered, digests, sources) == work + calls
      && (forall w | w in work :: w.image != images[i])
      && (forall w | w in calls :: w.image == images[i])
  {
    TakeOneMore([], images, i);
    assert images[..i + 1] == images[..i] + [images[i]];
    WorklistAppend(images[..i], images[i], scanners, covered, digests, sources);
    WorklistImages(images[..i], scanners, covered, digests, sources);
  }

  /** What Reconcile returns to the work queue: an error, or when to come again: after the batch cooldown, after
      the discovery interval, or shortly after a reset. */
  datatype CycleEnd = Soon | Later | AfterReset | CycleError

  class ApiServer {
    var isjs: ScanJobs
    var jobs: map<Key, BatchJob>
    var nextUid: nat

    constructor ()
      ensures isjs == map[] && jobs == map[] && nextUid == 0
    {
      isjs, jobs, nextUid := map[], map[], 0;
    }

    ghost function Contents(): Store
      reads this
    {
      Store(isjs, nextUid)
    }

    ghost function Objects(): World
      reads this
    {
      World(isjs, jobs, nextUid)
    }

    // ── SecurityScanConfig controller ─────────────────────────────────────

    method CreateScanJob(p: Params, c: Cycle, w: Work, faults: Faults) returns (ok: bool)
      modifies this`isjs, this`nextUid
      ensures (Contents(), ok) == Create(p, c, old(Contents()), w, faults)
    {
      var key := WorkKey(p, c, w);
      if faults.onCreate || key in isjs {
        return false;
      }
      var spec := Spec(w.image, w.digest, w.scanner, Kubernetes, c.config, w.sourceNamespace);
      isjs := isjs[key := ScanJob(nextUid, c.now, spec, FRESH)];
      nextUid := nextUid + 1;
      return true;
    }

    method EnsureImageScanJob(p: Params, c: Cycle, w: Work, faults: Faults) returns (ok: bool)
      modifies this`isjs, this`nextUid
      ensures (Contents(), ok) == EnsureJob(p, c, old(Contents()), w, faults)
    {
      var key := WorkKey(p, c, w);
      if faults.onGet {
        return false;
      }
      if key in isjs {
        var existing := isjs[key];
        if existing.status.phase.Failed? {
          var completed := existing.status.completionTime;
          if completed.Some? && c.now - completed.value < FAILED_RETRY_INTERVAL {
            return true;
          }
          if faults.onDelete {
            return false;
          }
          isjs := isjs - {key};
        } else if existing.spec.sourceNamespace == "" && w.sourceNamespace != "" {
          if faults.onPatch {
            return false;
          }
          isjs := isjs[key := existing.(spec := existing.spec.(sourceNamespace := w.sourceNamespace))];
          return true;
        } else {
          return true;
        }
      }
      ok := CreateScanJob(p, c, w, faults);
    }

    /** The configured scanners that have no job for the image yet. */
    method NeedsScan(
      image: string, scanners: seq<string>, covered: set<(string, string)>)
      returns (needsScan: seq<string>)
      ensures needsScan == Needed(image, scanners, covered)
    {
      needsScan := [];
      var i := 0;
      while i < |scanners|
        invariant 0 <= i <= |scanners|
        invariant needsScan + Needed(image, scanners[i..], covered) == Needed(image, scanners, covered)
      {
        if (image, scanners[i]) !in covered {
          needsScan := needsScan + [scanners[i]];
        }
        i := i + 1;
      }
    }

    /** The scanners of one image, until the batch is full. */
    method CreateForImage(
      p: Params, c: Cycle, work: seq<Work>, capacity: nat, faults: nat -> Faults,
      createdBefore: nat, attemptedBefore: seq<Work>, ghost start: Store)
      returns (created: nat, attempted: seq<Work>, stopped: bool)
      requires createdBefore < capacity
      requires (Contents(), createdBefore) == EnsureAll(p, c, start, attemptedBefore, faults)
      modifies this`isjs, this`nextUid
      ensures (Contents(), created) == EnsureAll(p, c, start, attempted, faults)
      ensures created <= capacity
      ensures attemptedBefore <= attempted <= attemptedBefore + work
      ensures stopped <==> |attempted| < |attemptedBefore| + |work|
      ensures stopped ==> created == capacity
      ensures attempted == attemptedBefore || RoomForLast(p, c, start, attempted, faults, capacity)
    {
      created, attempted, stopped := createdBefore, attemptedBefore, false;
      var i := 0;
      while i < |work|
        invariant 0 <= i <= |work|
        invariant attempted == attemptedBefore + work[..i]
        invariant created <= capacity
        invariant (Contents(), created) == EnsureAll(p, c, start, attempted, faults)
        invariant !stopped
        invariant i == 0 || RoomForLast(p, c, start, attempted, faults, capacity)
      {
        if created >= capacity {
          stopped := true;
          break;
        }
        RoomForNext(p, c, start, attempted, work[i], faults, capacity, Contents(), created);
        assert attempted + [work[i]] == attemptedBefore + work[..i + 1] by {
          TakeOneMore(attemptedBefore, work, i);
        }
        var ok := EnsureImageScanJob(p, c, work[i], faults(|attempted|));
        attempted := attempted + [work[i]];
        if ok {
          created := created + 1;
        }
        i := i + 1;
      }
    }

    /** One image of the batch loop: skipped, deferred to the next batch, or worked on. */
    method HandleImage(
      p: Params, c: Cycle, calls: seq<Work>, capacity: nat, faults: nat -> Faults,
      createdBefore: nat, pendingBefore: nat, attemptedBefore: seq<Work>,
      ghost image: string, ghost start: Store, ghost work: seq<Work>)
      returns (created: nat, pending: nat, attempted: seq<Work>)
      requires BatchSoFar(p, c, start, work, faults, capacity,
                          Contents(), createdBefore, pendingBefore, attemptedBefore)
      requires forall w | w in work :: w.image != image
      requires forall w | w in calls :: w.image == image
      modifies this`isjs, this`nextUid
      ensures BatchSoFar(p, c, start, work + calls, faults, capacity, Contents(), created, pending, attempted)
    {
      created, pending, attempted := createdBefore, pendingBefore, attemptedBefore;
      if |calls| == 0 {
        assert work + calls == work;
      } else if created >= capacity {
        MoreImages(work, calls, |attempted|, image);
        pending := pending + 1;
      } else {
        var stopped;
        created, attempted, stopped := CreateForImage(p, c, calls, capacity, faults, created, attempted, start);
        MoreImages(work, calls, |attempted|, image);
        if stopped {
          pending := pending + 1;
        }
      }
    }

    /** The batch loop over the sorted images. `attempted` lists the calls made. */
    method CreateBatch(
      p: Params, c: Cycle, images: seq<string>, scanners: seq<string>, covered: set<(string, string)>,
      digests: map<string, string>, sources: map<string, string>, capacity: nat, faults: nat -> Faults)
      returns (created: nat, pending: nat, attempted: seq<Work>)
      requires NoDuplicates(images) && capacity > 0
      modifies this`isjs, this`nextUid
      ensures BatchSoFar(p, c, old(Contents()), Worklist(images, scanners, covered, digests, sources),
                         faults, capacity, Contents(), created, pending, attempted)
    {
      created, pending, attempted := 0, 0, [];
      var i := 0;
      ghost var work: seq<Work> := [];
      while i < |images|
        invariant 0 <= i <= |images|
        invariant work == Worklist(images[..i], scanners, covered, digests, sources)
        invariant BatchSoFar(p, c, old(Contents()), work, faults, capacity, Contents(), created, pending, attempted)
      {
        var needsScan := NeedsScan(images[i], scanners, covered);
        var calls := WorkOf(images[i], needsScan, Lookup(digests, images[i]), Lookup(sources, images[i]));
        NextImage(images, i, scanners, covered, digests, sources);
        created, pending, attempted := HandleImage(
          p, c, calls, capacity, faults, created, pending, attempted, images[i], old(Contents()), work);
        work := work + calls;
        i := i + 1;
      }
      assert images[..i] == images;
    }

    /** The first loop over the listed jobs: what is covered. */
    method LoadCovered(ns: string, listing: seq<Key>) returns (covered: set<(string, string)>)
      requires forall k :: k in listing <==> k in isjs && k.ns == ns
      ensures covered == Covered(isjs, ns)
      ensures covered == set k | k in isjs && k.ns == ns && !isjs[k].status.phase.Failed? ::
                           (isjs[k].spec.image, isjs[k].spec.scanner)
    {
      covered := {};
      var i := 0;
      while i < |listing|
        invariant 0 <= i <= |listing|
        invariant covered == set j | 0 <= j < i && !isjs[listing[j]].status.phase.Failed? :: Pair(isjs[listing[j]])
      {
        assert listing[i] in listing;
        if !isjs[listing[i]].status.phase.Failed? {
          covered := covered + {Pair(isjs[listing[i]])};
        }
        i := i + 1;
      }
    }

    /** The second loop: how many jobs are open. */
    method CountOpen(ns: string, listing: seq<Key>) returns (activeRunning: nat)
      requires NoDuplicates(listing)
      requires forall k :: k in listing <==> k in isjs && k.ns == ns
      ensures activeRunning == |Open(isjs, ns)|
      ensures activeRunning
           == |set k | k in isjs && k.ns == ns && !isjs[k].status.phase.Completed? && !isjs[k].status.phase.Failed?|
    {
      activeRunning := 0;
      var i := 0;
      ghost var open := Open(isjs, ns);
      while i < |listing|
        invariant 0 <= i <= |listing|
        invariant activeRunning == |Among(listing[..i], open)|
      {
        NextAmong(listing, i, open);
        if !isjs[listing[i]].status.phase.Completed? && !isjs[listing[i]].status.phase.Failed? {
          activeRunning := activeRunning + 1;
        }
        i := i + 1;
      }
      AllAmong(listing, open);
      assert open == set k |
        k in isjs && k.ns == ns && !isjs[k].status.phase.Completed? && !isjs[k].status.phase.Failed?;
    }

    /** A cycle after discovery: listing, throttle, batch and status update. The two flags say whether the listing
        and the status patch succeed; a cycle whose status patch fails has made its calls all the same. */
    method RunCycle(
      p: Params, c: Cycle, listing: seq<Key>, images: seq<string>, scanners: seq<string>,
      digests: map<string, string>, sources: map<string, string>, faults: nat -> Faults, listOk: bool, statusOk: bool)
      returns (end: CycleEnd, attempted: seq<Work>)
      requires NoDuplicates(images) && NoDuplicates(listing)
      requires forall k :: k in listing <==> k in isjs && k.ns == c.ns
      modifies this`isjs, this`nextUid
      ensures !listOk ==> end == CycleError && attempted == [] && Contents() == old(Contents())
      ensures listOk ==>
        CycleDone(p, c, old(Contents()), Worklist(images, scanners, Covered(old(isjs), c.ns), digests, sources),
                  faults, attempted, Contents())
      ensures listOk ==>
        var throttled := EffectiveMaxConcurrentScans(p) <= |Open(old(isjs), c.ns)|;
        var left := attempted != Worklist(images, scanners, Covered(old(isjs), c.ns), digests, sources);
        end == if !statusOk then CycleError else if throttled || left then Soon else Later
      ensures listOk && (forall i :: faults(i) == NO_FAULTS) ==>
        var work := Worklist(images, scanners, Covered(old(isjs), c.ns), digests, sources);
        FillsSlots(p, c, old(Contents()), work, attempted)
    {
      if !listOk {
        return CycleError, [];
      }
      var covered := LoadCovered(c.ns, listing);
      var activeRunning := CountOpen(c.ns, listing);
      var capacity := EffectiveMaxConcurrentScans(p) - activeRunning;
      ghost var work := Worklist(images, scanners, covered, digests, sources);
      if capacity <= 0 {
        end, attempted := if statusOk then Soon else CycleError, [];
      } else {
        var created, pending;
        created, pending, attempted := CreateBatch(p, c, images, scanners, covered, digests, sources, capacity, faults);
        NothingPending(work, |attempted|);
        end := if !statusOk then CycleError else if pending > 0 then Soon else Later;
      }
      if forall i :: faults(i) == NO_FAULTS {
        CycleFillsSlots(p, c, old(Contents()), work, faults, attempted, Contents());
      }
    }

    /** handleReset: every listed job of the config is deleted unless its delete fails. */
    method HandleReset(ns: string, config: string, listing: seq<Key>, fails: set<Key>) returns (deleted: nat)
      requires NoDuplicates(listing)
      requires forall k :: k in listing <==> OwnedBy(isjs, ns, config, k)
      modifies this`isjs
      ensures isjs == old(isjs) - Owned(old(isjs), ns, config, fails)
      ensures forall k | k in old(isjs) ::
        k in isjs <==> k.ns != ns || old(isjs)[k].spec.configRef != config || k in fails
      ensures deleted == |old(isjs)| - |isjs|
    {
      deleted := 0;
      var i := 0;
      while i < |listing|
        invariant DeletedSoFar(old(isjs), listing, i, Owned(old(isjs), ns, config, fails), isjs, deleted)
      {
        assert listing[i] in listing;
        DeleteNext(old(isjs), listing, i, Owned(old(isjs), ns, config, fails), isjs, deleted);
        if listing[i] !in fails {
          isjs := isjs - {listing[i]};
          deleted := deleted + 1;
        }
        i := i + 1;
      }
      AllDeleted(old(isjs), listing, Owned(old(isjs), ns, config, fails), isjs, deleted);
    }

    // ── ImageScanJob controller ───────────────────────────────────────────

    /** countActiveJobs over the managed Jobs of the namespace. */
    method CountActiveJobs(ns: string, listing: seq<Key>) returns (count: nat)
      requires NoDuplicates(listing)
      requires forall k :: k in listing <==> k in jobs && k.ns == ns
      ensures count == |CountedJobs(jobs, ns)|
      ensures count == |set k | && k in jobs && k.ns == ns
                                && (|| jobs[k].status.active > 0
                                    || (jobs[k].status.succeeded == 0 && jobs[k].status.failed == 0))|
    {
      count := 0;
      ghost var counted := CountedJobs(jobs, ns);
      var i := 0;
      while i < |listing|
        invariant 0 <= i <= |listing|
        invariant count == |Among(listing[..i], counted)|
      {
        NextAmong(listing, i, counted);
        var status := jobs[listing[i]].status;
        if status.active > 0 || (status.succeeded == 0 && status.failed == 0) {
          count := count + 1;
        }
        i := i + 1;
      }
      AllAmong(listing, counted);
      assert counted == set k | && k in jobs && k.ns == ns
                                && (|| jobs[k].status.active > 0
                                    || (jobs[k].status.succeeded == 0 && jobs[k].status.failed == 0));
    }

    method PatchStatus(key: Key, base: Status, next: Status, fails: bool) returns (ok: bool)
      modifies this`isjs
      ensures ok <==> !fails && key in old(isjs)
      ensures isjs ==
        if ok then old(isjs)[key := old(isjs)[key].(status := MergePatch(old(isjs)[key].status, base, next))]
        else old(isjs)
    {
      if fails || key !in isjs {
        return false;
      }
      isjs := isjs[key := isjs[key].(status := MergePatch(isjs[key].status, base, next))];
      return true;
    }

    method SetPhase(p: Params, key: Key, isj: ScanJob, now: Time, a: Answers) returns (ok: bool)
      modifies this`isjs
      ensures (Objects(), if ok then Requeue else Error) == Patched(p, old(Objects()), key, isj, Started, now, a)
    {
      var status := isj.status;
      if status.phase.Unset? {
        status := status.(startTime := Some(now));
      }
      status := status.(phase := Running);
      ok := PatchStatus(key, isj.status, status, a.onPatch);
    }

    method MarkCompleted(
      p: Params, key: Key, isj: ScanJob, job: BatchJob, counts: Counts, now: Time, a: Answers)
      returns (ok: bool)
      modifies this`isjs
      ensures (Objects(), if ok then Done else Error)
           == Patched(p, old(Objects()), key, isj, Parsed(job, counts), now, a)
    {
      var status := isj.status;
      status := status.(phase := Completed);
      status := status.(jobName := JobKey(key, isj.spec.scanner).name);
      status := status.(completionTime := Some(now));
      status := status.(counts := counts);
      ok := PatchStatus(key, isj.status, status, a.onPatch);
    }

    method MarkFailed(p: Params, key: Key, isj: ScanJob, verdict: Verdict, now: Time, a: Answers) returns (ok: bool)
      requires !p.stampFailures && (verdict.Unparsed? || verdict.Broken?)
      modifies this`isjs
      ensures (Objects(), if ok then Done else Error) == Patched(p, old(Objects()), key, isj, verdict, now, a)
    {
      var status := isj.status;
      status := status.(phase := Failed);
      status := status.(jobName := JobKey(key, isj.spec.scanner).name);
      ok := PatchStatus(key, isj.status, status, a.onPatch);
    }

    /** One reconcile of a scan job. `listing` is the order in which its namespace's Jobs are listed. */
    method ReconcileScanJob(p: Params, key: Key, now: Time, listing: seq<Key>, a: Answers) returns (outcome: Outcome)
      requires !p.stampFailures
      requires NoDuplicates(listing) && forall k :: k in listing <==> k in jobs && k.ns == key.ns
      modifies this
      ensures (Objects(), outcome) == ReconcileJob(p, old(Objects()), key, now, a)
      ensures (|| a.onGet || key !in old(isjs)
               || old(isjs)[key].status.phase.Completed? || old(isjs)[key].status.phase.Failed?)
        ==> Objects() == old(Objects()) && outcome == if a.onGet then Error else Done
      ensures key in old(isjs) && !a.onGet && !a.onFind
        && !old(isjs)[key].status.phase.Completed? && !old(isjs)[key].status.phase.Failed?
        ==> && Judged(old(Objects()), key, now, a, Objects(), outcome)
            && Launched(p, old(Objects()), key, now, a, Objects(), outcome)
    {
      ReconcileSays(p, Objects(), key, now, a);
      if a.onGet {
        return Error;
      }
      if key !in isjs {
        return Done;
      }
      var isj := isjs[key];
      if isj.status.phase.Completed? || isj.status.phase.Failed? {
        return Done;
      }
      if a.onFind {
        return Error;
      }
      var jobKey := JobKey(key, isj.spec.scanner);
      if jobKey !in jobs {
        outcome := LaunchScan(p, key, isj, now, listing, a);
      } else {
        outcome := JudgeScan(p, key, isj, jobs[jobKey], now, a);
      }
    }

    method LaunchScan(
      p: Params, key: Key, isj: ScanJob, now: Time, listing: seq<Key>, a: Answers)
      returns (outcome: Outcome)
      requires NoDuplicates(listing) && forall k :: k in listing <==> k in jobs && k.ns == key.ns
      modifies this
      ensures (Objects(), outcome) == WithoutJob(p, old(Objects()), key, isj, now, a)
    {
      if p.maxConcurrentScans > 0 {
        if a.onCount {
          return Error;
        }
        var active := CountActiveJobs(key.ns, listing);
        if active >= p.maxConcurrentScans {
          return Requeue;
        }
      }
      var jobKey := JobKey(key, isj.spec.scanner);
      if a.onCreate || jobKey in jobs {
        return Error;
      }
      jobs := jobs[jobKey := BatchJob(nextUid, isj.uid, key.name, isj.spec.scanner, NEW_JOB)];
      nextUid := nextUid + 1;
      var ok := SetPhase(p, key, isj, now, a);
      return if ok then Requeue else Error;
    }

    method JudgeScan(
      p: Params, key: Key, isj: ScanJob, kJob: BatchJob, now: Time, a: Answers)
      returns (outcome: Outcome)
      requires !p.stampFailures
      modifies this`isjs
      ensures (Objects(), outcome) == WithJob(p, old(Objects()), key, isj, kJob, now, a)
    {
      var ok;
      if kJob.status.succeeded > 0 && kJob.status.active == 0 {
        if a.counts.None? {
          ok := MarkFailed(p, key, isj, Unparsed(kJob), now, a);
        } else {
          ok := MarkCompleted(p, key, isj, kJob, a.counts.value, now, a);
        }
        return if ok then Done else Error;
      } else if kJob.status.failedCondition {
        ok := MarkFailed(p, key, isj, Broken(kJob), now, a);
        return if ok then Done else Error;
      } else if !isj.status.phase.Running? {
        ok := SetPhase(p, key, isj, now, a);
        return if ok then Requeue else Error;
      } else {
        return Requeue;
      }
    }

    // ── Cleaner and web API ───────────────────────────────────────────────

    /** runCleanup: every job that is terminal and old enough goes, unless its delete fails. */
    method RunCleanup(cutoff: Time, listing: seq<Key>, fails: set<Key>) returns (deleted: nat)
      requires NoDuplicates(listing) && forall k :: k in listing <==> k in isjs
      modifies this`isjs
      ensures isjs == old(isjs) - Expired(old(isjs), cutoff, fails)
      ensures Cleaned(old(isjs), cutoff, fails, isjs)
      ensures deleted == |old(isjs)| - |isjs|
    {
      deleted := 0;
      var i := 0;
      while i < |listing|
        invariant DeletedSoFar(old(isjs), listing, i, Expired(old(isjs), cutoff, fails), isjs, deleted)
      {
        var key := listing[i];
        assert key in listing;
        DeleteNext(old(isjs), listing, i, Expired(old(isjs), cutoff, fails), isjs, deleted);
        ExpiredIff(old(isjs), cutoff, fails, key);
        i := i + 1;
        var job := isjs[key];
        if !job.status.phase.Completed? && !job.status.phase.Failed? {
          continue;
        }
        if job.created > cutoff {
          continue;
        }
        if key in fails {
          continue;
        }
        isjs := isjs - {key};
        deleted := deleted + 1;
      }
      AllDeleted(old(isjs), listing, Expired(old(isjs), cutoff, fails), isjs, deleted);
      WithoutExpired(old(isjs), cutoff, fails, isjs);
    }

    /** One image of a manual request: its name is taken, or a fresh job takes it, or a request fails. */
    method TriggerImage(
      p: Params, ns: string, now: Time, image: string, scanner: string, getFails: bool, createFails: bool,
      createdBefore: seq<string>, skippedBefore: seq<string>)
      returns (created: seq<string>, skipped: seq<string>, ok: bool)
      modifies this`isjs, this`nextUid
      ensures ok <==> !EndsRequest(p, ns, image, scanner, old(isjs), getFails, createFails)
      ensures ok <==>
        if Key(ns, ManualScanJobName(p.sha, image, scanner)) in old(isjs) then !getFails else !createFails
      ensures Manual(Contents(), created, skipped) ==
        var before := Manual(old(Contents()), createdBefore, skippedBefore);
        if ok then TriggerNext(p, ns, now, image, scanner, before) else before
      ensures var key := Key(ns, ManualScanJobName(p.sha, image, scanner));
        var spec := Spec(image, "", scanner, ByHand, "manual", "");
        var added := ScanJob(old(nextUid), now, spec, Status(Unset, "", None, None, Counts(0, 0, 0, 0)));
        isjs == if ok && key !in old(isjs) then old(isjs)[key := added] else old(isjs)
      ensures var name := ManualScanJobName(p.sha, image, scanner);
        && created == createdBefore + (if ok && Key(ns, name) !in old(isjs) then [name] else [])
        && skipped == skippedBefore + (if ok && Key(ns, name) in old(isjs) then [name] else [])
    {
      created, skipped := createdBefore, skippedBefore;
      var name := ManualScanJobName(p.sha, image, scanner);
      if !getFails && Key(ns, name) in isjs {
        return created, skipped + [name], true;
      }
      if createFails || Key(ns, name) in isjs {
        return created, skipped, false;
      }
      isjs := isjs[Key(ns, name) := ManualJob(nextUid, now, image, scanner)];
      nextUid := nextUid + 1;
      return created + [name], skipped, true;
    }

    /** handleTriggerScan for a non-empty image list. `getFails` and `createFails` say which requests fail; `done`
        images are dealt with before one of them ends the request. */
    method TriggerScan(
      p: Params, ns: string, now: Time, images: seq<string>, scanner: string,
      getFails: nat -> bool, createFails: nat -> bool)
      returns (created: seq<string>, skipped: seq<string>, ok: bool, done: nat)
      modifies this`isjs, this`nextUid
      ensures Triggered(p, ns, now, images, scanner, getFails, createFails, old(Contents()), done,
                        Manual(Contents(), created, skipped))
      ensures ok <==> done == |images|
      ensures !ok ==> EndsRequest(p, ns, images[done], scanner, isjs, getFails(done), createFails(done))
    {
      created, skipped, ok, done := [], [], true, 0;
      while done < |images|
        invariant ok
        invariant Triggered(p, ns, now, images, scanner, getFails, createFails, old(Contents()), done,
                            Manual(Contents(), created, skipped))
      {
        TriggersNext(p, ns, now, images, scanner, getFails, createFails, old(Contents()), done,
                     Manual(Contents(), created, skipped));
        created, skipped, ok := TriggerImage(
          p, ns, now, images[done], scanner, getFails(done), createFails(done), created, skipped);
        if !ok {
          return;
        }
        done := done + 1;
      }
    }
  }

  lemma ReconcileSays(p: Params, w: World, key: Key, now: Time, a: Answers)
    requires !p.stampFailures
    ensures key in w.isjs && !a.onGet && !a.onFind
      && !w.isjs[key].status.phase.Completed? && !w.isjs[key].status.phase.Failed?
      ==> var (after, outcome) := ReconcileJob(p, w, key, now, a);
          Judged(w, key, now, a, after, outcome) && Launched(p, w, key, now, a, after, outcome)
  {
    if key in w.isjs && !a.onGet && !a.onFind
       && !w.isjs[key].status.phase.Completed? && !w.isjs[key].status.phase.Failed? {
      JobIsJudged(p, w, key, now, a);
      JobIsLaunched(p, w, key, now, a);
    }
  }

  /** The jobs of a config whose delete succeeds. */
  function Owned(isjs: ScanJobs, ns: string, config: string, fails: set<Key>): set<Key> {
    set k | k in isjs && OwnedBy(isjs, ns, config, k) && k !in fails
  }

  /** The terminal jobs not created after the cutoff whose delete succeeds. */
  function Expired(isjs: ScanJobs, cutoff: Time, fails: set<Key>): set<Key> {
    set k | k in isjs && Stale(isjs[k], cutoff) && k !in fails
  }

  lemma ExpiredIff(isjs: ScanJobs, cutoff: Time, fails: set<Key>, k: Key)
    requires k in isjs
    ensures k in Expired(isjs, cutoff, fails)
       <==> Terminal(isjs[k].status.phase) && isjs[k].created <= cutoff && k !in fails
  {}

  /** What a cleanup keeps. */
  ghost predicate Cleaned(before: ScanJobs, cutoff: Time, fails: set<Key>, after: ScanJobs) {
    forall k | k in before ::
      k in after <==>
        || !(before[k].status.phase.Completed? || before[k].status.phase.Failed?)
        || before[k].created > cutoff || k in fails
  }

  lemma WithoutExpired(before: ScanJobs, cutoff: Time, fails: set<Key>, after: ScanJobs)
    requires after == before - Expired(before, cutoff, fails)
    ensures Cleaned(before, cutoff, fails, after)
  {}

  /** A get that fails goes on to the create, which an existing name makes fail. */
  predicate EndsRequest(
    p: Params, ns: string, image: string, scanner: string, isjs: ScanJobs, getFails: bool, createFails: bool)
  {
    if Key(ns, ManualScanJobName(p.sha, image, scanner)) in isjs then getFails else createFails
  }

  /** A manual request on its way: the store, and the names created and skipped. */
  datatype Manual = Manual(store: Store, created: seq<string>, skipped: seq<string>)

  function TriggerNext(p: Params, ns: string, now: Time, image: string, scanner: string, m: Manual): Manual {
    var name := ManualScanJobName(p.sha, image, scanner);
    if Key(ns, name) in m.store.isjs then m.(skipped := m.skipped + [name])
    else
      var isjs := m.store.isjs[Key(ns, name) := ManualJob(m.store.nextUid, now, image, scanner)];
      Manual(Store(isjs, m.store.nextUid + 1), m.created + [name], m.skipped)
  }

  function TriggerFirst(
    p: Params, ns: string, now: Time, images: seq<string>, scanner: string, n: nat, start: Store): Manual
    requires n <= |images|
  {
    if n == 0 then Manual(start, [], [])
    else TriggerNext(p, ns, now, images[n - 1], scanner, TriggerFirst(p, ns, now, images, scanner, n - 1, start))
  }

  /** None of the first `n` images ends the request. */
  ghost predicate NoneEnds(
    p: Params, ns: string, now: Time, images: seq<string>, scanner: string,
    getFails: nat -> bool, createFails: nat -> bool, start: Store, n: nat)
    requires n <= |images|
  {
    n > 0 ==>
      && NoneEnds(p, ns, now, images, scanner, getFails, createFails, start, n - 1)
      && !EndsRequest(p, ns, images[n - 1], scanner, TriggerFirst(p, ns, now, images, scanner, n - 1, start).store.isjs,
                      getFails(n - 1), createFails(n - 1))
  }

  /** A manual request has dealt with its first `n` images. */
  ghost predicate Triggered(
    p: Params, ns: string, now: Time, images: seq<string>, scanner: string,
    getFails: nat -> bool, createFails: nat -> bool, start: Store, n: nat, m: Manual)
  {
    && n <= |images| && m == TriggerFirst(p, ns, now, images, scanner, n, start)
    && NoneEnds(p, ns, now, images, scanner, getFails, createFails, start, n)
  }

  lemma TriggersNext(
    p: Params, ns: string, now: Time, images: seq<string>, scanner: string,
    getFails: nat -> bool, createFails: nat -> bool, start: Store, n: nat, m: Manual)
    requires n < |images| && Triggered(p, ns, now, images, scanner, getFails, createFails, start, n, m)
    ensures EndsRequest(p, ns, images[n], scanner, m.store.isjs, getFails(n), createFails(n))
         || Triggered(p, ns, now, images, scanner, getFails, createFails, start, n + 1,
                      TriggerNext(p, ns, now, images[n], scanner, m))
  {}

  function ManualJob(uid: nat, now: Time, image: string, scanner: string): ScanJob {
    ScanJob(uid, now, Spec(image, "", scanner, ByHand, "manual", ""), FRESH)
  }

  /** The listed keys that are to be deleted. */
  function Among(listing: seq<Key>, doomed: set<Key>): set<Key> {
    set k | k in doomed && k in listing
  }

  lemma NextAmong(listing: seq<Key>, i: nat, doomed: set<Key>)
    requires i < |listing| && NoDuplicates(listing)
    ensures listing[i] in listing && listing[i] !in Among(listing[..i], doomed)
    ensures Among(listing[..i + 1], doomed)
         == if listing[i] in doomed then Among(listing[..i], doomed) + {listing[i]} else Among(listing[..i], doomed)
    ensures |Among(listing[..i + 1], doomed)| == |Among(listing[..i], doomed)| + if listing[i] in doomed then 1 else 0
  {
    assert listing[..i + 1] == listing[..i] + [listing[i]];
    assert listing[i] !in listing[..i];
  }

  lemma AllAmong(listing: seq<Key>, doomed: set<Key>)
    requires forall k | k in doomed :: k in listing
    ensures Among(listing[..|listing|], doomed) == doomed
  {
    assert listing[..|listing|] == listing;
  }

  /** The first `i` listed keys are dealt with: those of them that are doomed are gone, and counted. */
  ghost predicate DeletedSoFar(
    before: ScanJobs, listing: seq<Key>, i: int, doomed: set<Key>, after: ScanJobs, deleted: nat)
  {
    0 <= i <= |listing| && after == before - Among(listing[..i], doomed) && deleted == |before| - |after|
  }

  lemma DeleteNext(before: ScanJobs, listing: seq<Key>, i: nat, doomed: set<Key>, after: ScanJobs, deleted: nat)
    requires i < |listing| && NoDuplicates(listing) && listing[i] in before
    requires DeletedSoFar(before, listing, i, doomed, after, deleted)
    ensures listing[i] in after && after[listing[i]] == before[listing[i]]
    ensures if listing[i] in doomed then DeletedSoFar(before, listing, i + 1, doomed, after - {listing[i]}, deleted + 1)
            else DeletedSoFar(before, listing, i + 1, doomed, after, deleted)
  {
    NextAmong(listing, i, doomed);
    DropOne(before, Among(listing[..i], doomed), listing[i]);
  }

  lemma AllDeleted(before: ScanJobs, listing: seq<Key>, doomed: set<Key>, after: ScanJobs, deleted: nat)
    requires DeletedSoFar(before, listing, |listing|, doomed, after, deleted)
    requires forall k | k in doomed :: k in listing
    ensures after == before - doomed && deleted == |before| - |after|
  {
    AllAmong(listing, doomed);
  }

  lemma DropOne(isjs: ScanJobs, gone: set<Key>, k: Key)
    requires k in isjs && k !in gone
    ensures (isjs - gone) - {k} == isjs - (gone + {k})
    ensures |(isjs - gone) - {k}| == |isjs - gone| - 1
  {
    assert ((isjs - gone) - {k}).Keys == (isjs - gone).Keys - {k};
  }

  /** A manual request leaves every job that was there as it was. */
  lemma {:induction false} ManualScansKeep(
    p: Params, ns: string, now: Time, images: seq<string>, scanner: string, n: nat, start: Store, k: Key)
    requires n <= |images| && k in start.isjs
    ensures var after := TriggerFirst(p, ns, now, images, scanner, n, start).store.isjs;
      k in after && after[k] == start.isjs[k]
  {
    if n > 0 {
      ManualScansKeep(p, ns, now, images, scanner, n - 1, start, k);
    }
  }

  /** Every image it has dealt with has a job under its manual name. */
  lemma {:induction false} ManualScansCover(
    p: Params, ns: string, now: Time, images: seq<string>, scanner: string, n: nat, start: Store, i: nat)
    requires i < n <= |images|
    ensures var m := TriggerFirst(p, ns, now, images, scanner, n, start);
      Key(ns, ManualScanJobName(p.sha, images[i], scanner)) in m.store.isjs
  {
    if i < n - 1 {
      ManualScansCover(p, ns, now, images, scanner, n - 1, start, i);
    }
  }

  /** The new jobs are exactly those under the names it reports as created. */
  lemma {:induction false} ManualScansAdd(
    p: Params, ns: string, now: Time, images: seq<string>, scanner: string, n: nat, start: Store)
    requires n <= |images|
    ensures var m := TriggerFirst(p, ns, now, images, scanner, n, start);
      && (forall k :: k in m.store.isjs <==> k in start.isjs || (k.ns == ns && k.name in m.created))
      && (forall name | name in m.created :: Key(ns, name) !in start.isjs)
  {
    if n > 0 {
      ManualScansAdd(p, ns, now, images, scanner, n - 1, start);
    }
  }

  /** Each name is reported created once, and has its job, and every one of `n` images as created or skipped. */
  predicate AccountsFor(ns: string, m: Manual, n: nat) {
    && NoDuplicates(m.created) && |m.created| + |m.skipped| == n
    && forall name | name in m.created :: Key(ns, name) in m.store.isjs
  }

  lemma {:induction false} ManualScansAreCounted(
    p: Params, ns: string, now: Time, images: seq<string>, scanner: string, n: nat, start: Store)
    requires n <= |images|
    ensures AccountsFor(ns, TriggerFirst(p, ns, now, images, scanner, n, start), n)
  {
    if n > 0 {
      ManualScansAreCounted(p, ns, now, images, scanner, n - 1, start);
      TriggerNextCounts(p, ns, now, images[n - 1], scanner, n - 1,
                        TriggerFirst(p, ns, now, images, scanner, n - 1, start));
    }
  }

  lemma TriggerNextCounts(p: Params, ns: string, now: Time, image: string, scanner: string, n: nat, m: Manual)
    requires AccountsFor(ns, m, n)
    ensures AccountsFor(ns, TriggerNext(p, ns, now, image, scanner, m), n + 1)
  {
    var name := ManualScanJobName(p.sha, image, scanner);
    if name !in m.created {
      NoDuplicatesAppend(m.created, name);
    }
  }

  lemma NoDuplicatesAppend(names: seq<string>, name: string)
    requires NoDuplicates(names) && name !in names
    ensures NoDuplicates(names + [name])
  {}

  /** They are fresh, for a requested image and the requested scanner, under the image's manual name. */
  lemma {:induction false} ManualScansAreFresh(
    p: Params, ns: string, now: Time, images: seq<string>, scanner: string, n: nat, start: Store, k: Key)
    requires n <= |images|
    requires k in TriggerFirst(p, ns, now, images, scanner, n, start).store.isjs && k !in start.isjs
    ensures var job := TriggerFirst(p, ns, now, images, scanner, n, start).store.isjs[k];
      exists i | 0 <= i < n ::
        && k == Key(ns, ManualScanJobName(p.sha, images[i], scanner))
        && job.spec == Spec(images[i], "", scanner, ByHand, "manual", "")
        && job.status == FRESH && job.created == now
  {
    var before := TriggerFirst(p, ns, now, images, scanner, n - 1, start);
    if k in before.store.isjs {
      ManualScansAreFresh(p, ns, now, images, scanner, n - 1, start, k);
    } else {
      var i := n - 1;
      assert k == Key(ns, ManualScanJobName(p.sha, images[i], scanner));
    }
  }

  lemma NothingPending(work: seq<Work>, n: nat)
    requires n <= |work|
    ensures |ImagesFrom(work, n)| == 0 <==> n == |work|
  {
    if n < |work| {
      assert work[n].image in ImagesFrom(work, n);
    }
  }

  /** Appending the calls of a new image adds that image, unless all of them were made. */
  lemma MoreImages(work: seq<Work>, calls: seq<Work>, n: nat, image: string)
    requires n <= |work| + |calls|
    requires forall w | w in work :: w.image != image
    requires forall w | w in calls :: w.image == image
    ensures ImagesFrom(work + calls, n)
         == ImagesFrom(work, n) + (if n < |work| + |calls| && calls != [] then {image} else {})
    ensures |ImagesFrom(work + calls, n)|
         == |ImagesFrom(work, n)| + (if n < |work| + |calls| && calls != [] then 1 else 0)
  {
    var all := work + calls;
    if n < |all| && calls != [] {
      assert all[|all| - 1] == calls[|calls| - 1] && calls[|calls| - 1] in calls;
      assert image in ImagesFrom(all, n);
    }
    forall i | n <= i < |all|
      ensures if i < |work| then all[i].image in ImagesFrom(work, n) else all[i].image == image
    {
      if i < |work| {
        assert all[i] == work[i];
      } else {
        assert all[i] == calls[i - |work|] && all[i] in calls;
      }
    }
    forall i | n <= i < |work|
      ensures work[i].image in ImagesFrom(all, n) && work[i].image != image
    {
      assert all[i] == work[i] && work[i] in work;
    }
  }
}
