/** A whole cycle of the SecurityScanConfig controller, from the pods to the jobs it creates. */
module Cycles {
  import opened Cluster
  import opened Protocol
  import opened Steps
  import opened Ensure
  import opened Controllers
  import opened DoubleScan
  import opened Discovery
  import opened Ordering

  /** The scanners of a config that the operator has enabled, in the config's order. */
  function Enabled(requested: seq<string>, allowed: seq<string>): seq<string> {
    if requested == [] then []
    else Enabled(requested[..|requested| - 1], allowed)
         + if requested[|requested| - 1] in allowed then [requested[|requested| - 1]] else []
  }

  /** The default is trivy; an empty allow-list enables everything. */
  function ScannersFor(requested: seq<string>, allowed: seq<string>): seq<string> {
    var wanted := if requested == [] then ["trivy"] else requested;
    if allowed == [] then wanted else Enabled(wanted, allowed)
  }

  lemma {:induction false} EnabledIsIntersection(requested: seq<string>, allowed: seq<string>)
    ensures forall s :: s in Enabled(requested, allowed) <==> s in requested && s in allowed
  {
    if requested != [] {
      EnabledIsIntersection(requested[..|requested| - 1], allowed);
      assert requested == requested[..|requested| - 1] + [requested[|requested| - 1]];
    }
  }

  /** `chosen` is what stands at the increasing positions `at` of the requested scanners, which are those that are
      allowed. */
  ghost predicate Picks(at: seq<nat>, requested: seq<string>, allowed: seq<string>, chosen: seq<string>) {
    && |at| == |chosen|
    && (forall i | 0 <= i < |at| :: at[i] < |requested| && chosen[i] == requested[at[i]])
    && (forall i, j | 0 <= i < j < |at| :: at[i] < at[j])
    && forall k: nat :: k in at <==> k < |requested| && requested[k] in allowed
  }

  lemma PicksNext(at: seq<nat>, requested: seq<string>, allowed: seq<string>, chosen: seq<string>)
    requires requested != [] && Picks(at, requested[..|requested| - 1], allowed, chosen)
    ensures var n := |requested| - 1;
      if requested[n] in allowed then Picks(at + [n], requested, allowed, chosen + [requested[n]])
      else Picks(at, requested, allowed, chosen)
  {
    var n := |requested| - 1;
    assert forall k: nat | k < n :: requested[..n][k] == requested[k];
    assert forall k :: k in at + [n] <==> k in at || k == n;
  }

  /** They stand in the requested order, each as often as requested. */
  lemma {:induction false} EnabledKeepsOrder(requested: seq<string>, allowed: seq<string>)
    ensures exists at :: Picks(at, requested, allowed, Enabled(requested, allowed))
  {
    if requested == [] {
      assert Picks([], requested, allowed, Enabled(requested, allowed));
    } else {
      var n := |requested| - 1;
      EnabledKeepsOrder(requested[..n], allowed);
      var at :| Picks(at, requested[..n], allowed, Enabled(requested[..n], allowed));
      PicksNext(at, requested, allowed, Enabled(requested[..n], allowed));
      if requested[n] in allowed {
        assert Picks(at + [n], requested, allowed, Enabled(requested, allowed));
      } else {
        assert Enabled(requested, allowed) == Enabled(requested[..n], allowed);
      }
    }
  }

  /** What scans an image: trivy unless scanners are requested, and of these only the allowed ones when there is a list
      of them. */
  lemma {:induction false} ScannersForIff(requested: seq<string>, allowed: seq<string>, s: string)
    ensures s in ScannersFor(requested, allowed) <==>
      && (if requested == [] then s == "trivy" else s in requested)
      && (allowed == [] || s in allowed)
  {
    EnabledIsIntersection(if requested == [] then ["trivy"] else requested, allowed);
  }

  method IntersectScanners(requested: seq<string>, allowed: seq<string>) returns (result: seq<string>)
    ensures result == Enabled(requested, allowed)
  {
    var allowedSet := {};
    var i := 0;
    while i < |allowed|
      invariant 0 <= i <= |allowed|
      invariant forall s :: s in allowedSet <==> s in allowed[..i]
    {
      allowedSet := allowedSet + {allowed[i]};
      i := i + 1;
    }
    assert allowed[..i] == allowed;
    result := [];
    i := 0;
    while i < |requested|
      invariant 0 <= i <= |requested|
      invariant result == Enabled(requested[..i], allowed)
    {
      assert requested[..i + 1][..i] == requested[..i];
      if requested[i] in allowedSet {
        result := result + [requested[i]];
      }
      i := i + 1;
    }
    assert requested[..i] == requested;
  }

  function SourcesOf(images: Images): map<string, string> {
    map image | image in images :: images[image].ns
  }

  /** What the operator and one config ask for. */
  datatype Request = Request(
    reset: bool, enabled: bool, excluded: set<string>, scanners: seq<string>, allowed: seq<string>, maxImages: int)

  /** Which requests of one Reconcile fail: those of a reset, the pod listing, the check of the namespace, the job
      listing, the status patch, the deletes of a reset and the calls of a batch. */
  datatype Trouble = Trouble(
    onResetList: bool, onResetPatch: bool, onPods: bool, onNamespace: bool, onList: bool, onStatus: bool,
    deletes: set<Key>, calls: nat -> Faults)

  /** What the clusters run, as the cycle sees it. */
  function Discovered(pods: seq<Pod>, remotes: seq<Remote>, r: Request): Images {
    MergeAll(RecordAll(map[], Sightings(pods, r.excluded)), remotes).images
  }

  /** An image that local pods show is found with the oldest of these; any other as the first cluster that runs it found
      it, and not at all when none does. */
  ghost predicate FoundSomewhere(
    pods: seq<Pod>, remotes: seq<Remote>, excluded: set<string>, image: string, found: Option<Found>)
  {
    if image != "" && exists i :: 0 <= i < |pods| && Shows(pods[i], excluded, image) then
      OldestPod(pods, excluded, image, found)
    else if exists i: nat :: FirstToRun(remotes, image, i) then
      exists i: nat :: FirstToRun(remotes, image, i) && found == Some(remotes[i].images.value[image])
    else found.None?
  }

  lemma {:induction false} DiscoveredSomewhere(pods: seq<Pod>, remotes: seq<Remote>, r: Request, image: string)
    ensures FoundSomewhere(pods, remotes, r.excluded, image, Find(Discovered(pods, remotes, r), image))
  {
    var local := RecordAll(map[], Sightings(pods, r.excluded));
    DiscoveryInPods(pods, r.excluded, image);
    if k: nat :| k < |remotes| && Runs(remotes[k], image) {
      FirstExists(remotes, image, k);
      var i: nat :| FirstToRun(remotes, image, i);
      FirstClusterWins(local, remotes, image, i);
    } else {
      LocalOnly(local, remotes, image);
    }
  }

  /** The calls for jobs that a cycle over these clusters makes when nothing fails and no slot is missing. */
  ghost predicate Wanted(
    pods: seq<Pod>, remotes: seq<Remote>, r: Request, covered: set<(string, string)>, digests: map<string, string>,
    work: seq<Work>)
  {
    var images := Discovered(pods, remotes, r);
    exists sorted :: Selection(images, r.maxImages, sorted)
      && work == Worklist(sorted, ScannersFor(r.scanners, r.allowed), covered, digests, SourcesOf(images))
  }

  /** That work, and its order, is a function of the clusters: neither map iteration nor sorting has a say. */
  lemma {:induction false} WantedIsUnique(
    pods: seq<Pod>, remotes: seq<Remote>, r: Request, covered: set<(string, string)>, digests: map<string, string>,
    work: seq<Work>, other: seq<Work>)
    requires Wanted(pods, remotes, r, covered, digests, work) && Wanted(pods, remotes, r, covered, digests, other)
    ensures work == other
  {
    var images := Discovered(pods, remotes, r);
    var s :| Selection(images, r.maxImages, s)
      && work == Worklist(s, ScannersFor(r.scanners, r.allowed), covered, digests, SourcesOf(images));
    var t :| Selection(images, r.maxImages, t)
      && other == Worklist(t, ScannersFor(r.scanners, r.allowed), covered, digests, SourcesOf(images));
    SelectionUnique(images, r.maxImages, s, t);
  }

  /** The calls of a cycle go from the oldest deployment to the youngest. */
  ghost predicate OldestFirst(found: Images, work: seq<Work>) {
    && (forall i | 0 <= i < |work| :: work[i].image in found)
    && forall i, j | 0 <= i < j < |work| :: found[work[i].image].deployedAt <= found[work[j].image].deployedAt
  }

  lemma {:induction false} WorklistByAge(
    found: Images, images: seq<string>, scanners: seq<string>, covered: set<(string, string)>,
    digests: map<string, string>, sources: map<string, string>)
    requires forall i | 0 <= i < |images| :: images[i] in found
    requires forall i, j | 0 <= i < j < |images| :: found[images[i]].deployedAt <= found[images[j]].deployedAt
    ensures OldestFirst(found, Worklist(images, scanners, covered, digests, sources))
  {
    if images != [] {
      var needed := Needed(images[0], scanners, covered);
      var head := WorkOf(images[0], needed, Lookup(digests, images[0]), Lookup(sources, images[0]));
      var rest := Worklist(images[1..], scanners, covered, digests, sources);
      WorklistByAge(found, images[1..], scanners, covered, digests, sources);
      WorklistImages(images[1..], scanners, covered, digests, sources);
      forall j | 0 <= j < |rest|
        ensures found[images[0]].deployedAt <= found[rest[j].image].deployedAt
      {
        assert rest[j] in rest;
        var k: nat :| k < |images[1..]| && images[1..][k] == rest[j].image;
        assert images[k + 1] == rest[j].image;
      }
      AgesJoin(found, images[0], head, rest);
    }
  }

  lemma AgesJoin(found: Images, image: string, head: seq<Work>, rest: seq<Work>)
    requires image in found && forall i | 0 <= i < |head| :: head[i].image == image
    requires OldestFirst(found, rest)
    requires forall j | 0 <= j < |rest| :: found[image].deployedAt <= found[rest[j].image].deployedAt
    ensures OldestFirst(found, head + rest)
  {}

  /** And an image of the clusters that a scanner has not covered gets its call, or was cut by the cap and then is no
      older than any image with a call. */
  ghost predicate OldestKept(
    found: Images, scanners: seq<string>, covered: set<(string, string)>, max: int, work: seq<Work>)
  {
    forall image, s | image in found && s in scanners && (image, s) !in covered ::
      || (exists w :: w in work && w.image == image && w.scanner == s)
      || (0 < max < |found|
          && forall w | w in work :: w.image in found && found[w.image].deployedAt <= found[image].deployedAt)
  }

  lemma SelectionKeepsOldest(
    found: Images, s: seq<string>, scanners: seq<string>, covered: set<(string, string)>, max: int,
    digests: map<string, string>, sources: map<string, string>, image: string, scanner: string)
    requires Selection(found, max, s) && image in found && scanner in scanners && (image, scanner) !in covered
    ensures var work := Worklist(s, scanners, covered, digests, sources);
      || (exists w :: w in work && w.image == image && w.scanner == scanner)
      || (0 < max < |found|
          && forall w | w in work :: w.image in found && found[w.image].deployedAt <= found[image].deployedAt)
  {
    var work := Worklist(s, scanners, covered, digests, sources);
    if image in s {
      var w := Work(image, scanner, Lookup(digests, image), Lookup(sources, image));
      WorklistIff(s, scanners, covered, digests, sources, w);
      assert w in work;
    } else {
      CutByCap(found, max, s, image);
      SelectionIsOldest(found, max, s);
      forall w | w in work
        ensures w.image in found && found[w.image].deployedAt <= found[image].deployedAt
      {
        WorklistIff(s, scanners, covered, digests, sources, w);
        var k: nat :| k < |s| && s[k] == w.image;
      }
    }
  }

  lemma {:induction false} CallsGoByAge(
    pods: seq<Pod>, remotes: seq<Remote>, r: Request, covered: set<(string, string)>, digests: map<string, string>,
    work: seq<Work>)
    requires Wanted(pods, remotes, r, covered, digests, work)
    ensures OldestFirst(Discovered(pods, remotes, r), work)
    ensures OldestKept(Discovered(pods, remotes, r), ScannersFor(r.scanners, r.allowed), covered, r.maxImages, work)
    ensures var found := Discovered(pods, remotes, r);
      forall w | w in work :: w.image in found && w.sourceNamespace == found[w.image].ns
  {
    var found, scanners := Discovered(pods, remotes, r), ScannersFor(r.scanners, r.allowed);
    var s :| Selection(found, r.maxImages, s) && work == Worklist(s, scanners, covered, digests, SourcesOf(found));
    SelectionIsOldest(found, r.maxImages, s);
    WorklistByAge(found, s, scanners, covered, digests, SourcesOf(found));
    forall w | w in work
      ensures w.image in found && w.sourceNamespace == found[w.image].ns
    {
      WorklistIff(s, scanners, covered, digests, SourcesOf(found), w);
    }
    forall image, scanner | image in found && scanner in scanners && (image, scanner) !in covered
      ensures || (exists w :: w in work && w.image == image && w.scanner == scanner)
              || (0 < r.maxImages < |found|
                  && forall w | w in work ::
                       w.image in found && found[w.image].deployedAt <= found[image].deployedAt)
    {
      SelectionKeepsOldest(found, s, scanners, covered, r.maxImages, digests, SourcesOf(found), image, scanner);
    }
  }

  lemma CutByCap(found: Images, max: int, s: seq<string>, image: string)
    requires Selection(found, max, s) && image in found && image !in s
    ensures 0 < max < |found|
  {
    if !(0 < max < |found|) {
      var kept := set i | 0 <= i < |s| :: s[i];
      SelectionHasNoDuplicates(found, max, s);
      DistinctSize(s);
      assert kept <= found.Keys - {image};
      SubsetSize(kept, found.Keys - {image});
    }
  }

  lemma {:induction false} DistinctSize(s: seq<string>)
    requires NoDuplicates(s)
    ensures |set i | 0 <= i < |s| :: s[i]| == |s|
  {
    if s != [] {
      var n := |s| - 1;
      DistinctSize(s[..n]);
      var front := set i | 0 <= i < n :: s[..n][i];
      assert s[n] !in front;
      assert (set i | 0 <= i < |s| :: s[i]) == front + {s[n]} by {
        assert forall i | 0 <= i < n :: s[..n][i] == s[i] && s[i] in front;
      }
    }
  }

  method ChooseScanners(r: Request) returns (scanners: seq<string>)
    ensures scanners == ScannersFor(r.scanners, r.allowed)
  {
    scanners := if |r.scanners| == 0 then ["trivy"] else r.scanners;
    if |r.allowed| > 0 {
      scanners := IntersectScanners(scanners, r.allowed);
    }
  }

  method ChooseImages(pods: seq<Pod>, remotes: seq<Remote>, r: Request) returns (images: Images, sorted: seq<string>)
    ensures images == Discovered(pods, remotes, r)
    ensures Selection(images, r.maxImages, sorted) && NoDuplicates(sorted)
  {
    var local := DiscoverImages(pods, r.excluded);
    var merged := MergeClusters(local, remotes);
    images := merged.images;
    sorted := SelectImages(images, r.maxImages);
    SelectionHasNoDuplicates(images, r.maxImages, sorted);
  }

  /** Reconcile of a config without a reset, from the pods to the jobs. */
  method ScanConfig(
    api: ApiServer, p: Params, c: Cycle, pods: seq<Pod>, remotes: seq<Remote>, r: Request,
    listing: seq<Key>, digests: map<string, string>, t: Trouble)
    returns (end: CycleEnd, attempted: seq<Work>, ghost work: seq<Work>)
    requires NoDuplicates(listing)
    requires forall k :: k in listing <==> k in api.isjs && k.ns == c.ns
    modifies api
    ensures api.jobs == old(api.jobs)
    ensures Scans(r, t) ==> Wanted(pods, remotes, r, Covered(old(api.isjs), c.ns), digests, work)
    ensures if Scans(r, t) then CycleDone(p, c, old(api.Contents()), work, t.calls, attempted, api.Contents())
            else attempted == [] && api.Contents() == old(api.Contents())
    ensures var throttled := EffectiveMaxConcurrentScans(p) <= |Open(old(api.isjs), c.ns)|;
      end == ScanEnd(r, t, throttled || attempted != work)
  {
    if !r.enabled {
      return Later, [], [];
    }
    if t.onPods || t.onNamespace {
      return CycleError, [], [];
    }
    var images, sorted := ChooseImages(pods, remotes, r);
    var scanners := ChooseScanners(r);
    if |scanners| == 0 {
      return Later, [], [];
    }
    work := Worklist(sorted, scanners, Covered(api.isjs, c.ns), digests, SourcesOf(images));
    end, attempted := api.RunCycle(
      p, c, listing, sorted, scanners, digests, SourcesOf(images), t.calls, !t.onList, !t.onStatus);
  }

  /** Whether Reconcile gets as far as its batch. */
  predicate Scans(r: Request, t: Trouble) {
    r.enabled && !t.onPods && !t.onNamespace && ScannersFor(r.scanners, r.allowed) != [] && !t.onList
  }

  /** What it returns; `more` says that the throttle or a full batch left work. */
  function ScanEnd(r: Request, t: Trouble, more: bool): CycleEnd {
    if !r.enabled then Later
    else if t.onPods || t.onNamespace then CycleError
    else if ScannersFor(r.scanners, r.allowed) == [] then Later
    else if t.onList || t.onStatus then CycleError
    else if more then Soon
    else Later
  }

  /** Reconcile. A reset takes the place of the whole cycle. */
  method ReconcileConfig(
    api: ApiServer, p: Params, c: Cycle, pods: seq<Pod>, remotes: seq<Remote>, r: Request,
    owned: seq<Key>, listing: seq<Key>, digests: map<string, string>, t: Trouble)
    returns (end: CycleEnd, attempted: seq<Work>, ghost work: seq<Work>)
    requires NoDuplicates(listing) && NoDuplicates(owned)
    requires forall k :: k in listing <==> k in api.isjs && k.ns == c.ns
    requires forall k :: k in owned <==> OwnedBy(api.isjs, c.ns, c.config, k)
    modifies api
    ensures api.jobs == old(api.jobs)
    ensures r.reset ==> attempted == [] && api.nextUid == old(api.nextUid)
    ensures r.reset ==> end == if t.onResetList || t.onResetPatch then CycleError else AfterReset
    ensures r.reset ==>
      api.isjs == if t.onResetList then old(api.isjs)
                  else old(api.isjs) - Owned(old(api.isjs), c.ns, c.config, t.deletes)
    ensures !r.reset && Scans(r, t) ==> Wanted(pods, remotes, r, Covered(old(api.isjs), c.ns), digests, work)
    ensures !r.reset && Scans(r, t) ==>
      && attempted <= work && OldestFirst(Discovered(pods, remotes, r), work)
      && OldestKept(Discovered(pods, remotes, r), ScannersFor(r.scanners, r.allowed),
                    Covered(old(api.isjs), c.ns), r.maxImages, work)
    ensures !r.reset ==>
      if Scans(r, t) then CycleDone(p, c, old(api.Contents()), work, t.calls, attempted, api.Contents())
      else attempted == [] && api.Contents() == old(api.Contents())
    ensures !r.reset ==>
      var throttled := EffectiveMaxConcurrentScans(p) <= |Open(old(api.isjs), c.ns)|;
      end == ScanEnd(r, t, throttled || attempted != work)
    ensures !r.reset && !r.enabled ==> end == Later && attempted == []
    ensures !r.reset && r.enabled && (t.onPods || t.onNamespace) ==> end == CycleError && attempted == []
    ensures !r.reset && r.enabled && !t.onPods && !t.onNamespace && !Scans(r, t) ==>
      attempted == [] && end == if ScannersFor(r.scanners, r.allowed) == [] then Later else CycleError
    ensures !r.reset && Scans(r, t) ==>
      var slots := (if p.maxConcurrentScans > 0 then p.maxConcurrentScans else 10) - |Open(old(api.isjs), c.ns)|;
      end == if t.onStatus then CycleError else if slots <= 0 || attempted != work then Soon else Later
  {
    if r.reset {
      attempted, work := [], [];
      if t.onResetList {
        return CycleError, [], [];
      }
      var deleted := api.HandleReset(c.ns, c.config, owned, t.deletes);
      end := if t.onResetPatch then CycleError else AfterReset;
    } else {
      end, attempted, work := ScanConfig(api, p, c, pods, remotes, r, listing, digests, t);
      if Scans(r, t) {
        CallsGoByAge(pods, remotes, r, Covered(old(api.isjs), c.ns), digests, work);
      }
    }
  }

  /** An undisturbed cycle is one of the machine's runs: the snapshot, and then the calls in order. */
  lemma {:induction false} CycleIsARun(
    p: Params, s: State, e: Event, faults: nat -> Faults, attempted: seq<Work>, after: Store)
    returns (events: seq<Event>)
    requires e.Snapshot? && s.ssc.SscIdle? && NoDuplicates(e.images)
    requires CycleDone(p, Cycle(e.ns, e.config, s.now), Store(s.isjs, s.nextUid),
                       Worklist(e.images, e.scanners, Covered(s.isjs, e.ns), e.digests, e.sources),
                       faults, attempted, after)
    ensures var t := Run(p, s, [e] + events);
      t == s.(isjs := after.isjs, nextUid := after.nextUid, ssc := t.ssc, retried := t.retried)
  {
    var t := s.(ssc := AfterSnapshot(p, s, e));
    if t.ssc.SscIdle? {
      events := [];
      assert attempted == [];
    } else {
      assert attempted == t.ssc.batch.work[..|attempted|];
      events := BatchIsARun(p, t, |attempted|, faults);
    }
    RunTwo(p, s, e, events);
  }
}
