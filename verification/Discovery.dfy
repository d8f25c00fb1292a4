/** Image discovery from pods, and the merge of what several clusters run. */
module Discovery {
  import opened Cluster

  datatype Pod = Pod(ns: string, created: Time, containers: seq<string>, initContainers: seq<string>)

  /** discoveredImage: where an image was first seen running, and since when. */
  datatype Found = Found(ns: string, deployedAt: Time)

  type Images = map<string, Found>

  datatype Sighting = Sighting(image: string, ns: string, at: Time)

  // ── Specification ───────────────────────────────────────────────────────

  function ImagesOf(pod: Pod): seq<string> {
    pod.containers + pod.initContainers
  }

  function SightingsOf(images: seq<string>, ns: string, at: Time): seq<Sighting> {
    seq(|images|, i requires 0 <= i < |images| => Sighting(images[i], ns, at))
  }

  function PodSightings(pod: Pod, excluded: set<string>): seq<Sighting> {
    if pod.ns in excluded then [] else SightingsOf(ImagesOf(pod), pod.ns, pod.created)
  }

  /** Every container of every pod outside the excluded namespaces, in listing order. */
  function Sightings(pods: seq<Pod>, excluded: set<string>): seq<Sighting> {
    if pods == [] then []
    else Sightings(pods[..|pods| - 1], excluded) + PodSightings(pods[|pods| - 1], excluded)
  }

  /** recordImage. */
  function Record(images: Images, s: Sighting): Images {
    if s.image == "" then images
    else if s.image !in images || s.at < images[s.image].deployedAt then images[s.image := Found(s.ns, s.at)]
    else images
  }

  function RecordAll(images: Images, ss: seq<Sighting>): Images
    decreases |ss|
  {
    if ss == [] then images else Record(RecordAll(images, ss[..|ss| - 1]), ss[|ss| - 1])
  }

  lemma {:induction false} RecordAllConcat(images: Images, a: seq<Sighting>, b: seq<Sighting>)
    ensures RecordAll(images, a + b) == RecordAll(RecordAll(images, a), b)
    decreases |b|
  {
    if b == [] {
      assert a + b == a;
    } else {
      assert (a + b)[..|a + b| - 1] == a + b[..|b| - 1];
      RecordAllConcat(images, a, b[..|b| - 1]);
    }
  }

  // ── What the specification means ────────────────────────────────────────

  /** Sighting `i` is the earliest of the image, and the first in listing order among the earliest. */
  predicate FirstEarliest(ss: seq<Sighting>, image: string, i: nat) {
    && i < |ss| && ss[i].image == image
    && forall j | 0 <= j < |ss| && ss[j].image == image :: ss[i].at <= ss[j].at && (j < i ==> ss[i].at < ss[j].at)
  }

  /** What discovery must have found for one image. */
  ghost predicate Explains(ss: seq<Sighting>, image: string, found: Option<Found>) {
    match found
    case None => image == "" || forall j | 0 <= j < |ss| :: ss[j].image != image
    case Some(f) => image != "" && exists i: nat :: FirstEarliest(ss, image, i) && f == Found(ss[i].ns, ss[i].at)
  }

  function Find(images: Images, image: string): Option<Found> {
    if image in images then Some(images[image]) else None
  }

  /** Exactly the non-empty images are found, each with the earliest creation time and the namespace of
      the first pod that reaches it. */
  lemma {:induction false} DiscoveryFindsEarliest(ss: seq<Sighting>, image: string)
    ensures Explains(ss, image, Find(RecordAll(map[], ss), image))
    decreases |ss|
  {
    if ss != [] {
      var n := |ss| - 1;
      DiscoveryFindsEarliest(ss[..n], image);
      ExplainsNext(ss, image, Find(RecordAll(map[], ss[..n]), image));
    }
  }

  lemma ExplainsNext(ss: seq<Sighting>, image: string, found: Option<Found>)
    requires ss != [] && Explains(ss[..|ss| - 1], image, found)
    ensures var n := |ss| - 1;
      Explains(ss, image, if image == "" || ss[n].image != image || (found.Some? && found.value.deployedAt <= ss[n].at)
                          then found else Some(Found(ss[n].ns, ss[n].at)))
  {
    var n := |ss| - 1;
    assert forall j | 0 <= j < n :: ss[..n][j] == ss[j];
    if found.Some? {
      var i: nat :| FirstEarliest(ss[..n], image, i) && found.value == Found(ss[..n][i].ns, ss[..n][i].at);
      assert ss[..n][i] == ss[i];
      if ss[n].image != image || ss[i].at <= ss[n].at {
        assert FirstEarliest(ss, image, i);
      } else {
        assert FirstEarliest(ss, image, n);
      }
    } else if image != "" && ss[n].image == image {
      assert FirstEarliest(ss, image, n);
    }
  }

  lemma Associate<T>(a: seq<T>, b: seq<T>, c: seq<T>)
    ensures a + (b + c) == a + b + c
  {}

  lemma {:induction false} SightingsConcat(a: seq<Pod>, b: seq<Pod>, excluded: set<string>)
    ensures Sightings(a + b, excluded) == Sightings(a, excluded) + Sightings(b, excluded)
    decreases |b|
  {
    if b == [] {
      assert a + b == a;
    } else {
      var front, last := b[..|b| - 1], b[|b| - 1];
      SightingsConcat(a, front, excluded);
      Associate(Sightings(a, excluded), Sightings(front, excluded), PodSightings(last, excluded));
      assert (a + b)[..|a + b| - 1] == a + front && (a + b)[|a + b| - 1] == last;
    }
  }

  lemma SightingsOfOne(pod: Pod, excluded: set<string>)
    ensures Sightings([pod], excluded) == PodSightings(pod, excluded)
  {
    assert [pod][..0] == [];
  }

  lemma SightingsAround(a: seq<Pod>, pod: Pod, b: seq<Pod>, excluded: set<string>)
    ensures multiset(Sightings(a + [pod] + b, excluded))
         == multiset(Sightings(a + b, excluded)) + multiset(PodSightings(pod, excluded))
  {
    SightingsConcat(a + [pod], b, excluded);
    SightingsConcat(a, [pod], excluded);
    SightingsConcat(a, b, excluded);
    SightingsOfOne(pod, excluded);
  }

  lemma CancelOne<T>(a: multiset<T>, b: multiset<T>, x: T)
    requires a + multiset{x} == b + multiset{x}
    ensures a == b
  {
    assert a == (a + multiset{x}) - multiset{x};
    assert b == (b + multiset{x}) - multiset{x};
  }

  lemma TakeOut(front: seq<Pod>, last: Pod, others: seq<Pod>) returns (a: seq<Pod>, b: seq<Pod>)
    requires multiset(front + [last]) == multiset(others)
    ensures others == a + [last] + b && multiset(front) == multiset(a + b)
  {
    assert multiset(front + [last]) == multiset(front) + multiset{last};
    assert last in multiset(others);
    var k: nat :| k < |others| && others[k] == last;
    a, b := others[..k], others[k + 1..];
    assert others == a + [last] + b;
    assert multiset(others) == multiset(a + b) + multiset{last};
    CancelOne(multiset(front), multiset(a + b), last);
  }

  lemma SightingsOfLast(front: seq<Pod>, last: Pod, excluded: set<string>)
    ensures multiset(Sightings(front + [last], excluded))
         == multiset(Sightings(front, excluded)) + multiset(PodSightings(last, excluded))
  {
    assert (front + [last])[..|front|] == front;
  }

  /** The same pods in another order give the same sightings in another order. */
  lemma {:induction false} ListingOrderPermutesSightings(pods: seq<Pod>, others: seq<Pod>, excluded: set<string>)
    requires multiset(pods) == multiset(others)
    ensures multiset(Sightings(pods, excluded)) == multiset(Sightings(others, excluded))
    decreases |pods|
  {
    if pods == [] {
      assert |multiset(others)| == 0;
    } else {
      var front, last := pods[..|pods| - 1], pods[|pods| - 1];
      assert pods == front + [last];
      var a, b := TakeOut(front, last, others);
      ListingOrderPermutesSightings(front, a + b, excluded);
      SightingsAround(a, last, b, excluded);
      SightingsOfLast(front, last, excluded);
    }
  }

  /** Images and times do not depend on the order in which pods are listed; only namespaces may. */
  lemma {:induction false} OrderDecidesOnlyNamespaces(pods: seq<Pod>, others: seq<Pod>, excluded: set<string>)
    requires multiset(pods) == multiset(others)
    ensures var images := RecordAll(map[], Sightings(pods, excluded));
      var same := RecordAll(map[], Sightings(others, excluded));
      && images.Keys == same.Keys
      && forall image | image in images :: images[image].deployedAt == same[image].deployedAt
  {
    var ss, tt := Sightings(pods, excluded), Sightings(others, excluded);
    ListingOrderPermutesSightings(pods, others, excluded);
    forall image | image in RecordAll(map[], ss)
      ensures image in RecordAll(map[], tt)
      ensures RecordAll(map[], tt)[image].deployedAt <= RecordAll(map[], ss)[image].deployedAt
    {
      NoLater(ss, tt, image);
    }
    forall image | image in RecordAll(map[], tt)
      ensures image in RecordAll(map[], ss)
      ensures RecordAll(map[], ss)[image].deployedAt <= RecordAll(map[], tt)[image].deployedAt
    {
      NoLater(tt, ss, image);
    }
  }

  lemma NoLater(ss: seq<Sighting>, tt: seq<Sighting>, image: string)
    requires multiset(ss) == multiset(tt) && image in RecordAll(map[], ss)
    ensures image in RecordAll(map[], tt)
    ensures RecordAll(map[], tt)[image].deployedAt <= RecordAll(map[], ss)[image].deployedAt
  {
    DiscoveryFindsEarliest(ss, image);
    DiscoveryFindsEarliest(tt, image);
    var i: nat :| FirstEarliest(ss, image, i) && RecordAll(map[], ss)[image] == Found(ss[i].ns, ss[i].at);
    assert ss[i] in multiset(ss);
    assert ss[i] in tt;
    var j :| 0 <= j < |tt| && tt[j] == ss[i];
  }

  // ── In terms of pods ────────────────────────────────────────────────────

  lemma {:induction false} RecordedOf(images: Images, names: seq<string>, ns: string, at: Time, image: string)
    ensures Find(RecordAll(images, SightingsOf(names, ns, at)), image)
         == if image != "" && image in names && (image !in images || at < images[image].deployedAt)
            then Some(Found(ns, at)) else Find(images, image)
    decreases |names|
  {
    if names != [] {
      var n := |names| - 1;
      RecordedOf(images, names[..n], ns, at, image);
      assert SightingsOf(names, ns, at)[..n] == SightingsOf(names[..n], ns, at);
      assert names == names[..n] + [names[n]];
    }
  }

  /** A pod outside the excluded namespaces that has the image in one of its containers, init containers included. */
  predicate Shows(pod: Pod, excluded: set<string>, image: string) {
    pod.ns !in excluded && (image in pod.containers || image in pod.initContainers)
  }

  /** Pod `i` is the oldest of those, and the first listed among the oldest. */
  predicate IsOldest(pods: seq<Pod>, excluded: set<string>, image: string, i: nat) {
    && i < |pods| && Shows(pods[i], excluded, image)
    && forall j | 0 <= j < |pods| && Shows(pods[j], excluded, image) ::
         pods[i].created <= pods[j].created && (j < i ==> pods[i].created < pods[j].created)
  }

  /** What discovery has found: the namespace and creation time of that pod. */
  ghost predicate OldestPod(pods: seq<Pod>, excluded: set<string>, image: string, found: Option<Found>) {
    match found
    case None => image == "" || forall i | 0 <= i < |pods| :: !Shows(pods[i], excluded, image)
    case Some(f) =>
      image != "" && exists i: nat :: IsOldest(pods, excluded, image, i) && f == Found(pods[i].ns, pods[i].created)
  }

  lemma OldestPodNext(pods: seq<Pod>, excluded: set<string>, image: string, found: Option<Found>)
    requires pods != [] && OldestPod(pods[..|pods| - 1], excluded, image, found)
    ensures var last := pods[|pods| - 1];
      OldestPod(pods, excluded, image,
        if image != "" && Shows(last, excluded, image) && (found.None? || last.created < found.value.deployedAt)
        then Some(Found(last.ns, last.created)) else found)
  {
    var n := |pods| - 1;
    assert forall i | 0 <= i < n :: pods[..n][i] == pods[i];
    if found.Some? {
      var i: nat :| IsOldest(pods[..n], excluded, image, i) && found.value == Found(pods[i].ns, pods[i].created);
      if Shows(pods[n], excluded, image) && pods[n].created < pods[i].created {
        assert IsOldest(pods, excluded, image, n);
      } else {
        assert IsOldest(pods, excluded, image, i);
      }
    } else if image != "" && Shows(pods[n], excluded, image) {
      assert IsOldest(pods, excluded, image, n);
    }
  }

  /** Discovery, in terms of the pods alone. */
  lemma {:induction false} DiscoveryInPods(pods: seq<Pod>, excluded: set<string>, image: string)
    ensures OldestPod(pods, excluded, image, Find(RecordAll(map[], Sightings(pods, excluded)), image))
  {
    if pods != [] {
      var n := |pods| - 1;
      var before := RecordAll(map[], Sightings(pods[..n], excluded));
      DiscoveryInPods(pods[..n], excluded, image);
      RecordAllConcat(map[], Sightings(pods[..n], excluded), PodSightings(pods[n], excluded));
      RecordedOf(before, ImagesOf(pods[n]), pods[n].ns, pods[n].created, image);
      OldestPodNext(pods, excluded, image, Find(before, image));
    }
  }

  // ── The loops ───────────────────────────────────────────────────────────

  method RecordImages(images: Images, names: seq<string>, ns: string, at: Time) returns (after: Images)
    ensures after == RecordAll(images, SightingsOf(names, ns, at))
  {
    after := images;
    ghost var ss := SightingsOf(names, ns, at);
    var i := 0;
    while i < |names|
      invariant 0 <= i <= |names|
      invariant after == RecordAll(images, ss[..i])
    {
      if names[i] != "" {
        if names[i] !in after || at < after[names[i]].deployedAt {
          after := after[names[i] := Found(ns, at)];
        }
      }
      assert ss[..i + 1][..i] == ss[..i];
      i := i + 1;
    }
    assert ss[..i] == ss;
  }

  /** The two inner loops over one pod. */
  method RecordPod(images: Images, pod: Pod) returns (after: Images)
    ensures after == RecordAll(images, SightingsOf(ImagesOf(pod), pod.ns, pod.created))
  {
    after := RecordImages(images, pod.containers, pod.ns, pod.created);
    after := RecordImages(after, pod.initContainers, pod.ns, pod.created);
    ghost var first := SightingsOf(pod.containers, pod.ns, pod.created);
    ghost var second := SightingsOf(pod.initContainers, pod.ns, pod.created);
    RecordAllConcat(images, first, second);
    assert SightingsOf(ImagesOf(pod), pod.ns, pod.created) == first + second;
  }

  lemma SightingsNext(pods: seq<Pod>, excluded: set<string>, i: nat)
    requires i < |pods|
    ensures RecordAll(map[], Sightings(pods[..i + 1], excluded))
         == RecordAll(RecordAll(map[], Sightings(pods[..i], excluded)), PodSightings(pods[i], excluded))
  {
    assert pods[..i + 1][..i] == pods[..i];
    RecordAllConcat(map[], Sightings(pods[..i], excluded), PodSightings(pods[i], excluded));
  }

  method DiscoverImages(pods: seq<Pod>, excluded: set<string>) returns (images: Images)
    ensures images == RecordAll(map[], Sightings(pods, excluded))
  {
    images := map[];
    var i := 0;
    while i < |pods|
      invariant 0 <= i <= |pods|
      invariant images == RecordAll(map[], Sightings(pods[..i], excluded))
    {
      SightingsNext(pods, excluded, i);
      if pods[i].ns !in excluded {
        images := RecordPod(images, pods[i]);
      }
      i := i + 1;
    }
    assert pods[..i] == pods;
  }

  // ── Several clusters ────────────────────────────────────────────────────

  /** A cluster reference and what its discovery returned; None when a lookup or the listing failed. */
  datatype Remote = Remote(name: string, images: Option<Images>)

  datatype Merged = Merged(images: Images, labels: map<string, string>)

  function Labels(found: Images, cluster: string): map<string, string> {
    map image | image in found :: cluster
  }

  function MergeOne(m: Merged, r: Remote): Merged {
    if r.images.None? then m
    else Merged(r.images.value + m.images, Labels(r.images.value, r.name) + m.labels)
  }

  function MergeAll(local: Images, remotes: seq<Remote>): Merged {
    if remotes == [] then Merged(local, map[])
    else MergeOne(MergeAll(local, remotes[..|remotes| - 1]), remotes[|remotes| - 1])
  }

  predicate Runs(r: Remote, image: string) {
    r.images.Some? && image in r.images.value
  }

  predicate FirstToRun(remotes: seq<Remote>, image: string, i: nat) {
    i < |remotes| && Runs(remotes[i], image) && forall j | 0 <= j < i :: !Runs(remotes[j], image)
  }

  /** The first cluster that runs an image labels it, and gives its entry unless the local cluster runs it
      too: such an image keeps its local entry but carries the remote label. */
  lemma {:induction false} FirstClusterWins(local: Images, remotes: seq<Remote>, image: string, i: nat)
    requires FirstToRun(remotes, image, i)
    ensures var m := MergeAll(local, remotes);
      && image in m.labels && m.labels[image] == remotes[i].name
      && image in m.images
      && m.images[image] == if image in local then local[image] else remotes[i].images.value[image]
    decreases |remotes|
  {
    var n := |remotes| - 1;
    assert forall j | 0 <= j < n :: remotes[..n][j] == remotes[j];
    if i < n {
      FirstClusterWins(local, remotes[..n], image, i);
    } else {
      LocalOnly(local, remotes[..n], image);
    }
  }

  /** An image that no cluster runs keeps whatever the local discovery said, and gets no label. */
  lemma {:induction false} LocalOnly(local: Images, remotes: seq<Remote>, image: string)
    requires forall j | 0 <= j < |remotes| :: !Runs(remotes[j], image)
    ensures var m := MergeAll(local, remotes);
      image !in m.labels && Find(m.images, image) == Find(local, image)
    decreases |remotes|
  {
    if remotes != [] {
      var n := |remotes| - 1;
      assert forall j | 0 <= j < n :: remotes[..n][j] == remotes[j];
      LocalOnly(local, remotes[..n], image);
    }
  }

  /** Listing a cluster a second time changes nothing. */
  lemma {:induction false} RepeatedClusterChangesNothing(local: Images, remotes: seq<Remote>, r: Remote)
    requires r in remotes
    ensures MergeAll(local, remotes + [r]) == MergeAll(local, remotes)
  {
    var m := MergeAll(local, remotes);
    assert (remotes + [r])[..|remotes|] == remotes;
    if r.images.Some? {
      forall image | image in r.images.value
        ensures image in m.images && image in m.labels
      {
        var k: nat :| k < |remotes| && remotes[k] == r;
        FirstExists(remotes, image, k);
        var i: nat :| FirstToRun(remotes, image, i);
        FirstClusterWins(local, remotes, image, i);
      }
      assert r.images.value + m.images == m.images;
      assert Labels(r.images.value, r.name) + m.labels == m.labels;
    }
  }

  lemma {:induction false} FirstExists(remotes: seq<Remote>, image: string, k: nat)
    requires k < |remotes| && Runs(remotes[k], image)
    ensures exists i: nat :: FirstToRun(remotes, image, i)
    decreases k
  {
    if j: nat :| j < k && Runs(remotes[j], image) {
      FirstExists(remotes, image, j);
    } else {
      assert FirstToRun(remotes, image, k);
    }
  }

  /** The loop body for one image of a cluster. */
  function MergeImage(m: Merged, found: Images, cluster: string, image: string): Merged
    requires image in found
  {
    Merged(
      if image in m.images then m.images else m.images[image := found[image]],
      if image in m.labels then m.labels else m.labels[image := cluster])
  }

  /** What a cluster's images have added once those in `todo` are still to come. */
  function MergedBut(m: Merged, found: Images, cluster: string, todo: set<string>): Merged {
    MergeOne(m, Remote(cluster, Some(found - todo)))
  }

  lemma FillOne<V>(before: map<string, V>, more: map<string, V>, todo: set<string>, k: string)
    requires k in more && k in todo
    ensures var m := (more - todo) + before;
      (if k in m then m else m[k := more[k]]) == (more - (todo - {k})) + before
  {
    var m := (more - todo) + before;
    var next := (more - (todo - {k})) + before;
    var filled := if k in m then m else m[k := more[k]];
    assert filled.Keys == next.Keys;
    assert forall x | x in next :: filled[x] == next[x];
  }

  lemma LabelsBut(found: Images, cluster: string, todo: set<string>)
    ensures Labels(found - todo, cluster) == Labels(found, cluster) - todo
  {}

  lemma MergedNext(m: Merged, found: Images, cluster: string, todo: set<string>, image: string)
    requires image in found && image in todo
    ensures MergeImage(MergedBut(m, found, cluster, todo), found, cluster, image)
         == MergedBut(m, found, cluster, todo - {image})
  {
    FillOne(m.images, found, todo, image);
    FillOne(m.labels, Labels(found, cluster), todo, image);
    LabelsBut(found, cluster, todo);
    LabelsBut(found, cluster, todo - {image});
  }

  lemma MergedNone(m: Merged, found: Images, cluster: string)
    ensures MergedBut(m, found, cluster, found.Keys) == m
  {
    assert found - found.Keys == map[];
    assert Labels(map[], cluster) == map[];
  }

  lemma MergedAll(m: Merged, found: Images, cluster: string)
    ensures MergedBut(m, found, cluster, {}) == MergeOne(m, Remote(cluster, Some(found)))
  {
    assert found - {} == found;
  }

  method MergeCluster(m: Merged, r: Remote) returns (after: Merged)
    ensures after == MergeOne(m, r)
  {
    if r.images.None? {
      return m;
    }
    var found := r.images.value;
    MergedNone(m, found, r.name);
    var images, labels := m.images, m.labels;
    var todo := found.Keys;
    while todo != {}
      invariant todo <= found.Keys
      invariant Merged(images, labels) == MergedBut(m, found, r.name, todo)
      decreases |todo|
    {
      var image :| image in todo;
      MergedNext(m, found, r.name, todo, image);
      if image !in images {
        images := images[image := found[image]];
      }
      if image !in labels {
        labels := labels[image := r.name];
      }
      todo := todo - {image};
    }
    MergedAll(m, found, r.name);
    after := Merged(images, labels);
  }

  method MergeClusters(local: Images, remotes: seq<Remote>) returns (m: Merged)
    ensures m == MergeAll(local, remotes)
  {
    m := Merged(local, map[]);
    var i := 0;
    while i < |remotes|
      invariant 0 <= i <= |remotes|
      invariant m == MergeAll(local, remotes[..i])
    {
      m := MergeCluster(m, remotes[i]);
      assert remotes[..i + 1][..i] == remotes[..i];
      i := i + 1;
    }
    assert remotes[..i] == remotes;
  }
}
