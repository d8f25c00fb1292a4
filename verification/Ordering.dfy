/** The orders that images are put in, and which images an optional cap keeps. */
module Ordering {
  import opened Cluster
  import opened Discovery

  // ── Comparators and what sorting by them leaves ─────────────────────────

  /** What sort.Slice asks of its comparator. */
  ghost predicate StrictWeakOrder<T(!new)>(less: (T, T) -> bool) {
    && (forall a, b :: less(a, b) ==> !less(b, a))
    && (forall a, b, c :: less(a, c) ==> less(a, b) || less(b, c))
  }

  /** What sort.Slice promises of the slice: nothing stands behind an element it is less than. */
  predicate SortedBy<T>(less: (T, T) -> bool, s: seq<T>) {
    forall i, j | 0 <= i < j < |s| :: !less(s[j], s[i])
  }

  function InsertBy<T>(less: (T, T) -> bool, s: seq<T>, x: T): seq<T> {
    if s == [] then [x]
    else if less(x, s[|s| - 1]) then InsertBy(less, s[..|s| - 1], x) + [s[|s| - 1]]
    else s + [x]
  }

  lemma {:induction false} InsertKeeps<T>(less: (T, T) -> bool, s: seq<T>, x: T)
    ensures multiset(InsertBy(less, s, x)) == multiset(s) + multiset{x}
    decreases |s|
  {
    if s != [] && less(x, s[|s| - 1]) {
      InsertKeeps(less, s[..|s| - 1], x);
      assert s == s[..|s| - 1] + [s[|s| - 1]];
    }
  }

  lemma {:induction false} InsertSorted<T(!new)>(less: (T, T) -> bool, s: seq<T>, x: T)
    requires StrictWeakOrder(less) && SortedBy(less, s)
    ensures SortedBy(less, InsertBy(less, s, x))
    decreases |s|
  {
    if s != [] {
      var last := s[|s| - 1];
      if less(x, last) {
        var front := InsertBy(less, s[..|s| - 1], x);
        InsertSorted(less, s[..|s| - 1], x);
        InsertKeeps(less, s[..|s| - 1], x);
        forall i | 0 <= i < |front|
          ensures !less(last, front[i])
        {
          assert front[i] in multiset(front);
          assert front[i] == x || front[i] in s[..|s| - 1];
        }
      } else {
        forall i | 0 <= i < |s|
          ensures !less(x, s[i])
        {
          assert i < |s| - 1 ==> !less(last, s[i]);
        }
      }
    }
  }

  function SortBy<T>(less: (T, T) -> bool, s: seq<T>): seq<T> {
    if s == [] then [] else InsertBy(less, SortBy(less, s[..|s| - 1]), s[|s| - 1])
  }

  lemma {:induction false} SortBySorts<T(!new)>(less: (T, T) -> bool, s: seq<T>)
    requires StrictWeakOrder(less)
    ensures SortedBy(less, SortBy(less, s)) && multiset(SortBy(less, s)) == multiset(s)
    decreases |s|
  {
    if s != [] {
      SortBySorts(less, s[..|s| - 1]);
      InsertKeeps(less, SortBy(less, s[..|s| - 1]), s[|s| - 1]);
      InsertSorted(less, SortBy(less, s[..|s| - 1]), s[|s| - 1]);
      assert s == s[..|s| - 1] + [s[|s| - 1]];
    }
  }

  // ── Strings ─────────────────────────────────────────────────────────────

  predicate StringLess(a: string, b: string) {
    b != "" && (a == "" || a[0] < b[0] || (a[0] == b[0] && StringLess(a[1..], b[1..])))
  }

  lemma {:induction false} StringAsymmetric(a: string, b: string)
    requires StringLess(a, b)
    ensures !StringLess(b, a)
  {
    if a != "" && a[0] == b[0] {
      StringAsymmetric(a[1..], b[1..]);
    }
  }

  lemma {:induction false} StringBetween(a: string, b: string, c: string)
    requires StringLess(a, c)
    ensures StringLess(a, b) || StringLess(b, c)
  {
    if a != "" && b != "" && a[0] == b[0] == c[0] {
      StringBetween(a[1..], b[1..], c[1..]);
    }
  }

  lemma {:induction false} StringTotal(a: string, b: string)
    ensures a == b || StringLess(a, b) || StringLess(b, a)
  {
    if a != "" && b != "" && a[0] == b[0] {
      StringTotal(a[1..], b[1..]);
      assert a == [a[0]] + a[1..] && b == [b[0]] + b[1..];
    }
  }

  /** The order of Go's strings: at the first difference, or by length when there is none. */
  lemma {:induction false} StringLessIff(a: string, b: string)
    ensures StringLess(a, b) <==>
      exists k | 0 <= k <= |a| && k < |b| :: a[..k] == b[..k] && (k == |a| || a[k] < b[k])
  {
    if a == "" || b == "" {
      if b != "" {
        assert a[..0] == b[..0];
      }
    } else {
      StringLessIff(a[1..], b[1..]);
      if StringLess(a, b) {
        if a[0] < b[0] {
          assert a[..0] == b[..0];
        } else {
          var k :| 0 <= k <= |a[1..]| && k < |b[1..]| && a[1..][..k] == b[1..][..k]
                   && (k == |a[1..]| || a[1..][k] < b[1..][k]);
          assert a[..k + 1] == [a[0]] + a[1..][..k] && b[..k + 1] == [b[0]] + b[1..][..k];
        }
      }
      if k :| 0 <= k <= |a| && k < |b| && a[..k] == b[..k] && (k == |a| || a[k] < b[k]) {
        if k > 0 {
          assert a[0] == a[..k][0] == b[..k][0] == b[0];
          assert a[1..][..k - 1] == a[..k][1..] && b[1..][..k - 1] == b[..k][1..];
          assert k - 1 == |a[1..]| || a[1..][k - 1] < b[1..][k - 1];
        }
      }
    }
  }

  // ── The scan order of discovered images ─────────────────────────────────

  function DeployedAt(images: Images, image: string): Time {
    if image in images then images[image].deployedAt else 0
  }

  /** The comparator of the reconciler: oldest deployment first, then by name. */
  predicate Older(images: Images, a: string, b: string) {
    var x, y := DeployedAt(images, a), DeployedAt(images, b);
    if x == y then StringLess(a, b) else x < y
  }

  function OlderIn(images: Images): (string, string) -> bool {
    (a, b) => Older(images, a, b)
  }

  lemma OlderAsymmetric(images: Images, a: string, b: string)
    requires Older(images, a, b)
    ensures !Older(images, b, a)
  {
    if StringLess(a, b) { StringAsymmetric(a, b); }
  }

  lemma {:induction false} OlderIsOrder(images: Images)
    ensures StrictWeakOrder(OlderIn(images))
  {
    var less := OlderIn(images);
    forall a, b | less(a, b)
      ensures !less(b, a)
    {
      OlderAsymmetric(images, a, b);
    }
    forall a, b, c | less(a, c)
      ensures less(a, b) || less(b, c)
    {
      if StringLess(a, c) { StringBetween(a, b, c); }
    }
  }

  lemma {:induction false} OlderIsTotal(images: Images, a: string, b: string)
    ensures a == b || Older(images, a, b) || Older(images, b, a)
  {
    StringTotal(a, b);
  }

  /** The images a cycle considers: the `max` oldest, or all of them, oldest first. */
  ghost predicate Selection(images: Images, max: int, s: seq<string>) {
    && |s| == (if 0 < max < |images| then max else |images|)
    && (forall i | 0 <= i < |s| :: s[i] in images)
    && (forall i, j | 0 <= i < j < |s| :: Older(images, s[i], s[j]))
    && (forall i, b | 0 <= i < |s| && b in images && b !in s :: Older(images, s[i], b))
  }

  /** In deployment times: an image before another was deployed no later, and has the smaller name when at the same
      time; and so has an image that was kept, against one that was left out. */
  lemma {:induction false} SelectionIsOldest(images: Images, max: int, s: seq<string>)
    requires Selection(images, max, s)
    ensures |s| == if 0 < max < |images| then max else |images|
    ensures forall i | 0 <= i < |s| :: s[i] in images
    ensures forall i, j | 0 <= i < j < |s| ::
      || images[s[i]].deployedAt < images[s[j]].deployedAt
      || (images[s[i]].deployedAt == images[s[j]].deployedAt && StringLess(s[i], s[j]))
    ensures forall i, b | 0 <= i < |s| && b in images && b !in s ::
      || images[s[i]].deployedAt < images[b].deployedAt
      || (images[s[i]].deployedAt == images[b].deployedAt && StringLess(s[i], b))
  {
    forall i, j | 0 <= i < j < |s|
      ensures Older(images, s[i], s[j])
    {}
  }

  lemma SelectionHasNoDuplicates(images: Images, max: int, s: seq<string>)
    requires Selection(images, max, s)
    ensures NoDuplicates(s)
  {
    forall i, j | 0 <= i < j < |s|
      ensures s[i] != s[j]
    {
      assert Older(images, s[i], s[j]);
      OlderAsymmetric(images, s[i], s[j]);
    }
  }

  /** The choice and its order depend on nothing but the discovered images. */
  lemma {:induction false} SelectionUnique(images: Images, max: int, s: seq<string>, t: seq<string>)
    requires Selection(images, max, s) && Selection(images, max, t)
    ensures s == t
  {
    SamePrefix(images, max, s, t, |s|);
  }

  lemma {:induction false} SamePrefix(images: Images, max: int, s: seq<string>, t: seq<string>, n: nat)
    requires Selection(images, max, s) && Selection(images, max, t) && n <= |s|
    ensures s[..n] == t[..n]
  {
    if n > 0 {
      SamePrefix(images, max, s, t, n - 1);
      if s[n - 1] != t[n - 1] {
        NextIsOlder(images, max, s, t, n - 1);
        NextIsOlder(images, max, t, s, n - 1);
        OlderAsymmetric(images, s[n - 1], t[n - 1]);
      }
    }
  }

  lemma NextIsOlder(images: Images, max: int, s: seq<string>, t: seq<string>, n: nat)
    requires Selection(images, max, s) && Selection(images, max, t)
    requires n < |s| && s[..n] == t[..n] && s[n] != t[n]
    ensures Older(images, s[n], t[n])
  {
    if t[n] in s {
      var k: nat :| k < |s| && s[k] == t[n];
      if k < n {
        assert s[..n][k] == t[..n][k];
        assert Older(images, t[k], t[n]);
        OlderAsymmetric(images, t[k], t[n]);
      }
    }
  }

  lemma SortedIsSelection(images: Images, max: int, s: seq<string>)
    requires SortedBy(OlderIn(images), s) && multiset(s) == multiset(images.Keys)
    ensures Selection(images, max, if 0 < max < |s| then s[..max] else s)
  {
    assert |s| == |multiset(s)| == |images.Keys| == |images|;
    forall i | 0 <= i < |s|
      ensures s[i] in images
    {
      assert s[i] in multiset(s);
    }
    forall i, j | 0 <= i < j < |s|
      ensures Older(images, s[i], s[j])
    {
      SortedIsDistinct(images.Keys, s, i, j);
      OlderIsTotal(images, s[i], s[j]);
      assert !OlderIn(images)(s[j], s[i]);
    }
    forall b | b in images
      ensures b in s
    {
      assert b in multiset(s);
    }
    PrefixIsSelection(images, max, s);
  }

  lemma PrefixIsSelection(images: Images, max: int, s: seq<string>)
    requires |s| == |images|
    requires forall i | 0 <= i < |s| :: s[i] in images
    requires forall i, j | 0 <= i < j < |s| :: Older(images, s[i], s[j])
    requires forall b | b in images :: b in s
    ensures Selection(images, max, if 0 < max < |s| then s[..max] else s)
  {
    var r := if 0 < max < |s| then s[..max] else s;
    assert forall k | 0 <= k < |r| :: s[k] == r[k];
    forall i, b | 0 <= i < |r| && b in images && b !in r
      ensures Older(images, r[i], b)
    {
      var k: nat :| k < |s| && s[k] == b;
      assert k >= |r|;
    }
  }

  lemma SortedIsDistinct<T(!new)>(keys: set<T>, s: seq<T>, i: nat, j: nat)
    requires multiset(s) == multiset(keys) && i < j < |s|
    ensures s[i] != s[j]
  {
    assert s == s[..j] + s[j..];
    assert multiset(s)[s[i]] == multiset(s[..j])[s[i]] + multiset(s[j..])[s[i]];
    assert multiset(keys)[s[i]] <= 1;
    assert s[i] == s[..j][i] && s[i] in multiset(s[..j]);
    assert s[i] !in multiset(s[j..]);
    assert s[j] == s[j..][0] && s[j] in multiset(s[j..]);
  }

  /** Map iteration in any order, the in-place sort, and the cap. */
  method SelectImages(images: Images, max: int) returns (sorted: seq<string>)
    ensures Selection(images, max, sorted)
    ensures forall i, j | 0 <= i < j < |sorted| :: images[sorted[i]].deployedAt <= images[sorted[j]].deployedAt
    ensures forall i, b | 0 <= i < |sorted| && b in images && b !in sorted ::
      images[sorted[i]].deployedAt <= images[b].deployedAt
  {
    OlderIsOrder(images);
    sorted := [];
    var todo := images.Keys;
    while todo != {}
      invariant todo <= images.Keys
      invariant multiset(sorted) + multiset(todo) == multiset(images.Keys)
      invariant SortedBy(OlderIn(images), sorted)
      decreases |todo|
    {
      var image :| image in todo;
      InsertKeeps(OlderIn(images), sorted, image);
      InsertSorted(OlderIn(images), sorted, image);
      assert multiset(todo) == multiset(todo - {image}) + multiset{image};
      sorted := InsertBy(OlderIn(images), sorted, image);
      todo := todo - {image};
    }
    assert multiset(sorted) == multiset(images.Keys);
    SortedIsSelection(images, max, sorted);
    if max > 0 && |sorted| > max {
      sorted := sorted[..max];
    }
    SelectionIsOldest(images, max, sorted);
  }

  // ── The order of the image list page ────────────────────────────────────

  /** What the web API lists for one scan job, as far as the order looks at it. */
  datatype ImageInfo = ImageInfo(image: string, scanner: string, deployedAt: Option<Time>)

  /** The comparator of handleImages. */
  predicate ListedBefore(a: ImageInfo, b: ImageInfo) {
    if a.deployedAt.None? && b.deployedAt.None? then StringLess(a.image, b.image)
    else if a.deployedAt.None? then false
    else if b.deployedAt.None? then true
    else a.deployedAt.value < b.deployedAt.value
  }

  lemma {:induction false} ListedBeforeIsWeakOrder()
    ensures StrictWeakOrder(ListedBefore)
  {
    forall a, b | ListedBefore(a, b)
      ensures !ListedBefore(b, a)
    {
      if a.deployedAt.None? { StringAsymmetric(a.image, b.image); }
    }
    forall a, b, c | ListedBefore(a, c)
      ensures ListedBefore(a, b) || ListedBefore(b, c)
    {
      if a.deployedAt.None? { StringBetween(a.image, b.image, c.image); }
    }
  }

  /** The first `dated` entries are those with a time, in order of time; the others are in order of image. */
  predicate DatedFirst(s: seq<ImageInfo>, dated: nat) {
    && dated <= |s|
    && (forall i | 0 <= i < |s| :: s[i].deployedAt.Some? <==> i < dated)
    && (forall i, j | 0 <= i < j < dated :: s[i].deployedAt.value <= s[j].deployedAt.value)
    && (forall i, j | dated <= i < j < |s| :: s[i].image == s[j].image || StringLess(s[i].image, s[j].image))
  }

  /** A list is sorted exactly when the images without a deployment time stand last, and each part is in
      its own order. */
  lemma {:induction false} SortedIsDatedFirst(s: seq<ImageInfo>)
    ensures SortedBy(ListedBefore, s) <==> exists dated: nat :: DatedFirst(s, dated)
  {
    if SortedBy(ListedBefore, s) {
      var dated := DatedPrefix(s);
      forall i, j | 0 <= i < j < |s| && !ListedBefore(s[j], s[i])
        ensures i >= dated ==> s[i].image == s[j].image || StringLess(s[i].image, s[j].image)
      {
        StringTotal(s[i].image, s[j].image);
      }
      assert DatedFirst(s, dated);
    }
    if dated: nat :| DatedFirst(s, dated) {
      forall i, j | 0 <= i < j < |s|
        ensures !ListedBefore(s[j], s[i])
      {
        if i >= dated && s[i].image != s[j].image { StringAsymmetric(s[i].image, s[j].image); }
        if StringLess(s[j].image, s[i].image) { StringAsymmetric(s[j].image, s[i].image); }
      }
    }
  }

  lemma {:induction false} DatedPrefix(s: seq<ImageInfo>) returns (dated: nat)
    requires SortedBy(ListedBefore, s)
    ensures dated <= |s| && forall i | 0 <= i < |s| :: s[i].deployedAt.Some? <==> i < dated
    decreases |s|
  {
    if s == [] || s[0].deployedAt.None? {
      dated := 0;
      forall i | 0 < i < |s|
        ensures s[i].deployedAt.None?
      {
        assert !ListedBefore(s[i], s[0]);
      }
    } else {
      var rest := DatedPrefix(s[1..]);
      dated := rest + 1;
      assert forall i | 0 < i < |s| :: s[i] == s[1..][i - 1];
    }
  }

  /** Unlike the scan order, the list order is not determined: entries deployed in the same second may
      come out either way round, even those of different images. */
  lemma {:induction false} SameSecondIsUnordered(a: ImageInfo, b: ImageInfo)
    requires a.deployedAt.Some? && a.deployedAt == b.deployedAt
    ensures SortedBy(ListedBefore, [a, b]) && SortedBy(ListedBefore, [b, a])
    ensures multiset([a, b]) == multiset([b, a]) && (a != b ==> [a, b] != [b, a])
  {
    assert [a, b][0] == a && [b, a][0] == b;
  }

  // ── When an order leaves no choice ──────────────────────────────────────

  predicate Tied<T(==)>(less: (T, T) -> bool, a: T, b: T) {
    a != b && !less(a, b) && !less(b, a)
  }

  ghost predicate Sorting<T>(less: (T, T) -> bool, s: seq<T>, t: seq<T>) {
    SortedBy(less, t) && multiset(t) == multiset(s)
  }

  lemma HeadsAgree<T(!new)>(less: (T, T) -> bool, s: seq<T>, t: seq<T>)
    requires s != [] && SortedBy(less, s) && SortedBy(less, t) && multiset(s) == multiset(t)
    requires forall a, b | a in s && b in s :: !Tied(less, a, b)
    ensures t != [] && s[0] == t[0]
  {
    assert s[0] in multiset(t);
    var k: nat :| k < |t| && t[k] == s[0];
    assert t[0] in multiset(s);
    var m: nat :| m < |s| && s[m] == t[0];
    assert !Tied(less, s[0], t[0]);
  }

  lemma TailsAgree<T>(s: seq<T>, t: seq<T>)
    requires s != [] && t != [] && s[0] == t[0] && multiset(s) == multiset(t)
    ensures multiset(s[1..]) == multiset(t[1..])
  {
    assert s == [s[0]] + s[1..] && t == [t[0]] + t[1..];
    assert multiset(s) == multiset(s[1..]) + multiset{s[0]} && multiset(t) == multiset(t[1..]) + multiset{s[0]};
    CancelOne(multiset(s[1..]), multiset(t[1..]), s[0]);
  }

  lemma {:induction false} UntiedSortingIsUnique<T(!new)>(less: (T, T) -> bool, s: seq<T>, t: seq<T>)
    requires SortedBy(less, s) && SortedBy(less, t) && multiset(s) == multiset(t)
    requires forall a, b | a in s && b in s :: !Tied(less, a, b)
    ensures s == t
    decreases |s|
  {
    if s == [] {
      assert |multiset(t)| == 0;
    } else {
      HeadsAgree(less, s, t);
      TailsAgree(s, t);
      assert forall x | x in s[1..] :: x in s;
      UntiedSortingIsUnique(less, s[1..], t[1..]);
      assert s == [s[0]] + s[1..] && t == [t[0]] + t[1..];
    }
  }

  lemma TiedAreAlike<T(!new)>(less: (T, T) -> bool, a: T, b: T, x: T)
    requires StrictWeakOrder(less) && Tied(less, a, b)
    ensures less(a, x) == less(b, x) && less(x, a) == less(x, b)
  {}

  function Swapped<T>(s: seq<T>, i: nat, j: nat): seq<T>
    requires i < |s| && j < |s|
  {
    s[i := s[j]][j := s[i]]
  }

  lemma SwappedIsSorted<T(!new)>(less: (T, T) -> bool, s: seq<T>, i: nat, j: nat)
    requires StrictWeakOrder(less) && SortedBy(less, s) && i < |s| && j < |s| && Tied(less, s[i], s[j])
    ensures SortedBy(less, Swapped(s, i, j))
  {
    var t := Swapped(s, i, j);
    forall x, y | 0 <= x < y < |t|
      ensures !less(t[y], t[x])
    {
      assert !less(s[y], s[x]);
      TiedAreAlike(less, s[i], s[j], s[y]);
      TiedAreAlike(less, s[i], s[j], s[x]);
    }
  }

  lemma SwappedIsPermuted<T>(s: seq<T>, i: nat, j: nat)
    requires i < |s| && j < |s|
    ensures multiset(Swapped(s, i, j)) == multiset(s)
  {}

  /** Sorting determines the result exactly when no two different elements are tied. */
  lemma {:induction false} SortingIsUniqueIff<T(!new)>(less: (T, T) -> bool, s: seq<T>)
    requires StrictWeakOrder(less)
    ensures (forall t, u | Sorting(less, s, t) && Sorting(less, s, u) :: t == u)
       <==> (forall a, b | a in s && b in s :: !Tied(less, a, b))
  {
    if forall a, b | a in s && b in s :: !Tied(less, a, b) {
      forall t, u | Sorting(less, s, t) && Sorting(less, s, u)
        ensures t == u
      {
        SameElements(s, t);
        UntiedSortingIsUnique(less, t, u);
      }
    } else {
      var a, b :| a in s && b in s && Tied(less, a, b);
      TwoSortings(less, s, a, b);
    }
  }

  lemma SameElements<T>(s: seq<T>, t: seq<T>)
    requires multiset(s) == multiset(t)
    ensures forall x :: x in s <==> x in t
  {
    forall x
      ensures x in s <==> x in t
    {
      assert x in s <==> x in multiset(s);
      assert x in t <==> x in multiset(t);
    }
  }

  lemma TwoSortings<T(!new)>(less: (T, T) -> bool, s: seq<T>, a: T, b: T)
    requires StrictWeakOrder(less) && a in s && b in s && Tied(less, a, b)
    ensures exists t, u :: Sorting(less, s, t) && Sorting(less, s, u) && t != u
  {
    var t := SortBy(less, s);
    SortBySorts(less, s);
    SameElements(s, t);
    var i: nat :| i < |t| && t[i] == a;
    var j: nat :| j < |t| && t[j] == b;
    var u := Swapped(t, i, j);
    SwappedIsSorted(less, t, i, j);
    SwappedIsPermuted(t, i, j);
    assert u[i] == b;
    assert Sorting(less, s, t) && Sorting(less, s, u) && t != u;
  }

  /** The exact condition for the image list: its order is determined exactly when no two different entries have
      the same deployment time, and none without a time are of the same image. */
  lemma {:induction false} ListOrderIsUniqueIff(s: seq<ImageInfo>)
    ensures (forall t, u | Sorting(ListedBefore, s, t) && Sorting(ListedBefore, s, u) :: t == u)
       <==> (forall a, b | a in s && b in s && a != b && a.deployedAt == b.deployedAt ::
               a.deployedAt.None? && a.image != b.image)
  {
    ListedBeforeIsWeakOrder();
    SortingIsUniqueIff(ListedBefore, s);
    forall a, b
      ensures Tied(ListedBefore, a, b)
         <==> a != b && a.deployedAt == b.deployedAt && (a.deployedAt.None? ==> a.image == b.image)
    {
      StringTotal(a.image, b.image);
      if StringLess(a.image, b.image) { StringAsymmetric(a.image, b.image); }
      if StringLess(b.image, a.image) { StringAsymmetric(b.image, a.image); }
    }
  }
}
