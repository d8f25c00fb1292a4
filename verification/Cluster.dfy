/** The objects that the controllers share: ImageScanJobs, batch Jobs and their keys. */
module Cluster {

  datatype Option<+T> = None | Some(value: T)

  /** Clock readings and stored timestamps, in whole seconds. */
  type Time = int

  datatype Key = Key(ns: string, name: string)

  // ── ImageScanJob ────────────────────────────────────────────────────────

  datatype Phase = Unset | Pending | Running | Completed | Failed

  predicate Terminal(phase: Phase) {
    phase.Completed? || phase.Failed?
  }

  datatype Counts = Counts(critical: nat, high: nat, medium: nat, low: nat)

  const NO_COUNTS := Counts(0, 0, 0, 0)

  datatype Status = Status(
    phase: Phase,
    jobName: string,
    startTime: Option<Time>,
    completionTime: Option<Time>,
    counts: Counts)

  /** The status of an object that has just been created. */
  const FRESH := Status(Unset, "", None, None, NO_COUNTS)

  /** Who asked for a scan: a config's cycle, or a request to the web API. */
  datatype Source = Kubernetes | ByHand

  datatype Spec = Spec(
    image: string,
    digest: string,
    scanner: string,
    source: Source,
    configRef: string,
    sourceNamespace: string)

  /** `uid` tells one incarnation of a name from the next; the source never looks at it. */
  datatype ScanJob = ScanJob(uid: nat, created: Time, spec: Spec, status: Status)

  type ScanJobs = map<Key, ScanJob>

  /** The scan jobs of a namespace that are not Completed and not Failed. */
  function Open(isjs: ScanJobs, ns: string): set<Key> {
    set k | k in isjs && k.ns == ns && !Terminal(isjs[k].status.phase)
  }

  /** Those of them that come from `source`. */
  function OpenFrom(isjs: ScanJobs, ns: string, source: Source): set<Key> {
    set k | k in Open(isjs, ns) && isjs[k].spec.source == source
  }

  function Pair(job: ScanJob): (string, string) {
    (job.spec.image, job.spec.scanner)
  }

  /** The (image, scanner) pairs of a namespace that some job other than a Failed one holds. */
  function Covered(isjs: ScanJobs, ns: string): set<(string, string)> {
    set k | k in isjs && k.ns == ns && !isjs[k].status.phase.Failed? :: Pair(isjs[k])
  }

  // ── Batch Job ───────────────────────────────────────────────────────────

  datatype JobStatus = JobStatus(active: nat, succeeded: nat, failed: nat, failedCondition: bool)

  /** `owner` is the uid in the controller reference, `ownerName` the imagescanresult label. */
  datatype BatchJob = BatchJob(uid: nat, owner: nat, ownerName: string, scanner: string, status: JobStatus)

  const NEW_JOB := JobStatus(0, 0, 0, false)

  predicate JobSucceeded(status: JobStatus) {
    status.succeeded > 0 && status.active == 0
  }

  predicate JobFailed(status: JobStatus) {
    status.failedCondition
  }

  /** The test of countActiveJobs. */
  predicate JobCounted(status: JobStatus) {
    status.active > 0 || (status.succeeded == 0 && status.failed == 0)
  }

  function CountedJobs(jobs: map<Key, BatchJob>, ns: string): set<Key> {
    set k | k in jobs && k.ns == ns && JobCounted(jobs[k].status)
  }

  // ── Facts about finite sets ─────────────────────────────────────────────

  lemma {:induction false} SubsetSize<T>(a: set<T>, b: set<T>)
    requires a <= b
    ensures |a| <= |b|
  {
    if a != {} {
      var x :| x in a;
      SubsetSize(a - {x}, b - {x});
    }
  }

  lemma GrowsByAtMostOne<T>(a: set<T>, b: set<T>, x: T)
    requires b <= a + {x}
    ensures |b| <= |a| + 1
  {
    SubsetSize(b, a + {x});
  }

  predicate NoDuplicates<T(==)>(s: seq<T>) {
    forall i, j | 0 <= i < j < |s| :: s[i] != s[j]
  }

  // ── Numbers of elements ─────────────────────────────────────────────────

  ghost function Where<T>(s: seq<T>, f: T -> bool): set<int> {
    set i | 0 <= i < |s| && f(s[i])
  }

  lemma WhereNext<T>(s: seq<T>, f: T -> bool)
    requires s != []
    ensures |Where(s, f)| == |Where(s[..|s| - 1], f)| + if f(s[|s| - 1]) then 1 else 0
  {
    var n := |s| - 1;
    assert Where(s, f) == Where(s[..n], f) + if f(s[n]) then {n} else {};
  }
}
