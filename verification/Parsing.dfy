/** Scanner output: finding the JSON object in a pod log, and the loops over what it decodes to. */
module Parsing {
  import opened Cluster
  import opened Reports
  import Lifecycle
  import Protocol
  import Steps

  // ── Severity counts ─────────────────────────────────────────────────────

  const SEVERITIES := {"CRITICAL", "HIGH", "MEDIUM", "LOW"}

  type Tally = m: map<string, nat> | m.Keys == SEVERITIES
    witness map["CRITICAL" := 0, "HIGH" := 0, "MEDIUM" := 0, "LOW" := 0]

  function CountSeverity(rows: seq<Row>, severity: string): nat {
    if rows == [] then 0
    else CountSeverity(rows[..|rows| - 1], severity) + if rows[|rows| - 1].severity == severity then 1 else 0
  }

  ghost predicate Tallies(counts: Tally, rows: seq<Row>) {
    forall severity | severity in SEVERITIES :: counts[severity] == CountSeverity(rows, severity)
  }

  function SeverityCounts(rows: seq<Row>): Counts {
    Counts(CountSeverity(rows, "CRITICAL"), CountSeverity(rows, "HIGH"),
           CountSeverity(rows, "MEDIUM"), CountSeverity(rows, "LOW"))
  }

  function Sum(c: Counts): nat {
    c.critical + c.high + c.medium + c.low
  }

  lemma {:induction false} CountIsNumber(rows: seq<Row>, severity: string, f: Row -> bool)
    requires forall row :: f(row) <==> row.severity == severity
    ensures CountSeverity(rows, severity) == |Where(rows, f)|
  {
    if rows != [] {
      CountIsNumber(rows[..|rows| - 1], severity, f);
      WhereNext(rows, f);
    }
  }

  lemma {:induction false} CountIsCardinality(rows: seq<Row>, severity: string)
    ensures CountSeverity(rows, severity) == |set i | 0 <= i < |rows| && rows[i].severity == severity|
  {
    var f := (row: Row) => row.severity == severity;
    CountIsNumber(rows, severity, f);
    assert Where(rows, f) == set i | 0 <= i < |rows| && rows[i].severity == severity;
  }

  /** Each count is the number of records that carry its severity, spelt in capitals. */
  lemma {:induction false} SeverityCountsAreNumbers(rows: seq<Row>)
    ensures SeverityCounts(rows) == Counts(
      |set i | 0 <= i < |rows| && rows[i].severity == "CRITICAL"|,
      |set i | 0 <= i < |rows| && rows[i].severity == "HIGH"|,
      |set i | 0 <= i < |rows| && rows[i].severity == "MEDIUM"|,
      |set i | 0 <= i < |rows| && rows[i].severity == "LOW"|)
  {
    CountIsCardinality(rows, "CRITICAL");
    CountIsCardinality(rows, "HIGH");
    CountIsCardinality(rows, "MEDIUM");
    CountIsCardinality(rows, "LOW");
  }

  /** Counted findings never outnumber the records, and fall short of them only by unknown severities. */
  lemma {:induction false} KnownSeveritiesAreCounted(rows: seq<Row>)
    ensures Sum(SeverityCounts(rows)) <= |rows|
    ensures Sum(SeverityCounts(rows)) == |rows| <==> forall i | 0 <= i < |rows| :: rows[i].severity in SEVERITIES
  {
    if rows != [] {
      KnownSeveritiesAreCounted(rows[..|rows| - 1]);
    }
  }

  /** The loop body shared by both parsers: one finding more. */
  method CountOne(counts: Tally, ghost rows: seq<Row>, row: Row) returns (after: Tally)
    requires Tallies(counts, rows)
    ensures Tallies(after, rows + [row])
  {
    assert (rows + [row])[..|rows|] == rows;
    if row.severity in counts {
      after := counts[row.severity := counts[row.severity] + 1];
    } else {
      after := counts;
    }
  }

  // ── Trivy ───────────────────────────────────────────────────────────────

  datatype TrivyVuln = TrivyVuln(
    id: string, pkgName: string, severity: string, status: string,
    installedVersion: string, fixedVersion: string, title: string)

  datatype TrivyResult = TrivyResult(target: string, vulns: seq<TrivyVuln>)

  function TrivyRow(image: string, target: string, v: TrivyVuln, upper: string -> string): Row {
    Row(image, target, v.pkgName, v.id, upper(v.severity), v.status, v.installedVersion, v.fixedVersion, v.title)
  }

  /** What a record says of a vulnerability, field by field. */
  ghost predicate TrivyRecord(row: Row, image: string, target: string, v: TrivyVuln, upper: string -> string) {
    && row.image == image && row.target == target && row.library == v.pkgName
    && row.vulnerabilityId == v.id && row.severity == upper(v.severity) && row.status == v.status
    && row.installedVersion == v.installedVersion && row.fixedVersion == v.fixedVersion && row.title == v.title
  }

  function Before(results: seq<TrivyResult>, i: nat): nat
    requires i <= |results|
  {
    if i == 0 then 0 else Before(results, i - 1) + |results[i - 1].vulns|
  }

  /** Record for record the vulnerabilities of all results, in the order of the scanner output. */
  ghost predicate Flattens(image: string, results: seq<TrivyResult>, upper: string -> string, rows: seq<Row>) {
    && |rows| == Before(results, |results|)
    && forall i, j | 0 <= i < |results| && 0 <= j < |results[i].vulns| ::
         && Before(results, i) + j < |rows|
         && TrivyRecord(rows[Before(results, i) + j], image, results[i].target, results[i].vulns[j], upper)
  }

  function ResultRows(image: string, r: TrivyResult, upper: string -> string): seq<Row> {
    seq(|r.vulns|, j requires 0 <= j < |r.vulns| => TrivyRow(image, r.target, r.vulns[j], upper))
  }

  function TrivyRows(image: string, results: seq<TrivyResult>, upper: string -> string): seq<Row> {
    if results == [] then []
    else TrivyRows(image, results[..|results| - 1], upper) + ResultRows(image, results[|results| - 1], upper)
  }

  lemma {:induction false} BeforePrefix(results: seq<TrivyResult>, n: nat, i: nat)
    requires i <= n <= |results|
    ensures Before(results[..n], i) == Before(results, i)
  {
    if i > 0 {
      BeforePrefix(results, n, i - 1);
    }
  }

  lemma {:induction false} TrivyRowsLength(image: string, results: seq<TrivyResult>, upper: string -> string)
    ensures |TrivyRows(image, results, upper)| == Before(results, |results|)
  {
    if results != [] {
      TrivyRowsLength(image, results[..|results| - 1], upper);
      BeforePrefix(results, |results| - 1, |results| - 1);
    }
  }

  lemma {:induction false} TrivyRowAt(image: string, results: seq<TrivyResult>, upper: string -> string, i: nat, j: nat)
    requires i < |results| && j < |results[i].vulns|
    ensures Before(results, i) + j < |TrivyRows(image, results, upper)|
    ensures TrivyRows(image, results, upper)[Before(results, i) + j]
         == TrivyRow(image, results[i].target, results[i].vulns[j], upper)
    decreases |results|
  {
    var n := |results| - 1;
    TrivyRowsLength(image, results[..n], upper);
    BeforePrefix(results, n, n);
    BeforePrefix(results, n, i);
    if i < n {
      TrivyRowAt(image, results[..n], upper, i, j);
    }
  }

  lemma TrivyRowsFlatten(image: string, results: seq<TrivyResult>, upper: string -> string)
    ensures Flattens(image, results, upper, TrivyRows(image, results, upper))
  {
    TrivyRowsLength(image, results, upper);
    forall i, j | 0 <= i < |results| && 0 <= j < |results[i].vulns|
      ensures Before(results, i) + j < |TrivyRows(image, results, upper)|
      ensures TrivyRows(image, results, upper)[Before(results, i) + j]
           == TrivyRow(image, results[i].target, results[i].vulns[j], upper)
    {
      TrivyRowAt(image, results, upper, i, j);
    }
  }

  lemma TakeNext(earlier: seq<Row>, rows: seq<Row>, j: nat)
    requires j < |rows|
    ensures earlier + rows[..j] + [rows[j]] == earlier + rows[..j + 1]
  {}

  /** The inner loop. */
  method ParseTrivyResult(image: string, r: TrivyResult, upper: string -> string, before: Tally, earlier: seq<Row>)
    returns (counts: Tally, records: seq<Row>)
    requires Tallies(before, earlier)
    ensures records == earlier + ResultRows(image, r, upper)
    ensures Tallies(counts, records)
  {
    counts, records := before, earlier;
    ghost var rows := ResultRows(image, r, upper);
    var j := 0;
    while j < |r.vulns|
      invariant 0 <= j <= |r.vulns|
      invariant records == earlier + rows[..j]
      invariant Tallies(counts, records)
    {
      var row := TrivyRow(image, r.target, r.vulns[j], upper);
      counts := CountOne(counts, records, row);
      records := records + [row];
      TakeNext(earlier, rows, j);
      j := j + 1;
    }
    assert rows[..j] == rows;
  }

  method ParseTrivyResults(image: string, results: seq<TrivyResult>, upper: string -> string)
    returns (counts: Tally, records: seq<Row>)
    ensures Flattens(image, results, upper, records)
    ensures Tallies(counts, records)
  {
    counts := map["CRITICAL" := 0, "HIGH" := 0, "MEDIUM" := 0, "LOW" := 0];
    records := [];
    var i := 0;
    while i < |results|
      invariant 0 <= i <= |results|
      invariant records == TrivyRows(image, results[..i], upper)
      invariant Tallies(counts, records)
    {
      counts, records := ParseTrivyResult(image, results[i], upper, counts, records);
      assert results[..i + 1][..i] == results[..i];
      i := i + 1;
    }
    assert results[..i] == results;
    TrivyRowsFlatten(image, results, upper);
  }

  // ── Grype ───────────────────────────────────────────────────────────────

  datatype GrypeMatch = GrypeMatch(
    id: string, severity: string, description: string, fixVersions: seq<string>, fixState: string,
    artifact: string, version: string)

  function GrypeRow(image: string, m: GrypeMatch, upper: string -> string): Row {
    var fixedVersion := if |m.fixVersions| > 0 then m.fixVersions[0] else "";
    Row(image, m.artifact, m.artifact, m.id, upper(m.severity), m.fixState, m.version, fixedVersion, m.description)
  }

  /** What a record says of a match: the artifact's name stands for target and library, the first fix version for
      the fixed one. */
  ghost predicate GrypeRecord(row: Row, image: string, m: GrypeMatch, upper: string -> string) {
    && row.image == image && row.target == m.artifact && row.library == m.artifact
    && row.vulnerabilityId == m.id && row.severity == upper(m.severity) && row.status == m.fixState
    && row.installedVersion == m.version && row.title == m.description
    && (m.fixVersions == [] ==> row.fixedVersion == "")
    && (m.fixVersions != [] ==> row.fixedVersion == m.fixVersions[0])
  }

  method ParseGrypeMatches(image: string, matches: seq<GrypeMatch>, upper: string -> string)
    returns (counts: Tally, records: seq<Row>)
    ensures |records| == |matches|
    ensures forall i | 0 <= i < |matches| :: GrypeRecord(records[i], image, matches[i], upper)
    ensures Tallies(counts, records)
  {
    counts := map["CRITICAL" := 0, "HIGH" := 0, "MEDIUM" := 0, "LOW" := 0];
    records := [];
    var i := 0;
    while i < |matches|
      invariant 0 <= i <= |matches|
      invariant |records| == i && forall k | 0 <= k < i :: records[k] == GrypeRow(image, matches[k], upper)
      invariant Tallies(counts, records)
    {
      var row := GrypeRow(image, matches[i], upper);
      counts := CountOne(counts, records, row);
      records := records + [row];
      i := i + 1;
    }
  }

  // ── Finding the object in the log ───────────────────────────────────────

  predicate OccursAt(s: string, pattern: string, i: nat) {
    i + |pattern| <= |s| && s[i..i + |pattern|] == pattern
  }

  /** strings.Index from position `i` on. */
  function IndexFrom(s: string, pattern: string, i: nat): (r: Option<nat>)
    ensures r.Some? ==> i <= r.value && OccursAt(s, pattern, r.value)
    ensures forall k: nat | i <= k && OccursAt(s, pattern, k) :: r.Some? && r.value <= k
    decreases |s| - i
  {
    if i + |pattern| > |s| then None
    else if s[i..i + |pattern|] == pattern then Some(i)
    else IndexFrom(s, pattern, i + 1)
  }

  /** strings.LastIndex of one character in the first `n` characters. */
  function LastIndex(s: string, c: char, n: nat): (r: Option<nat>)
    requires n <= |s|
    ensures r.Some? ==> r.value < n && s[r.value] == c && forall k | r.value < k < n :: s[k] != c
    ensures r.None? ==> forall k | 0 <= k < n :: s[k] != c
  {
    if n == 0 then None else if s[n - 1] == c then Some(n - 1) else LastIndex(s, c, n - 1)
  }

  const MATCHES_KEY := "\"matches\""

  /** Where parseTrivyJSON starts to decode; None is its error return. */
  function TrivyStart(log: string): Option<nat> {
    IndexFrom(log, "{", 0)
  }

  /** Where parseGrypeJSON starts to decode; None is either of its error returns. */
  function GrypeStart(log: string): Option<nat> {
    var key := IndexFrom(log, MATCHES_KEY, 0);
    if key.None? then None else LastIndex(log, '{', key.value)
  }

  /** Trivy's object is found exactly when the log lines before it contain no brace. */
  lemma {:induction false} TrivyObjectIsFound(noise: string, rest: string)
    ensures TrivyStart(noise + "{" + rest) == Some(|noise|) <==> '{' !in noise
  {
    var log := noise + "{" + rest;
    assert OccursAt(log, "{", |noise|);
    if '{' in noise {
      var k: nat :| k < |noise| && noise[k] == '{';
      assert log[k..k + 1] == "{" && OccursAt(log, "{", k);
    } else {
      forall k: nat | k < |noise|
        ensures !OccursAt(log, "{", k)
      {
        assert log[k..k + 1][0] == log[k] == noise[k];
      }
    }
  }

  /** Grype's object, which opens with the key, is found exactly when the log before it does not contain the
      key, however many braces it has. `space` is what may stand between the brace and the key. */
  lemma {:induction false} GrypeObjectIsFound(noise: string, space: string, rest: string)
    requires '"' !in space && '{' !in space
    ensures GrypeStart(noise + "{" + space + "\"matches\"" + rest) == Some(|noise|)
       <==> forall k: nat :: !OccursAt(noise, "\"matches\"", k)
  {
    var log := noise + "{" + space + MATCHES_KEY + rest;
    var at := |noise| + 1 + |space|;
    assert OccursAt(log, MATCHES_KEY, at);
    var key := IndexFrom(log, MATCHES_KEY, 0).value;
    if k: nat :| OccursAt(noise, MATCHES_KEY, k) {
      assert log[k..k + |MATCHES_KEY|] == noise[k..k + |MATCHES_KEY|];
      assert OccursAt(log, MATCHES_KEY, k);
      assert key <= k;
    } else {
      forall k: nat | k < at
        ensures !OccursAt(log, MATCHES_KEY, k)
      {
        NoEarlierKey(noise, space, rest, k);
      }
      assert log[|noise|] == '{';
      assert forall k | |noise| < k < at :: log[k] == space[k - |noise| - 1];
    }
  }

  lemma NoEarlierKey(noise: string, space: string, rest: string, k: nat)
    requires '"' !in space && !OccursAt(noise, MATCHES_KEY, k) && k < |noise| + 1 + |space|
    ensures !OccursAt(noise + "{" + space + MATCHES_KEY + rest, MATCHES_KEY, k)
  {
    var log := noise + "{" + space + MATCHES_KEY + rest;
    var n := |MATCHES_KEY|;
    assert k + n <= |log|;
    if k + n <= |noise| {
      assert log[k..k + n] == noise[k..k + n];
    } else if k <= |noise| {
      assert log[k..k + n][|noise| - k] == log[|noise|] == '{';
      assert '{' !in MATCHES_KEY;
    } else {
      assert log[k..k + n][0] == log[k] == space[k - |noise| - 1];
    }
  }

  // ── From the log to the status and the report ───────────────────────────

  datatype Scan = Scan(counts: Counts, records: seq<Row>)

  /** What is left uninterpreted: json.Unmarshal into either scanner's output type (None stands for its error)
      and strings.ToUpper. */
  datatype Decoders = Decoders(
    trivy: string -> Option<seq<TrivyResult>>, grype: string -> Option<seq<GrypeMatch>>, upper: string -> string)

  /** The log holds a Trivy result, and `scan` is what parseTrivyJSON makes of it. */
  ghost predicate TrivyScan(image: string, log: string, d: Decoders, scan: Scan) {
    && TrivyStart(log).Some? && d.trivy(log[TrivyStart(log).value..]).Some?
    && Flattens(image, d.trivy(log[TrivyStart(log).value..]).value, d.upper, scan.records)
    && scan.counts == SeverityCounts(scan.records)
  }

  /** The log holds a Grype result, and `scan` is what parseGrypeJSON makes of it. */
  ghost predicate GrypeScan(image: string, log: string, d: Decoders, scan: Scan) {
    && GrypeStart(log).Some? && d.grype(log[GrypeStart(log).value..]).Some?
    && (var matches := d.grype(log[GrypeStart(log).value..]).value;
        && |scan.records| == |matches|
        && forall i | 0 <= i < |matches| :: GrypeRecord(scan.records[i], image, matches[i], d.upper))
    && scan.counts == SeverityCounts(scan.records)
  }

  ghost predicate ScanOf(image: string, scanner: string, log: string, d: Decoders, scan: Scan) {
    if scanner == "grype" then GrypeScan(image, log, d, scan) else TrivyScan(image, log, d, scan)
  }

  method ParseTrivyJSON(image: string, log: string, d: Decoders) returns (r: Option<Scan>)
    ensures r.Some? <==> TrivyStart(log).Some? && d.trivy(log[TrivyStart(log).value..]).Some?
    ensures r.Some? ==> TrivyScan(image, log, d, r.value)
  {
    var start := TrivyStart(log);
    if start.None? {
      return None;
    }
    var out := d.trivy(log[start.value..]);
    if out.None? {
      return None;
    }
    var counts, records := ParseTrivyResults(image, out.value, d.upper);
    return Some(Scan(Counts(counts["CRITICAL"], counts["HIGH"], counts["MEDIUM"], counts["LOW"]), records));
  }

  method ParseGrypeJSON(image: string, log: string, d: Decoders) returns (r: Option<Scan>)
    ensures r.Some? <==> GrypeStart(log).Some? && d.grype(log[GrypeStart(log).value..]).Some?
    ensures r.Some? ==> GrypeScan(image, log, d, r.value)
  {
    var start := GrypeStart(log);
    if start.None? {
      return None;
    }
    var out := d.grype(log[start.value..]);
    if out.None? {
      return None;
    }
    var counts, records := ParseGrypeMatches(image, out.value, d.upper);
    return Some(Scan(Counts(counts["CRITICAL"], counts["HIGH"], counts["MEDIUM"], counts["LOW"]), records));
  }

  /** parseScanResults; `log` is None when the pod's log cannot be read. */
  method ParseScanResults(image: string, scanner: string, log: Option<string>, d: Decoders) returns (r: Option<Scan>)
    ensures r.Some? ==> log.Some? && ScanOf(image, scanner, log.value, d, r.value)
    ensures r.None? && log.Some? ==> forall scan :: !ScanOf(image, scanner, log.value, d, scan)
  {
    if log.None? {
      return None;
    }
    if scanner == "grype" {
      r := ParseGrypeJSON(image, log.value, d);
    } else {
      r := ParseTrivyJSON(image, log.value, d);
    }
  }

  lemma PatchStoresParse(p: Protocol.Params, s: Protocol.State, job: BatchJob, counts: Counts)
    requires Lifecycle.Inv(p, s) && s.worker.Working? && s.worker.key in s.isjs
    requires s.worker.stage.ToPatch? && s.worker.stage.verdict == Protocol.Parsed(job, counts)
    ensures var after := Protocol.Step(p, s, Protocol.WorkerPatch(true)).isjs;
      && s.worker.key in after
      && after[s.worker.key].status.phase.Completed? && after[s.worker.key].status.counts == counts
  {
    Lifecycle.PatchResult(p, s);
    assert Protocol.Step(p, s, Protocol.WorkerPatch(true)) == Protocol.WorkerPatchStep(p, s, true);
  }

  /** The state between a successful parse and its patch: the worker has not gone on. */
  predicate AwaitsPatch(parsed: Protocol.State, s: Protocol.State) {
    s.worker == parsed.worker && s.worker.Working? && s.worker.key in s.isjs
  }

  lemma PatchedStatusStays(
    p: Protocol.Params, s: Protocol.State, job: BatchJob, counts: Counts, after: seq<Protocol.Event>)
    requires Lifecycle.Inv(p, s) && s.worker.Working? && s.worker.key in s.isjs
    requires s.worker.stage.ToPatch? && s.worker.stage.verdict == Protocol.Parsed(job, counts)
    requires var t := Protocol.Step(p, s, Protocol.WorkerPatch(true));
      s.worker.key in t.isjs && Steps.Holds(Protocol.Run(p, t, after), s.worker.key, t.isjs[s.worker.key].uid)
    ensures var t := Protocol.Run(p, Protocol.Step(p, s, Protocol.WorkerPatch(true)), after);
      && s.worker.key in t.isjs
      && t.isjs[s.worker.key].status.phase.Completed? && t.isjs[s.worker.key].status.counts == counts
  {
    PatchStoresParse(p, s, job, counts);
    Lifecycle.StepKeepsInv(p, s, Protocol.WorkerPatch(true));
    Lifecycle.TerminalAbsorbs(p, Protocol.Step(p, s, Protocol.WorkerPatch(true)), after, s.worker.key);
  }

  /** A finished scan. In any run in which a worker parses a log, its patch lands later, and the object stays: with
      any events between and after, its status is Completed, and its counts are those of the rows that a
      committed upload of the parsed records stores for the job. */
  lemma {:induction false} StatusMatchesReport(
    p: Protocol.Params, now: Time,
    before: seq<Protocol.Event>, between: seq<Protocol.Event>, after: seq<Protocol.Event>,
    log: string, d: Decoders, scan: Scan, t: Table)
    requires var s := Protocol.Run(p, Protocol.Start(now), before);
      && s.worker.Working? && s.worker.stage.ToParse?
      && ScanOf(s.worker.base.spec.image, s.worker.base.spec.scanner, log, d, scan)
    requires var s := Protocol.Run(p, Protocol.Start(now), before);
      var parsed := Protocol.Step(p, s, Protocol.WorkerParse(Some(scan.counts)));
      AwaitsPatch(parsed, Protocol.Run(p, parsed, between))
    requires var s := Protocol.Run(p, Protocol.Start(now), before);
      var waiting := Protocol.Run(p, Protocol.Step(p, s, Protocol.WorkerParse(Some(scan.counts))), between);
      var patched := Protocol.Step(p, waiting, Protocol.WorkerPatch(true));
      && s.worker.key in patched.isjs
      && Steps.Holds(Protocol.Run(p, patched, after), s.worker.key, patched.isjs[s.worker.key].uid)
    ensures var s := Protocol.Run(p, Protocol.Start(now), before);
      var waiting := Protocol.Run(p, Protocol.Step(p, s, Protocol.WorkerParse(Some(scan.counts))), between);
      var last := Protocol.Run(p, Protocol.Step(p, waiting, Protocol.WorkerPatch(true)), after);
      var key := s.worker.key;
      var stored := RowsOf(Replace(t, key, s.worker.base.spec.scanner, scan.records).rows, key);
      && key in last.isjs && last.isjs[key].status.phase.Completed?
      && last.isjs[key].status.counts == SeverityCounts(stored)
      && Sum(last.isjs[key].status.counts) <= |stored|
  {
    var s := Protocol.Run(p, Protocol.Start(now), before);
    var parsed := Protocol.Step(p, s, Protocol.WorkerParse(Some(scan.counts)));
    var waiting := Protocol.Run(p, parsed, between);
    Lifecycle.StartKeepsInv(p, now);
    Lifecycle.RunKeepsInv(p, Protocol.Start(now), before);
    Lifecycle.StepKeepsInv(p, s, Protocol.WorkerParse(Some(scan.counts)));
    Lifecycle.RunKeepsInv(p, parsed, between);
    assert parsed.worker == Protocol.AfterWorkerParse(s, Some(scan.counts));
    PatchedStatusStays(p, waiting, s.worker.stage.job, scan.counts, after);
    ReplaceStores(t, s.worker.key, s.worker.base.spec.scanner, scan.records, s.worker.key);
    KnownSeveritiesAreCounted(scan.records);
  }
}
