/** Report rows in the database: the upload with its retries, the replacing write, and the read. */
module Reports {
  import opened Cluster
  import opened Ordering

  datatype Row = Row(
    image: string, target: string, library: string, vulnerabilityId: string, severity: string,
    status: string, installedVersion: string, fixedVersion: string, title: string)

  datatype Entry = Entry(key: Key, row: Row)

  /** `rows` is scan_report_rows; `reports` is scan_reports, which remembers the scanner. */
  datatype Table = Table(rows: seq<Entry>, reports: map<Key, string>)

  // ── Specification ───────────────────────────────────────────────────────

  function Without(rows: seq<Entry>, key: Key): seq<Entry> {
    if rows == [] then []
    else if rows[0].key == key then Without(rows[1..], key)
    else [rows[0]] + Without(rows[1..], key)
  }

  function RowsOf(rows: seq<Entry>, key: Key): seq<Row> {
    if rows == [] then []
    else if rows[0].key == key then [rows[0].row] + RowsOf(rows[1..], key)
    else RowsOf(rows[1..], key)
  }

  function Entries(key: Key, rows: seq<Row>): seq<Entry> {
    seq(|rows|, i requires 0 <= i < |rows| => Entry(key, rows[i]))
  }

  /** A committed upload. */
  function Replace(t: Table, key: Key, scanner: string, rows: seq<Row>): Table {
    Table(Without(t.rows, key) + Entries(key, rows), t.reports[key := scanner])
  }

  lemma {:induction false} RowsOfConcat(a: seq<Entry>, b: seq<Entry>, key: Key)
    ensures RowsOf(a + b, key) == RowsOf(a, key) + RowsOf(b, key)
  {
    if a == [] {
      assert a + b == b;
    } else {
      assert (a + b)[1..] == a[1..] + b;
      RowsOfConcat(a[1..], b, key);
    }
  }

  lemma {:induction false} RowsOfWithout(rows: seq<Entry>, key: Key, other: Key)
    ensures RowsOf(Without(rows, key), other) == if other == key then [] else RowsOf(rows, other)
  {
    if rows != [] {
      RowsOfWithout(rows[1..], key, other);
      if rows[0].key != key {
        RowsOfConcat([rows[0]], Without(rows[1..], key), other);
      }
    }
  }

  lemma {:induction false} RowsOfEntries(key: Key, rows: seq<Row>, other: Key)
    ensures RowsOf(Entries(key, rows), other) == if other == key then rows else []
  {
    if rows != [] {
      assert Entries(key, rows)[1..] == Entries(key, rows[1..]);
      RowsOfEntries(key, rows[1..], other);
    }
  }

  lemma {:induction false} WithoutConcat(a: seq<Entry>, b: seq<Entry>, key: Key)
    ensures Without(a + b, key) == Without(a, key) + Without(b, key)
  {
    if a == [] {
      assert a + b == b;
    } else {
      assert (a + b)[1..] == a[1..] + b;
      WithoutConcat(a[1..], b, key);
    }
  }

  lemma {:induction false} WithoutTwice(rows: seq<Entry>, key: Key)
    ensures Without(Without(rows, key), key) == Without(rows, key)
  {
    if rows != [] {
      WithoutTwice(rows[1..], key);
    }
  }

  lemma {:induction false} WithoutEntries(key: Key, rows: seq<Row>)
    ensures Without(Entries(key, rows), key) == []
  {
    if rows != [] {
      assert Entries(key, rows)[1..] == Entries(key, rows[1..]);
      WithoutEntries(key, rows[1..]);
    }
  }

  /** A committed upload leaves exactly its rows under its key, and every other key as it was. */
  lemma {:induction false} ReplaceStores(t: Table, key: Key, scanner: string, rows: seq<Row>, other: Key)
    ensures RowsOf(Replace(t, key, scanner, rows).rows, other) == if other == key then rows else RowsOf(t.rows, other)
  {
    RowsOfConcat(Without(t.rows, key), Entries(key, rows), other);
    RowsOfWithout(t.rows, key, other);
    RowsOfEntries(key, rows, other);
  }

  /** Committing the same upload again changes nothing at all. */
  lemma {:induction false} ReplaceTwice(t: Table, key: Key, scanner: string, rows: seq<Row>)
    ensures Replace(Replace(t, key, scanner, rows), key, scanner, rows) == Replace(t, key, scanner, rows)
  {
    WithoutConcat(Without(t.rows, key), Entries(key, rows), key);
    WithoutTwice(t.rows, key);
    WithoutEntries(key, rows);
  }

  // ── The read order ──────────────────────────────────────────────────────

  /** ORDER BY severity, vulnerability_id under the database's collation. */
  predicate RowBefore(collate: (string, string) -> bool, a: Row, b: Row) {
    || collate(a.severity, b.severity)
    || (!collate(b.severity, a.severity) && collate(a.vulnerabilityId, b.vulnerabilityId))
  }

  function ByRow(collate: (string, string) -> bool): (Row, Row) -> bool {
    (a, b) => RowBefore(collate, a, b)
  }

  lemma {:induction false} RowBeforeIsWeakOrder(collate: (string, string) -> bool)
    requires StrictWeakOrder(collate)
    ensures StrictWeakOrder(ByRow(collate))
  {
    var less := ByRow(collate);
    forall a, b | less(a, b)
      ensures !less(b, a)
    {}
    forall a, b, c | less(a, c)
      ensures less(a, b) || less(b, c)
    {
      if collate(a.severity, c.severity) {
        assert collate(a.severity, b.severity) || collate(b.severity, c.severity);
      } else {
        assert collate(a.vulnerabilityId, b.vulnerabilityId) || collate(b.vulnerabilityId, c.vulnerabilityId);
        assert collate(b.severity, a.severity) ==> collate(b.severity, c.severity) || collate(c.severity, a.severity);
        assert collate(c.severity, b.severity) ==> collate(c.severity, a.severity) || collate(a.severity, b.severity);
      }
    }
  }

  /** Rows sorted by it never go back in severity, and within one severity never in id. */
  lemma {:induction false} SortedBySeverityThenId(collate: (string, string) -> bool, rows: seq<Row>)
    requires StrictWeakOrder(collate)
    ensures SortedBy(ByRow(collate), rows) <==>
      forall i, j | 0 <= i < j < |rows| ::
        && !collate(rows[j].severity, rows[i].severity)
        && (!collate(rows[i].severity, rows[j].severity) ==>
              !collate(rows[j].vulnerabilityId, rows[i].vulnerabilityId))
  {
    forall i, j | 0 <= i < j < |rows|
      ensures !RowBefore(collate, rows[j], rows[i]) <==>
        && !collate(rows[j].severity, rows[i].severity)
        && (!collate(rows[i].severity, rows[j].severity) ==>
              !collate(rows[j].vulnerabilityId, rows[i].vulnerabilityId))
    {}
    assert SortedBy(ByRow(collate), rows) <==>
      forall i, j | 0 <= i < j < |rows| :: !ByRow(collate)(rows[j], rows[i]);
  }

  datatype Answer = Found(rows: seq<Row>) | NotFound | ServerError

  /** What a read that succeeds may answer. */
  ghost predicate Answers(collate: (string, string) -> bool, t: Table, key: Key, a: Answer) {
    match a
    case Found(rows) =>
      rows != [] && multiset(rows) == multiset(RowsOf(t.rows, key)) && SortedBy(ByRow(collate), rows)
    case NotFound => RowsOf(t.rows, key) == []
    case ServerError => false
  }

  lemma SortedRowsAnswer(collate: (string, string) -> bool, t: Table, key: Key)
    requires StrictWeakOrder(collate)
    ensures var result := SortBy(ByRow(collate), RowsOf(t.rows, key));
      Answers(collate, t, key, if result == [] then NotFound else Found(result))
  {
    RowBeforeIsWeakOrder(collate);
    SortBySorts(ByRow(collate), RowsOf(t.rows, key));
    assert |multiset(RowsOf(t.rows, key))| == |RowsOf(t.rows, key)|;
  }

  /** Reading back what an upload stored: a sorted permutation of the rows sent. But an upload without
      findings, although stored, reads like one that never happened. */
  lemma {:induction false} ReadAfterReplace(
    collate: (string, string) -> bool, t: Table, key: Key, scanner: string, rows: seq<Row>, a: Answer)
    requires Answers(collate, Replace(t, key, scanner, rows), key, a)
    ensures key in Replace(t, key, scanner, rows).reports
    ensures a == NotFound <==> rows == []
    ensures a.Found? <==> rows != []
    ensures a.Found? ==> multiset(a.rows) == multiset(rows) && SortedBy(ByRow(collate), a.rows)
  {
    ReplaceStores(t, key, scanner, rows, key);
    if a.Found? {
      assert a.rows[0] in multiset(a.rows);
    }
  }

  // ── The handlers ────────────────────────────────────────────────────────

  /** Where the write transaction breaks: at statement `step` (0 begins it, 1 upserts the report, 2 deletes,
      3 prepares, then one insert a row), or at the commit, which may have been applied or not. */
  datatype Fault = NoFault | BreaksAt(step: nat) | CommitFails(applied: bool)

  predicate Commits(fault: Fault, rows: nat) {
    match fault
    case NoFault => true
    case BreaksAt(step) => step >= 4 + rows
    case CommitFails(applied) => applied
  }

  /** One HTTP attempt of the upload. */
  datatype Attempt = Undelivered | Delivered(fault: Fault, replyLost: bool)

  predicate Applies(a: Attempt, rows: nat) {
    a.Delivered? && Commits(a.fault, rows)
  }

  predicate Acknowledged(a: Attempt, rows: nat) {
    Applies(a, rows) && !a.fault.CommitFails? && !a.replyLost
  }

  /** The pass over the query's result. */
  method ReadRows(result: seq<Row>) returns (read: seq<Row>)
    ensures read == result
  {
    read := [];
    var i := 0;
    while i < |result|
      invariant 0 <= i <= |result|
      invariant read == result[..i]
    {
      read := read + [result[i]];
      i := i + 1;
    }
  }

  class Database {
    var rows: seq<Entry>
    var reports: map<Key, string>

    ghost function Contents(): Table
      reads this
    {
      Table(rows, reports)
    }

    /** handlePutJobReport: one transaction. */
    method HandlePut(key: Key, scanner: string, body: seq<Row>, fault: Fault) returns (ok: bool)
      modifies this
      ensures Contents() ==
        if Commits(fault, |body|) then Replace(old(Contents()), key, scanner, body) else old(Contents())
      ensures ok <==> Commits(fault, |body|) && !fault.CommitFails?
      ensures ok <==> fault.NoFault? || (fault.BreaksAt? && fault.step >= 4 + |body|)
      ensures reports == if ok || fault == CommitFails(true) then old(reports)[key := scanner] else old(reports)
    {
      if fault == BreaksAt(0) || fault == BreaksAt(1) || fault == BreaksAt(2) || fault == BreaksAt(3) {
        return false;
      }
      var newReports := reports[key := scanner];
      var newRows := Without(rows, key);
      var i := 0;
      while i < |body|
        invariant 0 <= i <= |body|
        invariant newRows == Without(rows, key) + Entries(key, body)[..i]
        invariant fault.BreaksAt? ==> fault.step >= 4 + i
      {
        if fault == BreaksAt(4 + i) {
          return false;
        }
        newRows := newRows + [Entry(key, body[i])];
        i := i + 1;
      }
      assert Entries(key, body)[..i] == Entries(key, body);
      if fault == CommitFails(false) {
        return false;
      }
      rows, reports := newRows, newReports;
      return fault != CommitFails(true);
    }

    /** handleJobReport: the ordered query, then one pass over its result. */
    method HandleGet(collate: (string, string) -> bool, key: Key, queryOk: bool) returns (answer: Answer)
      requires StrictWeakOrder(collate)
      ensures if queryOk then Answers(collate, Contents(), key, answer) else answer == ServerError
      ensures answer.Found? ==>
        forall i, j | 0 <= i < j < |answer.rows| ::
          && !collate(answer.rows[j].severity, answer.rows[i].severity)
          && (!collate(answer.rows[i].severity, answer.rows[j].severity) ==>
                !collate(answer.rows[j].vulnerabilityId, answer.rows[i].vulnerabilityId))
    {
      if !queryOk {
        return ServerError;
      }
      var result := SortBy(ByRow(collate), RowsOf(rows, key));
      SortedRowsAnswer(collate, Contents(), key);
      var read := ReadRows(result);
      if |read| == 0 {
        return NotFound;
      }
      SortedBySeverityThenId(collate, read);
      return Found(read);
    }

    /** postReportToAPI: three attempts; the context may be cancelled in the pause after one of them.
        `tries` counts the attempts made. */
    method PostReport(
      apiUrl: string, key: Key, scanner: string, body: seq<Row>, attempts: seq<Attempt>, cancelAfter: Option<nat>)
      returns (ok: bool, tries: nat)
      requires |attempts| == 3
      modifies this
      ensures if apiUrl == "" then tries == 0 else 1 <= tries <= 3
      ensures ok <==> tries > 0 && Acknowledged(attempts[tries - 1], |body|)
      ensures ok ==> && attempts[tries - 1].Delivered? && !attempts[tries - 1].replyLost
                     && (var fault := attempts[tries - 1].fault;
                         fault.NoFault? || (fault.BreaksAt? && fault.step >= 4 + |body|))
      ensures forall i | 0 <= i < tries - 1 :: !Acknowledged(attempts[i], |body|) && cancelAfter != Some(i)
      ensures !ok ==> apiUrl == "" || tries == 3 || cancelAfter == Some(tries - 1)
      ensures Contents() ==
        if exists i | 0 <= i < tries :: Applies(attempts[i], |body|)
        then Replace(old(Contents()), key, scanner, body) else old(Contents())
    {
      ReplaceTwice(Contents(), key, scanner, body);
      ok, tries := false, 0;
      if apiUrl == "" {
        return;
      }
      while tries < 3
        invariant 0 <= tries <= 3 && !ok
        invariant forall i | 0 <= i < tries :: !Acknowledged(attempts[i], |body|) && cancelAfter != Some(i)
        invariant Contents() ==
          if exists i | 0 <= i < tries :: Applies(attempts[i], |body|)
          then Replace(old(Contents()), key, scanner, body) else old(Contents())
      {
        var attempt := attempts[tries];
        tries := tries + 1;
        if attempt.Delivered? {
          var put := HandlePut(key, scanner, body, attempt.fault);
          if put && !attempt.replyLost {
            return true, tries;
          }
        }
        if cancelAfter == Some(tries - 1) {
          return false, tries;
        }
      }
    }

    /** Whatever happens to the attempts: the rows of the key are the old ones or exactly those sent, they
        are those sent when the upload reports success, and no other key changes. */
    method Upload(
      apiUrl: string, key: Key, scanner: string, body: seq<Row>, attempts: seq<Attempt>, cancelAfter: Option<nat>)
      returns (ok: bool)
      requires |attempts| == 3
      modifies this
      ensures RowsOf(rows, key) == body || RowsOf(rows, key) == old(RowsOf(rows, key))
      ensures ok ==> RowsOf(rows, key) == body
      ensures forall other | other != key :: RowsOf(rows, other) == old(RowsOf(rows, other))
    {
      ghost var before := Contents();
      var tries;
      ok, tries := PostReport(apiUrl, key, scanner, body, attempts, cancelAfter);
      forall other
        ensures RowsOf(Replace(before, key, scanner, body).rows, other)
             == if other == key then body else RowsOf(before.rows, other)
      {
        ReplaceStores(before, key, scanner, body, other);
      }
    }
  }
}
