/** Cleanups, resets and manual requests that nobody disturbs are runs of the machine. */
module Undisturbed {
  import opened Cluster
  import opened Protocol
  import opened Steps
  import opened Ensure
  import opened Controllers

  // ── Cleaner ─────────────────────────────────────────────────────────────

  lemma {:induction false} StaleJobsListed(isjs: ScanJobs, order: seq<Key>, cutoff: Time, fails: set<Key>)
    ensures KeysToDelete(StaleJobs(order, isjs, cutoff), fails)
         == set k | k in order && k in isjs && Stale(isjs[k], cutoff) && k !in fails
  {
    if order != [] {
      StaleJobsListed(isjs, order[1..], cutoff, fails);
      assert order == [order[0]] + order[1..];
    }
  }

  /** The keys of the list whose delete succeeds. */
  function KeysToDelete(todo: seq<Listed>, fails: set<Key>): set<Key> {
    if todo == [] then {}
    else (if todo[0].key in fails then {} else {todo[0].key}) + KeysToDelete(todo[1..], fails)
  }

  /** One delete an entry, and the end of the list. */
  function CleanerDeletes(todo: seq<Listed>, fails: set<Key>): seq<Event> {
    if todo == [] then [CleanerDelete(true)]
    else [CleanerDelete(todo[0].key !in fails)] + CleanerDeletes(todo[1..], fails)
  }

  lemma DropTwoSets(isjs: ScanJobs, a: set<Key>, b: set<Key>)
    ensures (isjs - a) - b == isjs - (a + b)
  {}

  lemma {:induction false} DeletesRun(p: Params, s: State, cutoff: Time, todo: seq<Listed>, fails: set<Key>)
    requires s.cleaner == Cleaning(cutoff, todo)
    ensures Run(p, s, CleanerDeletes(todo, fails))
         == s.(isjs := s.isjs - KeysToDelete(todo, fails), cleaner := CleanerIdle)
    decreases |todo|
  {
    if todo == [] {
      RunOne(p, s, CleanerDelete(true));
      assert s.isjs - {} == s.isjs;
    } else {
      var gone := if todo[0].key in fails then {} else {todo[0].key};
      var t := s.(isjs := s.isjs - gone, cleaner := Cleaning(cutoff, todo[1..]));
      assert s.isjs - {} == s.isjs;
      RunTwo(p, s, CleanerDelete(todo[0].key !in fails), CleanerDeletes(todo[1..], fails));
      DeletesRun(p, t, cutoff, todo[1..], fails);
      DropTwoSets(s.isjs, gone, KeysToDelete(todo[1..], fails));
    }
  }

  /** An undisturbed cleanup is a listing and then one delete for each stale job. */
  lemma {:induction false} CleanupIsARun(
    p: Params, s: State, order: seq<Key>, fails: set<Key>)
    returns (events: seq<Event>)
    requires s.cleaner.CleanerIdle? && NoDuplicates(order) && forall k :: k in order <==> k in s.isjs
    ensures Run(p, s, events) == s.(isjs := s.isjs - Expired(s.isjs, s.now - p.retention, fails))
  {
    var cutoff := s.now - p.retention;
    var todo := StaleJobs(order, s.isjs, cutoff);
    assert (set k | k in order) == s.isjs.Keys;
    var t := s.(cleaner := Cleaning(cutoff, todo));
    assert Step(p, s, CleanerList(order)) == t;
    DeletesRun(p, t, cutoff, todo, fails);
    RunTwo(p, s, CleanerList(order), CleanerDeletes(todo, fails));
    StaleJobsListed(s.isjs, order, cutoff, fails);
    assert KeysToDelete(todo, fails) == Expired(s.isjs, cutoff, fails);
    events := [CleanerList(order)] + CleanerDeletes(todo, fails);
  }

  // ── Reset ───────────────────────────────────────────────────────────────

  function Deletable(todo: seq<Key>, fails: set<Key>): set<Key> {
    if todo == [] then {} else (if todo[0] in fails then {} else {todo[0]}) + Deletable(todo[1..], fails)
  }

  lemma {:induction false} DeletableKeys(todo: seq<Key>, fails: set<Key>)
    ensures Deletable(todo, fails) == set k | k in todo && k !in fails
  {
    if todo != [] {
      DeletableKeys(todo[1..], fails);
      assert todo == [todo[0]] + todo[1..];
    }
  }

  function ResetDeletes(todo: seq<Key>, fails: set<Key>): seq<Event> {
    if todo == [] then [ResetDelete(true)]
    else [ResetDelete(todo[0] !in fails)] + ResetDeletes(todo[1..], fails)
  }

  lemma {:induction false} ResetDeletesRun(p: Params, s: State, todo: seq<Key>, fails: set<Key>)
    requires s.ssc == Resetting(todo)
    ensures Run(p, s, ResetDeletes(todo, fails)) == s.(isjs := s.isjs - Deletable(todo, fails), ssc := SscIdle)
    decreases |todo|
  {
    if todo == [] {
      RunOne(p, s, ResetDelete(true));
      assert s.isjs - {} == s.isjs;
    } else {
      var gone := if todo[0] in fails then {} else {todo[0]};
      var t := s.(isjs := s.isjs - gone, ssc := Resetting(todo[1..]));
      assert s.isjs - {} == s.isjs;
      RunTwo(p, s, ResetDelete(todo[0] !in fails), ResetDeletes(todo[1..], fails));
      ResetDeletesRun(p, t, todo[1..], fails);
      DropTwoSets(s.isjs, gone, Deletable(todo[1..], fails));
    }
  }

  /** An undisturbed reset is a listing and then one delete for each of the config's jobs. */
  lemma {:induction false} ResetIsARun(
    p: Params, s: State, ns: string, config: string, order: seq<Key>, fails: set<Key>)
    returns (events: seq<Event>)
    requires s.ssc.SscIdle? && NoDuplicates(order) && forall k :: k in order <==> OwnedBy(s.isjs, ns, config, k)
    ensures Run(p, s, events) == s.(isjs := s.isjs - Owned(s.isjs, ns, config, fails))
  {
    assert (set k | k in order) == set k | k in s.isjs && OwnedBy(s.isjs, ns, config, k);
    var t := s.(ssc := Resetting(order));
    assert Step(p, s, ResetList(ns, config, order)) == t;
    ResetDeletesRun(p, t, order, fails);
    RunTwo(p, s, ResetList(ns, config, order), ResetDeletes(order, fails));
    DeletableKeys(order, fails);
    assert Deletable(order, fails) == Owned(s.isjs, ns, config, fails);
    events := [ResetList(ns, config, order)] + ResetDeletes(order, fails);
  }

  // ── Manual requests ─────────────────────────────────────────────────────

  function ManualEvents(ns: string, images: seq<string>, scanner: string): seq<Event> {
    seq(|images|, i requires 0 <= i < |images| => ManualScan(ns, images[i], scanner))
  }

  lemma ManualScanIsNext(p: Params, s: State, ns: string, image: string, scanner: string, m: Manual)
    requires m.store == Store(s.isjs, s.nextUid)
    ensures var t := Step(p, s, ManualScan(ns, image, scanner));
      var next := TriggerNext(p, ns, s.now, image, scanner, m).store;
      t == s.(isjs := next.isjs, nextUid := next.nextUid, manual := t.manual)
  {
    assert Step(p, s, ManualScan(ns, image, scanner)) == ManualScanStep(p, s, ns, image, scanner);
  }

  /** The first `n` images of an undisturbed manual request are as many manual scans. */
  lemma {:induction false} TriggerIsARun(p: Params, s: State, ns: string, images: seq<string>, scanner: string, n: nat)
    requires n <= |images|
    ensures var m := TriggerFirst(p, ns, s.now, images, scanner, n, Store(s.isjs, s.nextUid));
      var t := Run(p, s, ManualEvents(ns, images[..n], scanner));
      t == s.(isjs := m.store.isjs, nextUid := m.store.nextUid, manual := t.manual)
    decreases n
  {
    if n > 0 {
      var before := ManualEvents(ns, images[..n - 1], scanner);
      TriggerIsARun(p, s, ns, images, scanner, n - 1);
      assert ManualEvents(ns, images[..n], scanner) == before + [ManualScan(ns, images[n - 1], scanner)];
      RunThen(p, s, before, ManualScan(ns, images[n - 1], scanner));
      ManualScanIsNext(p, Run(p, s, before), ns, images[n - 1], scanner,
                       TriggerFirst(p, ns, s.now, images, scanner, n - 1, Store(s.isjs, s.nextUid)));
    }
  }
}
