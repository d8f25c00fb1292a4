/** The job counts of a config's status and the totals of the dashboard summary. */
module Accounting {
  import opened Cluster
  import Lifecycle
  import Protocol

  /** A scan job as a List call returns it. */
  datatype Item = Item(ns: string, job: ScanJob)

  datatype Class = Active | Done | Broken

  /** The three-way switch of updateStatus. */
  function ClassOf(phase: Phase): Class {
    if phase.Completed? then Done else if phase.Failed? then Broken else Active
  }

  function CountOf(items: seq<Item>, c: Class): nat {
    if items == [] then 0
    else CountOf(items[..|items| - 1], c) + if ClassOf(items[|items| - 1].job.status.phase) == c then 1 else 0
  }

  function CountPhase(items: seq<Item>, phase: Phase): nat {
    if items == [] then 0
    else CountPhase(items[..|items| - 1], phase) + if items[|items| - 1].job.status.phase == phase then 1 else 0
  }

  lemma TakeNext<T>(s: seq<T>, i: nat)
    requires i < |s|
    ensures s[..i + 1][..i] == s[..i] && s[..i + 1][i] == s[i] && |s[..i + 1]| == i + 1
  {}

  // ── updateStatus ────────────────────────────────────────────────────────

  method CountStatuses(items: seq<Item>) returns (active: nat, completed: nat, failed: nat)
    ensures active == CountOf(items, Active) && completed == CountOf(items, Done) && failed == CountOf(items, Broken)
  {
    active, completed, failed := 0, 0, 0;
    var i := 0;
    while i < |items|
      invariant 0 <= i <= |items|
      invariant active == CountOf(items[..i], Active)
      invariant completed == CountOf(items[..i], Done)
      invariant failed == CountOf(items[..i], Broken)
    {
      TakeNext(items, i);
      match items[i].job.status.phase {
        case Completed => completed := completed + 1;
        case Failed => failed := failed + 1;
        case _ => active := active + 1;
      }
      i := i + 1;
    }
    assert items[..i] == items;
  }

  /** The three counts cover every listed job once. */
  lemma {:induction false} EveryJobIsCounted(items: seq<Item>)
    ensures CountOf(items, Active) + CountOf(items, Done) + CountOf(items, Broken) == |items|
  {
    if items != [] {
      EveryJobIsCounted(items[..|items| - 1]);
    }
  }

  lemma {:induction false} NoneOfClass(items: seq<Item>, c: Class)
    ensures CountOf(items, c) == 0 <==> forall i | 0 <= i < |items| :: ClassOf(items[i].job.status.phase) != c
  {
    if items != [] {
      NoneOfClass(items[..|items| - 1], c);
    }
  }

  // ── The counts as numbers of jobs ───────────────────────────────────────

  lemma {:induction false} CountIsNumber(items: seq<Item>, c: Class, f: Item -> bool)
    requires forall item :: f(item) <==> ClassOf(item.job.status.phase) == c
    ensures CountOf(items, c) == |Where(items, f)|
  {
    if items != [] {
      CountIsNumber(items[..|items| - 1], c, f);
      WhereNext(items, f);
    }
  }

  lemma {:induction false} PhaseIsNumber(items: seq<Item>, phase: Phase, f: Item -> bool)
    requires forall item :: f(item) <==> item.job.status.phase == phase
    ensures CountPhase(items, phase) == |Where(items, f)|
  {
    if items != [] {
      PhaseIsNumber(items[..|items| - 1], phase, f);
      WhereNext(items, f);
    }
  }

  /** The counters, without the switch that computes them. */
  lemma {:induction false} CountsAreNumbers(items: seq<Item>)
    ensures CountOf(items, Done) == |set i | 0 <= i < |items| && items[i].job.status.phase.Completed?|
    ensures CountOf(items, Broken) == |set i | 0 <= i < |items| && items[i].job.status.phase.Failed?|
    ensures CountOf(items, Active)
         == |set i | && 0 <= i < |items| && !items[i].job.status.phase.Completed?
                     && !items[i].job.status.phase.Failed?|
  {
    var done := (item: Item) => item.job.status.phase.Completed?;
    var broken := (item: Item) => item.job.status.phase.Failed?;
    var active := (item: Item) => !item.job.status.phase.Completed? && !item.job.status.phase.Failed?;
    CountIsNumber(items, Done, done);
    CountIsNumber(items, Broken, broken);
    CountIsNumber(items, Active, active);
    assert Where(items, done) == set i | 0 <= i < |items| && items[i].job.status.phase.Completed?;
    assert Where(items, broken) == set i | 0 <= i < |items| && items[i].job.status.phase.Failed?;
    assert Where(items, active) == set i | && 0 <= i < |items| && !items[i].job.status.phase.Completed?
                                           && !items[i].job.status.phase.Failed?;
  }

  // ── Several configs ─────────────────────────────────────────────────────

  datatype Config = Config(name: string, targetNs: string)

  /** What the label selector of updateStatus matches. */
  predicate BelongsTo(item: Item, config: Config) {
    item.ns == config.targetNs && item.job.spec.configRef == config.name
  }

  function JobsOf(items: seq<Item>, config: Config): seq<Item> {
    if items == [] then []
    else JobsOf(items[..|items| - 1], config)
         + if BelongsTo(items[|items| - 1], config) then [items[|items| - 1]] else []
  }

  lemma {:induction false} ListedIsNumber(items: seq<Item>, config: Config, f: Item -> bool)
    requires forall item :: f(item) <==> item.ns == config.targetNs && item.job.spec.configRef == config.name
    ensures |JobsOf(items, config)| == |Where(items, f)|
    ensures forall item :: item in JobsOf(items, config) <==> item in items && f(item)
  {
    if items != [] {
      var front, last := items[..|items| - 1], items[|items| - 1];
      ListedIsNumber(front, config, f);
      WhereNext(items, f);
      assert items == front + [last];
    }
  }

  /** A config lists exactly the jobs of its target namespace that carry its name, each as often as it is there. */
  lemma {:induction false} ListingIsByLabel(items: seq<Item>, config: Config)
    ensures forall item :: item in JobsOf(items, config) <==>
      item in items && item.ns == config.targetNs && item.job.spec.configRef == config.name
    ensures |JobsOf(items, config)|
         == |set i | && 0 <= i < |items| && items[i].ns == config.targetNs
                     && items[i].job.spec.configRef == config.name|
  {
    var f := (item: Item) => item.ns == config.targetNs && item.job.spec.configRef == config.name;
    ListedIsNumber(items, config, f);
    assert Where(items, f) == set i | && 0 <= i < |items| && items[i].ns == config.targetNs
                                      && items[i].job.spec.configRef == config.name;
  }

  /** The sum of one count over the statuses of all configs. */
  function SumOver(configs: seq<Config>, items: seq<Item>, c: Class): nat {
    if configs == [] then 0
    else SumOver(configs[1..], items, c) + CountOf(JobsOf(items, configs[0]), c)
  }

  function Owners(configs: seq<Config>, item: Item): nat {
    if configs == [] then 0 else Owners(configs[1..], item) + if BelongsTo(item, configs[0]) then 1 else 0
  }

  lemma {:induction false} SumOverNext(configs: seq<Config>, items: seq<Item>, item: Item, c: Class)
    ensures SumOver(configs, items + [item], c)
         == SumOver(configs, items, c) + if ClassOf(item.job.status.phase) == c then Owners(configs, item) else 0
  {
    if configs != [] {
      SumOverNext(configs[1..], items, item, c);
      var mine := JobsOf(items, configs[0]);
      assert (items + [item])[..|items|] == items;
      if BelongsTo(item, configs[0]) {
        assert (mine + [item])[..|mine|] == mine;
      } else {
        assert mine + [] == mine;
      }
    }
  }

  lemma {:induction false} SumOverNothing(configs: seq<Config>, c: Class)
    ensures SumOver(configs, [], c) == 0
  {
    if configs != [] {
      SumOverNothing(configs[1..], c);
    }
  }

  /** Config names are unique in the cluster. */
  predicate DistinctConfigs(configs: seq<Config>) {
    forall i, j | 0 <= i < j < |configs| :: configs[i].name != configs[j].name
  }

  lemma {:induction false} OtherNamesOwnNothing(configs: seq<Config>, item: Item)
    requires forall i | 0 <= i < |configs| :: configs[i].name != item.job.spec.configRef
    ensures Owners(configs, item) == 0
  {
    if configs != [] {
      OtherNamesOwnNothing(configs[1..], item);
    }
  }

  lemma {:induction false} AtMostOneOwner(configs: seq<Config>, item: Item)
    requires DistinctConfigs(configs)
    ensures Owners(configs, item) <= 1
  {
    if configs != [] {
      if BelongsTo(item, configs[0]) {
        OtherNamesOwnNothing(configs[1..], item);
      } else {
        AtMostOneOwner(configs[1..], item);
      }
    }
  }

  /** The jobs that no config counts: those started by hand, those of a deleted config, and those of a config that
      has since moved to another namespace. */
  function Unowned(configs: seq<Config>, items: seq<Item>): seq<Item> {
    if items == [] then []
    else Unowned(configs, items[..|items| - 1])
         + if Owners(configs, items[|items| - 1]) == 0 then [items[|items| - 1]] else []
  }

  lemma {:induction false} OwnersIff(configs: seq<Config>, item: Item)
    ensures Owners(configs, item) == 0 <==>
      forall i | 0 <= i < |configs| :: configs[i].name != item.job.spec.configRef || configs[i].targetNs != item.ns
  {
    if configs != [] {
      OwnersIff(configs[1..], item);
      assert forall i | 0 < i < |configs| :: configs[i] == configs[1..][i - 1];
    }
  }

  /** A job is among them exactly when no config has its config label as name and its namespace as target. */
  lemma {:induction false} UnownedIff(configs: seq<Config>, items: seq<Item>, item: Item)
    ensures item in Unowned(configs, items) <==>
      && item in items
      && forall i | 0 <= i < |configs| :: configs[i].name != item.job.spec.configRef || configs[i].targetNs != item.ns
  {
    if items != [] {
      var front, last := items[..|items| - 1], items[|items| - 1];
      UnownedIff(configs, front, item);
      OwnersIff(configs, last);
      assert items == front + [last];
    }
  }

  lemma CountNext(items: seq<Item>, item: Item, c: Class)
    ensures CountOf(items + [item], c) == CountOf(items, c) + if ClassOf(item.job.status.phase) == c then 1 else 0
  {
    assert (items + [item])[..|items|] == items;
  }

  /** The configs' counts and the jobs without a config add up to the cluster's: no job is counted twice. */
  lemma {:induction false} ConfigsAddUp(configs: seq<Config>, items: seq<Item>, c: Class)
    requires DistinctConfigs(configs)
    ensures SumOver(configs, items, c) + CountOf(Unowned(configs, items), c) == CountOf(items, c)
  {
    if items == [] {
      SumOverNothing(configs, c);
    } else {
      var front, last := items[..|items| - 1], items[|items| - 1];
      assert items == front + [last];
      ConfigsAddUp(configs, front, c);
      SumOverNext(configs, front, last, c);
      AtMostOneOwner(configs, last);
      CountNext(Unowned(configs, front), last, c);
      assert Unowned(configs, front) + [] == Unowned(configs, front);
    }
  }

  // ── computeSummary ──────────────────────────────────────────────────────

  datatype Summary = Summary(
    totalJobs: nat, active: nat, completed: nat, failed: nat,
    totals: Counts, totalImages: nat, configCount: nat, lastScanTime: Option<Time>)

  function Plus(a: Counts, b: Counts): Counts {
    Counts(a.critical + b.critical, a.high + b.high, a.medium + b.medium, a.low + b.low)
  }

  /** The sum of a number over the listed jobs. */
  function SumBy(items: seq<Item>, f: Item -> nat): nat {
    if items == [] then 0 else SumBy(items[..|items| - 1], f) + f(items[|items| - 1])
  }

  function CompletedTotals(items: seq<Item>): Counts {
    if items == [] then NO_COUNTS
    else
      var last := items[|items| - 1].job.status;
      var before := CompletedTotals(items[..|items| - 1]);
      if last.phase.Completed? then Plus(before, last.counts) else before
  }

  function AllTotals(items: seq<Item>): Counts {
    if items == [] then NO_COUNTS
    else Plus(AllTotals(items[..|items| - 1]), items[|items| - 1].job.status.counts)
  }

  /** Each severity's total is the sum of that severity's counts over the Completed jobs. */
  lemma {:induction false} TotalsBySeverity(items: seq<Item>)
    ensures CompletedTotals(items) == Counts(
      SumBy(items, (i: Item) => if i.job.status.phase.Completed? then i.job.status.counts.critical else 0),
      SumBy(items, (i: Item) => if i.job.status.phase.Completed? then i.job.status.counts.high else 0),
      SumBy(items, (i: Item) => if i.job.status.phase.Completed? then i.job.status.counts.medium else 0),
      SumBy(items, (i: Item) => if i.job.status.phase.Completed? then i.job.status.counts.low else 0))
  {
    if items != [] {
      TotalsBySeverity(items[..|items| - 1]);
    }
  }

  function ScannedImages(items: seq<Item>): set<string> {
    set i | 0 <= i < |items| && items[i].job.spec.image != "" :: items[i].job.spec.image
  }

  ghost predicate Latest(times: seq<Option<Time>>, t: Option<Time>) {
    && (t.Some? ==> t in times)
    && forall i | 0 <= i < |times| && times[i].Some? :: t.Some? && times[i].value <= t.value
  }

  method ComputeSummary(items: seq<Item>, lastScans: seq<Option<Time>>) returns (s: Summary)
    ensures s.totalJobs == |items| && s.configCount == |lastScans|
    ensures s.active == CountPhase(items, Running)
    ensures s.completed == CountOf(items, Done) && s.failed == CountOf(items, Broken)
    ensures s.totals == CompletedTotals(items)
    ensures s.totalImages == |ScannedImages(items)|
    ensures Latest(lastScans, s.lastScanTime)
    ensures s.active == |set i | 0 <= i < |items| && items[i].job.status.phase.Running?|
    ensures s.completed == |set i | 0 <= i < |items| && items[i].job.status.phase.Completed?|
    ensures s.failed == |set i | 0 <= i < |items| && items[i].job.status.phase.Failed?|
    ensures s.totalImages
         == |set i | 0 <= i < |items| && items[i].job.spec.image != "" :: items[i].job.spec.image|
    ensures s.lastScanTime.Some? ==> s.lastScanTime in lastScans
    ensures forall i | 0 <= i < |lastScans| && lastScans[i].Some? ::
      s.lastScanTime.Some? && lastScans[i].value <= s.lastScanTime.value
  {
    var running := (item: Item) => item.job.status.phase.Running?;
    PhaseIsNumber(items, Running, running);
    assert Where(items, running) == set i | 0 <= i < |items| && items[i].job.status.phase.Running?;
    CountsAreNumbers(items);
    var active, completed, failed, totals := SumPhases(items);
    var images := CollectImages(items);
    var latest := LatestScan(lastScans);
    s := Summary(|items|, active, completed, failed, totals, |images|, |lastScans|, latest);
  }

  /** The first loop. */
  method SumPhases(items: seq<Item>) returns (active: nat, completed: nat, failed: nat, totals: Counts)
    ensures active == CountPhase(items, Running)
    ensures completed == CountOf(items, Done) && failed == CountOf(items, Broken)
    ensures totals == CompletedTotals(items)
  {
    active, completed, failed, totals := 0, 0, 0, NO_COUNTS;
    var i := 0;
    while i < |items|
      invariant 0 <= i <= |items|
      invariant active == CountPhase(items[..i], Running)
      invariant completed == CountOf(items[..i], Done)
      invariant failed == CountOf(items[..i], Broken)
      invariant totals == CompletedTotals(items[..i])
    {
      TakeNext(items, i);
      var status := items[i].job.status;
      match status.phase {
        case Running => active := active + 1;
        case Completed =>
          completed := completed + 1;
          totals := Plus(totals, status.counts);
        case Failed => failed := failed + 1;
        case _ =>
      }
      i := i + 1;
    }
    assert items[..i] == items;
  }

  /** The second loop. */
  method CollectImages(items: seq<Item>) returns (images: set<string>)
    ensures images == ScannedImages(items)
  {
    images := {};
    var i := 0;
    while i < |items|
      invariant 0 <= i <= |items|
      invariant forall image ::
        image in images <==> image != "" && exists k | 0 <= k < i :: items[k].job.spec.image == image
    {
      if items[i].job.spec.image != "" {
        images := images + {items[i].job.spec.image};
      }
      i := i + 1;
    }
  }

  /** The third loop. */
  method LatestScan(lastScans: seq<Option<Time>>) returns (latest: Option<Time>)
    ensures Latest(lastScans, latest)
  {
    latest := None;
    var i := 0;
    while i < |lastScans|
      invariant 0 <= i <= |lastScans|
      invariant latest.Some? ==> latest in lastScans
      invariant forall k | 0 <= k < i && lastScans[k].Some? :: latest.Some? && lastScans[k].value <= latest.value
    {
      if lastScans[i].Some? {
        if latest.None? || lastScans[i].value > latest.value {
          latest := lastScans[i];
        }
      }
      i := i + 1;
    }
  }

  /** What the summary's active count leaves out: jobs that no worker has picked up yet. */
  lemma {:induction false} ActiveIsRunningOrWaiting(items: seq<Item>)
    ensures CountOf(items, Active)
         == CountPhase(items, Running) + CountPhase(items, Unset) + CountPhase(items, Pending)
  {
    if items != [] {
      ActiveIsRunningOrWaiting(items[..|items| - 1]);
    }
  }

  /** The dashboard against the configs' statuses: completed and failed exceed the sum over the configs by the jobs
      that no config counts, and so agree exactly when there are none of them; active agrees exactly when as many
      jobs wait for a worker as active ones have no config. */
  lemma {:induction false} SummaryAgreesWithConfigs(configs: seq<Config>, items: seq<Item>)
    requires DistinctConfigs(configs)
    ensures var lost := Unowned(configs, items);
      && (SumOver(configs, items, Done) == CountOf(items, Done)
          <==> forall i | 0 <= i < |lost| :: !lost[i].job.status.phase.Completed?)
      && (SumOver(configs, items, Broken) == CountOf(items, Broken)
          <==> forall i | 0 <= i < |lost| :: !lost[i].job.status.phase.Failed?)
      && (SumOver(configs, items, Active) == CountPhase(items, Running)
          <==> CountPhase(items, Unset) + CountPhase(items, Pending) == CountOf(lost, Active))
  {
    var lost := Unowned(configs, items);
    ConfigsAddUp(configs, items, Active);
    ConfigsAddUp(configs, items, Done);
    ConfigsAddUp(configs, items, Broken);
    ActiveIsRunningOrWaiting(items);
    NoneOfClass(lost, Done);
    NoneOfClass(lost, Broken);
  }

  lemma {:induction false} TotalsMissNothing(items: seq<Item>)
    requires forall i | 0 <= i < |items| ::
      items[i].job.status.counts != NO_COUNTS ==> items[i].job.status.phase.Completed?
    ensures CompletedTotals(items) == AllTotals(items)
  {
    if items != [] {
      TotalsMissNothing(items[..|items| - 1]);
    }
  }

  predicate Holds(isjs: ScanJobs, job: ScanJob) {
    exists k | k in isjs :: isjs[k] == job
  }

  lemma CountsMeanCompleted(p: Protocol.Params, now: Time, events: seq<Protocol.Event>, job: ScanJob)
    requires !p.stampFailures && Holds(Protocol.Run(p, Protocol.Start(now), events).isjs, job)
    ensures job.status.counts != NO_COUNTS ==> job.status.phase.Completed?
  {
    var isjs := Protocol.Run(p, Protocol.Start(now), events).isjs;
    var k :| k in isjs && isjs[k] == job;
    Lifecycle.StatusShape(p, now, events, k);
  }

  /** In every reachable store only Completed jobs carry counts, so the summary's totals miss no finding. */
  lemma {:induction false} ReachableTotalsMissNothing(
    p: Protocol.Params, now: Time, events: seq<Protocol.Event>, items: seq<Item>)
    requires !p.stampFailures
    requires forall i | 0 <= i < |items| :: Holds(Protocol.Run(p, Protocol.Start(now), events).isjs, items[i].job)
    ensures CompletedTotals(items) == AllTotals(items)
  {
    forall i | 0 <= i < |items|
      ensures items[i].job.status.counts != NO_COUNTS ==> items[i].job.status.phase.Completed?
    {
      CountsMeanCompleted(p, now, events, items[i].job);
    }
    TotalsMissNothing(items);
  }
}
