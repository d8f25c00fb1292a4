/** The notification gate of a config's status update, and the runs it makes possible. */
module Notification {
  import opened Cluster
  import opened Accounting

  /** Clock readings in nanoseconds; a stored time keeps whole seconds. */
  type Nanos = nat

  const SECOND: nat := 1_000_000_000
  const DEFAULT_COOLDOWN: nat := 3600 * SECOND

  /** What the API server keeps of a metav1.Time. */
  function Stored(t: Nanos): Nanos {
    t - t % SECOND
  }

  /** `parse` is time.ParseDuration; None stands for its error. */
  function EffectiveCooldown(spec: string, defaultCooldown: int, parse: string -> Option<int>): (d: nat)
    ensures d > 0
    ensures spec != "" && parse(spec).Some? && parse(spec).value > 0 ==> d == parse(spec).value
    ensures spec == "" || parse(spec).None? || parse(spec).value <= 0 ==>
      d == if defaultCooldown > 0 then defaultCooldown else 3_600_000_000_000
  {
    if spec != "" && parse(spec).Some? && parse(spec).value > 0 then parse(spec).value
    else if defaultCooldown > 0 then defaultCooldown
    else DEFAULT_COOLDOWN
  }

  datatype Thresholds = Thresholds(critical: int, high: int)

  /** notificationSettings; an empty webhook means that none is configured. */
  datatype Settings = Settings(webhook: string, thresholds: Option<Thresholds>)

  predicate Exceeds(counts: Counts, t: Thresholds) {
    counts.critical > t.critical || counts.high > t.high
  }

  method ExceedsThresholds(items: seq<Item>, thresholds: Option<Thresholds>) returns (exceeds: bool)
    ensures exceeds <==>
      thresholds.None? || exists i | 0 <= i < |items| :: Exceeds(items[i].job.status.counts, thresholds.value)
  {
    if thresholds.None? {
      return true;
    }
    var i := 0;
    while i < |items|
      invariant 0 <= i <= |items|
      invariant forall k | 0 <= k < i :: !Exceeds(items[k].job.status.counts, thresholds.value)
    {
      if items[i].job.status.counts.critical > thresholds.value.critical {
        return true;
      }
      if items[i].job.status.counts.high > thresholds.value.high {
        return true;
      }
      i := i + 1;
    }
    return false;
  }

  // ── One status update ───────────────────────────────────────────────────

  datatype ConfigStatus = ConfigStatus(
    lastScan: Option<Nanos>, totalImages: nat, active: nat, completed: nat, failed: nat,
    lastNotification: Option<Nanos>, notifiedCount: nat)

  /** What one call meets: two clock readings, the listing (empty when the List call failed), the resolved
      settings (None when they could not be resolved), and whether the patch and the Slack post succeed. */
  datatype Call = Call(
    now: Nanos, later: Nanos, items: seq<Item>, totalImages: nat, cooldown: nat,
    settings: Option<Settings>, patchOk: bool, sendOk: bool)

  /** Everything but the cooldown asks for a notification. */
  predicate WorthSending(c: Call) {
    && c.items != []
    && (forall i | 0 <= i < |c.items| :: Terminal(c.items[i].job.status.phase))
    && (exists i | 0 <= i < |c.items| :: c.items[i].job.status.phase.Completed?)
    && c.settings.Some? && c.settings.value.webhook != ""
    && (c.settings.value.thresholds.Some? ==>
          exists i | 0 <= i < |c.items| :: Exceeds(c.items[i].job.status.counts, c.settings.value.thresholds.value))
  }

  /** The persisted state suppresses a notification. */
  predicate Suppressed(s: ConfigStatus, c: Call) {
    && s.lastNotification.Some?
    && c.later - s.lastNotification.value < c.cooldown
    && s.notifiedCount == |c.items|
  }

  predicate Notifies(s: ConfigStatus, c: Call) {
    WorthSending(c) && !Suppressed(s, c)
  }

  /** The call stores that it notified. */
  predicate Records(s: ConfigStatus, c: Call) {
    Notifies(s, c) && c.patchOk
  }

  function AfterCall(s: ConfigStatus, c: Call): ConfigStatus {
    if !c.patchOk then s
    else
      ConfigStatus(
        Some(Stored(c.now)), c.totalImages,
        CountOf(c.items, Active), CountOf(c.items, Done), CountOf(c.items, Broken),
        if Notifies(s, c) then Some(Stored(c.now)) else s.lastNotification,
        if Notifies(s, c) then |c.items| else s.notifiedCount)
  }

  /** The status counts the jobs of a listing by phase. */
  ghost predicate StoresCounts(status: ConfigStatus, items: seq<Item>) {
    && status.completed == |set i | 0 <= i < |items| && items[i].job.status.phase.Completed?|
    && status.failed == |set i | 0 <= i < |items| && items[i].job.status.phase.Failed?|
    && status.active == |set i | && 0 <= i < |items| && !items[i].job.status.phase.Completed?
                                 && !items[i].job.status.phase.Failed?|
  }

  /** A notification is due, in the fields of the listing, the settings and the status: all jobs are finished and one
      is Completed, a webhook is set, some job exceeds a threshold when there is one, and the last notification is a
      cooldown old or reported another number of jobs. */
  ghost predicate Due(s: ConfigStatus, c: Call) {
    && (forall i | 0 <= i < |c.items| ::
          c.items[i].job.status.phase.Completed? || c.items[i].job.status.phase.Failed?)
    && (exists i :: 0 <= i < |c.items| && c.items[i].job.status.phase.Completed?)
    && (match c.settings
        case None => false
        case Some(given) =>
          && given.webhook != ""
          && match given.thresholds
             case None => true
             case Some(t) =>
               exists i :: && 0 <= i < |c.items|
                           && (|| c.items[i].job.status.counts.critical > t.critical
                               || c.items[i].job.status.counts.high > t.high))
    && (|| s.lastNotification.None?
        || c.later - s.lastNotification.value >= c.cooldown
        || s.notifiedCount != |c.items|)
  }

  /** The config object; `reports` is what Slack accepted, one entry a message. */
  class ConfigObject {
    var status: ConfigStatus
    var reports: seq<seq<Item>>

    constructor (s: ConfigStatus)
      ensures status == s && reports == []
    {
      status, reports := s, [];
    }

    method UpdateStatus(c: Call) returns (ok: bool)
      modifies this
      ensures ok == c.patchOk
      ensures status == AfterCall(old(status), c)
      ensures reports == old(reports) + if Records(old(status), c) && c.sendOk then [c.items] else []
      ensures ok ==> status.totalImages == c.totalImages && status.lastScan == Some(c.now - c.now % 1_000_000_000)
      ensures ok ==> StoresCounts(status, c.items)
      ensures ok ==>
        status.lastNotification
          == if Due(old(status), c) then Some(c.now - c.now % 1_000_000_000) else old(status).lastNotification
      ensures ok ==> status.notifiedCount == if Due(old(status), c) then |c.items| else old(status).notifiedCount
      ensures reports == old(reports) + if ok && Due(old(status), c) && c.sendOk then [c.items] else []
    {
      CountsAreNumbers(c.items);
      var active, completed, failed := CountStatuses(c.items);
      EveryJobIsCounted(c.items);
      NoneOfClass(c.items, Active);
      NoneOfClass(c.items, Done);
      var next := ConfigStatus(
        Some(Stored(c.now)), c.totalImages, active, completed, failed, status.lastNotification, status.notifiedCount);

      var allTerminal := |c.items| > 0 && active == 0 && completed + failed > 0;
      var shouldNotify := allTerminal && completed > 0;
      if shouldNotify {
        var withinCooldown := status.lastNotification.Some? && c.later - status.lastNotification.value < c.cooldown;
        var newImagesSinceLast := completed + failed != status.notifiedCount;
        if withinCooldown && !newImagesSinceLast {
          shouldNotify := false;
        }
      }
      if shouldNotify && c.settings.None? {
        shouldNotify := false;
      }
      if shouldNotify && c.settings.Some? {
        var exceeds := ExceedsThresholds(c.items, c.settings.value.thresholds);
        if !exceeds {
          shouldNotify := false;
        }
      }
      if shouldNotify && (c.settings.None? || c.settings.value.webhook == "") {
        shouldNotify := false;
      }
      assert shouldNotify == Notifies(status, c);
      if shouldNotify {
        next := next.(lastNotification := Some(Stored(c.now)), notifiedCount := completed + failed);
      }
      if !c.patchOk {
        return false;
      }
      status := next;
      if !shouldNotify {
        return true;
      }
      if c.sendOk {
        reports := reports + [c.items];
      }
      return true;
    }
  }

  function StoredCount(status: ConfigStatus, c: Class): nat {
    match c
    case Active => status.active
    case Done => status.completed
    case Broken => status.failed
  }

  function StoredSum(statuses: seq<ConfigStatus>, c: Class): nat {
    if statuses == [] then 0 else StoredSum(statuses[1..], c) + StoredCount(statuses[0], c)
  }

  lemma {:induction false} StoredSumIsSum(
    configs: seq<Config>, items: seq<Item>, statuses: seq<ConfigStatus>, c: Class)
    requires |statuses| == |configs|
    requires forall i | 0 <= i < |configs| :: StoresCounts(statuses[i], JobsOf(items, configs[i]))
    ensures StoredSum(statuses, c) == SumOver(configs, items, c)
    decreases |configs|
  {
    if configs != [] {
      assert forall i | 0 <= i < |configs| - 1 ::
        configs[1..][i] == configs[i + 1] && statuses[1..][i] == statuses[i + 1];
      StoredSumIsSum(configs[1..], items, statuses[1..], c);
      CountsAreNumbers(JobsOf(items, configs[0]));
    }
  }

  /** The statuses that the configs store, each over its own listing, and the jobs that no config lists add up to the
      jobs of the cluster, phase by phase. */
  lemma {:induction false} StoredCountsAddUp(
    configs: seq<Config>, items: seq<Item>, statuses: seq<ConfigStatus>)
    requires DistinctConfigs(configs) && |statuses| == |configs|
    requires forall i | 0 <= i < |configs| :: StoresCounts(statuses[i], JobsOf(items, configs[i]))
    ensures var lost := Unowned(configs, items);
      && StoredSum(statuses, Done) + |set i | 0 <= i < |lost| && lost[i].job.status.phase.Completed?|
         == |set i | 0 <= i < |items| && items[i].job.status.phase.Completed?|
      && StoredSum(statuses, Broken) + |set i | 0 <= i < |lost| && lost[i].job.status.phase.Failed?|
         == |set i | 0 <= i < |items| && items[i].job.status.phase.Failed?|
  {
    StoredSumIsSum(configs, items, statuses, Done);
    StoredSumIsSum(configs, items, statuses, Broken);
    ConfigsAddUp(configs, items, Done);
    ConfigsAddUp(configs, items, Broken);
    CountsAreNumbers(items);
    CountsAreNumbers(Unowned(configs, items));
  }

  // ── Runs ────────────────────────────────────────────────────────────────

  /** One config's calls follow each other on a clock that never goes back. */
  predicate Clocked(calls: seq<Call>) {
    && (forall i | 0 <= i < |calls| :: calls[i].now <= calls[i].later)
    && (forall i, j | 0 <= i < j < |calls| :: calls[i].later <= calls[j].now)
  }

  /** The status that call `i` finds. */
  function StatusAt(s: ConfigStatus, calls: seq<Call>, i: nat): ConfigStatus
    requires i <= |calls|
  {
    if i == 0 then s else AfterCall(StatusAt(s, calls, i - 1), calls[i - 1])
  }

  predicate RecordedAt(s: ConfigStatus, calls: seq<Call>, i: nat) {
    i < |calls| && Records(StatusAt(s, calls, i), calls[i])
  }

  /** The stored time and count are those of the last recorded notification. */
  lemma {:induction false} LastRecordStands(s: ConfigStatus, calls: seq<Call>, i: nat, j: nat)
    requires i < j <= |calls| && RecordedAt(s, calls, i)
    requires forall k | i < k < j :: !RecordedAt(s, calls, k)
    ensures var t := StatusAt(s, calls, j);
      t.lastNotification == Some(Stored(calls[i].now)) && t.notifiedCount == |calls[i].items|
    decreases j
  {
    if i + 1 < j {
      LastRecordStands(s, calls, i, j - 1);
      assert !RecordedAt(s, calls, j - 1);
    }
  }

  /** The exact condition for the next notification of a run: a call after a recorded one is recorded if and only if it
      is worth sending, its patch lands, and the number of jobs differs or the cooldown has passed since the stored
      time. Which images they are has no say. */
  lemma {:induction false} NextRecordIff(s: ConfigStatus, calls: seq<Call>, i: nat, j: nat)
    requires i < j < |calls| && RecordedAt(s, calls, i)
    requires forall k | i < k < j :: !RecordedAt(s, calls, k)
    ensures RecordedAt(s, calls, j)
       <==> && WorthSending(calls[j]) && calls[j].patchOk
            && (|| |calls[j].items| != |calls[i].items|
                || calls[j].later - Stored(calls[i].now) >= calls[j].cooldown)
  {
    LastRecordStands(s, calls, i, j);
  }

  /** Two consecutive recorded notifications are a cooldown apart, up to the second that storing the first
      one lost, or the number of finished jobs changed between them. */
  lemma {:induction false} NotificationsAreSpaced(s: ConfigStatus, calls: seq<Call>, i: nat, j: nat)
    requires i < j && RecordedAt(s, calls, i) && RecordedAt(s, calls, j)
    requires forall k | i < k < j :: !RecordedAt(s, calls, k)
    ensures |calls[j].items| != |calls[i].items|
         || calls[j].later - Stored(calls[i].now) >= calls[j].cooldown
    ensures |calls[j].items| != |calls[i].items|
         || calls[j].later - calls[i].now > calls[j].cooldown - SECOND
  {
    LastRecordStands(s, calls, i, j);
  }

  /** So while the number of finished jobs stays the same, any two recorded notifications are spaced. */
  lemma {:induction false} SteadyCountSpacesAll(s: ConfigStatus, calls: seq<Call>, i: nat, j: nat)
    requires Clocked(calls) && i < j && RecordedAt(s, calls, i) && RecordedAt(s, calls, j)
    requires forall k | i <= k <= j && RecordedAt(s, calls, k) :: |calls[k].items| == |calls[i].items|
    ensures calls[j].later - calls[i].now > calls[j].cooldown - SECOND
    decreases j - i
  {
    if k: nat :| i < k < j && RecordedAt(s, calls, k) {
      SteadyCountSpacesAll(s, calls, k, j);
      assert calls[i].now <= calls[k].now;
    } else {
      NotificationsAreSpaced(s, calls, i, j);
    }
  }

  /** The reports that Slack took in the first `n` calls. */
  function Sent(s: ConfigStatus, calls: seq<Call>, n: nat): seq<seq<Item>>
    requires n <= |calls|
  {
    if n == 0 then []
    else Sent(s, calls, n - 1) + if RecordedAt(s, calls, n - 1) && calls[n - 1].sendOk then [calls[n - 1].items] else []
  }

  function RecordCount(s: ConfigStatus, calls: seq<Call>, n: nat): nat
    requires n <= |calls|
  {
    if n == 0 then 0 else RecordCount(s, calls, n - 1) + if RecordedAt(s, calls, n - 1) then 1 else 0
  }

  /** Reports never outnumber the recorded notifications, and fall short of them only by failed posts. */
  lemma {:induction false} NoMoreReportsThanRecords(s: ConfigStatus, calls: seq<Call>, n: nat)
    requires n <= |calls|
    ensures |Sent(s, calls, n)| <= RecordCount(s, calls, n)
    ensures |Sent(s, calls, n)| == RecordCount(s, calls, n)
       <==> forall i | 0 <= i < n && RecordedAt(s, calls, i) :: calls[i].sendOk
  {
    if n > 0 {
      NoMoreReportsThanRecords(s, calls, n - 1);
    }
  }

  /** The calls made on one config object, one after the other. */
  method UpdateAll(config: ConfigObject, calls: seq<Call>)
    modifies config
    ensures config.status == StatusAt(old(config.status), calls, |calls|)
    ensures config.reports == old(config.reports) + Sent(old(config.status), calls, |calls|)
  {
    var i := 0;
    while i < |calls|
      invariant 0 <= i <= |calls|
      invariant config.status == StatusAt(old(config.status), calls, i)
      invariant config.reports == old(config.reports) + Sent(old(config.status), calls, i)
    {
      var ok := config.UpdateStatus(calls[i]);
      i := i + 1;
    }
  }

  // ── What the gate does not promise ──────────────────────────────────────

  /** The lost second is real: with one clock reading a call, the second notification comes 3599.5 seconds
      after the first under a cooldown of an hour. */
  lemma {:induction false} SpacingLosesPartOfASecond(s: ConfigStatus, first: Call)
    requires Records(s, first) && first.now == first.later
    requires first.now % SECOND == SECOND / 2 && first.cooldown == 3600 * SECOND
    ensures var gap := 3600 * SECOND - SECOND / 2;
      var second := first.(now := first.now + gap, later := first.now + gap);
      && Clocked([first, second])
      && RecordedAt(s, [first, second], 0) && RecordedAt(s, [first, second], 1)
      && second.now - first.now < second.cooldown
  {
    var gap := 3600 * SECOND - SECOND / 2;
    var second := first.(now := first.now + gap, later := first.now + gap);
    var calls := [first, second];
    assert StatusAt(s, calls, 1) == AfterCall(s, first);
  }

  /** A next call about as many jobs, on one clock reading, records a notification less than its cooldown after
      the first one. */
  predicate TooEarly(s: ConfigStatus, first: Call, next: Call) {
    && first.later <= next.now == next.later && |next.items| == |first.items|
    && RecordedAt(s, [first, next], 0) && RecordedAt(s, [first, next], 1)
    && next.now - first.now < next.cooldown
  }

  /** The exact condition: after a recorded notification a next one can come too early exactly when the first was
      not made on a whole second. (The cooldown is longer than the call itself.) */
  lemma {:induction false} SpacingIsFullIff(s: ConfigStatus, first: Call)
    requires Records(s, first) && first.later - Stored(first.now) < first.cooldown
    ensures (exists next :: TooEarly(s, first, next)) <==> first.now % SECOND != 0
  {
    if first.now % SECOND != 0 {
      var at := Stored(first.now) + first.cooldown;
      var next := first.(now := at, later := at);
      assert StatusAt(s, [first, next], 1) == AfterCall(s, first);
      assert TooEarly(s, first, next);
    }
    if next :| TooEarly(s, first, next) {
      NotificationsAreSpaced(s, [first, next], 0, 1);
    }
  }

  /** The gate compares counts, not images: when the cleaner removes one of the jobs just reported, the
      rest are reported again at once. */
  lemma {:induction false} CleaningRearmsTheGate(s: ConfigStatus, first: Call, fewer: seq<Item>)
    requires Records(s, first)
    requires |fewer| < |first.items| && WorthSending(first.(items := fewer))
    ensures RecordedAt(s, [first, first.(items := fewer)], 1)
  {
    var calls := [first, first.(items := fewer)];
    assert StatusAt(s, calls, 1) == AfterCall(s, first);
  }

  /** And a set of new images as large as the old one stays unreported until the cooldown has passed. */
  lemma {:induction false} ReplacedImagesAreSuppressed(s: ConfigStatus, first: Call, others: seq<Item>)
    requires Records(s, first) && first.now == first.later
    requires |others| == |first.items| && first.cooldown >= SECOND
    ensures !RecordedAt(s, [first, first.(items := others)], 1)
  {
    var calls := [first, first.(items := others)];
    assert StatusAt(s, calls, 1) == AfterCall(s, first);
  }

  /** A report that Slack did not take is not sent again within the cooldown. */
  lemma {:induction false} LostReportIsNotRetried(s: ConfigStatus, lost: Call, retry: Call)
    requires Records(s, lost) && !lost.sendOk
    requires |retry.items| == |lost.items| && retry.later - Stored(lost.now) < retry.cooldown
    ensures !RecordedAt(s, [lost, retry], 1)
  {
    var calls := [lost, retry];
    assert StatusAt(s, calls, 1) == AfterCall(s, lost);
  }
}
