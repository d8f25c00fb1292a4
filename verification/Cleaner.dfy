/** The cleaner lists first and deletes later; what it deletes, over whole runs. */
module Cleaner {
  import opened Cluster
  import opened Protocol
  import opened Steps
  import opened Lifecycle

  /** An entry of the cleaner's list, taken at `listed`: stale then, and what the name holds now is that same
      object, unchanged, or one created since. */
  predicate EntryOk(s: State, cutoff: Time, listed: Time, entry: Listed) {
    && Stale(entry.job, cutoff)
    && listed <= s.now
    && entry.job.uid < s.nextUid
    && (entry.key in s.isjs ==>
          if s.isjs[entry.key].uid == entry.job.uid
          then s.isjs[entry.key].status == entry.job.status && s.isjs[entry.key].created == entry.job.created
          else s.isjs[entry.key].uid > entry.job.uid && s.isjs[entry.key].created >= listed)
  }

  ghost predicate ListOk(p: Params, s: State) {
    s.cleaner.Cleaning? ==>
      && s.cleaner.cutoff + p.retention <= s.now
      && forall i | 0 <= i < |s.cleaner.todo| ::
           EntryOk(s, s.cleaner.cutoff, s.cleaner.cutoff + p.retention, s.cleaner.todo[i])
  }

  lemma {:induction false} StaleJobsAreStale(s: State, order: seq<Key>, cutoff: Time)
    requires UniqueUids(s)
    ensures forall entry | entry in StaleJobs(order, s.isjs, cutoff) :: EntryOk(s, cutoff, s.now, entry)
  {
    if order != [] {
      StaleJobsAreStale(s, order[1..], cutoff);
    }
  }

  lemma EntryStaysOk(p: Params, s: State, e: Event, cutoff: Time, listed: Time, entry: Listed)
    requires Inv(p, s) && EntryOk(s, cutoff, listed, entry)
    ensures EntryOk(Step(p, s, e), cutoff, listed, entry)
  {
    if Quiet(e) {
      QuietStepsDelete(p, s, e);
    } else if Creating(e) {
      CreatingStepsCreate(p, s, e);
    } else if WorkerLocal(e) {
      LocalStepsKeepObjects(p, s, e);
    } else {
      RewritingStepsRewrite(p, s, e);
      RewritesOnlyOpen(p, s, e);
    }
  }

  lemma OthersLeaveCleaner(p: Params, s: State, e: Event)
    requires !e.CleanerList? && !e.CleanerDelete?
    ensures Step(p, s, e).cleaner == s.cleaner
  {}

  predicate Shortens(before: CleanerState, after: CleanerState) {
    after.Cleaning? ==>
      && before.Cleaning? && after.cutoff == before.cutoff
      && (after.todo == before.todo || (before.todo != [] && after.todo == before.todo[1..]))
  }

  lemma CleanerShortens(p: Params, s: State, e: Event)
    requires !e.CleanerList?
    ensures Shortens(s.cleaner, Step(p, s, e).cleaner)
  {
    if e.CleanerDelete? {
      assert Step(p, s, e) == CleanerDeleteStep(s, e.ok);
    } else {
      OthersLeaveCleaner(p, s, e);
    }
  }

  lemma TimePasses(p: Params, s: State, e: Event)
    ensures s.now <= Step(p, s, e).now
  {
    if Quiet(e) {
      QuietStepsDelete(p, s, e);
    } else if Creating(e) {
      CreatingStepsCreate(p, s, e);
    } else if WorkerLocal(e) {
      LocalStepsKeepObjects(p, s, e);
    } else {
      RewritingStepsRewrite(p, s, e);
    }
  }

  lemma ListingIsOk(p: Params, s: State, order: seq<Key>)
    requires Inv(p, s) && ListOk(p, s)
    ensures ListOk(p, s.(cleaner := AfterCleanerList(p, s, order)))
  {
    var t := s.(cleaner := AfterCleanerList(p, s, order));
    if t.cleaner != s.cleaner {
      StaleJobsAreStale(s, order, s.now - p.retention);
      forall i | 0 <= i < |t.cleaner.todo|
        ensures EntryOk(t, t.cleaner.cutoff, s.now, t.cleaner.todo[i])
      {
        assert t.cleaner.todo[i] in StaleJobs(order, s.isjs, s.now - p.retention);
      }
    }
  }

  lemma ListStaysOk(p: Params, s: State, e: Event)
    requires Inv(p, s) && ListOk(p, s) && !e.CleanerList?
    ensures ListOk(p, Step(p, s, e))
  {
    CleanerShortens(p, s, e);
    TimePasses(p, s, e);
    if s.cleaner.Cleaning? {
      EntriesStayOk(p, s, e, s.cleaner.cutoff, s.cleaner.todo);
    }
    RestIsOk(p, s, Step(p, s, e));
  }

  lemma RestIsOk(p: Params, s: State, t: State)
    requires ListOk(p, s) && Shortens(s.cleaner, t.cleaner) && s.now <= t.now
    requires s.cleaner.Cleaning? ==> forall i | 0 <= i < |s.cleaner.todo| ::
      EntryOk(t, s.cleaner.cutoff, s.cleaner.cutoff + p.retention, s.cleaner.todo[i])
    ensures ListOk(p, t)
  {}

  lemma EntriesStayOk(p: Params, s: State, e: Event, cutoff: Time, todo: seq<Listed>)
    requires Inv(p, s) && forall i | 0 <= i < |todo| :: EntryOk(s, cutoff, cutoff + p.retention, todo[i])
    ensures var t := Step(p, s, e);
      forall i | 0 <= i < |todo| :: EntryOk(t, cutoff, cutoff + p.retention, todo[i])
  {
    forall i | 0 <= i < |todo|
      ensures EntryOk(Step(p, s, e), cutoff, cutoff + p.retention, todo[i])
    {
      EntryStaysOk(p, s, e, cutoff, cutoff + p.retention, todo[i]);
    }
  }

  lemma StepKeepsList(p: Params, s: State, e: Event)
    requires Inv(p, s) && ListOk(p, s)
    ensures ListOk(p, Step(p, s, e))
  {
    if e.CleanerList? {
      ListingIsOk(p, s, e.order);
    } else {
      ListStaysOk(p, s, e);
    }
  }

  lemma {:induction false} RunKeepsList(p: Params, s: State, events: seq<Event>)
    requires Inv(p, s) && ListOk(p, s)
    ensures ListOk(p, Run(p, s, events))
    decreases |events|
  {
    if events != [] {
      StepKeepsInv(p, s, events[0]);
      StepKeepsList(p, s, events[0]);
      RunKeepsList(p, Step(p, s, events[0]), events[1..]);
    }
  }

  /** Whenever the cleaner is about to delete, what it hits is stale exactly when it is the object that was
      listed. An object that took the name since was created after the list was taken, however terminal it may
      be by now. The retention has to be positive: under none, an object may be listed, replaced and finished
      within one second. */
  lemma {:induction false} CleanerDeletesOnlyStale(p: Params, now: Time, events: seq<Event>)
    requires var s := Run(p, Start(now), events);
      s.cleaner.Cleaning? && s.cleaner.todo != [] && s.cleaner.todo[0].key in s.isjs
    ensures var s := Run(p, Start(now), events);
      var entry := s.cleaner.todo[0];
      var job := s.isjs[entry.key];
      && s.cleaner.cutoff + p.retention <= s.now
      && (job.uid == entry.job.uid ==> Stale(job, s.cleaner.cutoff))
      && (job.uid != entry.job.uid ==> job.uid > entry.job.uid && job.created >= s.cleaner.cutoff + p.retention)
      && (p.retention > 0 ==> (Stale(job, s.cleaner.cutoff) <==> job.uid == entry.job.uid))
  {
    StartKeepsInv(p, now);
    RunKeepsList(p, Start(now), events);
    var s := Run(p, Start(now), events);
    assert EntryOk(s, s.cleaner.cutoff, s.cleaner.cutoff + p.retention, s.cleaner.todo[0]);
  }
}
