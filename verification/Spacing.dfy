/** When retries are spaced: the guard of the source, with and without the time stamp it looks for. */
module Spacing {
  import opened Cluster
  import opened Protocol
  import opened Steps
  import opened RetrySpacing
  import Scenarios

  /** In the run, retries of every name that is not in a namespace with manual scans are two hours apart. */
  ghost predicate RetriesSpaced(p: Params, now: Time, events: seq<Event>) {
    var s := Run(p, Start(now), events);
    forall k | k in s.retried && s.manual[k.ns] == 0 :: SpacedOut(s.retried[k])
  }

  predicate ByConfigsOnly(events: seq<Event>) {
    forall i | 0 <= i < |events| :: !events[i].ManualScan?
  }

  lemma {:induction false} NothingByHand(p: Params, s: State, events: seq<Event>)
    requires ByConfigsOnly(events)
    ensures Run(p, s, events).manual == s.manual
    decreases |events|
  {
    if events != [] {
      OnlyManualScansCount(p, s, events[0]);
      NothingByHand(p, Step(p, s, events[0]), events[1..]);
    }
  }

  lemma Joined(first: seq<Event>, second: seq<Event>)
    requires ByConfigsOnly(first) && ByConfigsOnly(second)
    ensures ByConfigsOnly(first + second)
  {}

  const NAMESPACE := "korsair-system"
  const IMAGE := "nginx:1.27"

  /** The run with two retries in one second. */
  function TwoRetries(p: Params): seq<Event> {
    Scenarios.FirstFailure(p, NAMESPACE, IMAGE, "")
    + Scenarios.OneRetry(p, NAMESPACE, IMAGE, "") + Scenarios.OneRetry(p, NAMESPACE, IMAGE, "")
  }

  lemma TwoRetriesByConfigs(p: Params)
    ensures ByConfigsOnly(TwoRetries(p))
  {
    var first, retry := Scenarios.FirstFailure(p, NAMESPACE, IMAGE, ""), Scenarios.OneRetry(p, NAMESPACE, IMAGE, "");
    Joined(first, retry);
    Joined(first + retry, retry);
  }

  lemma TooClose(s: State, k: Key, at: Time)
    requires s.retried == map[k := [at, at]] && s.manual[k.ns] == 0
    ensures k in s.retried && !SpacedOut(s.retried[k])
  {
    assert s.retried[k][1] - s.retried[k][0] < FAILED_RETRY_INTERVAL;
  }

  lemma SomeRunIsNotSpaced(p: Params)
    requires !p.stampFailures
    ensures !RetriesSpaced(p, 0, TwoRetries(p))
  {
    TwoRetriesByConfigs(p);
    NothingByHand(p, Start(0), TwoRetries(p));
    Scenarios.RetriesAreNotSpaced(p, 0, NAMESPACE, IMAGE, "");
    TooClose(Run(p, Start(0), TwoRetries(p)), Scenarios.ScheduledKey(p, NAMESPACE, IMAGE, ""), 0);
  }

  /** The exact condition: in all runs retries are two hours apart where nobody scans by hand, if and only if a
      failure sets the completion time, which in the source it does not. */
  lemma {:induction false} SpacedIffStamped(p: Params)
    ensures (forall now, events :: RetriesSpaced(p, now, events)) <==> p.stampFailures
  {
    if p.stampFailures {
      forall now, events
        ensures RetriesSpaced(p, now, events)
      {
        var s := Run(p, Start(now), events);
        forall k | k in s.retried && s.manual[k.ns] == 0
          ensures SpacedOut(s.retried[k])
        {
          StampedRetriesAreSpaced(p, now, events, k);
        }
      }
    } else {
      SomeRunIsNotSpaced(p);
    }
  }
}
