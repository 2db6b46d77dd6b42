/** Retrying makes progress: a call clears what it selected, a sent event stays sent, and
    repeated calls drain every due event. */
module RetryTheorems {
  import opened Prelude
  import opened Notifications
  import opened NotificationTheorems

  // ---- What a dispatch may do to an event -----------------------------------------

  /** Left alone, or attempted once more and no longer due. */
  ghost predicate Settled(before: map<EventKey, Event>, after: map<EventKey, Event>, k: EventKey, now: int) {
    if k in before then
      k in after && (after[k] == before[k]
                     || (after[k].attempts > before[k].attempts && !Due(after[k], now) && Due(before[k], now)))
    else k in after ==> !Due(after[k], now)
  }

  lemma AttemptSettles(d: Desk, k: EventKey, group: Option<Group>, now: int, net: Net, j: EventKey)
    requires Attemptable(d.events, k, now)
    ensures Settled(d.events, Attempted(d, k, group, now, net).events, j, now)
  {
    var attempts := (if k in d.events then d.events[k].attempts else 0) + 1;
    BackoffBounds(net(k, attempts), attempts, now);
  }

  lemma SettledTransitive(a: map<EventKey, Event>, b: map<EventKey, Event>, c: map<EventKey, Event>, k: EventKey,
                          now: int)
    requires Settled(a, b, k, now) && Settled(b, c, k, now)
    ensures Settled(a, c, k, now)
  {
  }

  lemma {:induction false} RulesSettle(d: Desk, s: Subject, rules: seq<Rule>, now: int, net: Net, k: EventKey)
    ensures Settled(d.events, ConsideredAll(d, s, rules, now, net).events, k, now)
  {
    hide Attempted, Applies;
    if rules != [] {
      var n := |rules| - 1;
      var before := ConsideredAll(d, s, rules[..n], now, net);
      var j := EventKey(s.anchor, rules[n].id);
      RulesSettle(d, s, rules[..n], now, net, k);
      if Applies(before, s, rules[n]) && Attemptable(before.events, j, now) {
        AttemptSettles(before, j, s.group, now, net, k);
      }
      SettledTransitive(d.events, before.events, ConsideredAll(d, s, rules, now, net).events, k, now);
    }
  }

  lemma DispatchSettles(d: Desk, post: int, now: int, net: Net, k: EventKey)
    ensures Settled(d.events, Dispatched(d, post, now, net).events, k, now)
  {
    if SubjectOf(d, post).Some? { RulesSettle(d, SubjectOf(d, post).value, d.rules, now, net, k); }
  }

  // ---- A retry leaves none of its selected events due -----------------------------

  ghost predicate IsDue(d: Desk, k: EventKey, now: int) { k in d.events && Due(d.events[k], now) }

  lemma GroupClears(d: Desk, post: int, keys: set<EventKey>, now: int, net: Net, k: EventKey)
    ensures var after := RetriedGroup(d, post, keys, now, net);
            && (k in d.events ==> k in after.events)
            && (IsDue(after, k, now) ==> IsDue(d, k, now) && k !in keys)
  {
    DispatchSettles(d, post, now, net, k);
    hide Dispatched;
  }

  lemma {:induction false} GroupsClear(d: Desk, posts: seq<int>, keys: seq<EventKey>, now: int, net: Net, k: EventKey)
    ensures var after := RetriedAll(d, posts, keys, now, net);
            && (k in d.events ==> k in after.events)
            && (IsDue(after, k, now) ==> IsDue(d, k, now) && !(k in keys && k.post in posts))
  {
    hide RetriedGroup, IsDue;
    if posts != [] {
      var n := |posts| - 1;
      assert posts == posts[..n] + [posts[n]];
      GroupsClear(d, posts[..n], keys, now, net, k);
      GroupClears(RetriedAll(d, posts[..n], keys, now, net), posts[n], GroupKeys(keys, posts[n]), now, net, k);
    }
  }

  /** Whatever the push service answers, nothing selected is still due at the same moment,
      and nothing new has become due. */
  lemma RetryClearsSelected(d: Desk, limit: nat, now: int, net: Net)
    requires DistinctEventIds(d)
    ensures DueKeys(Retried(d, limit, now, net), now) <= DueKeys(d, now) - Elements(Selected(d, now, limit))
  {
    hide RetriedAll, DistinctEventIds;
    var keys := Selected(d, now, limit);
    var after := Retried(d, limit, now, net);
    forall k | k in DueKeys(after, now) ensures k in DueKeys(d, now) - Elements(keys) {
      GroupsClear(d, PostsIn(keys), keys, now, net, k);
    }
  }

  lemma {:induction false} DistinctCount<T>(s: seq<T>)
    requires Distinct(s)
    ensures |Elements(s)| == |s|
  {
    if s != [] {
      var n := |s| - 1;
      assert s == s[..n] + [s[n]];
      DistinctCount(s[..n]);
      assert Elements(s) == Elements(s[..n]) + {s[n]};
      assert s[n] !in s[..n];
    }
  }

  /** The number of due events goes down by the number selected. */
  lemma RetryCounts(d: Desk, limit: nat, now: int, net: Net)
    requires DistinctEventIds(d)
    ensures |DueKeys(Retried(d, limit, now, net), now)| + |Selected(d, now, limit)| <= |DueKeys(d, now)|
  {
    var keys := Selected(d, now, limit);
    RetryClearsSelected(d, limit, now, net);
    DistinctCount(keys);
    hide Retried, Selected, DistinctEventIds;
    assert Elements(keys) <= DueKeys(d, now);
    SubsetSize(DueKeys(Retried(d, limit, now, net), now), DueKeys(d, now) - Elements(keys));
  }

  lemma RetriedSafe(d: Desk, limit: nat, now: int, net: Net)
    requires Safe(d)
    ensures DistinctEventIds(d) && Safe(Retried(d, limit, now, net))
  {
    assert DistinctEventIds(d);
    hide Safe, RetriedAll, DistinctEventIds;
    var keys := Selected(d, now, limit);
    RetriedAllSafe(d, PostsIn(keys), keys, now, net);
  }

  /** The desk after one retry call per entry of `nets`, all at the same moment. */
  ghost function RetriedTimes(d: Desk, limit: nat, now: int, nets: seq<Net>): (r: Desk)
    requires Safe(d)
    ensures Safe(r)
  {
    if nets == [] then d
    else
      var before := RetriedTimes(d, limit, now, nets[..|nets| - 1]);
      RetriedSafe(before, limit, now, nets[|nets| - 1]);
      Retried(before, limit, now, nets[|nets| - 1])
  }

  lemma OneRetryLeft(d: Desk, limit: nat, now: int, net: Net)
    requires Safe(d)
    ensures DistinctEventIds(d)
    ensures |DueKeys(Retried(d, limit, now, net), now)| <= Max(0, |DueKeys(d, now)| - limit)
  {
    assert DistinctEventIds(d);
    hide Safe, Retried, DistinctEventIds, DueKeys;
    RetryCounts(d, limit, now, net);
  }

  /** Each call takes its full limit off the due events: enough calls leave none. */
  lemma {:induction false} RetryDrains(d: Desk, limit: nat, now: int, nets: seq<Net>)
    requires Safe(d)
    ensures |DueKeys(RetriedTimes(d, limit, now, nets), now)| <= Max(0, |DueKeys(d, now)| - limit * |nets|)
  {
    hide Safe, Retried, DistinctEventIds, DueKeys;
    if nets != [] {
      var n := |nets| - 1;
      RetryDrains(d, limit, now, nets[..n]);
      OneRetryLeft(RetriedTimes(d, limit, now, nets[..n]), limit, now, nets[n]);
      Takeaway(|DueKeys(d, now)|, limit, n);
    }
  }

  lemma Takeaway(count: int, limit: nat, n: nat)
    ensures Max(0, Max(0, count - limit * n) - limit) == Max(0, count - limit * (n + 1))
  {
  }

  // ---- Sent is absorbing ----------------------------------------------------------

  ghost predicate KeepsSent(d: Desk, after: Desk) {
    forall k :: k in d.events && d.events[k].status == Sent ==> k in after.events && after.events[k] == d.events[k]
  }

  lemma DispatchKeepsSent(d: Desk, post: int, now: int, net: Net)
    ensures KeepsSent(d, Dispatched(d, post, now, net))
  {
    forall k | k in d.events && d.events[k].status == Sent
      ensures k in Dispatched(d, post, now, net).events && Dispatched(d, post, now, net).events[k] == d.events[k]
    {
      DispatchSettles(d, post, now, net, k);
    }
  }

  lemma GroupKeepsSent(d: Desk, post: int, keys: set<EventKey>, now: int, net: Net)
    requires EventsOk(d)
    ensures KeepsSent(d, RetriedGroup(d, post, keys, now, net))
  {
    DispatchKeepsSent(d, post, now, net);
    hide Dispatched, DistinctEventIds;
    forall k | k in d.events && d.events[k].status == Sent
      ensures k in RetriedGroup(d, post, keys, now, net).events
      ensures RetriedGroup(d, post, keys, now, net).events[k] == d.events[k]
    {
      assert EventOk(d.events[k]);
    }
  }

  lemma {:induction false} RetryKeepsSent(d: Desk, posts: seq<int>, keys: seq<EventKey>, now: int, net: Net)
    requires Safe(d)
    ensures KeepsSent(d, RetriedAll(d, posts, keys, now, net))
  {
    hide RetriedGroup, EventsOk, LogOk, Barrier, Growing;
    if posts != [] {
      var n := |posts| - 1;
      var before := RetriedAll(d, posts[..n], keys, now, net);
      RetryKeepsSent(d, posts[..n], keys, now, net);
      RetriedAllSafe(d, posts[..n], keys, now, net);
      GroupKeepsSent(before, posts[n], GroupKeys(keys, posts[n]), now, net);
    }
  }

  lemma StepKeepsSent(d: Desk, s: Step)
    requires Safe(d) && Enabled(d, s)
    ensures KeepsSent(d, Next(d, s))
  {
    hide Safe, Dispatched, RetriedAll, Selected;
    match s
    case Arrive(_, _) =>
    case Analyse(post, signal, now, net) => DispatchKeepsSent(d.(signals := d.signals[post := signal]), post, now, net);
    case Redispatch(post, now, net) => DispatchKeepsSent(d, post, now, net);
    case Retry(limit, now, net) => RetryKeepsSent(d, PostsIn(Selected(d, now, limit)), Selected(d, now, limit), now,
      net);
    case Configure(_, _) =>
  }

  /** Over any run a sent event never changes again. */
  lemma {:induction false} SentIsAbsorbing(states: seq<Desk>, steps: seq<Step>, i: nat, j: nat, k: EventKey)
    requires IsRun(states, steps) && i <= j < |states|
    requires k in states[i].events && states[i].events[k].status == Sent
    ensures k in states[j].events && states[j].events[k] == states[i].events[k]
  {
    hide Safe, Next, Enabled;
    if i < j {
      SentIsAbsorbing(states, steps, i, j - 1, k);
      EveryRunIsSafe(states, steps, j - 1);
      StepKeepsSent(states[j - 1], steps[j - 1]);
    }
  }
}
