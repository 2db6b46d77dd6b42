/** Safety of the notification desk over every run, and why retrying drains. */
module NotificationTheorems {
  import opened Prelude
  import opened Notifications

  // ---- Backoff --------------------------------------------------------------------

  /** A rescheduled attempt is 60 to 86400 seconds later, a Retry-After within the cap is
      honoured, and the eighth failure is final. */
  lemma BackoffBounds(o: Outcome, attempts: nat, now: int)
    requires attempts >= 1
    ensures NextAttempt(o, attempts, now).None? <==> attempts >= MAX_ATTEMPTS
    ensures attempts < MAX_ATTEMPTS ==>
              && now + RETRY_BASE <= NextAttempt(o, attempts, now).value <= now + RETRY_AFTER_MAX
              && now + RetryAfter(o) <= NextAttempt(o, attempts, now).value
  {
    DoubledPositive(attempts - 1);
  }

  /** Without a Retry-After the delay starts at a minute, doubles and ends at an hour. */
  lemma BackoffDoubles(attempts: nat, now: int)
    requires 1 <= attempts < MAX_ATTEMPTS - 1
    ensures NextAttempt(Refused(None), 1, now) == Some(now + RETRY_BASE)
    ensures var delay := NextAttempt(Refused(None), attempts, now).value - now;
            NextAttempt(Refused(None), attempts + 1, now) == Some(now + Min(2 * delay, RETRY_MAX))
  {
    DoubledPositive(attempts - 1);
    assert Doubled(attempts) == 2 * Doubled(attempts - 1);
  }

  /** Whatever passes `r` passes `wider`; an empty list of a rule allows everything. */
  ghost predicate Widens(wider: Rule, r: Rule) {
    && (r.enabled ==> wider.enabled)
    && (wider.requireAsset ==> r.requireAsset)
    && (wider.markets == [] || (r.markets != [] && forall m :: m in r.markets ==> m in wider.markets))
    && (wider.stances == [] || (r.stances != [] && forall x :: x in r.stances ==> x in wider.stances))
    && wider.minRank <= r.minRank
  }

  /** Narrowing a rule never adds a notification. */
  lemma NarrowerRuleNotifiesLess(s: Signal, wider: Rule, r: Rule)
    requires Widens(wider, r) && ShouldNotify(s, r)
    ensures ShouldNotify(s, wider)
  {
    if wider.markets != [] {
      var m :| m in s.markets && m in r.markets;
      assert m in wider.markets;
    }
  }

  lemma {:induction false} DoubledPositive(n: nat)
    ensures Doubled(n) >= 1
  {
    if n > 0 { DoubledPositive(n - 1); }
  }

  // ---- The log mirrors the events -------------------------------------------------

  /** Calls of the push client for one event, and those it took. */
  function Calls(log: seq<Publish>, k: EventKey): nat {
    if log == [] then 0 else Calls(log[..|log| - 1], k) + if log[|log| - 1].key == k then 1 else 0
  }

  function Successes(log: seq<Publish>, k: EventKey): nat {
    if log == [] then 0
    else Successes(log[..|log| - 1], k) + if log[|log| - 1].key == k && log[|log| - 1].ok then 1 else 0
  }

  ghost predicate EventOk(e: Event) {
    && 1 <= e.attempts <= MAX_ATTEMPTS
    && (e.status == Sent ==> e.nextAt.None?)
    && (e.nextAt.Some? ==> e.attempts < MAX_ATTEMPTS)
  }

  ghost predicate EventsOk(d: Desk) {
    DistinctEventIds(d) && forall k :: k in d.events ==> EventOk(d.events[k])
  }

  ghost predicate Mirrors(d: Desk, k: EventKey) {
    && Calls(d.log, k) == (if k in d.events then d.events[k].attempts else 0)
    && Successes(d.log, k) == (if k in d.events && d.events[k].status == Sent then 1 else 0)
  }

  ghost predicate LogOk(d: Desk) {
    forall k :: Mirrors(d, k)
  }

  // ---- The batch barrier ----------------------------------------------------------

  /** A published batch was complete: all its posts, of the agreed number, had their
      signals, and the notification is filed under the lowest of them. */
  ghost predicate WasComplete(d: Desk, g: Group, post: int) {
    && IsLowest(post, g.members)
    && forall m :: m in g.members ==>
         && m in d.signals && m in d.posts
         && d.posts[m].subscription == Some(g.subscription) && d.posts[m].batchId == Some(g.batchId)
         && d.posts[m].batchSize == Some(|g.members|)
  }

  ghost predicate BarrierAt(d: Desk, p: Publish) {
    if p.group.Some? then WasComplete(d, p.group.value, p.key.post)
    else p.key.post in d.signals && !Batched(d, p.key.post)
  }

  ghost predicate Barrier(d: Desk) {
    forall i :: 0 <= i < |d.log| ==> BarrierAt(d, d.log[i])
  }

  predicate SameBatch(x: Publish, y: Publish) {
    x.group.Some? && y.group.Some?
    && x.group.value.subscription == y.group.value.subscription && x.group.value.batchId == y.group.value.batchId
  }

  /** Later publishes of a batch saw at least the posts earlier ones saw. */
  ghost predicate Growing(d: Desk) {
    && (forall i, j :: 0 <= i < j < |d.log| && SameBatch(d.log[i], d.log[j]) ==>
          d.log[i].group.value.members <= d.log[j].group.value.members)
  }

  ghost predicate Safe(d: Desk) {
    EventsOk(d) && LogOk(d) && Barrier(d) && Growing(d)
  }

  // ---- One publish ----------------------------------------------------------------

  /** A subject that may be published about. */
  ghost predicate Speakable(d: Desk, s: Subject) {
    && s.anchor in d.signals
    && (s.group.None? ==> !Batched(d, s.anchor))
    && (s.group.Some? ==>
          && WasComplete(d, s.group.value, s.anchor)
          && s.group.value.members == Members(d.posts, s.group.value.subscription, s.group.value.batchId))
  }

  lemma AttemptedEventsOk(d: Desk, k: EventKey, group: Option<Group>, now: int, net: Net)
    requires EventsOk(d) && Attemptable(d.events, k, now)
    ensures EventsOk(Attempted(d, k, group, now, net))
  {
    var before := if k in d.events then d.events[k] else Event(d.nextId, Failed, 0, None);
    assert k in d.events ==> EventOk(d.events[k]);
    BackoffBounds(net(k, before.attempts + 1), before.attempts + 1, now);
    hide NextAttempt, RetryAfter;
  }

  lemma AttemptedLogOk(d: Desk, k: EventKey, group: Option<Group>, now: int, net: Net)
    requires LogOk(d) && Attemptable(d.events, k, now)
    ensures LogOk(Attempted(d, k, group, now, net))
  {
    var after := Attempted(d, k, group, now, net);
    assert after.log[..|after.log| - 1] == d.log;
    forall j ensures Mirrors(after, j) {
      assert Mirrors(d, j);
    }
  }

  lemma AttemptedBarrier(d: Desk, s: Subject, k: EventKey, now: int, net: Net)
    requires Barrier(d) && Growing(d) && Speakable(d, s) && k.post == s.anchor
    ensures Barrier(Attempted(d, k, s.group, now, net)) && Growing(Attempted(d, k, s.group, now, net))
  {
    var after := Attempted(d, k, s.group, now, net);
    var n := |d.log|;
    forall i | 0 <= i < n ensures BarrierAt(after, after.log[i]) {
      assert BarrierAt(d, d.log[i]);
    }
    assert BarrierAt(after, after.log[n]);
    forall i | 0 <= i < n && SameBatch(after.log[i], after.log[n])
      ensures after.log[i].group.value.members <= after.log[n].group.value.members
    {
      assert BarrierAt(d, d.log[i]);
      SeenAreMembers(d, d.log[i]);
    }
  }

  lemma SeenAreMembers(d: Desk, p: Publish)
    requires BarrierAt(d, p) && p.group.Some?
    ensures var g := p.group.value;
            g.members <= Members(d.posts, g.subscription, g.batchId)
  {
    var g := p.group.value;
    forall m | m in g.members ensures m in Members(d.posts, g.subscription, g.batchId) {}
  }

  lemma ConsideredSafe(d: Desk, s: Subject, r: Rule, now: int, net: Net)
    requires Safe(d) && Speakable(d, s)
    ensures Safe(Considered(d, s, r, now, net)) && Speakable(Considered(d, s, r, now, net), s)
  {
    hide EventsOk, LogOk, Barrier, Growing;
    var k := EventKey(s.anchor, r.id);
    if Applies(d, s, r) && Attemptable(d.events, k, now) {
      AttemptedEventsOk(d, k, s.group, now, net);
      AttemptedLogOk(d, k, s.group, now, net);
      AttemptedBarrier(d, s, k, now, net);
    }
  }

  lemma {:induction false} ConsideredAllSafe(d: Desk, s: Subject, rules: seq<Rule>, now: int, net: Net)
    requires Safe(d) && Speakable(d, s)
    ensures Safe(ConsideredAll(d, s, rules, now, net)) && Speakable(ConsideredAll(d, s, rules, now, net), s)
  {
    hide Safe, Considered, Speakable;
    if rules != [] {
      var n := |rules| - 1;
      ConsideredAllSafe(d, s, rules[..n], now, net);
      ConsideredSafe(ConsideredAll(d, s, rules[..n], now, net), s, rules[n], now, net);
    }
  }

  lemma SubjectSpeakable(d: Desk, post: int)
    requires post in d.signals && SubjectOf(d, post).Some?
    ensures Speakable(d, SubjectOf(d, post).value)
  {
    if Batched(d, post) {
      var g := GroupOf(d, post);
      assert post in g.members;
      assert IsLowest(Lowest(g.members), g.members);
    }
  }

  lemma DispatchSafe(d: Desk, post: int, now: int, net: Net)
    requires Safe(d) && post in d.signals
    ensures Safe(Dispatched(d, post, now, net))
  {
    hide Safe, Speakable;
    if SubjectOf(d, post).Some? {
      SubjectSpeakable(d, post);
      ConsideredAllSafe(d, SubjectOf(d, post).value, d.rules, now, net);
    }
  }

  // ---- Retry ----------------------------------------------------------------------

  /** Nothing is published; events are at most taken out of the queue, posts and signals at
      most added, none of them under an old signal. */
  ghost predicate Quiet(d: Desk, after: Desk) {
    && after.log == d.log && after.nextId == d.nextId
    && after.events.Keys == d.events.Keys
    && (forall k :: k in d.events ==>
          after.events[k] == d.events[k] || after.events[k] == d.events[k].(nextAt := None))
    && d.signals.Keys <= after.signals.Keys
    && (forall m :: m in d.posts ==> m in after.posts && after.posts[m] == d.posts[m])
    && (forall m :: m in d.signals && m in after.posts ==> m in d.posts)
  }

  lemma QuietSafe(d: Desk, after: Desk)
    requires Safe(d) && Quiet(d, after)
    ensures Safe(after)
  {
    forall k ensures Mirrors(after, k) { assert Mirrors(d, k); }
    forall k | k in after.events ensures EventOk(after.events[k]) { assert EventOk(d.events[k]); }
    forall i | 0 <= i < |d.log| ensures BarrierAt(after, d.log[i]) { assert BarrierAt(d, d.log[i]); }
  }

  lemma RetriedGroupSafe(d: Desk, post: int, keys: set<EventKey>, now: int, net: Net)
    requires Safe(d)
    ensures Safe(RetriedGroup(d, post, keys, now, net))
  {
    hide Safe, Dispatched;
    if post !in d.signals {
      QuietSafe(d, d.(events := Stopped(d.events, keys)));
    } else {
      var after := Dispatched(d, post, now, net);
      DispatchSafe(d, post, now, net);
      QuietSafe(after, after.(events := Stopped(after.events, Untouched(d.events, after.events, keys))));
    }
  }

  lemma {:induction false} RetriedAllSafe(d: Desk, posts: seq<int>, keys: seq<EventKey>, now: int, net: Net)
    requires Safe(d)
    ensures Safe(RetriedAll(d, posts, keys, now, net))
  {
    hide Safe, RetriedGroup;
    if posts != [] {
      var n := |posts| - 1;
      RetriedAllSafe(d, posts[..n], keys, now, net);
      RetriedGroupSafe(RetriedAll(d, posts[..n], keys, now, net), posts[n], GroupKeys(keys, posts[n]), now, net);
    }
  }

  // ---- Runs -----------------------------------------------------------------------

  datatype Step =
    | Arrive(post: int, raw: Raw)
    | Analyse(post: int, signal: Signal, now: int, net: Net)
    | Redispatch(post: int, now: int, net: Net)
    | Retry(limit: nat, now: int, net: Net)
    | Configure(rules: seq<Rule>, profiled: set<int>)

  /** Posts get new ids; a post is analysed once, when its signal is dispatched. */
  ghost predicate Enabled(d: Desk, s: Step) {
    match s
    case Arrive(post, _) => post !in d.posts
    case Analyse(post, _, _, _) => post in d.posts && post !in d.signals
    case Redispatch(post, _, _) => post in d.signals
    case Retry(_, _, _) => DistinctEventIds(d)
    case Configure(_, _) => true
  }

  ghost function Next(d: Desk, s: Step): Desk
    requires Enabled(d, s)
  {
    match s
    case Arrive(post, raw) => d.(posts := d.posts[post := raw])
    case Analyse(post, signal, now, net) =>
      Dispatched(d.(signals := d.signals[post := signal]), post, now, net)
    case Redispatch(post, now, net) => Dispatched(d, post, now, net)
    case Retry(limit, now, net) => Retried(d, limit, now, net)
    case Configure(rules, profiled) => d.(rules := rules, profiled := profiled)
  }

  /** Signals refer to stored posts. */
  ghost predicate PostsKnown(d: Desk) { d.signals.Keys <= d.posts.Keys }

  lemma {:induction false} DispatchFrame(d: Desk, s: Subject, rules: seq<Rule>, now: int, net: Net)
    ensures var after := ConsideredAll(d, s, rules, now, net);
            after == d.(events := after.events, nextId := after.nextId, log := after.log)
  {
    if rules != [] { DispatchFrame(d, s, rules[..|rules| - 1], now, net); }
  }

  lemma DispatchedFrame(d: Desk, post: int, now: int, net: Net)
    ensures var after := Dispatched(d, post, now, net);
            after == d.(events := after.events, nextId := after.nextId, log := after.log)
  {
    if SubjectOf(d, post).Some? { DispatchFrame(d, SubjectOf(d, post).value, d.rules, now, net); }
  }

  lemma {:induction false} RetryFrame(d: Desk, posts: seq<int>, keys: seq<EventKey>, now: int, net: Net)
    ensures var after := RetriedAll(d, posts, keys, now, net);
            after == d.(events := after.events, nextId := after.nextId, log := after.log)
  {
    hide Dispatched;
    if posts != [] {
      var n := |posts| - 1;
      RetryFrame(d, posts[..n], keys, now, net);
      DispatchedFrame(RetriedAll(d, posts[..n], keys, now, net), posts[n], now, net);
    }
  }

  lemma StepSafe(d: Desk, s: Step)
    requires Safe(d) && PostsKnown(d) && Enabled(d, s)
    ensures Safe(Next(d, s)) && PostsKnown(Next(d, s))
  {
    hide Safe, Dispatched, RetriedAll, DistinctEventIds;
    match s
    case Arrive(post, raw) => QuietSafe(d, Next(d, s));
    case Analyse(post, signal, now, net) =>
      QuietSafe(d, d.(signals := d.signals[post := signal]));
      DispatchSafe(d.(signals := d.signals[post := signal]), post, now, net);
      DispatchedFrame(d.(signals := d.signals[post := signal]), post, now, net);
    case Redispatch(post, now, net) =>
      DispatchSafe(d, post, now, net);
      DispatchedFrame(d, post, now, net);
    case Retry(limit, now, net) =>
      var keys := Selected(d, now, limit);
      RetriedAllSafe(d, PostsIn(keys), keys, now, net);
      RetryFrame(d, PostsIn(keys), keys, now, net);
    case Configure(_, _) => QuietSafe(d, Next(d, s));
  }

  const EMPTY_DESK := Desk(map[], map[], [], {}, map[], 0, [])

  /** `states` is a run of the desk from the empty one, one enabled step at a time. */
  ghost predicate IsRun(states: seq<Desk>, steps: seq<Step>) {
    && |states| == |steps| + 1 && states[0] == EMPTY_DESK
    && forall i :: 0 <= i < |steps| ==> Enabled(states[i], steps[i]) && states[i + 1] == Next(states[i], steps[i])
  }

  /** Every state of every run is safe. */
  lemma {:induction false} EveryRunIsSafe(states: seq<Desk>, steps: seq<Step>, i: nat)
    requires IsRun(states, steps) && i < |states|
    ensures Safe(states[i]) && PostsKnown(states[i])
  {
    hide Safe, Next, Enabled;
    if i == 0 {
      EmptySafe();
    } else {
      EveryRunIsSafe(states, steps, i - 1);
      StepSafe(states[i - 1], steps[i - 1]);
    }
  }

  lemma EmptySafe()
    ensures Safe(EMPTY_DESK)
  {
    forall k ensures Mirrors(EMPTY_DESK, k) {}
  }

  // ---- What safety means ----------------------------------------------------------

  /** Two publishes of one batch speak for the same posts under the same anchor. */
  lemma BatchHasOneAnchor(d: Desk, i: nat, j: nat)
    requires Barrier(d) && Growing(d) && i < j < |d.log| && SameBatch(d.log[i], d.log[j])
    ensures d.log[i].group == d.log[j].group && d.log[i].key.post == d.log[j].key.post
  {
    var x, y := d.log[i], d.log[j];
    assert BarrierAt(d, x) && BarrierAt(d, y);
    var m := x.key.post;
    assert m in x.group.value.members && m in y.group.value.members;
    SameSize(x.group.value.members, y.group.value.members);
  }

  lemma {:induction false} TwoSuccesses(log: seq<Publish>, k: EventKey, i: nat, j: nat)
    requires i < j < |log| && log[i].key == k && log[j].key == k && log[i].ok && log[j].ok
    ensures Successes(log, k) >= 2
  {
    var n := |log| - 1;
    if j < n { TwoSuccesses(log[..n], k, i, j); }
    else { OneSuccess(log[..n], k, i); }
  }

  lemma {:induction false} OneSuccess(log: seq<Publish>, k: EventKey, i: nat)
    requires i < |log| && log[i].key == k && log[i].ok
    ensures Successes(log, k) >= 1
  {
    if i < |log| - 1 { OneSuccess(log[..|log| - 1], k, i); }
  }

  /** Over any order of arrivals, analyses and retries: each (batch, rule) and each
      (signal, rule) is published successfully at most once. */
  lemma AtMostOneSuccess(d: Desk, i: nat, j: nat)
    requires Safe(d) && i < j < |d.log|
    requires d.log[i].key.rule == d.log[j].key.rule
    requires SameBatch(d.log[i], d.log[j]) || d.log[i].key.post == d.log[j].key.post
    ensures !(d.log[i].ok && d.log[j].ok)
  {
    if SameBatch(d.log[i], d.log[j]) { BatchHasOneAnchor(d, i, j); }
    var k := d.log[i].key;
    assert Mirrors(d, k);
    if d.log[i].ok && d.log[j].ok { TwoSuccesses(d.log, k, i, j); }
  }

  /** Nothing about a batched trade post is published before every post of the announced
      number has its signal; and no event is attempted more than eight times. */
  lemma BarrierHolds(d: Desk, i: nat)
    requires Safe(d) && i < |d.log|
    ensures var p := d.log[i];
            && (Batched(d, p.key.post) ==>
                  p.group.Some?
                  && d.posts[p.key.post].batchSize == Some(|p.group.value.members|)
                  && (forall m :: m in p.group.value.members ==> m in d.signals)
                  && IsLowest(p.key.post, p.group.value.members))
            && 1 <= Calls(d.log, p.key) <= MAX_ATTEMPTS
  {
    assert BarrierAt(d, d.log[i]);
    var k := d.log[i].key;
    assert Mirrors(d, k);
    OneCall(d.log, k, i);
  }

  lemma {:induction false} OneCall(log: seq<Publish>, k: EventKey, i: nat)
    requires i < |log| && log[i].key == k
    ensures Calls(log, k) >= 1
  {
    if i < |log| - 1 { OneCall(log[..|log| - 1], k, i); }
  }

  // ---- Nobody is forgotten --------------------------------------------------------

  ghost predicate DistinctRules(rules: seq<Rule>) {
    forall i, j :: 0 <= i < j < |rules| ==> rules[i].id != rules[j].id
  }

  ghost predicate Reached(before: Desk, after: Desk, k: EventKey, net: Net) {
    var attempts := (if k in before.events then before.events[k].attempts else 0) + 1;
    k in after.events && after.events[k].attempts == attempts
      && (after.events[k].status == Sent <==> net(k, attempts).Taken?)
  }

  lemma {:induction false} OtherEventsKept(d: Desk, s: Subject, rules: seq<Rule>, now: int, net: Net, k: EventKey)
    requires forall r :: r in rules ==> r.id != k.rule
    ensures var after := ConsideredAll(d, s, rules, now, net);
            At(after.events, k) == At(d.events, k)
  {
    if rules != [] {
      var n := |rules| - 1;
      assert rules == rules[..n] + [rules[n]];
      OtherEventsKept(d, s, rules[..n], now, net, k);
    }
  }

  function At(events: map<EventKey, Event>, k: EventKey): Option<Event> {
    if k in events then Some(events[k]) else None
  }

  /** A dispatch attempts every rule that applies and has no sent, exhausted or waiting
      event exactly once, and leaves every other rule's event alone. */
  lemma {:induction false} EveryRuleIsConsidered(d: Desk, s: Subject, rules: seq<Rule>, now: int, net: Net, i: nat)
    requires DistinctRules(rules) && i < |rules|
    ensures var k, after := EventKey(s.anchor, rules[i].id), ConsideredAll(d, s, rules, now, net);
            if Applies(d, s, rules[i]) && Attemptable(d.events, k, now) then Reached(d, after, k, net)
            else At(after.events, k) == At(d.events, k)
  {
    hide Applies;
    var n := |rules| - 1;
    var k, before := EventKey(s.anchor, rules[i].id), ConsideredAll(d, s, rules[..n], now, net);
    if i == n {
      OtherEventsKept(d, s, rules[..n], now, net, k);
      AppliesStill(d, s, rules[..n], now, net, rules[n]);
    } else {
      EveryRuleIsConsidered(d, s, rules[..n], now, net, i);
      assert rules[i].id != rules[n].id;
    }
  }

  lemma AppliesStill(d: Desk, s: Subject, rules: seq<Rule>, now: int, net: Net, r: Rule)
    ensures Applies(ConsideredAll(d, s, rules, now, net), s, r) <==> Applies(d, s, r)
  {
    DispatchFrame(d, s, rules, now, net);
  }

  /** Whichever member of a complete batch is dispatched, the same notification goes out
      under the same anchor: the order of analysis does not matter. */
  lemma AnyMemberSpeaksForAll(d: Desk, p: int, q: int)
    requires Batched(d, p) && Batched(d, q) && Ready(d, p)
    requires d.posts[p].subscription == d.posts[q].subscription && d.posts[p].batchId == d.posts[q].batchId
    ensures Ready(d, q) && SubjectOf(d, p) == SubjectOf(d, q)
    ensures SubjectOf(d, p).Some? <==> Tellable(d, GroupOf(d, p))
  {
    assert q in GroupOf(d, p).members;
  }

  // ---- The last member releases the batch -----------------------------------------

  lemma {:induction false} SomeCall(log: seq<Publish>, k: EventKey) returns (i: nat)
    requires Calls(log, k) >= 1
    ensures i < |log| && log[i].key == k
  {
    var n := |log| - 1;
    i := n;
    if log[n].key != k { i := SomeCall(log[..n], k); }
  }

  /** `post` belongs to a batch of trade posts that is all there and all analysed. */
  ghost predicate LastOfBatch(d: Desk, post: int) {
    && Batched(d, post) && Ready(d, post)
    && forall m :: m in GroupOf(d, post).members ==> m in d.posts && d.posts[m].trade
  }

  lemma NotYetPublished(d: Desk, post: int, signal: Signal, k: EventKey)
    requires Safe(d) && post !in d.signals && LastOfBatch(d.(signals := d.signals[post := signal]), post)
    requires IsLowest(k.post, GroupOf(d.(signals := d.signals[post := signal]), post).members)
    ensures k !in d.events
  {
    if k in d.events {
      var g := GroupOf(d.(signals := d.signals[post := signal]), post);
      assert post in g.members;
      assert EventOk(d.events[k]) && Mirrors(d, k);
      var i := SomeCall(d.log, k);
      EarlierPublish(d, d.log[i], g);
      assert false;
    }
  }

  /** A publish under a member of a batch that is complete now saw all of it. */
  lemma EarlierPublish(d: Desk, p: Publish, g: Group)
    requires BarrierAt(d, p) && p.key.post in g.members
    requires g.members == Members(d.posts, g.subscription, g.batchId)
    requires forall m :: m in g.members ==>
               m in d.posts && d.posts[m].trade && d.posts[m].batchSize == Some(|g.members|)
    ensures forall m :: m in g.members ==> m in d.signals
  {
    var m := p.key.post;
    assert Batched(d, m);
    var h := p.group.value;
    SeenAreMembers(d, p);
    assert m in h.members && h.subscription == g.subscription && h.batchId == g.batchId;
    SameSize(h.members, g.members);
  }

  /** Over any run: analysing the last member of a batch attempts every rule that applies,
      under the lowest post, for the first time. */
  lemma LastAnalysisReleases(states: seq<Desk>, steps: seq<Step>, i: nat, j: nat)
    requires IsRun(states, steps) && i < |steps| && steps[i].Analyse?
    requires var d := states[i].(signals := states[i].signals[steps[i].post := steps[i].signal]);
             && LastOfBatch(d, steps[i].post) && Tellable(d, GroupOf(d, steps[i].post))
             && DistinctRules(d.rules) && j < |d.rules|
             && Applies(d, SubjectOf(d, steps[i].post).value, d.rules[j])
    ensures var d := states[i].(signals := states[i].signals[steps[i].post := steps[i].signal]);
            var k := EventKey(Lowest(GroupOf(d, steps[i].post).members), d.rules[j].id);
            && k !in states[i].events && k in states[i + 1].events && states[i + 1].events[k].attempts == 1
            && (states[i + 1].events[k].status == Sent <==> steps[i].net(k, 1).Taken?)
  {
    var before, post := states[i], steps[i].post;
    var d := before.(signals := before.signals[post := steps[i].signal]);
    assert Enabled(before, steps[i]);
    EveryRunIsSafe(states, steps, i);
    var s := SubjectOf(d, post).value;
    assert post in GroupOf(d, post).members;
    var k := EventKey(s.anchor, d.rules[j].id);
    NotYetPublished(before, post, steps[i].signal, k);
    EveryRuleIsConsidered(d, s, d.rules, steps[i].now, steps[i].net, j);
    hide Safe, Applies, Tellable, ConsideredAll;
  }
}
