/** backend/app/services/notifications.py: one notification per (signal, rule), held back
    until a trade batch is complete and retried with backoff. A signal is named by its raw
    post, of which it is the only one. */
module Notifications {
  import opened Prelude
  import TradeStore

  const MAX_ATTEMPTS := 8
  const RETRY_BASE := 60
  const RETRY_MAX := 3600
  const RETRY_AFTER_MAX := 86400

  // ---- Tables ---------------------------------------------------------------------

  type BatchId = TradeStore.BatchId

  /** What is read of the parsed trade payload of a post. */
  datatype Payload = Payload(batchId: Option<BatchId>, batchSize: Option<int>, changes: seq<TradeStore.PositionChange>)

  datatype Raw = Raw(trade: bool, subscription: Option<int>, batchId: Option<BatchId>, batchSize: Option<int>,
                     payload: Option<Payload>)

  datatype Signal = Signal(subscription: Option<int>, actionable: bool, markets: seq<int>, stance: int, rank: int)

  datatype Rule = Rule(id: int, subscription: Option<int>, enabled: bool, addressed: bool, requireAsset: bool,
                       markets: seq<int>, stances: seq<int>, minRank: int)

  datatype Status = Failed | Sent

  datatype EventKey = EventKey(post: int, rule: int)

  datatype Event = Event(id: nat, status: Status, attempts: nat, nextAt: Option<int>)

  /** The members of a complete batch at the moment it was published. */
  datatype Group = Group(subscription: int, batchId: BatchId, members: set<int>)

  /** One call of the push client. */
  datatype Publish = Publish(key: EventKey, ok: bool, group: Option<Group>)

  datatype Desk = Desk(posts: map<int, Raw>, signals: map<int, Signal>, rules: seq<Rule>, profiled: set<int>,
                       events: map<EventKey, Event>, nextId: nat, log: seq<Publish>)

  /** What the push service does with the n-th attempt of an event: it takes it, or the
      client raises, possibly with a Retry-After in seconds. */
  datatype Outcome = Taken | Refused(retryAfter: Option<int>)

  type Net = (EventKey, nat) -> Outcome

  // ---- Eligibility ----------------------------------------------------------------

  predicate ShouldNotify(s: Signal, r: Rule) {
    && r.enabled && s.actionable
    && !(r.requireAsset && s.markets == [])
    && (r.markets == [] || exists m :: m in s.markets && m in r.markets)
    && (r.stances == [] || s.stance in r.stances)
    && s.rank >= r.minRank
  }

  // ---- Backoff --------------------------------------------------------------------

  function Doubled(n: nat): nat { if n == 0 then 1 else 2 * Doubled(n - 1) }

  function Clamp(x: int, low: int, high: int): int { if x < low then low else if x > high then high else x }

  function Max(a: int, b: int): int { if a < b then b else a }

  function Min(a: int, b: int): int { if a < b then a else b }

  function RetryAfter(o: Outcome): int {
    if o.Refused? && o.retryAfter.Some? then Clamp(o.retryAfter.value, 0, RETRY_AFTER_MAX) else 0
  }

  function NextAttempt(o: Outcome, attempts: nat, now: int): Option<int> {
    if attempts >= MAX_ATTEMPTS then None
    else
      var exponential := Min(RETRY_BASE * Doubled(if attempts < 1 then 0 else attempts - 1), RETRY_MAX);
      Some(now + Max(exponential, RetryAfter(o)))
  }

  // ---- Batches --------------------------------------------------------------------

  function Members(posts: map<int, Raw>, subscription: int, batchId: BatchId): set<int> {
    set i | i in posts && posts[i].subscription == Some(subscription) && posts[i].batchId == Some(batchId)
  }

  predicate Batched(d: Desk, post: int) {
    post in d.posts && d.posts[post].trade && d.posts[post].batchId.Some?
  }

  function GroupOf(d: Desk, post: int): Group
    requires post in d.posts && d.posts[post].batchId.Some? && d.posts[post].subscription.Some?
  {
    var raw := d.posts[post];
    Group(raw.subscription.value, raw.batchId.value, Members(d.posts, raw.subscription.value, raw.batchId.value))
  }

  predicate FitsBatch(raw: Raw, batchId: Option<BatchId>, size: int) {
    && raw.batchSize == Some(size)
    && raw.payload.Some? && raw.payload.value.batchId == batchId && raw.payload.value.batchSize == Some(size)
  }

  /** `_ready_trade_batch`: all posts are there, agree on the size, and have their signals. */
  predicate Ready(d: Desk, post: int)
    requires post in d.posts
  {
    var raw := d.posts[post];
    && raw.subscription.Some? && raw.batchId.Some? && raw.batchSize.Some?
    && var members := Members(d.posts, raw.subscription.value, raw.batchId.value);
       && |members| == raw.batchSize.value
       && forall m :: m in members ==> m in d.signals && FitsBatch(d.posts[m], raw.batchId, raw.batchSize.value)
  }

  /** `_trade_batch_notification` finds something to say. */
  predicate Tellable(d: Desk, g: Group) {
    && g.subscription in d.profiled
    && (forall m :: m in g.members ==>
          m in d.posts && d.posts[m].payload.Some? && d.posts[m].payload.value.changes != [])
    && (forall m, n :: m in g.members && n in g.members ==>
          m in d.posts && n in d.posts && d.posts[m].payload.Some? && d.posts[n].payload.Some?
          && d.posts[m].payload.value.changes == d.posts[n].payload.value.changes)
  }

  ghost predicate IsLowest(m: int, s: set<int>) { m in s && forall x :: x in s ==> m <= x }

  function IdRank(i: int): Rank { Rank(i, 0, 0) }

  /** The first of the batch's posts in id order. */
  ghost function Lowest(s: set<int>): (m: int)
    requires s != {}
    ensures IsLowest(m, s)
  {
    var ordered := Arranged(s, IdRank);
    assert forall x :: x in ordered <==> x in Elements(ordered);
    assert ordered[0] in ordered;
    ordered[0]
  }

  // ---- One rule -------------------------------------------------------------------

  /** The signals a notification speaks for, and the one it is filed under. */
  datatype Subject = Subject(anchor: int, speakers: set<int>, group: Option<Group>)

  predicate Applies(d: Desk, s: Subject, r: Rule) {
    && s.anchor in d.signals
    && (r.subscription.None? || r.subscription == d.signals[s.anchor].subscription)
    && (exists p :: p in s.speakers && p in d.signals && ShouldNotify(d.signals[p], r))
    && r.addressed
  }

  predicate Attemptable(events: map<EventKey, Event>, k: EventKey, now: int) {
    k !in events
    || (events[k].status == Failed && events[k].nextAt.Some? && events[k].nextAt.value <= now)
  }

  function Attempted(d: Desk, k: EventKey, group: Option<Group>, now: int, net: Net): Desk {
    var before := if k in d.events then d.events[k] else Event(d.nextId, Failed, 0, None);
    var attempts := before.attempts + 1;
    var outcome := net(k, attempts);
    var after := if outcome.Taken? then Event(before.id, Sent, attempts, None)
                 else Event(before.id, Failed, attempts, NextAttempt(outcome, attempts, now));
    d.(events := d.events[k := after], nextId := if k in d.events then d.nextId else d.nextId + 1,
       log := d.log + [Publish(k, outcome.Taken?, group)])
  }

  function Considered(d: Desk, s: Subject, r: Rule, now: int, net: Net): Desk {
    var k := EventKey(s.anchor, r.id);
    if Applies(d, s, r) && Attemptable(d.events, k, now) then Attempted(d, k, s.group, now, net) else d
  }

  function ConsideredAll(d: Desk, s: Subject, rules: seq<Rule>, now: int, net: Net): Desk {
    if rules == [] then d
    else Considered(ConsideredAll(d, s, rules[..|rules| - 1], now, net), s, rules[|rules| - 1], now, net)
  }

  /** Whom a dispatch of `post` speaks for; None while its batch is incomplete. */
  ghost function SubjectOf(d: Desk, post: int): Option<Subject> {
    if !Batched(d, post) then Some(Subject(post, {post}, None))
    else if !Ready(d, post) then None
    else
      var g := GroupOf(d, post);
      if !Tellable(d, g) then None
      else
        assert post in g.members;
        Some(Subject(Lowest(g.members), g.members, Some(g)))
  }

  ghost function Dispatched(d: Desk, post: int, now: int, net: Net): Desk {
    var s := SubjectOf(d, post);
    if s.None? then d else ConsideredAll(d, s.value, d.rules, now, net)
  }

  // ---- Retry ----------------------------------------------------------------------

  predicate Due(e: Event, now: int) {
    e.status == Failed && e.nextAt.Some? && e.nextAt.value <= now
  }

  function DueKeys(d: Desk, now: int): set<EventKey> {
    set k | k in d.events && Due(d.events[k], now)
  }

  function DueRank(d: Desk): EventKey -> Rank {
    k => if k in d.events && d.events[k].nextAt.Some? then Rank(d.events[k].nextAt.value, d.events[k].id, 0)
         else Rank(0, 0, 0)
  }

  ghost predicate DistinctEventIds(d: Desk) {
    && (forall j, k :: j in d.events && k in d.events && j != k ==> d.events[j].id != d.events[k].id)
    && (forall k :: k in d.events ==> d.events[k].id < d.nextId)
  }

  /** The events a retry takes: the due ones, oldest first, at most `limit`. */
  ghost function Selected(d: Desk, now: int, limit: nat): (keys: seq<EventKey>)
    requires DistinctEventIds(d)
    ensures |keys| == if |DueKeys(d, now)| < limit then |DueKeys(d, now)| else limit
    ensures forall k :: k in keys ==> k in DueKeys(d, now)
    ensures Distinct(keys)
  {
    var due := Arranged(DueKeys(d, now), DueRank(d));
    AscendingDistinct(due, DueRank(d));
    assert forall k :: k in due ==> k in Elements(due);
    due[..if |due| < limit then |due| else limit]
  }

  /** Posts of the selected events in order of first appearance. */
  function PostsIn(keys: seq<EventKey>): (posts: seq<int>)
    ensures forall p :: p in posts <==> exists k :: k in keys && k.post == p
    ensures Distinct(posts)
  {
    if keys == [] then []
    else
      var n := |keys| - 1;
      var posts := PostsIn(keys[..n]);
      assert keys == keys[..n] + [keys[n]];
      if keys[n].post in posts then posts else posts + [keys[n].post]
  }

  function GroupKeys(keys: seq<EventKey>, post: int): set<EventKey> {
    set k | k in keys && k.post == post
  }

  function Stopped(events: map<EventKey, Event>, keys: set<EventKey>): map<EventKey, Event> {
    map k | k in events :: if k in keys then events[k].(nextAt := None) else events[k]
  }

  /** The group's events the dispatch did not touch. */
  function Untouched(before: map<EventKey, Event>, after: map<EventKey, Event>, keys: set<EventKey>): set<EventKey> {
    set k | k in keys && k in before && k in after && after[k].status == Failed
      && after[k].attempts == before[k].attempts
  }

  ghost function RetriedGroup(d: Desk, post: int, keys: set<EventKey>, now: int, net: Net): Desk {
    if post !in d.signals then d.(events := Stopped(d.events, keys))
    else
      var after := Dispatched(d, post, now, net);
      after.(events := Stopped(after.events, Untouched(d.events, after.events, keys)))
  }

  ghost function RetriedAll(d: Desk, posts: seq<int>, keys: seq<EventKey>, now: int, net: Net): Desk {
    if posts == [] then d
    else
      var n := |posts| - 1;
      RetriedGroup(RetriedAll(d, posts[..n], keys, now, net), posts[n], GroupKeys(keys, posts[n]), now, net)
  }

  ghost function Retried(d: Desk, limit: nat, now: int, net: Net): Desk
    requires DistinctEventIds(d)
  {
    var keys := Selected(d, now, limit);
    RetriedAll(d, PostsIn(keys), keys, now, net)
  }

  // ---- The loops ------------------------------------------------------------------

  class Notifier {
    var posts: map<int, Raw>
    var signals: map<int, Signal>
    var rules: seq<Rule>
    var profiled: set<int>
    var events: map<EventKey, Event>
    var nextId: nat
    var log: seq<Publish>

    ghost function View(): Desk reads this { Desk(posts, signals, rules, profiled, events, nextId, log) }

    constructor ()
      ensures View() == Desk(map[], map[], [], {}, map[], 0, [])
    {
      posts, signals, rules, profiled := map[], map[], [], {};
      events, nextId, log := map[], 0, [];
    }

    function Snapshot(): (d: Desk)
      reads this
      ensures d == View()
    {
      Desk(posts, signals, rules, profiled, events, nextId, log)
    }

    method Publishing(k: EventKey, group: Option<Group>, now: int, net: Net) returns (ok: bool)
      modifies this`events, this`nextId, this`log
      ensures View() == Attempted(old(View()), k, group, now, net)
      ensures Accepted(log) == Accepted(old(log)) + if ok then 1 else 0
    {
      hide NextAttempt, Accepted;
      AcceptedGrows(log, Publish(k, net(k, (if k in events then events[k].attempts else 0) + 1).Taken?, group));
      if k !in events {
        events := events[k := Event(nextId, Failed, 0, None)];
        nextId := nextId + 1;
      }
      var e := events[k];
      var outcome := net(k, e.attempts + 1);
      ok := outcome.Taken?;
      if ok { events := events[k := Event(e.id, Sent, e.attempts + 1, None)]; }
      else { events := events[k := Event(e.id, Failed, e.attempts + 1, NextAttempt(outcome, e.attempts + 1, now))]; }
      log := log + [Publish(k, ok, group)];
    }

    /** `dispatch_notifications`; the count is that of accepted publishes. */
    method DispatchNotifications(post: int, now: int, net: Net) returns (sent: nat)
      modifies this`events, this`nextId, this`log
      ensures View() == Dispatched(old(View()), post, now, net)
      ensures sent == Accepted(log) - Accepted(old(log))
    {
      sent := 0;
      var subject := Subject(post, {post}, None);
      if Batched(Snapshot(), post) {
        if !Ready(Snapshot(), post) { return; }
        var g := GroupOf(Snapshot(), post);
        if !Tellable(Snapshot(), g) { return; }
        assert post in g.members;
        var ordered := SelectOrdered(g.members, IdRank);
        subject := Subject(ordered[0], g.members, Some(g));
      }
      sent := ConsiderRules(subject, now, net);
    }

    method ConsiderRules(subject: Subject, now: int, net: Net) returns (sent: nat)
      modifies this`events, this`nextId, this`log
      ensures View() == ConsideredAll(old(View()), subject, rules, now, net)
      ensures sent == Accepted(log) - Accepted(old(log))
    {
      hide Attempted;
      sent := 0;
      for i := 0 to |rules|
        invariant View() == ConsideredAll(old(View()), subject, rules[..i], now, net)
        invariant sent == Accepted(log) - Accepted(old(log))
      {
        assert rules[..i + 1][..i] == rules[..i];
        var k := EventKey(subject.anchor, rules[i].id);
        if Applies(Snapshot(), subject, rules[i]) && Attemptable(events, k, now) {
          var ok := Publishing(k, subject.group, now, net);
          if ok { sent := sent + 1; }
        }
      }
      assert rules[..|rules|] == rules;
    }

    method GroupPosts(keys: seq<EventKey>) returns (posts: seq<int>)
      ensures posts == PostsIn(keys)
    {
      posts := [];
      for i := 0 to |keys|
        invariant posts == PostsIn(keys[..i])
      {
        assert keys[..i + 1][..i] == keys[..i];
        if keys[i].post !in posts { posts := posts + [keys[i].post]; }
      }
      assert keys[..|keys|] == keys;
    }

    method StopEvents(keys: set<EventKey>)
      modifies this`events
      ensures View() == old(View()).(events := Stopped(old(events), keys))
    {
      events := map k | k in events :: if k in keys then events[k].(nextAt := None) else events[k];
    }

    method RetryGroup(post: int, keys: set<EventKey>, now: int, net: Net) returns (sent: nat)
      modifies this`events, this`nextId, this`log
      ensures View() == RetriedGroup(old(View()), post, keys, now, net)
      ensures sent == Accepted(log) - Accepted(old(log))
    {
      hide Dispatched;
      if post !in signals {
        StopEvents(keys);
        return 0;
      }
      var before := events;
      sent := DispatchNotifications(post, now, net);
      StopEvents(Untouched(before, events, keys));
    }

    method RetryFailedNotifications(limit: nat, now: int, net: Net) returns (sent: nat)
      requires DistinctEventIds(View())
      modifies this`events, this`nextId, this`log
      ensures View() == Retried(old(View()), limit, now, net)
      ensures sent == Accepted(log) - Accepted(old(log))
    {
      hide RetriedGroup, Selected, DueKeys, Accepted, PostsIn, DistinctEventIds;
      var keys := SelectDue(limit, now);
      var order := GroupPosts(keys);
      sent := 0;
      for i := 0 to |order|
        invariant View() == RetriedAll(old(View()), order[..i], keys, now, net)
        invariant sent == Accepted(log) - Accepted(old(log))
      {
        assert order[..i + 1][..i] == order[..i];
        var n := RetryGroup(order[i], GroupKeys(keys, order[i]), now, net);
        sent := sent + n;
      }
      assert order[..|order|] == order;
    }

    method SelectDue(limit: nat, now: int) returns (keys: seq<EventKey>)
      requires DistinctEventIds(View())
      ensures keys == Selected(View(), now, limit)
    {
      var d := Snapshot();
      var due := SelectOrdered(DueKeys(d, now), DueRank(d));
      keys := due[..if |due| < limit then |due| else limit];
    }
  }

  lemma AcceptedGrows(log: seq<Publish>, p: Publish)
    ensures Accepted(log + [p]) == Accepted(log) + if p.ok then 1 else 0
  {
    assert (log + [p])[..|log|] == log;
  }

  /** Successful publishes in a log. */
  function Accepted(log: seq<Publish>): nat {
    if log == [] then 0 else Accepted(log[..|log| - 1]) + if log[|log| - 1].ok then 1 else 0
  }
}
