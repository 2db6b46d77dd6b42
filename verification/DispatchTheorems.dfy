/** Who is notified, and whom a retry reaches: dispatches and retries told in the fields of
    posts, signals and rules, on the log and the events they leave. */
module DispatchTheorems {
  import opened Prelude
  import TradeStore
  import opened Notifications
  import opened NotificationTheorems
  import opened RetryTheorems

  // ---- For whom a notification speaks ---------------------------------------------

  /** The post is not a trade post with a batch id: it speaks for itself. */
  predicate Alone(d: Desk, post: int) {
    post in d.posts && d.posts[post].trade ==> d.posts[post].batchId.None?
  }

  predicate Mates(d: Desk, post: int, m: int) {
    && post in d.posts && m in d.posts
    && d.posts[m].subscription == d.posts[post].subscription && d.posts[m].batchId == d.posts[post].batchId
  }

  /** One post of a batch of `size`: analysed, and its payload tells the same batch and the
      same changes as `raw`. */
  predicate Tells(d: Desk, m: int, raw: Raw, size: nat) {
    && m in d.signals && m in d.posts && d.posts[m].batchSize == Some(size)
    && d.posts[m].payload.Some? && raw.payload.Some?
    && d.posts[m].payload.value.batchId == raw.batchId
    && d.posts[m].payload.value.batchSize == Some(size)
    && |d.posts[m].payload.value.changes| > 0
    && d.posts[m].payload.value.changes == raw.payload.value.changes
  }

  /** `ms` are all posts of the post's batch, as many as announced, and they tell the same;
      the subscription has a profile to name. */
  ghost predicate WholeBatch(d: Desk, post: int, ms: set<int>) {
    && post in d.posts
    && d.posts[post].subscription.Some? && d.posts[post].batchId.Some?
    && d.posts[post].subscription.value in d.profiled
    && (forall m :: m in ms <==> Mates(d, post, m))
    && forall m :: m in ms ==> Tells(d, m, d.posts[post], |ms|)
  }

  /** A dispatch of `post` is filed under `anchor` and speaks for `speakers`. */
  ghost predicate SpeaksFor(d: Desk, post: int, anchor: int, speakers: set<int>) {
    if Alone(d, post) then anchor == post && speakers == {post}
    else WholeBatch(d, post, speakers) && anchor in speakers && forall m :: m in speakers ==> anchor <= m
  }

  /** The rule takes the signal; an empty list allows everything. */
  predicate Takes(r: Rule, s: Signal) {
    && s.actionable && s.rank >= r.minRank
    && (r.requireAsset ==> |s.markets| > 0)
    && (|r.markets| > 0 ==> exists m :: m in r.markets && m in s.markets)
    && (|r.stances| > 0 ==> s.stance in r.stances)
  }

  /** An enabled rule with an address, of the anchor's subscription or of none, that takes
      one of the signals spoken for. */
  predicate Invites(d: Desk, r: Rule, anchor: int, speakers: set<int>) {
    && r.enabled && r.addressed
    && anchor in d.signals && r.subscription in {None, d.signals[anchor].subscription}
    && exists p :: p in speakers && p in d.signals && Takes(r, d.signals[p])
  }

  lemma InvitesExactly(d: Desk, s: Subject, r: Rule)
    ensures Applies(d, s, r) <==> Invites(d, r, s.anchor, s.speakers)
  {
    forall p | p in d.signals ensures r.enabled && Takes(r, d.signals[p]) <==> ShouldNotify(d.signals[p], r) {
      TakesExactly(r, d.signals[p]);
    }
  }

  lemma TakesExactly(r: Rule, s: Signal)
    ensures r.enabled && Takes(r, s) <==> ShouldNotify(s, r)
  {
  }

  lemma GroupIsMates(d: Desk, post: int, ms: set<int>)
    requires Batched(d, post) && d.posts[post].subscription.Some?
    ensures post in GroupOf(d, post).members
    ensures ms == GroupOf(d, post).members <==> forall m :: m in ms <==> Mates(d, post, m)
  {
    var g := GroupOf(d, post);
    forall m ensures m in g.members <==> Mates(d, post, m) {}
    if forall m :: m in ms <==> Mates(d, post, m) {
      forall m ensures m in ms <==> m in g.members { assert m in ms <==> Mates(d, post, m); }
    }
  }

  lemma TellingGroup(d: Desk, post: int)
    requires Batched(d, post) && d.posts[post].subscription.Some?
    ensures var g := GroupOf(d, post);
            (forall m :: m in g.members ==> Tells(d, m, d.posts[post], |g.members|)) && g.subscription in d.profiled
            <==> Ready(d, post) && Tellable(d, g)
  {
    var g := GroupOf(d, post);
    assert post in g.members;
    if forall m :: m in g.members ==> Tells(d, m, d.posts[post], |g.members|) {
      assert Tells(d, post, d.posts[post], |g.members|);
      forall m | m in g.members
        ensures m in d.signals && FitsBatch(d.posts[m], d.posts[post].batchId, |g.members|)
        ensures d.posts[m].payload.Some? && d.posts[m].payload.value.changes == d.posts[post].payload.value.changes
        ensures d.posts[m].payload.value.changes != []
      {
        assert Tells(d, m, d.posts[post], |g.members|);
      }
    }
    if Ready(d, post) && Tellable(d, g) {
      forall m | m in g.members ensures Tells(d, m, d.posts[post], |g.members|) {
        assert FitsBatch(d.posts[m], d.posts[post].batchId, |g.members|);
      }
    }
  }

  lemma WholeBatchExactly(d: Desk, post: int, ms: set<int>)
    requires Batched(d, post)
    ensures WholeBatch(d, post, ms) <==>
              && d.posts[post].subscription.Some? && Ready(d, post)
              && ms == GroupOf(d, post).members && Tellable(d, GroupOf(d, post))
  {
    if d.posts[post].subscription.Some? {
      GroupIsMates(d, post, ms);
      TellingGroup(d, post);
      hide Mates, Tells, Ready, Tellable;
    }
  }

  lemma LowestExactly(s: set<int>, m: int)
    requires s != {}
    ensures m == Lowest(s) <==> m in s && forall x :: x in s ==> m <= x
  {
    assert IsLowest(Lowest(s), s);
  }

  /** The subject of a dispatch in the fields of the posts. */
  lemma SubjectExactly(d: Desk, post: int, anchor: int, speakers: set<int>)
    ensures SpeaksFor(d, post, anchor, speakers) <==>
              && SubjectOf(d, post).Some?
              && SubjectOf(d, post).value.anchor == anchor && SubjectOf(d, post).value.speakers == speakers
    ensures SpeaksFor(d, post, anchor, speakers) && !Alone(d, post) ==>
              SubjectOf(d, post).value.group.Some? && SubjectOf(d, post).value.group.value.members == speakers
    ensures SpeaksFor(d, post, anchor, speakers) && Alone(d, post) ==> SubjectOf(d, post).value.group.None?
  {
    assert Alone(d, post) <==> !Batched(d, post);
    if Batched(d, post) {
      WholeBatchExactly(d, post, speakers);
      if Ready(d, post) {
        assert post in GroupOf(d, post).members;
        LowestExactly(GroupOf(d, post).members, anchor);
      }
      hide WholeBatch, Ready, Tellable;
    }
  }

  // ---- One attempt ----------------------------------------------------------------

  function AttemptsOf(events: map<EventKey, Event>, k: EventKey): nat {
    if k in events then events[k].attempts else 0
  }

  /** Failed, and its time has come. */
  predicate Ripe(e: Event, now: int) { e.status == Failed && e.nextAt.Some? && e.nextAt.value <= now }

  /** The next attempt comes after a minute, two, four, ..., at most an hour, or later where
      the push service asked for up to a day; the eighth failure is the last. */
  predicate Rescheduled(nextAt: Option<int>, o: Outcome, attempts: nat, now: int) {
    if attempts == 0 || attempts > 7 then nextAt.None?
    else
      var delay := [60, 120, 240, 480, 960, 1920, 3600][attempts - 1];
      var asked := if o.Refused? && o.retryAfter.Some? then o.retryAfter.value else 0;
      && nextAt.Some?
      && nextAt.value - now == if asked > 86400 then 86400 else if asked > delay then asked else delay
  }

  /** The event was attempted once more, and records what the push service did. */
  predicate AttemptedOnce(before: map<EventKey, Event>, after: map<EventKey, Event>, k: EventKey, now: int, net: Net) {
    var attempts := AttemptsOf(before, k) + 1;
    && k in after && after[k].attempts == attempts && (k in before ==> after[k].id == before[k].id)
    && if net(k, attempts).Taken? then after[k].status == Sent && after[k].nextAt.None?
       else after[k].status == Failed && Rescheduled(after[k].nextAt, net(k, attempts), attempts, now)
  }

  lemma RescheduledExactly(o: Outcome, attempts: nat, now: int)
    requires attempts > 0
    ensures Rescheduled(NextAttempt(o, attempts, now), o, attempts, now)
  {
    assert Doubled(0) == 1 && Doubled(2) == 4 && Doubled(4) == 16 && Doubled(6) == 64;
    assert Doubled(1) == 2 && Doubled(3) == 8 && Doubled(5) == 32;
  }

  lemma AttemptRecorded(d: Desk, k: EventKey, group: Option<Group>, now: int, net: Net)
    ensures AttemptedOnce(d.events, Attempted(d, k, group, now, net).events, k, now, net)
  {
    var attempts := AttemptsOf(d.events, k) + 1;
    RescheduledExactly(net(k, attempts), attempts, now);
    hide NextAttempt, Rescheduled;
  }

  lemma CallCounted(log: seq<Publish>, p: Publish, k: EventKey)
    ensures Calls(log + [p], k) == Calls(log, k) + if p.key == k then 1 else 0
  {
    assert (log + [p])[..|log|] == log;
  }

  /** The log grows by one call per attempt. */
  lemma {:induction false} CallsFollow(d: Desk, s: Subject, rules: seq<Rule>, now: int, net: Net, k: EventKey)
    ensures var after := ConsideredAll(d, s, rules, now, net);
            && d.log <= after.log
            && Calls(after.log, k) - Calls(d.log, k) == AttemptsOf(after.events, k) - AttemptsOf(d.events, k)
  {
    hide Applies, Calls;
    if rules != [] {
      var n := |rules| - 1;
      CallsFollow(d, s, rules[..n], now, net, k);
      var before, after := ConsideredAll(d, s, rules[..n], now, net), ConsideredAll(d, s, rules, now, net);
      if before != after { CallCounted(before.log, after.log[|before.log|], k); }
      hide NextAttempt;
    }
  }

  lemma {:induction false} RuleOutcome(d: Desk, s: Subject, rules: seq<Rule>, now: int, net: Net, i: nat)
    requires DistinctRules(rules) && i < |rules|
    ensures var k, after := EventKey(s.anchor, rules[i].id), ConsideredAll(d, s, rules, now, net);
            if Applies(d, s, rules[i]) && (k in d.events ==> Ripe(d.events[k], now))
            then AttemptedOnce(d.events, after.events, k, now, net)
            else NotificationTheorems.At(after.events, k) == NotificationTheorems.At(d.events, k)
  {
    hide Applies, AttemptedOnce;
    var n := |rules| - 1;
    var k, before := EventKey(s.anchor, rules[i].id), ConsideredAll(d, s, rules[..n], now, net);
    if i == n {
      OtherEventsKept(d, s, rules[..n], now, net, k);
      AppliesStill(d, s, rules[..n], now, net, rules[n]);
      AttemptRecorded(before, k, s.group, now, net);
      SameRecord(d.events, before.events, Attempted(before, k, s.group, now, net).events, k, now, net);
    } else {
      RuleOutcome(d, s, rules[..n], now, net, i);
      assert rules[i].id != rules[n].id;
      assert NotificationTheorems.At(ConsideredAll(d, s, rules, now, net).events, k)
             == NotificationTheorems.At(before.events, k);
      SameResult(d.events, before.events, ConsideredAll(d, s, rules, now, net).events, k, now, net);
    }
  }

  lemma SameRecord(a: map<EventKey, Event>, b: map<EventKey, Event>, after: map<EventKey, Event>, k: EventKey,
                   now: int, net: Net)
    requires NotificationTheorems.At(a, k) == NotificationTheorems.At(b, k)
    ensures AttemptedOnce(a, after, k, now, net) <==> AttemptedOnce(b, after, k, now, net)
  {
  }

  lemma SameResult(before: map<EventKey, Event>, a: map<EventKey, Event>, b: map<EventKey, Event>, k: EventKey,
                   now: int, net: Net)
    requires NotificationTheorems.At(a, k) == NotificationTheorems.At(b, k)
    ensures AttemptedOnce(before, a, k, now, net) <==> AttemptedOnce(before, b, k, now, net)
  {
  }

  // ---- A dispatch -----------------------------------------------------------------

  /** Every rule that invites one of the signals spoken for, and has no event or one that is
      ripe, gets exactly one publish; nothing happens to any other rule's event. */
  lemma DispatchReaches(d: Desk, post: int, anchor: int, speakers: set<int>, now: int, net: Net, i: nat)
    requires SpeaksFor(d, post, anchor, speakers) && DistinctRules(d.rules) && i < |d.rules|
    ensures var k, after := EventKey(anchor, d.rules[i].id), Dispatched(d, post, now, net);
            if Invites(d, d.rules[i], anchor, speakers) && (k in d.events ==> Ripe(d.events[k], now))
            then AttemptedOnce(d.events, after.events, k, now, net) && Calls(after.log, k) == Calls(d.log, k) + 1
            else
              && NotificationTheorems.At(after.events, k) == NotificationTheorems.At(d.events, k)
              && Calls(after.log, k) == Calls(d.log, k)
  {
    SubjectExactly(d, post, anchor, speakers);
    var s := SubjectOf(d, post).value;
    var k := EventKey(anchor, d.rules[i].id);
    InvitesExactly(d, s, d.rules[i]);
    RuleOutcome(d, s, d.rules, now, net, i);
    CallsFollow(d, s, d.rules, now, net, k);
    hide SubjectOf, Applies, Invites, SpeaksFor, ConsideredAll, Calls, Rescheduled;
  }

  lemma {:induction false} RulePublished(d: Desk, s: Subject, rules: seq<Rule>, now: int, net: Net, i: nat)
    returns (r: Rule)
    requires |d.log| <= i < |ConsideredAll(d, s, rules, now, net).log|
    ensures var p := ConsideredAll(d, s, rules, now, net).log[i];
            r in rules && p.key == EventKey(s.anchor, r.id) && p.group == s.group && Applies(d, s, r)
  {
    hide Applies, NextAttempt;
    if rules == [] {
      r := Rule(0, None, false, false, false, [], [], 0);
      assert false;
    } else {
      var n := |rules| - 1;
      var before := ConsideredAll(d, s, rules[..n], now, net);
      if i < |before.log| {
        r := RulePublished(d, s, rules[..n], now, net, i);
      } else {
        r := rules[n];
        AppliesStill(d, s, rules[..n], now, net, r);
      }
    }
  }

  /** Every publish a dispatch adds is under a rule that invites one of the signals the
      dispatch speaks for. */
  lemma DispatchOnlyInvites(d: Desk, post: int, now: int, net: Net, i: nat) returns (r: Rule, speakers: set<int>)
    requires |d.log| <= i < |Dispatched(d, post, now, net).log|
    ensures d.log <= Dispatched(d, post, now, net).log
    ensures var p := Dispatched(d, post, now, net).log[i];
            && r in d.rules && r.id == p.key.rule
            && SpeaksFor(d, post, p.key.post, speakers) && Invites(d, r, p.key.post, speakers)
            && (if Alone(d, post) then p.group.None? else p.group.Some? && p.group.value.members == speakers)
  {
    var s := SubjectOf(d, post).value;
    CallsFollow(d, s, d.rules, now, net, EventKey(0, 0));
    speakers := s.speakers;
    SubjectExactly(d, post, s.anchor, speakers);
    r := RulePublished(d, s, d.rules, now, net, i);
    InvitesExactly(d, s, r);
    hide SubjectOf, Applies, Invites, SpeaksFor, ConsideredAll;
  }

  /** A post whose batch is not whole yet changes nothing. */
  lemma DispatchHeldBack(d: Desk, post: int, now: int, net: Net)
    requires forall anchor, speakers :: !SpeaksFor(d, post, anchor, speakers)
    ensures Dispatched(d, post, now, net) == d
  {
    if SubjectOf(d, post).Some? {
      var s := SubjectOf(d, post).value;
      SubjectExactly(d, post, s.anchor, s.speakers);
    }
    hide SubjectOf, SpeaksFor;
  }

  // ---- A retry --------------------------------------------------------------------

  /** Events of the safe desk are filed under the post a dispatch would file them under. */
  lemma OwnAnchor(d: Desk, k: EventKey, anchor: int, speakers: set<int>)
    requires Safe(d) && k in d.events && SpeaksFor(d, k.post, anchor, speakers)
    ensures anchor == k.post
  {
    if !Alone(d, k.post) {
      assert EventOk(d.events[k]) && Mirrors(d, k);
      var i := SomeCall(d.log, k);
      var p := d.log[i];
      assert BarrierAt(d, p);
      var g := p.group.value;
      assert k.post in g.members && k.post in speakers;
      assert Mates(d, k.post, k.post) && Tells(d, k.post, d.posts[k.post], |speakers|);
      forall m | m in g.members ensures m in speakers { assert Mates(d, k.post, m); }
      SameSize(g.members, speakers);
    }
  }

  /** Some rule of this id invites the signals the event's own post speaks for. */
  ghost predicate Wanted(d: Desk, k: EventKey) {
    exists i, speakers ::
      0 <= i < |d.rules| && d.rules[i].id == k.rule
      && SpeaksFor(d, k.post, k.post, speakers) && Invites(d, d.rules[i], k.post, speakers)
  }

  /** A wanted event is attempted once more, any other is given up. */
  ghost predicate RetryOutcome(d: Desk, k: EventKey, before: map<EventKey, Event>, after: map<EventKey, Event>,
                               now: int, net: Net)
  {
    if Wanted(d, k) then AttemptedOnce(before, after, k, now, net)
    else k in before && k in after && after[k] == before[k].(nextAt := None)
  }

  ghost predicate SameOffice(b: Desk, d: Desk) {
    b.posts == d.posts && b.signals == d.signals && b.rules == d.rules && b.profiled == d.profiled
  }

  lemma OfficeSpeaks(b: Desk, d: Desk, post: int, anchor: int, speakers: set<int>)
    requires SameOffice(b, d)
    ensures SpeaksFor(b, post, anchor, speakers) <==> SpeaksFor(d, post, anchor, speakers)
  {
    if !Alone(d, post) {
      forall m ensures Mates(b, post, m) <==> Mates(d, post, m) {}
      forall m, raw, n: nat ensures Tells(b, m, raw, n) <==> Tells(d, m, raw, n) {}
      hide Mates, Tells;
    }
  }

  lemma OfficeWants(b: Desk, d: Desk, k: EventKey)
    requires SameOffice(b, d)
    ensures Wanted(b, k) <==> Wanted(d, k)
  {
    forall speakers ensures SpeaksFor(b, k.post, k.post, speakers) <==> SpeaksFor(d, k.post, k.post, speakers) {
      OfficeSpeaks(b, d, k.post, k.post, speakers);
    }
    hide SpeaksFor;
  }

  lemma {:induction false} OtherAnchorKept(d: Desk, s: Subject, rules: seq<Rule>, now: int, net: Net, k: EventKey)
    requires k.post != s.anchor
    ensures NotificationTheorems.At(ConsideredAll(d, s, rules, now, net).events, k)
            == NotificationTheorems.At(d.events, k)
  {
    hide Applies, NextAttempt;
    if rules != [] { OtherAnchorKept(d, s, rules[..|rules| - 1], now, net, k); }
  }

  /** The retry of one post's events does not reach events of other posts. */
  lemma GroupKeepsOthers(d: Desk, keys: set<EventKey>, now: int, net: Net, j: EventKey, k: EventKey)
    requires Safe(d) && j in d.events && k.post != j.post
    requires forall x :: x in keys ==> x.post == j.post
    ensures NotificationTheorems.At(RetriedGroup(d, j.post, keys, now, net).events, k)
            == NotificationTheorems.At(d.events, k)
  {
    if j.post in d.signals && SubjectOf(d, j.post).Some? {
      var s := SubjectOf(d, j.post).value;
      SubjectExactly(d, j.post, s.anchor, s.speakers);
      OwnAnchor(d, j, s.anchor, s.speakers);
      OtherAnchorKept(d, s, d.rules, now, net, k);
    }
    hide Safe, SubjectOf, SpeaksFor, ConsideredAll;
  }

  /** What the dispatch inside a retry does to one of the post's ripe events. */
  lemma DispatchRetries(d: Desk, now: int, net: Net, k: EventKey)
    requires Safe(d) && DistinctRules(d.rules) && k in d.events && Ripe(d.events[k], now) && k.post in d.signals
    ensures var after := Dispatched(d, k.post, now, net);
            if Wanted(d, k) then AttemptedOnce(d.events, after.events, k, now, net)
            else k in after.events && after.events[k] == d.events[k]
  {
    if SubjectOf(d, k.post).None? {
      forall speakers ensures !SpeaksFor(d, k.post, k.post, speakers) { SubjectExactly(d, k.post, k.post, speakers); }
      hide SubjectOf, SpeaksFor, Safe;
    } else {
      var s := SubjectOf(d, k.post).value;
      SubjectExactly(d, k.post, s.anchor, s.speakers);
      OwnAnchor(d, k, s.anchor, s.speakers);
      forall speakers ensures SpeaksFor(d, k.post, k.post, speakers) ==> speakers == s.speakers {
        SubjectExactly(d, k.post, k.post, speakers);
      }
      hide SubjectOf, SpeaksFor, Safe, Invites, ConsideredAll, AttemptedOnce, Applies;
      if i :| 0 <= i < |d.rules| && d.rules[i].id == k.rule {
        InvitesExactly(d, s, d.rules[i]);
        RuleOutcome(d, s, d.rules, now, net, i);
      } else {
        OtherEventsKept(d, s, d.rules, now, net, k);
      }
    }
  }

  lemma GroupReaches(d: Desk, keys: set<EventKey>, now: int, net: Net, k: EventKey)
    requires Safe(d) && DistinctRules(d.rules) && k in keys && k in d.events && Ripe(d.events[k], now)
    ensures RetryOutcome(d, k, d.events, RetriedGroup(d, k.post, keys, now, net).events, now, net)
  {
    if k.post in d.signals { DispatchRetries(d, now, net, k); }
    hide Safe, Dispatched, SpeaksFor, Rescheduled;
  }

  lemma OutcomeMoves(d: Desk, k: EventKey, a: map<EventKey, Event>, b: map<EventKey, Event>, x: map<EventKey, Event>,
                     y: map<EventKey, Event>, now: int, net: Net)
    requires NotificationTheorems.At(a, k) == NotificationTheorems.At(b, k)
    requires NotificationTheorems.At(x, k) == NotificationTheorems.At(y, k)
    ensures RetryOutcome(d, k, a, x, now, net) <==> RetryOutcome(d, k, b, y, now, net)
  {
    hide Wanted, Rescheduled;
  }

  /** The posts retried each have one of the selected events, all of them ripe. */
  ghost predicate Queued(d: Desk, posts: seq<int>, keys: seq<EventKey>, now: int) {
    && Distinct(posts)
    && (forall p :: p in posts ==> exists j :: j in keys && j.post == p)
    && forall j :: j in keys ==> j in d.events && Ripe(d.events[j], now)
  }

  lemma LastQueued(d: Desk, posts: seq<int>, keys: seq<EventKey>, now: int) returns (j: EventKey)
    requires posts != [] && Queued(d, posts, keys, now)
    ensures var n := |posts| - 1; Queued(d, posts[..n], keys, now) && posts[n] !in posts[..n] && j.post == posts[n]
    ensures j in keys && j in d.events && Ripe(d.events[j], now)
  {
    var n := |posts| - 1;
    var p := posts[n];
    assert p in posts;
    assert forall q :: q in posts[..n] ==> q in posts;
    assert exists j :: j in keys && j.post == p;
    j :| j in keys && j.post == posts[n];
  }

  lemma {:induction false} GroupsReach(d: Desk, posts: seq<int>, keys: seq<EventKey>, now: int, net: Net, k: EventKey)
    requires Safe(d) && DistinctRules(d.rules) && Queued(d, posts, keys, now)
    ensures var after := RetriedAll(d, posts, keys, now, net);
            && (k.post !in posts ==> NotificationTheorems.At(after.events, k) == NotificationTheorems.At(d.events, k))
            && (k.post in posts && k in keys ==> RetryOutcome(d, k, d.events, after.events, now, net))
  {
    hide Safe, RetriedGroup, RetryOutcome, Wanted, DistinctRules, Queued;
    if posts != [] {
      var j := LastQueued(d, posts, keys, now);
      var n := |posts| - 1;
      assert posts == posts[..n] + [posts[n]];
      GroupsReach(d, posts[..n], keys, now, net, k);
      var b := RetriedAll(d, posts[..n], keys, now, net);
      RetryFrame(d, posts[..n], keys, now, net);
      RetriedAllSafe(d, posts[..n], keys, now, net);
      GroupsReach(d, posts[..n], keys, now, net, j);
      var group := GroupKeys(keys, posts[n]);
      if k.post != posts[n] {
        GroupKeepsOthers(b, group, now, net, j, k);
        OutcomeMoves(d, k, d.events, d.events, b.events, RetriedGroup(b, posts[n], group, now, net).events, now, net);
      } else if k in keys {
        GroupReaches(b, group, now, net, k);
        LastGroup(d, b, posts, keys, now, net, k);
      }
    }
  }

  lemma LastGroup(d: Desk, b: Desk, posts: seq<int>, keys: seq<EventKey>, now: int, net: Net, k: EventKey)
    requires SameOffice(b, d) && NotificationTheorems.At(b.events, k) == NotificationTheorems.At(d.events, k)
    requires posts != [] && b == RetriedAll(d, posts[..|posts| - 1], keys, now, net)
    requires var post := posts[|posts| - 1];
             RetryOutcome(b, k, b.events, RetriedGroup(b, post, GroupKeys(keys, post), now, net).events, now, net)
    ensures RetryOutcome(d, k, d.events, RetriedAll(d, posts, keys, now, net).events, now, net)
  {
    hide RetriedGroup, Wanted, Rescheduled;
    OfficeWants(b, d, k);
  }

  /** One retry call, whatever the push service answers. A selected event whose post is
      ready to be spoken for and whose rule is there and invites it is attempted exactly
      once; every other selected event is given up without a publish; and events of posts
      none of whose events was selected are left alone. */
  lemma RetryReaches(d: Desk, limit: nat, now: int, net: Net, k: EventKey)
    requires Safe(d) && DistinctRules(d.rules)
    ensures var keys, after := Selected(d, now, limit), Retried(d, limit, now, net);
            && (k in keys && Wanted(d, k) ==>
                  AttemptedOnce(d.events, after.events, k, now, net) && Calls(after.log, k) == Calls(d.log, k) + 1)
            && (k in keys && !Wanted(d, k) ==>
                  && k in d.events && k in after.events && after.events[k] == d.events[k].(nextAt := None)
                  && Calls(after.log, k) == Calls(d.log, k))
            && ((forall j :: j in keys ==> j.post != k.post) ==>
                  && NotificationTheorems.At(after.events, k) == NotificationTheorems.At(d.events, k)
                  && Calls(after.log, k) == Calls(d.log, k))
  {
    var keys, after := Selected(d, now, limit), Retried(d, limit, now, net);
    var posts := PostsIn(keys);
    SelectedQueued(d, now, limit);
    GroupsReach(d, posts, keys, now, net, k);
    RetriedSafe(d, limit, now, net);
    CallsMirror(d, k);
    CallsMirror(after, k);
    hide Safe, RetriedAll, Selected, Wanted, SpeaksFor, Rescheduled, Queued, Calls, DistinctRules;
    assert Retried(d, limit, now, net) == RetriedAll(d, posts, keys, now, net);
  }

  lemma CallsMirror(d: Desk, k: EventKey)
    requires Safe(d)
    ensures Calls(d.log, k) == AttemptsOf(d.events, k)
  {
    assert Mirrors(d, k);
  }

  lemma SelectedQueued(d: Desk, now: int, limit: nat)
    requires Safe(d)
    ensures var keys := Selected(d, now, limit); Queued(d, PostsIn(keys), keys, now)
  {
    var keys := Selected(d, now, limit);
    hide Safe, Selected, DistinctEventIds;
    forall j | j in keys ensures j in d.events && Ripe(d.events[j], now) { assert j in DueKeys(d, now); }
    forall p | p in PostsIn(keys) ensures exists j :: j in keys && j.post == p {}
  }

  /** Whether one ripe event goes before another: by time, then by age. */
  predicate Before(x: Event, y: Event) {
    x.nextAt.Some? && y.nextAt.Some?
    && (x.nextAt.value < y.nextAt.value || (x.nextAt.value == y.nextAt.value && x.id < y.id))
  }

  lemma PrefixFirst<T>(s: seq<T>, rank: T -> Rank, n: nat, x: T, y: T)
    requires Ascending(s, rank) && n <= |s| && x in s[..n] && y in s && y !in s[..n]
    ensures Below(rank(x), rank(y))
  {
    assert s == s[..n] + s[n..];
    var i :| 0 <= i < n && s[..n][i] == x;
    var j :| 0 <= j < |s| - n && s[n..][j] == y;
    assert s[i] == x && s[n + j] == y;
  }

  /** A retry takes ripe events, all of them if `limit` allows, and never leaves one while
      it takes a later one. */
  lemma SelectedOldest(d: Desk, now: int, limit: nat, k: EventKey)
    requires DistinctEventIds(d) && k in d.events && Ripe(d.events[k], now)
    ensures k !in Selected(d, now, limit) ==>
              && |Selected(d, now, limit)| == limit
              && forall j :: j in Selected(d, now, limit) ==> j in d.events && Before(d.events[j], d.events[k])
  {
    var due := Arranged(DueKeys(d, now), DueRank(d));
    var keys := Selected(d, now, limit);
    assert k in DueKeys(d, now);
    assert k in Elements(due);
    assert keys == due[..|keys|];
    hide Ascending, DistinctEventIds, Separated, DueKeys, Selected;
    if k !in keys {
      assert |keys| == limit by { assert due == keys + due[|keys|..]; }
      forall j | j in keys ensures j in d.events && Before(d.events[j], d.events[k]) {
        PrefixFirst(due, DueRank(d), |keys|, j, k);
        assert j in DueKeys(d, now);
        RipeRanks(d, now, j, k);
      }
    }
  }

  lemma RipeRanks(d: Desk, now: int, j: EventKey, k: EventKey)
    requires j in DueKeys(d, now) && k in DueKeys(d, now) && Below(DueRank(d)(j), DueRank(d)(k))
    ensures j in d.events && k in d.events && Before(d.events[j], d.events[k])
  {
  }
}
