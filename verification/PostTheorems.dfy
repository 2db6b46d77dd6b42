/** Exactly which posts a fetch enqueues, and what their change list says. */
module PostTheorems {
  import opened Prelude
  import opened TradeModels
  import opened TradeReconciler
  import opened TradeStore
  import opened PositionView
  import opened FetchTheorems
  import opened CollectorDb

  // ---- The change list is an exact diff -------------------------------------------

  /** What a reader of the change list takes bucket `k` to be afterwards. */
  function Patched(changes: seq<PositionChange>, k: Key, before: Estimate): Estimate {
    if changes == [] then before
    else if changes[|changes| - 1].key == k then changes[|changes| - 1].after
    else Patched(changes[..|changes| - 1], k, before)
  }

  lemma {:induction false} ChangesOfKeys(keys: seq<Key>, before: Positions, after: Positions)
    requires Ascending(keys, KeyRank)
    ensures var cs := ChangesOver(keys, before, after);
            && (forall c :: c in cs ==> c.key in keys && c.before == EstimateAt(before, c.key)
                                        && c.after == EstimateAt(after, c.key) && !SameSignature(c.before, c.after))
            && (forall i, j :: 0 <= i < j < |cs| ==> cs[i].key != cs[j].key)
            && (forall k :: k in keys && !SameSignature(EstimateAt(before, k), EstimateAt(after, k)) ==>
                  exists c :: c in cs && c.key == k)
  {
    hide EstimateAt, SameSignature, KeyRank;
    if keys != [] {
      var n := |keys| - 1;
      ChangesOfKeys(keys[..n], before, after);
      AscendingDistinct(keys, KeyRank);
      var cs := ChangesOver(keys[..n], before, after);
      var k := keys[n];
      assert forall x :: x in keys <==> x in keys[..n] || x == k;
      assert k !in keys[..n];
      var more := ChangesOver(keys, before, after)[|cs|..];
      assert ChangesOver(keys, before, after) == cs + more;
      forall x | x in keys && !SameSignature(EstimateAt(before, x), EstimateAt(after, x))
        ensures exists c: PositionChange :: c in cs + more && c.key == x
      {
        if x in keys[..n] {
          var c :| c in cs && c.key == x;
          assert c in cs + more;
        } else {
          assert (cs + more)[|cs|].key == x;
        }
      }
    }
  }

  lemma {:induction false} PatchedByMember(cs: seq<PositionChange>, k: Key, before: Estimate, c: PositionChange)
    requires c in cs && c.key == k
    requires forall i, j :: 0 <= i < j < |cs| ==> cs[i].key != cs[j].key
    ensures Patched(cs, k, before) == c.after
  {
    var n := |cs| - 1;
    if cs[n] != c {
      assert c in cs[..n];
      PatchedByMember(cs[..n], k, before, c);
    }
  }

  lemma {:induction false} PatchedByNone(cs: seq<PositionChange>, k: Key, before: Estimate)
    requires forall c :: c in cs ==> c.key != k
    ensures Patched(cs, k, before) == before
  {
    if cs != [] {
      assert cs[|cs| - 1] in cs;
      assert forall c :: c in cs[..|cs| - 1] ==> c in cs;
      PatchedByNone(cs[..|cs| - 1], k, before);
    }
  }

  /** Keys are unique; patching the old positions with the list gives the new ones on side,
      quantity, entry price and leverage; and the list is empty iff nothing changed. */
  lemma ChangesAreExact(before: Positions, after: Positions)
    ensures var cs := ChangesBetween(before, after);
            && (forall i, j :: 0 <= i < j < |cs| ==> cs[i].key != cs[j].key)
            && (forall k :: SameSignature(Patched(cs, k, EstimateAt(before, k)), EstimateAt(after, k)))
            && (cs == [] <==> forall k :: SameSignature(EstimateAt(before, k), EstimateAt(after, k)))
  {
    hide EstimateAt, SameSignature, ChangesOver, Patched, KeyRank;
    KeysSeparated(before.Keys + after.Keys);
    var keys := Arranged(before.Keys + after.Keys, KeyRank);
    var cs := ChangesBetween(before, after);
    ChangesOfKeys(keys, before, after);
    forall k ensures SameSignature(Patched(cs, k, EstimateAt(before, k)), EstimateAt(after, k)) {
      PatchedBucket(keys, before, after, k);
    }
    if cs == [] {
      forall k ensures SameSignature(EstimateAt(before, k), EstimateAt(after, k)) {
        PatchedByNone(cs, k, EstimateAt(before, k));
      }
    } else {
      assert cs[0] in cs;
    }
  }

  lemma PatchedBucket(keys: seq<Key>, before: Positions, after: Positions, k: Key)
    requires Ascending(keys, KeyRank) && Elements(keys) == before.Keys + after.Keys
    ensures SameSignature(Patched(ChangesOver(keys, before, after), k, EstimateAt(before, k)), EstimateAt(after, k))
  {
    var cs := ChangesOver(keys, before, after);
    ChangesOfKeys(keys, before, after);
    if c :| c in cs && c.key == k {
      PatchedByMember(cs, k, EstimateAt(before, k), c);
    } else {
      PatchedByNone(cs, k, EstimateAt(before, k));
      assert k in keys <==> k in Elements(keys);
    }
  }

  // ---- Exactly the new, effective keys --------------------------------------------

  ghost predicate DistinctKeys(events: seq<Event>) {
    forall i, j :: 0 <= i < j < |events| ==> EventKey(events[i]) != EventKey(events[j])
  }

  lemma {:induction false} NewEventsAreMembers(events: seq<Event>, inserted: set<LedgerKey>)
    ensures forall e :: e in NewEvents(events, inserted) <==> e in events && EventKey(e) in inserted
  {
    hide EventKey;
    if events != [] {
      var n := |events| - 1;
      NewEventsAreMembers(events[..n], inserted);
      assert events == events[..n] + [events[n]];
    }
  }

  lemma KeysDiffer(events: seq<Event>, es: seq<Event>, last: Event)
    requires DistinctKeys(events + [last]) && DistinctKeys(es)
    requires forall e :: e in es ==> e in events
    ensures DistinctKeys(es + [last])
  {
    hide EventKey;
    var all := events + [last];
    forall i | 0 <= i < |es| ensures EventKey(es[i]) != EventKey(last) {
      assert es[i] in events;
      var j :| 0 <= j < |events| && events[j] == es[i];
      assert all[j] == es[i] && all[|events|] == last;
    }
  }

  lemma {:induction false} NewEventsAreFiltered(events: seq<Event>, inserted: set<LedgerKey>)
    requires DistinctKeys(events)
    ensures DistinctKeys(NewEvents(events, inserted))
    ensures forall e :: e in NewEvents(events, inserted) <==> e in events && EventKey(e) in inserted
  {
    NewEventsAreMembers(events, inserted);
    if events != [] {
      var n := |events| - 1;
      NewEventsAreFiltered(events[..n], inserted);
      assert events == events[..n] + [events[n]];
      NewEventsAreMembers(events[..n], inserted);
      KeysDiffer(events[..n], NewEvents(events[..n], inserted), events[n]);
    }
    hide EventKey;
  }

  lemma EventsFollowEffective(rs: seq<Record>, complete: bool)
    ensures var es, events := Effective(rs), Reconcile(rs, complete).events;
            |events| == |es| && forall i :: 0 <= i < |es| ==> events[i].record == es[i]
  {
    hide Replay, Apply;
    var es := Effective(rs);
    forall i | 0 <= i < |es| ensures Reconcile(rs, complete).events[i].record == es[i] {
      EventsGrow(rs, es, i, complete);
    }
  }

  lemma EventsHaveDistinctKeys(rs: seq<Record>, complete: bool)
    ensures var out := Reconcile(rs, complete);
            && DistinctKeys(out.events)
            && (forall r :: r in Effective(rs) <==> exists e :: e in out.events && e.record == r)
  {
    var es, events := Effective(rs), Reconcile(rs, complete).events;
    hide Effective, Reconcile;
    EventsFollowEffective(rs, complete);
    forall i, j | 0 <= i < j < |events| ensures EventKey(events[i]) != EventKey(events[j]) {
      EffectiveDistinct(rs, i, j);
    }
    forall r | r in es ensures exists e :: e in events && e.record == r {
      var i :| 0 <= i < |es| && es[i] == r;
      assert events[i] in events;
    }
  }

  lemma EffectiveDistinct(rs: seq<Record>, i: nat, j: nat)
    requires i < j < |Effective(rs)|
    ensures Effective(rs)[i].id != Effective(rs)[j].id
  {
    AscendingDistinct(Effective(rs), RecordRank);
    SameIdSameRecord(rs, Effective(rs)[i], Effective(rs)[j]);
  }

  /** Each id is replayed once. */
  lemma SameIdSameRecord(rs: seq<Record>, x: Record, y: Record)
    requires x in Effective(rs) && y in Effective(rs)
    ensures x.id == y.id ==> x == y
  {
    assert x in Elements(Effective(rs)) && y in Elements(Effective(rs));
  }

  /** Keys the merge inserted: those of the window the ledger did not have. */
  lemma {:induction false} InsertedKeys(ledger: Ledger, rs: seq<Record>)
    requires MergeAll(ledger, rs).Merged?
    ensures var m := MergeAll(ledger, rs);
            m.inserted == m.ledger.Keys - ledger.Keys && ledger.Keys <= m.ledger.Keys
  {
    if rs != [] { InsertedKeys(ledger, rs[..|rs| - 1]); }
  }

  function PostKey(p: Post): LedgerKey {
    if p.ext.TradeId? then LedgerKey(p.ext.record, p.ext.revision) else LedgerKey(0, 0)
  }

  ghost predicate DistinctPosts(posts: seq<Post>) {
    forall i, j :: 0 <= i < j < |posts| ==> PostKey(posts[i]) != PostKey(posts[j])
  }

  ghost predicate Posted(posts: seq<Post>, k: LedgerKey) {
    exists p :: p in posts && PostKey(p) == k
  }

  ghost predicate Occurs(es: seq<Event>, k: LedgerKey) {
    exists e :: e in es && EventKey(e) == k
  }

  /** One post for every key that is new to the ledger and effective in it. */
  ghost predicate RightKeys(posts: seq<Post>, old': Ledger, ledger: Ledger)
    requires Shaped(ledger)
  {
    forall k :: Posted(posts, k)
                <==> k in ledger && k !in old' && RecordOf(ledger[k]) in Effective(Rows(ledger))
  }

  /** All under one batch id, with its true size and one change list. */
  ghost predicate OneBatch(posts: seq<Post>, changes: seq<PositionChange>) {
    exists id :: forall p :: p in posts ==> p.ext.TradeId? && BatchOf(p) == Some(Batch(id, |posts|, changes))
  }

  /** The posts of an accepted fetch after the baseline. */
  ghost predicate ExactPosts(posts: seq<Post>, old': Ledger, ledger: Ledger, before: Positions, after: Positions)
    requires Shaped(ledger)
  {
    DistinctPosts(posts) && RightKeys(posts, old', ledger) && OneBatch(posts, ChangesBetween(before, after))
  }

  lemma EffectiveRow(ledger: Ledger, r: Record)
    requires Shaped(ledger) && r in Effective(Rows(ledger))
    ensures RecordKey(r) in ledger && RecordOf(ledger[RecordKey(r)]) == r
  {
    assert r in Elements(Effective(Rows(ledger)));
    assert r in Rows(ledger);
    assert r in Elements(Rows(ledger));
    var k :| k in ledger && RecordOf(ledger[k]) == r;
  }

  lemma PostsFollowEvents(es: seq<Event>, batch: Batch)
    requires batch.size == |es|
    requires DistinctKeys(es)
    ensures var posts := PostsOf(es, batch);
            && DistinctPosts(posts)
            && OneBatch(posts, batch.changes)
            && (forall k :: Posted(posts, k) <==> Occurs(es, k))
  {
    var posts := PostsOf(es, batch);
    assert forall i :: 0 <= i < |posts| ==> PostKey(posts[i]) == EventKey(es[i]);
    assert forall p :: p in posts ==> p.ext.TradeId? && BatchOf(p) == Some(Batch(batch.id, |posts|, batch.changes));
    forall k | Occurs(es, k) ensures Posted(posts, k) {
      var e :| e in es && EventKey(e) == k;
      var i :| 0 <= i < |es| && es[i] == e;
      assert posts[i] in posts;
    }
  }

  lemma NewKeys(ledger: Ledger, old': Ledger, inserted: set<LedgerKey>, complete: bool, k: LedgerKey)
    requires Shaped(ledger) && inserted == ledger.Keys - old'.Keys
    ensures Occurs(NewEvents(Reconcile(Rows(ledger), complete).events, inserted), k)
            <==> k in ledger && k !in old' && RecordOf(ledger[k]) in Effective(Rows(ledger))
  {
    var events := Reconcile(Rows(ledger), complete).events;
    EventsHaveDistinctKeys(Rows(ledger), complete);
    NewEventsAreFiltered(events, inserted);
    hide Effective, Rows, Reconcile, NewEvents;
    if e :| e in NewEvents(events, inserted) && EventKey(e) == k {
      assert e in events && e.record in Effective(Rows(ledger));
      EffectiveRow(ledger, e.record);
    }
    if k in ledger && k !in old' && RecordOf(ledger[k]) in Effective(Rows(ledger)) {
      var e :| e in events && e.record == RecordOf(ledger[k]);
      assert EventKey(e) == k;
    }
  }

  lemma PostsForAreExact(ledger: Ledger, old': Ledger, inserted: set<LedgerKey>, target: Target,
                         complete: bool, before: Positions)
    requires Shaped(ledger) && target.accountId.Some?
    requires inserted == ledger.Keys - old'.Keys
    ensures var out := Reconcile(Rows(ledger), complete);
            ExactPosts(PostsFor(out.events, inserted, target, before, out.positions), old', ledger, before,
              out.positions)
  {
    hide Effective, Rows, ChangesBetween, NewEvents, Reconcile, PostsOf, OneBatch, DistinctPosts;
    var out := Reconcile(Rows(ledger), complete);
    var es := NewEvents(out.events, inserted);
    EventsHaveDistinctKeys(Rows(ledger), complete);
    NewEventsAreFiltered(out.events, inserted);
    PostsFollowEvents(es, Batch(BatchId(target.platform, target.accountId.value, EventKeys(es)), |es|,
                                ChangesBetween(before, out.positions)));
    var posts := PostsFor(out.events, inserted, target, before, out.positions);
    forall k ensures Posted(posts, k)
                     <==> k in ledger && k !in old' && RecordOf(ledger[k]) in Effective(Rows(ledger)) {
      NewKeys(ledger, old', inserted, complete, k);
    }
  }

  /** An accepted fetch enqueues exactly those posts; the first fetch of an epoch, none. */
  lemma FetchPostsAreExact(t: Tables, target: Target, result: FetchResult)
    requires Shaped(t.ledger)
    requires FetchInto(t, target.subscription, target, result).Accepted?
    ensures var step := FetchInto(t, target.subscription, target, result);
            && Shaped(step.tables.ledger)
            && (t.Baseline() ==> step.posts == [])
            && (!t.Baseline() && step.tables.ledger != map[] ==>
                  ExactPosts(step.posts, t.ledger, step.tables.ledger, t.positions,
                             Reconcile(Rows(step.tables.ledger), result.complete).positions))
            && (step.tables.ledger == map[] ==> step.posts == [])
            && !step.tables.Baseline()
  {
    hide RepricedAll, MergeAll, ExactPosts, PostsFor, FirstRecordError;
    var m := MergeAll(t.ledger, result.records);
    MergeKeepsShape(t.ledger, result.records);
    InsertedKeys(t.ledger, result.records);
    PostsForAreExact(m.ledger, t.ledger, m.inserted, target, result.complete, t.positions);
  }

  lemma FetchPostKeys(t: Tables, target: Target, result: FetchResult)
    requires Shaped(t.ledger)
    requires FetchInto(t, target.subscription, target, result).Accepted?
    ensures var step := FetchInto(t, target.subscription, target, result);
            && DistinctPosts(step.posts)
            && t.ledger.Keys <= step.tables.ledger.Keys
            && (forall p :: p in step.posts ==>
                  PostKey(p) !in t.ledger && PostKey(p) in step.tables.ledger && p.ext.TradeId?)
  {
    var step := FetchInto(t, target.subscription, target, result);
    FetchPostsAreExact(t, target, result);
    FetchedLedger(t, target, result);
    MergeGrows(t.ledger, result.records);
    hide FetchInto, ChangesBetween, Effective, MergeAll, Rows, Reconcile;
    forall p | p in step.posts
      ensures PostKey(p) !in t.ledger && PostKey(p) in step.tables.ledger && p.ext.TradeId?
    {
      assert Posted(step.posts, PostKey(p));
    }
  }

  /** All posts of a sequence of accepted fetches within one epoch, in order. */
  ghost function PostsDuring(t: Tables, target: Target, results: seq<FetchResult>): seq<Post>
    requires Shaped(t.ledger) && AfterFetches(t, target, results).Some?
  {
    if results == [] then []
    else
      var n := |results| - 1;
      var before := AfterFetches(t, target, results[..n]).value;
      PostsDuring(t, target, results[..n]) + FetchInto(before, target.subscription, target, results[n]).posts
  }

  /** Within an epoch no (id, revision) is ever enqueued twice. */
  lemma {:induction false} NeverEnqueuedTwice(t: Tables, target: Target, results: seq<FetchResult>)
    requires Shaped(t.ledger) && AfterFetches(t, target, results).Some?
    ensures DistinctPosts(PostsDuring(t, target, results))
    ensures forall p :: p in PostsDuring(t, target, results) ==>
              PostKey(p) in AfterFetches(t, target, results).value.ledger
  {
    hide FetchInto;
    if results != [] {
      var n := |results| - 1;
      NeverEnqueuedTwice(t, target, results[..n]);
      var before := AfterFetches(t, target, results[..n]).value;
      FetchPostKeys(before, target, results[n]);
      var early, late := PostsDuring(t, target, results[..n]),
        FetchInto(before, target.subscription, target, results[n]).posts;
      forall i, j | 0 <= i < j < |early + late| ensures PostKey((early + late)[i]) != PostKey((early + late)[j]) {
        if i < |early| <= j {
          assert early[i] in early && late[j - |early|] in late;
        }
      }
    }
  }

  /** A changed start time makes the next accepted fetch a silent baseline again. */
  lemma FirstFetchOfEpochIsSilent(t: Tables, requested: Option<int>, target: Target, result: FetchResult)
    requires Shaped(t.ledger) && !SameStart(t, requested)
    requires FetchInto(Restarted(t, requested), target.subscription, target, result).Accepted?
    ensures FetchInto(Restarted(t, requested), target.subscription, target, result).posts == []
    ensures forall r {:trigger RecordKey(r)} :: r in result.records ==>
              RecordKey(r) in FetchInto(Restarted(t, requested), target.subscription, target, result).tables.ledger
  {
    var fresh' := Restarted(t, requested);
    FetchPostsAreExact(fresh', target, result);
    FetchedLedger(fresh', target, result);
    LedgerHoldsItself(fresh'.ledger);
    MergeHolds(fresh'.ledger, RecordSet(fresh'.ledger), result.records);
    hide FetchInto, MergeAll, Effective, Reconcile, ExactPosts, Rows, Agree;
  }
}
