/** Every post the collector builds passes the server's checks. */
module PostAcceptance {
  import opened Prelude
  import opened TradeModels
  import opened TradeReconciler
  import opened ReplayTheorems
  import opened TradeStore
  import opened TradeStructurer
  import opened PostTheorems
  import opened CollectorDb
  import opened CollectorApi

  ghost predicate Directional(r: Record) { r.op in {Increase, Decrease} }

  /** A trade post the upload endpoint admits and the analysis queue accepts; the action
      check is promised for directional operations, which is what the provider emits. */
  ghost predicate PostOk(p: Post, start: Option<int>) {
    && p.trade.Some?
    && (Directional(p.trade.value.record) ==> ValidPayload(p.trade.value))
    && p.platform == BINANCE_COPY
    && p.publishedAt == Some(p.trade.value.record.eventTime)
    && (start.Some? ==> start.value <= p.trade.value.record.eventTime)
    && BatchOf(p).Some? && 1 <= BatchOf(p).value.size <= MAX_BATCH
  }

  /** The upload endpoint admits such a post of a subscription configured alike. */
  lemma OkPostIsAdmitted(row: OutboxRow, subs: map<int, Subscription>, start: Option<int>)
    requires PostOk(row.post, start)
    requires row.subscription in subs && subs[row.subscription].platform == BINANCE_COPY
    requires subs[row.subscription].start == start
    ensures Admissible(Packed(row), subs)
  {
  }

  ghost predicate EventOk(e: Event, start: Option<int>) {
    && (Directional(e.record) ==> ActionFits(e.action, e.record.op))
    && Sound(e.record) && (start.Some? ==> start.value <= e.record.eventTime)
    && e.record.platform == BINANCE_COPY
    && ValidEstimate(EstimateOf(e.after))
  }

  lemma ShapedEstimate(k: Key, p: Position)
    requires WellShaped(k, p)
    ensures ValidEstimate(EstimateOf(p))
  {
  }

  lemma ImageOk(es: seq<Record>, complete: bool)
    requires forall r :: r in es ==> Sound(r)
    ensures forall k :: k in Replay(es, complete) ==> ValidEstimate(EstimateOf(Replay(es, complete)[k]))
  {
    ReplayShape(es, complete);
    hide Replay, WellShaped, ValidEstimate, EstimateOf;
    forall k | k in Replay(es, complete) ensures ValidEstimate(EstimateOf(Replay(es, complete)[k])) {
      ShapedEstimate(k, Replay(es, complete)[k]);
    }
  }

  lemma EventAtOk(rs: seq<Record>, es: seq<Record>, i: nat, complete: bool, start: Option<int>)
    requires i < |es| && forall r :: r in es ==> Sound(r)
    requires es[i].platform == BINANCE_COPY && (start.Some? ==> start.value <= es[i].eventTime)
    ensures EventOk(EventOf(rs, es[..i + 1], complete), start)
  {
    EventsGrow(rs, es, i, complete);
    assert forall r :: r in es[..i] ==> r in es;
    ReplayShape(es[..i], complete);
    hide Replay, Apply, AllWellShaped, EventOk, EventOf;
    OneEventOk(es[i], Replay(es[..i], complete), complete, EventOf(rs, es[..i + 1], complete), start);
  }

  lemma EventsOk(rs: seq<Record>, complete: bool, start: Option<int>)
    requires forall r :: r in Effective(rs) ==>
               Sound(r) && r.platform == BINANCE_COPY && (start.Some? ==> start.value <= r.eventTime)
    ensures forall e :: e in Reconcile(rs, complete).events ==> EventOk(e, start)
    ensures forall k :: k in Reconcile(rs, complete).positions ==>
              ValidEstimate(EstimateOf(Reconcile(rs, complete).positions[k]))
  {
    var es := Effective(rs);
    hide Effective, Replay, EventOk, EventOf, ValidEstimate;
    ImageOk(es, complete);
    forall i | 0 <= i < |es| ensures EventOk(Events(rs, es, complete)[i], start) {
      assert es[i] in es;
      EventAtOk(rs, es, i, complete, start);
    }
  }

  lemma OneEventOk(r: Record, before: Positions, complete: bool, e: Event, start: Option<int>)
    requires Sound(r) && r.platform == BINANCE_COPY && (start.Some? ==> start.value <= r.eventTime)
    requires AllWellShaped(before)
    requires e.record == r && e.after == Apply(r, before, complete).position
    requires e.action == Correction || e.action == Apply(r, before, complete).action
    ensures EventOk(e, start)
  {
    StepShape(r, before, complete);
    ShapedEstimate(r.Slot(), e.after);
    ActionFitsExactly(r, before, complete);
    hide Apply, WellShaped;
  }

  lemma ChangesOk(before: Positions, after: Positions)
    requires forall k :: k in before ==> ValidEstimate(EstimateOf(before[k]))
    requires forall k :: k in after ==> ValidEstimate(EstimateOf(after[k]))
    ensures UniqueKeys(ChangesBetween(before, after))
    ensures forall c :: c in ChangesBetween(before, after) ==> ValidEstimate(c.before) && ValidEstimate(c.after)
  {
    hide EstimateOf, KeyRank, ChangesOver, ValidEstimate;
    KeysSeparated(before.Keys + after.Keys);
    ListedChangesOk(Arranged(before.Keys + after.Keys, KeyRank), before, after);
  }

  lemma ListedChangesOk(keys: seq<Key>, before: Positions, after: Positions)
    requires Ascending(keys, KeyRank)
    requires forall k :: k in before ==> ValidEstimate(EstimateOf(before[k]))
    requires forall k :: k in after ==> ValidEstimate(EstimateOf(after[k]))
    ensures UniqueKeys(ChangesOver(keys, before, after))
    ensures forall c :: c in ChangesOver(keys, before, after) ==> ValidEstimate(c.before) && ValidEstimate(c.after)
  {
    hide EstimateOf, EstimateAt, KeyRank, ChangesOver, ValidEstimate, SameSignature;
    ChangesOfKeys(keys, before, after);
    forall c | c in ChangesOver(keys, before, after) ensures ValidEstimate(c.before) && ValidEstimate(c.after) {
      EstimateAtOk(before, c.key);
      EstimateAtOk(after, c.key);
    }
  }

  lemma EstimateAtOk(ps: Positions, k: Key)
    requires forall k :: k in ps ==> ValidEstimate(EstimateOf(ps[k]))
    ensures ValidEstimate(EstimateAt(ps, k))
  {
    hide EstimateOf;
  }

  lemma BuiltPostOk(e: Event, batch: Batch, start: Option<int>)
    requires EventOk(e, start)
    requires 1 <= batch.size <= MAX_BATCH && UniqueKeys(batch.changes)
    requires forall c :: c in batch.changes ==> ValidEstimate(c.before) && ValidEstimate(c.after)
    ensures PostOk(PostOf(e, Some(batch)), start)
  {
    hide ActionFits;
  }

  lemma {:induction false} FewInserted(ledger: Ledger, rs: seq<Record>)
    ensures MergeAll(ledger, rs).Merged? ==> |MergeAll(ledger, rs).inserted| <= |rs|
  {
    if rs != [] { FewInserted(ledger, rs[..|rs| - 1]); }
  }

  /** Events with distinct keys are no more than their keys. */
  lemma {:induction false} NoMoreThanKeys(es: seq<Event>, keys: set<LedgerKey>)
    requires DistinctKeys(es)
    requires forall e :: e in es ==> EventKey(e) in keys
    ensures |es| <= |keys|
  {
    if es != [] {
      var n := |es| - 1;
      forall e | e in es[..n] ensures EventKey(e) in keys - {EventKey(es[n])} {
        var i :| 0 <= i < n && es[i] == e;
      }
      NoMoreThanKeys(es[..n], keys - {EventKey(es[n])});
    }
  }

  lemma PostsForOk(rs: seq<Record>, complete: bool, inserted: set<LedgerKey>, target: Target, before: Positions,
                   start: Option<int>)
    requires target.accountId.Some? && |inserted| <= MAX_BATCH
    requires forall r :: r in Effective(rs) ==>
               Sound(r) && r.platform == BINANCE_COPY && (start.Some? ==> start.value <= r.eventTime)
    requires forall k :: k in before ==> ValidEstimate(EstimateOf(before[k]))
    ensures var out := Reconcile(rs, complete);
            forall p :: p in PostsFor(out.events, inserted, target, before, out.positions) ==> PostOk(p, start)
  {
    var out := Reconcile(rs, complete);
    EventsOk(rs, complete, start);
    ChangesOk(before, out.positions);
    EventsHaveDistinctKeys(rs, complete);
    NewEventsAreFiltered(out.events, inserted);
    var es := NewEvents(out.events, inserted);
    hide Effective, Reconcile, NewEvents, ChangesBetween, EventOk, PostOk, PostsOf, DistinctKeys, UniqueKeys,
      ValidEstimate,
         Sound, EstimateOf, EventKey;
    NoMoreThanKeys(es, inserted);
    BuiltPostsOk(es, Batch(BatchId(target.platform, target.accountId.value, EventKeys(es)), |es|,
                           ChangesBetween(before, out.positions)), start);
  }

  lemma BuiltPostsOk(es: seq<Event>, batch: Batch, start: Option<int>)
    requires batch.size == |es| <= MAX_BATCH && UniqueKeys(batch.changes)
    requires forall e :: e in es ==> EventOk(e, start)
    requires forall c :: c in batch.changes ==> ValidEstimate(c.before) && ValidEstimate(c.after)
    ensures forall p :: p in PostsOf(es, batch) ==> PostOk(p, start)
  {
    hide EventOk, PostOf, PostOk, UniqueKeys, ValidEstimate;
    forall i | 0 <= i < |es| ensures PostOk(PostOf(es[i], Some(batch)), start) {
      assert es[i] in es;
      BuiltPostOk(es[i], batch, start);
    }
  }
}
