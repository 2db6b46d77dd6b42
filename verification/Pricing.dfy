/** The one check of the server that a well-behaved collector can fail: when a row has a
    zero entry price, and that it really happens. */
module Pricing {
  import opened Prelude
  import opened TradeModels
  import opened TradeReconciler
  import opened ReplayTheorems
  import opened FlatBaseline
  import opened TradeStore
  import opened PositionView
  import opened FetchTheorems
  import opened Refetch
  import CollectorApi
  import opened Reachable
  import opened Snapshots
  import opened BinanceCopy

  lemma EmptyBucket(k: Key)
    ensures At(Replay([], true), k).None?
  {
  }

  /** What the marks leave of an entry price. */
  predicate Erases(mark: Mark) { mark in {UnknownMark, UnknownThenStale} }

  lemma MarkedEntry(p: Position, mark: Mark, image: Position)
    requires EstimateOf(p) == Reading(mark, EstimateOf(image))
    ensures p.entry == if Erases(mark) then None else image.entry
  {
  }

  lemma PricedFills(mine: seq<Record>, k: Key, p: Position)
    requires FillsOf(mine, k) && mine != [] && After(mine, k).Some?
    requires SameEstimate(p, After(mine, k).value) || IsUnknown(p)
    ensures CollectorApi.Priced(p) <==> p.status != Active || PaidSomething(mine, OpenedAt(mine, k))
  {
    FillsOutcome(mine, k);
    if p.status == Active { BucketEntryPositive(mine, k); }
    hide After, OpenedAt, PaidSomething;
  }

  lemma ImageBucket(es: seq<Record>, k: Key, complete: bool)
    requires forall r :: r in es ==> Fill(r)
    requires k in Replay(es, complete)
    ensures var mine := InBucket(es, k);
            && FillsOf(mine, k) && mine != [] && After(mine, k).Some?
            && (SameEstimate(Replay(es, complete)[k], After(mine, k).value) || IsUnknown(Replay(es, complete)[k]))
  {
    hide Replay;
    var mine := InBucket(es, k);
    ReplayWeakens(es);
    BucketsAreIndependent(es, k, true);
    assert k in Replay(es, true) && At(Replay(es, true), k).Some?;
    assert mine != [] by { EmptyBucket(k); }
    assert mine[0] in mine;
    if !complete { assert Weakens(Replay(es, false)[k], Replay(es, true)[k]); }
  }

  /** For a history of fills, complete or not and under whatever marks: a row is priced
      exactly when a mark erased its price, the replay has no active position there, or
      something was paid for it since the bucket opened. */
  lemma RowPricedExactly(t: Tables, mark: Mark, k: Key)
    requires IsView(t, mark) && k in t.positions
    requires forall i :: i in t.ledger ==> Fill(t.ledger[i].canon)
    ensures var mine := InBucket(Effective(Rows(t.ledger)), k);
            CollectorApi.Priced(t.positions[k])
            <==> Erases(mark) || Image(t)[k].status != Active || PaidSomething(mine, OpenedAt(mine, k))
  {
    hide Effective, Rows, Replay, InBucket, OpenedAt, PaidSomething, Reading, EstimateOf, After, SameEstimate,
      IsUnknown, FillsOf;
    var es := Effective(Rows(t.ledger));
    forall r | r in es ensures Fill(r) { FillRow(t.ledger, r); }
    assert Image(t) == Replay(es, t.Start().Some?);
    ImageBucket(es, k, t.Start().Some?);
    PricedFills(InBucket(es, k), k, Image(t)[k]);
    assert EstimateOf(t.positions[k]) == Reading(mark, EstimateOf(Image(t)[k]));
    MarkedEntry(t.positions[k], mark, Image(t)[k]);
  }

  lemma FillRow(ledger: Ledger, r: Record)
    requires Shaped(ledger) && r in Effective(Rows(ledger)) && forall i :: i in ledger ==> Fill(ledger[i].canon)
    ensures Fill(r)
  {
    EffectiveKeys(ledger, r);
    hide Effective, Rows;
  }

  // ---- It happens -----------------------------------------------------------------

  /** A fill at price zero, alone in its page. */
  ghost predicate FreeRow(row: Row, start: int, observedAt: int) {
    ValidRow(row) && row.price == 0.0 && OperationOf(row) == Increase && start <= row.updateTime <= observedAt
  }

  lemma FreePoll(target: Target, row: Row, observedAt: int, extras: Extras)
    requires target.platform == BINANCE_COPY && target.accountId.Some? && target.start.Some?
    requires FreeRow(row, target.start.value, observedAt) && observedAt - WINDOW_SECONDS <= target.start.value
    ensures var r := Normalized(row, target.accountId.value, observedAt);
            Polled(target, None, observedAt, Page([row], 1), extras)
            == Poll(BinanceCopy.Answered(FetchResult([r], Some(CheckpointOf(r)), true, extras.account, extras.marks)),
              Healthy)
  {
    var r := Normalized(row, target.accountId.value, observedAt);
    assert NormalizedAll([row], target.accountId.value, observedAt) == [r];
    assert [r][..0] == [];
    assert Sorted([r]) == [r];
    assert Within([r], target.start.value, observedAt) == [r];
  }

  /** A poll that shows a fill at price zero is healthy, the store accepts it, and the
      server refuses the snapshot that follows. */
  lemma FreeFillRefused(t: Tables, target: Target, row: Row, observedAt: int, extras: Extras,
                        subs: map<int, CollectorApi.Subscription>)
    requires t.ledger == map[] && t.positions == map[] && t.account.None? && t.Checkpoint().None?
    requires t.Start().Some? && target.start == t.Start() && target.platform == BINANCE_COPY && target.accountId.Some?
    requires FreeRow(row, t.Start().value, observedAt) && observedAt - WINDOW_SECONDS <= t.Start().value
    requires CollectorApi.ValidAccount(extras.account) && forall s :: s in extras.marks ==> extras.marks[s] > 0.0
    requires target.subscription in subs
    requires var sub := subs[target.subscription];
             !sub.deleted && sub.platform == BINANCE_COPY && sub.start == t.Start()
    ensures var poll := Polled(target, None, observedAt, Page([row], 1), extras);
            && poll.health == Healthy && poll.answer.Answered?
            && var step := FetchInto(t, target.subscription, target, poll.answer.result);
               && step.Accepted? && Shaped(step.tables.ledger)
               && CollectorApi.Answer(target.subscription, SnapshotOf(step.tables), subs)
                 == CollectorApi.Reply.Malformed
  {
    FreePoll(target, row, observedAt, extras);
    var r := Normalized(row, target.accountId.value, observedAt);
    var result := FetchResult([r], Some(CheckpointOf(r)), true, extras.account, extras.marks);
    hide Polled, SnapshotOf, CollectorApi.Answer, TablesOk, FetchInto, AllPriced, IsView;
    FreeFetch(t, target, result, r);
    var after := FetchInto(t, target.subscription, target, result).tables;
    assert !AllPriced(after.positions) by { FreeRowUnpriced(after, r); }
    SnapshotAnswer(target.subscription, after, subs);
  }

  lemma FreeFetch(t: Tables, target: Target, result: FetchResult, r: Record)
    requires t.ledger == map[] && t.positions == map[] && t.account.None? && t.Checkpoint().None?
    requires t.Start().Some? && target.start == t.Start() && target.platform == BINANCE_COPY && target.accountId.Some?
    requires result.records == [r] && result.complete && Belongs(r, target) && Sound(r)
    requires CollectorApi.ValidAccount(result.account) && forall s :: s in result.marks ==> result.marks[s] > 0.0
    ensures var step := FetchInto(t, target.subscription, target, result);
            && step.Accepted? && TablesOk(step.tables) && IsView(step.tables, Exact) && step.tables.Start() == t.Start()
            && step.tables.ledger == map[RecordKey(r) := LedgerRow(Canonical(r), r.observedAt, r.observedAt)]
  {
    assert Elements([r]) == {r};
    assert RecordSet(t.ledger) == {};
    assert Agree({r});
    FetchAcceptedExactly(t, target.subscription, target, result);
    NoTablesOk(t);
    FetchOk(t, target, result);
    FetchedLedger(t, target, result);
    OneMerged(r);
    hide FetchInto, TablesOk, IsView, MergeAll;
  }

  lemma OneMerged(r: Record)
    ensures MergeAll(map[], [r])
            == Merged(map[RecordKey(r) := LedgerRow(Canonical(r), r.observedAt, r.observedAt)], {RecordKey(r)})
  {
    assert [r][..0] == [];
    assert MergeAll(map[], [r]) == MergeOne(Merged(map[], {}), r);
  }

  lemma FreeRowUnpriced(t: Tables, r: Record)
    requires IsView(t, Exact) && t.Start().Some? && r.op == Increase && r.bucket in {Long, Short}
             && r.price == Some(0.0)
    requires t.ledger == map[RecordKey(r) := LedgerRow(Canonical(r), r.observedAt, r.observedAt)]
    ensures !AllPriced(t.positions)
  {
    var k := RecordKey(r);
    assert Unrevised(t.ledger, k);
    OneEffective(t.ledger, k);
    hide Effective, Rows, IsView, Unrevised;
    StandingPosition(t, r, k);
  }
}
