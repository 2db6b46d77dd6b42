/** What a fetch leaves in the tables and posts, column by column, and why one is refused. */
module FetchOutcome {
  import opened Prelude
  import opened TradeModels
  import opened TradeReconciler
  import opened ReplayTheorems
  import opened Valuation
  import opened TradeStore
  import opened FetchTheorems
  import opened PostTheorems

  // ---- Prices and values ----------------------------------------------------------

  /** The account's time, or else the latest observation of the ledger's records. */
  ghost predicate ValuedAt(time: int, result: FetchResult, ledger: Ledger) {
    if result.account.Some? then time == result.account.value.observedAt
    else
      && (exists k :: k in ledger && ledger[k].lastObserved == time)
      && forall k :: k in ledger ==> ledger[k].lastObserved <= time
  }

  lemma {:induction false} LatestIsGreatest(rs: seq<Record>)
    requires rs != []
    ensures exists r :: r in rs && r.observedAt == LatestObserved(rs)
    ensures forall r :: r in rs ==> r.observedAt <= LatestObserved(rs)
  {
    var n := |rs| - 1;
    assert rs == rs[..n] + [rs[n]];
    assert rs[n] in rs;
    if n > 0 {
      LatestIsGreatest(rs[..n]);
      var r :| r in rs[..n] && r.observedAt == LatestObserved(rs[..n]);
      assert r in rs;
    }
  }

  lemma LatestOfLedger(ledger: Ledger)
    requires Shaped(ledger) && ledger != map[]
    ensures Rows(ledger) != []
    ensures exists k :: k in ledger && ledger[k].lastObserved == LatestObserved(Rows(ledger))
    ensures forall k :: k in ledger ==> ledger[k].lastObserved <= LatestObserved(Rows(ledger))
  {
    RowsOfSomething(ledger);
    var rs := Rows(ledger);
    LatestIsGreatest(rs);
    hide LatestObserved;
    forall r ensures r in rs <==> r in RecordSet(ledger) { assert r in rs <==> r in Elements(rs); }
    var r :| r in rs && r.observedAt == LatestObserved(rs);
    var k :| k in ledger && RecordOf(ledger[k]) == r;
    forall k | k in ledger ensures ledger[k].lastObserved <= LatestObserved(rs) {
      assert RecordOf(ledger[k]) in rs;
    }
  }

  /** The row of bucket `k` carries the fetched price with the valuation time, or else what
      the row it replaces carried. */
  ghost predicate Priced(k: Key, p: Position, result: FetchResult, before: Positions, ledger: Ledger) {
    if k.symbol in result.marks then
      p.mark == Some(result.marks[k.symbol]) && p.priceAt.Some? && ValuedAt(p.priceAt.value, result, ledger)
    else if k in before then p.mark == before[k].mark && p.priceAt == before[k].priceAt
    else p.mark.None? && p.priceAt.None?
  }

  /** What is claimed of an active position of known size at a known price; of any other
      nothing is. */
  ghost predicate Appraised(p: Position) {
    if p.status == Active && p.quantity.Some? && p.mark.Some? then
      var worth := Times(p.quantity.value, p.mark.value);
      && p.notional.Some? && p.notional.value >= 0.0 && (p.notional.value == worth || p.notional.value == -worth)
      && (p.margin.Some? <==> p.leverage.Some? && p.leverage.value > 0.0)
      && (p.margin.Some? ==> Times(p.margin.value, p.leverage.value) == p.notional.value)
      && (p.pnl.Some? <==> p.entry.Some?)
      && (p.pnl.Some? && p.side == Long ==> p.pnl.value == worth - Times(p.quantity.value, p.entry.value))
      && (p.pnl.Some? && p.side == Short ==> p.pnl.value == Times(p.quantity.value, p.entry.value) - worth)
    else p.notional.None? && p.margin.None? && p.pnl.None?
  }

  lemma RatioTimes(a: real, b: real)
    requires b > 0.0
    ensures Times(Ratio(a, b), b) == a
  {
  }

  lemma GainSplits(q: real, m: real, e: real)
    ensures Times(m - e, q) == Times(q, m) - Times(q, e)
    ensures Times(e - m, q) == Times(q, e) - Times(q, m)
  {
  }

  ghost predicate Unvalued(p: Position) {
    p.notional.None? && p.margin.None? && p.pnl.None?
  }

  lemma ValuedIsAppraised(p: Position, mark: Option<real>, priceAt: Option<int>)
    requires Unvalued(p)
    ensures var q := Valued(p, mark, priceAt); Appraised(q) && q.mark == mark && q.priceAt == priceAt
  {
    if p.status == Active && p.quantity.Some? && mark.Some? {
      if p.leverage.Some? && p.leverage.value > 0.0 {
        RatioTimes(Abs(Times(p.quantity.value, mark.value)), p.leverage.value);
      }
      if p.entry.Some? { GainSplits(p.quantity.value, mark.value, p.entry.value); }
    }
    hide Times, Ratio;
  }

  lemma ApplyUnvalued(r: Record, before: Positions, complete: bool)
    requires forall k :: k in before ==> Unvalued(before[k])
    ensures forall k :: k in Apply(r, before, complete).positions ==> Unvalued(Apply(r, before, complete).positions[k])
  {
    hide WeightedEntry;
    if r.op.Reverse? { hide NextPosition; } else { hide Opposites, Flattened; }
  }

  lemma {:induction false} ReplayUnvalued(es: seq<Record>, complete: bool)
    ensures forall k :: k in Replay(es, complete) ==> Unvalued(Replay(es, complete)[k])
  {
    hide Apply;
    if es != [] {
      ReplayUnvalued(es[..|es| - 1], complete);
      ApplyUnvalued(es[|es| - 1], Replay(es[..|es| - 1], complete), complete);
    }
  }

  lemma RepricedIsPriced(p: Position, k: Key, previous: Positions, result: FetchResult, time: int, ledger: Ledger)
    requires Unvalued(p) && ValuedAt(time, result, ledger)
    ensures var row := Repriced(p, k, previous, result.marks, time);
            Priced(k, row, result, previous, ledger) && Appraised(row)
  {
    if k.symbol in result.marks { ValuedIsAppraised(p, Some(result.marks[k.symbol]), Some(time)); }
    else if k in previous { ValuedIsAppraised(p, previous[k].mark, previous[k].priceAt); }
    else { ValuedIsAppraised(p, None, None); }
    hide Valued, Appraised, ValuedAt;
  }

  lemma FetchedRows(t: Tables, target: Target, result: FetchResult) returns (inferred: Positions, time: int)
    requires Shaped(t.ledger) && FetchInto(t, target.subscription, target, result).Accepted?
    ensures var after := FetchInto(t, target.subscription, target, result).tables;
            if after.ledger == map[] then after.positions == t.positions
            else
              && ValuedAt(time, result, after.ledger)
              && (forall k :: k in inferred ==> Unvalued(inferred[k]))
              && after.positions == RepricedAll(inferred, t.positions, result.marks, time)
  {
    hide FetchErrorOf, MergeAll, PostsFor, Rows, Effective, Replay, RepricedAll, LatestObserved, Unvalued;
    var m := MergeAll(t.ledger, result.records);
    MergeKeepsShape(t.ledger, result.records);
    inferred, time := map[], 0;
    if m.ledger != map[] {
      var rs := Rows(m.ledger);
      LatestOfLedger(m.ledger);
      ReplayUnvalued(Effective(rs), result.complete);
      inferred := Reconcile(rs, result.complete).positions;
      time := if result.account.Some? then result.account.value.observedAt else LatestObserved(rs);
    }
  }

  /** Every row an accepted fetch writes is priced and appraised. A fetch that leaves the
      ledger empty writes none. */
  lemma EveryRowIsPriced(t: Tables, target: Target, result: FetchResult, k: Key)
    requires Shaped(t.ledger) && FetchInto(t, target.subscription, target, result).Accepted?
    ensures var after := FetchInto(t, target.subscription, target, result).tables;
            if after.ledger == map[] then after.positions == t.positions
            else k in after.positions ==>
              Priced(k, after.positions[k], result, t.positions, after.ledger) && Appraised(after.positions[k])
  {
    var inferred, time := FetchedRows(t, target, result);
    var after := FetchInto(t, target.subscription, target, result).tables;
    hide FetchInto, Repriced, Priced, Appraised, ValuedAt, Unvalued;
    if after.ledger != map[] && k in inferred {
      RepricedIsPriced(inferred[k], k, t.positions, result, time, after.ledger);
    }
  }

  // ---- State, account and observation times ---------------------------------------

  /** An accepted fetch ends the baseline, moves the checkpoint only to a candidate and
      replaces the account only by one that came with it. */
  lemma FetchedState(t: Tables, target: Target, result: FetchResult)
    requires Shaped(t.ledger) && FetchInto(t, target.subscription, target, result).Accepted?
    ensures var after := FetchInto(t, target.subscription, target, result).tables;
            && after.state.Some? && after.state.value.baselineDone
            && after.state.value.start == (if t.state.Some? then t.state.value.start else None)
            && after.state.value.checkpoint
               == (if result.candidate.Some? then result.candidate
                   else if t.state.Some? then t.state.value.checkpoint else None)
            && after.account == (if result.account.Some? then result.account else t.account)
  {
    hide FetchErrorOf, MergeAll, PostsFor, RepricedAll, Reconcile, Rows;
    MergeKeepsShape(t.ledger, result.records);
  }

  /** The first record of the window with this key. */
  ghost predicate FirstWith(rs: seq<Record>, k: LedgerKey, i: nat) {
    i < |rs| && RecordKey(rs[i]) == k && forall j :: 0 <= j < i ==> RecordKey(rs[j]) != k
  }

  /** A row keeps when it was first observed; a new one takes it from the first record of
      the window with its key. */
  lemma {:induction false} FirstObserved(ledger: Ledger, rs: seq<Record>, k: LedgerKey, i: nat)
    requires MergeAll(ledger, rs).Merged?
    ensures var after := MergeAll(ledger, rs).ledger;
            if k in ledger then k in after && after[k].firstObserved == ledger[k].firstObserved
            else if FirstWith(rs, k, i) then k in after && after[k].firstObserved == rs[i].observedAt
            else (forall j :: 0 <= j < |rs| ==> RecordKey(rs[j]) != k) ==> k !in after
  {
    hide RecordKey, Canonical;
    if rs != [] {
      var n := |rs| - 1;
      FirstObserved(ledger, rs[..n], k, i);
      if FirstWith(rs, k, i) && i < n { assert FirstWith(rs[..n], k, i); }
    }
  }

  // ---- Refusals -------------------------------------------------------------------

  ghost predicate Foreign(r: Record, target: Target) {
    r.platform != target.platform || Some(r.accountId) != target.accountId
  }

  /** The first record of the window that is not the target's or lies before its start. */
  ghost predicate FirstOffender(rs: seq<Record>, target: Target, i: nat) {
    i < |rs| && !Belongs(rs[i], target) && forall j :: 0 <= j < i ==> Belongs(rs[j], target)
  }

  lemma {:induction false} OffenderDecides(rs: seq<Record>, target: Target, i: nat)
    requires FirstOffender(rs, target, i)
    ensures FirstRecordError(rs, target) == Some(if Foreign(rs[i], target) then TargetMismatch else BeforeStart)
  {
    var n := |rs| - 1;
    if i < n {
      assert FirstOffender(rs[..n], target, i);
      OffenderDecides(rs[..n], target, i);
    } else {
      RecordsBelong(rs[..n], target);
    }
  }

  lemma {:induction false} SomeOffender(rs: seq<Record>, target: Target) returns (i: nat)
    requires exists r :: r in rs && !Belongs(r, target)
    ensures FirstOffender(rs, target, i)
  {
    var n := |rs| - 1;
    assert rs == rs[..n] + [rs[n]];
    hide Belongs;
    if exists r :: r in rs[..n] && !Belongs(r, target) {
      i := SomeOffender(rs[..n], target);
    } else {
      i := n;
      forall j | 0 <= j < n ensures Belongs(rs[j], target) { assert rs[..n][j] in rs[..n]; }
    }
  }

  /** The reason a fetch is refused for: the first offending record decides between a wrong
      target and an early one, and only a window without one can fail on its checkpoint, and
      only then on a revision with two contents. */
  lemma RefusedExactly(t: Tables, subscription: int, target: Target, result: FetchResult) returns (i: nat)
    requires Shaped(t.ledger)
    ensures var step := FetchInto(t, subscription, target, result);
            if target.subscription != subscription || target.accountId.None? then step == Rejected(TargetMismatch)
            else if exists r :: r in result.records && !Belongs(r, target) then
              && FirstOffender(result.records, target, i)
              && step == Rejected(if Foreign(result.records[i], target) then TargetMismatch else BeforeStart)
            else if result.candidate.Some? && t.Checkpoint().Some?
                    && CheckpointBefore(result.candidate.value, t.Checkpoint().value)
            then step == Rejected(CheckpointBackwards)
            else if Agree(RecordSet(t.ledger) + Elements(result.records)) then step.Accepted?
            else step == Rejected(RevisionCollision)
  {
    FetchAcceptedExactly(t, subscription, target, result);
    RecordsBelong(result.records, target);
    i := 0;
    if exists r :: r in result.records && !Belongs(r, target) {
      i := SomeOffender(result.records, target);
      OffenderDecides(result.records, target, i);
    }
    hide MergeAll, Agree, Committed, FirstRecordError, Belongs, CheckpointBefore;
  }

  // ---- Posts ----------------------------------------------------------------------

  /** A post repeats what the replay says of its record: the record, the action and the
      bucket after it, under the record's identity and time. */
  ghost predicate Reports(p: Post, e: Event) {
    && p.platform == e.record.platform && p.publishedAt == Some(e.record.eventTime)
    && p.ext == TradeId(e.record.accountId, e.record.id, e.record.revision)
    && p.trade.Some? && p.trade.value.record == e.record && p.trade.value.action == e.action
    && p.trade.value.after.side == e.after.side && p.trade.value.after.quantity == e.after.quantity
    && p.trade.value.after.entry == e.after.entry && p.trade.value.after.leverage == e.after.leverage
    && p.trade.value.after.confidence == e.after.confidence && p.trade.value.after.status == e.after.status
  }

  /** `posts` report events of the list, in its order. */
  ghost predicate ReportInOrder(posts: seq<Post>, events: seq<Event>, places: seq<nat>) {
    && |places| == |posts|
    && (forall i, j :: 0 <= i < j < |places| ==> places[i] < places[j])
    && forall i :: 0 <= i < |places| ==> places[i] < |events| && Reports(posts[i], events[places[i]])
  }

  /** `es` are the events at these places. */
  ghost predicate Picks(es: seq<Event>, events: seq<Event>, places: seq<nat>) {
    && |places| == |es|
    && (forall i, j :: 0 <= i < j < |places| ==> places[i] < places[j])
    && forall i :: 0 <= i < |places| ==> places[i] < |events| && es[i] == events[places[i]]
  }

  lemma PickOneMore(es: seq<Event>, events: seq<Event>, places: seq<nat>, e: Event)
    requires Picks(es, events, places)
    ensures Picks(es, events + [e], places)
    ensures Picks(es + [e], events + [e], places + [|events|])
  {
  }

  lemma {:induction false} NewEventsInOrder(events: seq<Event>, inserted: set<LedgerKey>) returns (places: seq<nat>)
    ensures Picks(NewEvents(events, inserted), events, places)
  {
    places := [];
    if events != [] {
      var n := |events| - 1;
      places := NewEventsInOrder(events[..n], inserted);
      PickOneMore(NewEvents(events[..n], inserted), events[..n], places, events[n]);
      assert events == events[..n] + [events[n]];
      assert NewEvents(events[..n], inserted) + [] == NewEvents(events[..n], inserted);
      hide Picks;
      if EventKey(events[n]) in inserted { places := places + [n]; }
    }
  }

  /** The posts of an accepted fetch, in the order of the replay. */
  lemma PostsReport(t: Tables, target: Target, result: FetchResult) returns (places: seq<nat>)
    requires Shaped(t.ledger) && FetchInto(t, target.subscription, target, result).Accepted?
    ensures var step := FetchInto(t, target.subscription, target, result);
            && Shaped(step.tables.ledger)
            && ReportInOrder(step.posts, Reconcile(Rows(step.tables.ledger), result.complete).events, places)
  {
    hide FetchErrorOf, MergeAll, RepricedAll, Reconcile, Rows, NewEvents, ChangesBetween;
    MergeKeepsShape(t.ledger, result.records);
    var m := MergeAll(t.ledger, result.records);
    places := [];
    if m.ledger != map[] && !t.Baseline() {
      places := NewEventsInOrder(Reconcile(Rows(m.ledger), result.complete).events, m.inserted);
    }
  }

  /** By symbol, and LONG before SHORT before UNKNOWN. */
  predicate KeyBefore(x: Key, y: Key) {
    || x.symbol < y.symbol
    || (x.symbol == y.symbol && (x.bucket, y.bucket) in {(Long, Short), (Long, NoSide), (Short, NoSide)})
  }

  lemma KeyOrder(x: Key, y: Key)
    ensures Below(KeyRank(x), KeyRank(y)) <==> KeyBefore(x, y)
  {
  }

  ghost predicate KeysAscend(cs: seq<PositionChange>) {
    forall i, j :: 0 <= i < j < |cs| ==> KeyBefore(cs[i].key, cs[j].key)
  }

  lemma KeysAscendMore(cs: seq<PositionChange>, c: PositionChange)
    requires KeysAscend(cs) && forall i :: 0 <= i < |cs| ==> KeyBefore(cs[i].key, c.key)
    ensures KeysAscend(cs + [c])
  {
    hide KeyBefore;
  }

  lemma {:induction false} ListedChangesAscend(keys: seq<Key>, before: Positions, after: Positions)
    requires Ascending(keys, KeyRank)
    ensures KeysAscend(ChangesOver(keys, before, after))
  {
    hide KeyRank, SameSignature, EstimateAt;
    if keys != [] {
      var n := |keys| - 1;
      ListedChangesAscend(keys[..n], before, after);
      ChangesOfKeys(keys[..n], before, after);
      var cs := ChangesOver(keys[..n], before, after);
      forall i | 0 <= i < |cs| ensures KeyBefore(cs[i].key, keys[n]) {
        assert cs[i] in cs;
        var m :| 0 <= m < n && keys[..n][m] == cs[i].key;
        assert keys[m] == cs[i].key;
        KeyOrder(keys[m], keys[n]);
      }
      KeysAscendMore(cs, PositionChange(keys[n], EstimateAt(before, keys[n]), EstimateAt(after, keys[n])));
      assert cs + [] == cs;
    }
    hide KeysAscend;
  }

  /** The change list goes through the buckets in key order. */
  lemma ChangesAscend(before: Positions, after: Positions)
    ensures KeysAscend(ChangesBetween(before, after))
  {
    KeysSeparated(before.Keys + after.Keys);
    ListedChangesAscend(Arranged(before.Keys + after.Keys, KeyRank), before, after);
    hide KeysAscend, ChangesOver;
  }

  /** The estimate says what the row says; a missing row counts as flat. */
  ghost predicate Recounts(e: Estimate, ps: Positions, k: Key) {
    if k in ps then
      && e.side == ps[k].side && e.quantity == ps[k].quantity && e.entry == ps[k].entry
      && e.leverage == ps[k].leverage && e.confidence == ps[k].confidence && e.status == ps[k].status
    else e.side == Flat && e.quantity == Some(0.0) && e.entry.None? && e.leverage.None? && e.status == Closed
  }

  /** Side, quantity, entry price or leverage differ. */
  predicate Differs(x: Estimate, y: Estimate) {
    x.side != y.side || x.quantity != y.quantity || x.entry != y.entry || x.leverage != y.leverage
  }

  /** A bucket is listed exactly when it differs, with what it was and what it is. */
  lemma ChangesTell(before: Positions, after: Positions, k: Key, x: Estimate, y: Estimate)
    requires Recounts(x, before, k) && Recounts(y, after, k)
    ensures var cs := ChangesBetween(before, after);
            && (forall c :: c in cs ==> Recounts(c.before, before, c.key) && Recounts(c.after, after, c.key))
            && (Differs(x, y) <==> exists c :: c in cs && c.key == k)
  {
    hide KeyRank;
    KeysSeparated(before.Keys + after.Keys);
    var keys := Arranged(before.Keys + after.Keys, KeyRank);
    ChangesOfKeys(keys, before, after);
    SignatureExactly(before, after, k, x, y);
    forall c | c in ChangesBetween(before, after)
      ensures Recounts(c.before, before, c.key) && Recounts(c.after, after, c.key)
    {
      EstimateRecounts(before, c.key);
      EstimateRecounts(after, c.key);
    }
    assert k in keys <==> k in Elements(keys);
    hide Recounts, SameSignature, EstimateAt, Differs, ChangesOver;
    assert Differs(x, y) ==> k in keys by { SignatureExactly(before, after, k, x, y); }
  }

  lemma EstimateRecounts(ps: Positions, k: Key)
    ensures Recounts(EstimateAt(ps, k), ps, k)
  {
  }

  lemma SignatureExactly(before: Positions, after: Positions, k: Key, x: Estimate, y: Estimate)
    requires Recounts(x, before, k) && Recounts(y, after, k)
    ensures Differs(x, y) <==> !SameSignature(EstimateAt(before, k), EstimateAt(after, k))
    ensures Differs(x, y) ==> k in before.Keys + after.Keys
  {
  }
}
