/** What the replay promises whatever the history: the order of arrival and superseded
    revisions do not matter, and an incomplete history only ever weakens an estimate. */
module ReplayTheorems {
  import opened Prelude
  import opened TradeModels
  import opened TradeReconciler

  // ---- Replay determinism ---------------------------------------------------------

  /** A revision of a record has one content and one observation. */
  ghost predicate Consistent(rs: seq<Record>) {
    forall x, y :: x in rs && y in rs && x.id == y.id && x.revision == y.revision ==> x == y
  }

  lemma WinnerIsUnrevised(rs: seq<Record>, id: int)
    requires id in Ids(rs)
    ensures forall r :: r in rs && r.id == id ==> !Winner(rs, id).RevisedBy(r)
  {
    GroupMembers(rs, id);
    GroupOfPresentId(rs, id);
    LatestIsGreatest(Group(rs, id));
  }

  /** In a consistent history the winner is the only unrevised record of its id. */
  lemma UnrevisedIsWinner(rs: seq<Record>, r: Record)
    requires Consistent(rs) && r in rs
    requires forall x :: x in rs && x.id == r.id ==> !r.RevisedBy(x)
    ensures r == Winner(rs, r.id)
  {
    WinnerIsUnrevised(rs, r.id);
  }

  /** Two listings of the same records, in any order and with any repetition, give the
      same events and the same positions. */
  lemma ReplayIgnoresArrivalOrder(rs: seq<Record>, ss: seq<Record>, complete: bool)
    requires Consistent(rs) && Elements(rs) == Elements(ss)
    ensures Reconcile(rs, complete) == Reconcile(ss, complete)
  {
    assert forall r :: r in rs <==> r in Elements(rs);
    assert forall r :: r in ss <==> r in Elements(ss);
    assert Ids(rs) == Ids(ss);
    forall id | id in Ids(rs) ensures Winner(rs, id) == Winner(ss, id) {
      WinnerIsUnrevised(ss, id);
      UnrevisedIsWinner(rs, Winner(ss, id));
    }
    assert Winners(rs) == Winners(ss);
    SameCorrections(rs, ss, Effective(rs), complete);
  }

  lemma {:induction false} SameCorrections(rs: seq<Record>, ss: seq<Record>, es: seq<Record>, complete: bool)
    requires forall r :: r in rs <==> r in ss
    ensures Events(rs, es, complete) == Events(ss, es, complete)
  {
    if es != [] {
      SameCorrections(rs, ss, es[..|es| - 1], complete);
      assert Corrected(rs, es[|es| - 1].id) == Corrected(ss, es[|es| - 1].id);
    }
  }

  /** A revision that loses to the selected one moves no position, wherever it arrives. */
  lemma StaleRevisionMovesNothing(rs: seq<Record>, late: Record, ss: seq<Record>, complete: bool)
    requires Consistent(ss) && Elements(ss) == Elements(rs) + {late}
    requires late.id in Ids(rs) && late.RevisedBy(Winner(rs, late.id))
    ensures Reconcile(ss, complete).positions == Reconcile(rs, complete).positions
  {
    assert forall r :: r in rs <==> r in Elements(rs);
    assert forall r :: r in ss <==> r in Elements(ss);
    assert Ids(rs) == Ids(ss);
    forall id | id in Ids(rs) ensures Winner(rs, id) == Winner(ss, id) {
      WinnerIsUnrevised(rs, id);
      UnrevisedIsWinner(ss, Winner(rs, id));
    }
    assert Winners(rs) == Winners(ss);
  }

  // ---- Incomplete history only weakens --------------------------------------------

  ghost predicate SameEstimate(p: Position, q: Position) {
    p.side == q.side && p.quantity == q.quantity && p.entry == q.entry
    && p.leverage == q.leverage && p.status == q.status
  }

  ghost predicate IsUnknown(p: Position) {
    p.side == NoSide && p.quantity.None? && p.entry.None? && p.leverage.None? && p.status == Unknown
  }

  /** `p` says what `q` says or admits it does not know, and never with more than LOW. */
  ghost predicate Weakens(p: Position, q: Position) {
    (SameEstimate(p, q) || IsUnknown(p)) && p.confidence in {Low, NoConfidence}
  }

  ghost predicate AllWeaken(weak: Positions, full: Positions) {
    weak.Keys == full.Keys && forall k :: k in weak ==> Weakens(weak[k], full[k])
  }

  lemma BucketStepWeakens(r: Record, weak: Option<Position>, full: Option<Position>)
    requires !r.op.Reverse?
    requires weak.Some? <==> full.Some?
    requires weak.Some? ==> Weakens(weak.value, full.value)
    ensures Weakens(NextPosition(r, weak, false).position, NextPosition(r, full, true).position)
  {
    if weak.Some? && SameEstimate(weak.value, full.value) {
      assert WeightedEntry(weak.value, r) == WeightedEntry(full.value, r);
    }
    match r.op
    case Open =>
    case Add =>
    case Increase =>
    case Reduce =>
    case Decrease =>
    case Close =>
  }

  lemma ReverseWeakens(r: Record, weak: Positions, full: Positions, k: Key)
    requires AllWeaken(weak, full) && r.op.Reverse?
    requires k in weak && k != r.Slot()
    ensures Weakens(Apply(r, weak, false).positions[k], Apply(r, full, true).positions[k])
  {
    hide NextPosition, AllWeaken, Weakens;
    assert Opposites(r, weak) <= Opposites(r, full) by { OppositesWeaken(r, weak, full); }
    assert Weakens(weak[k], full[k]) by { WeakAt(weak, full, k); }
    assert k in Opposites(r, weak) <==> k.symbol == r.symbol && weak[k].status == Active;
    FlatWeakens(weak[k], full[k], Key(weak[k].symbol, weak[k].bucket), Key(full[k].symbol, full[k].bucket),
      r.eventTime);
  }

  lemma WeakAt(weak: Positions, full: Positions, k: Key)
    requires AllWeaken(weak, full) && k in weak
    ensures k in full && Weakens(weak[k], full[k])
  {
  }

  lemma OppositesWeaken(r: Record, weak: Positions, full: Positions)
    requires AllWeaken(weak, full)
    ensures Opposites(r, weak) <= Opposites(r, full)
  {
  }

  /** Closing an active bucket weakens whatever the complete reading closed or held there. */
  lemma FlatWeakens(p: Position, q: Position, i: Key, j: Key, time: int)
    requires Weakens(p, q)
    ensures Weakens(FlatAt(i, time, false), FlatAt(j, time, true))
    ensures p.status == Active <==> q.status == Active && SameEstimate(p, q)
    ensures p.status != Active && q.status == Active ==> Weakens(p, FlatAt(j, time, true))
  {
  }

  lemma StepWeakens(r: Record, weak: Positions, full: Positions)
    requires AllWeaken(weak, full)
    ensures AllWeaken(Apply(r, weak, false).positions, Apply(r, full, true).positions)
    ensures Weakens(Apply(r, weak, false).position, Apply(r, full, true).position)
  {
    if r.op.Reverse? {
      assert Opposites(r, weak) <= Opposites(r, full);
      assert Weakens(Apply(r, weak, false).position, Apply(r, full, true).position);
      forall k | k in weak && k != r.Slot()
        ensures Weakens(Apply(r, weak, false).positions[k], Apply(r, full, true).positions[k])
      {
        ReverseWeakens(r, weak, full, k);
      }
    } else {
      BucketStepWeakens(r, At(weak, r.Slot()), At(full, r.Slot()));
    }
  }

  lemma {:induction false} ReplayWeakens(es: seq<Record>)
    ensures AllWeaken(Replay(es, false), Replay(es, true))
  {
    if es != [] {
      ReplayWeakens(es[..|es| - 1]);
      StepWeakens(es[|es| - 1], Replay(es[..|es| - 1], false), Replay(es[..|es| - 1], true));
    }
  }

  /** Over all seven operations: the same buckets, the same events in the same order, and
      nothing claimed that the complete reading would not claim. */
  lemma IncompleteHistoryOnlyWeakens(rs: seq<Record>)
    ensures AllWeaken(Reconcile(rs, false).positions, Reconcile(rs, true).positions)
    ensures |Reconcile(rs, false).events| == |Reconcile(rs, true).events|
    ensures forall i :: 0 <= i < |Reconcile(rs, true).events| ==>
              Reconcile(rs, false).events[i].record == Reconcile(rs, true).events[i].record
              && Weakens(Reconcile(rs, false).events[i].after, Reconcile(rs, true).events[i].after)
  {
    hide Apply, Replay, Weakens, AllWeaken;
    var es := Effective(rs);
    ReplayWeakens(es);
    forall i | 0 <= i < |es|
      ensures Events(rs, es, false)[i].record == Events(rs, es, true)[i].record
      ensures Weakens(Events(rs, es, false)[i].after, Events(rs, es, true)[i].after)
    {
      EventsGrow(rs, es, i, false);
      EventsGrow(rs, es, i, true);
      ReplayWeakens(es[..i]);
      StepWeakens(es[i], Replay(es[..i], false), Replay(es[..i], true));
    }
  }

  // ---- Shape of every replayed position -------------------------------------------

  /** What every position the replay produces satisfies. */
  ghost predicate WellShaped(k: Key, p: Position) {
    && p.Slot() == k
    && (p.quantity.Some? && p.status == Active ==> p.quantity.value > 0.0)
    && (p.status == Active ==> p.side == p.bucket && p.side in {Long, Short})
    && (p.status == Closed ==> p.side == Flat && p.quantity == Some(0.0) && p.entry.None? && p.leverage.None?)
    && (p.status == Unknown ==> IsUnknown(p))
    && p.status != Stale
    && (p.entry.Some? ==> p.entry.value >= 0.0)
    && (p.leverage.Some? ==> p.leverage.value > 0.0)
    && p.asOf.Some? && p.staleSince.None?
    && p.mark.None? && p.notional.None? && p.margin.None? && p.pnl.None? && p.priceAt.None?
  }

  ghost predicate AllWellShaped(positions: Positions) {
    forall k :: k in positions ==> WellShaped(k, positions[k])
  }

  lemma MeanNonNegative(q: real, e: real, d: real, p: real)
    requires q > 0.0 && e >= 0.0 && d > 0.0 && p >= 0.0
    ensures Mean(q, e, d, p) >= 0.0
  {
    assert q * e >= 0.0 && d * p >= 0.0;
  }

  lemma WeightedEntryNonNegative(current: Position, r: Record)
    requires Sound(r) && WellShaped(current.Slot(), current) && current.status == Active
    ensures WeightedEntry(current, r).Some? ==> WeightedEntry(current, r).value >= 0.0
  {
    if WeightedEntry(current, r).Some? {
      var q, e, d, p := current.quantity.value, current.entry.value, r.quantity.value, r.price.value;
      MeanNonNegative(q, e, d, p);
    }
  }

  lemma ActiveShape(r: Record, quantity: Option<real>, complete: bool, entry: Option<real>, leverage: Option<real>)
    requires quantity.Some? ==> quantity.value > 0.0
    requires entry.Some? ==> entry.value >= 0.0
    requires leverage.Some? ==> leverage.value > 0.0
    ensures WellShaped(r.Slot(), ActivePosition(r, quantity, complete, entry, leverage))
  {
  }

  lemma RaisedShape(r: Record, current: Option<Position>, complete: bool)
    requires Sound(r)
    requires current.Some? ==> WellShaped(r.Slot(), current.value)
    ensures WellShaped(r.Slot(), Raised(r, current, complete).position)
  {
    ActiveShape(r, r.quantity, complete, r.price, r.leverage);
    if current.Some? && current.value.status == Active && r.bucket in {Long, Short} {
      var held := current.value;
      WeightedEntryNonNegative(held, r);
      ActiveShape(r, if held.quantity.Some? && r.quantity.Some?
                     then Some(held.quantity.value + r.quantity.value) else None,
                  complete, WeightedEntry(held, r), if r.leverage.Some? then r.leverage else held.leverage);
    }
  }

  lemma LoweredShape(r: Record, current: Option<Position>, complete: bool)
    requires current.Some? ==> WellShaped(r.Slot(), current.value)
    ensures WellShaped(r.Slot(), Lowered(r, current, complete).position)
  {
    if current.Some? && current.value.status == Active {
      var held := current.value;
      ActiveShape(r, None, complete, held.entry, held.leverage);
      if held.quantity.Some? && r.quantity.Some? && r.quantity.value < held.quantity.value {
        ActiveShape(r, Some(held.quantity.value - r.quantity.value), complete, held.entry, held.leverage);
      }
    }
  }

  lemma BucketStepShape(r: Record, current: Option<Position>, complete: bool)
    requires Sound(r) && !r.op.Reverse?
    requires current.Some? ==> WellShaped(r.Slot(), current.value)
    ensures WellShaped(r.Slot(), NextPosition(r, current, complete).position)
  {
    ActiveShape(r, r.quantity, complete, r.price, r.leverage);
    RaisedShape(r, current, complete);
    LoweredShape(r, current, complete);
  }

  lemma FlattenedShape(before: Positions, keys: set<Key>, time: int, complete: bool)
    requires AllWellShaped(before)
    ensures AllWellShaped(Flattened(before, keys, time, complete))
  {
    forall k | k in before ensures WellShaped(k, Flattened(before, keys, time, complete)[k]) {
      assert WellShaped(k, before[k]);
    }
  }

  lemma StepShape(r: Record, before: Positions, complete: bool)
    requires Sound(r) && AllWellShaped(before)
    ensures AllWellShaped(Apply(r, before, complete).positions)
    ensures WellShaped(r.Slot(), Apply(r, before, complete).position)
  {
    if r.op.Reverse? {
      ActiveShape(r, r.quantity, complete, r.price, r.leverage);
      FlattenedShape(before, Opposites(r, before), r.eventTime, complete);
    } else {
      BucketStepShape(r, At(before, r.Slot()), complete);
    }
  }

  lemma {:induction false} ReplayShape(es: seq<Record>, complete: bool)
    requires forall r :: r in es ==> Sound(r)
    ensures AllWellShaped(Replay(es, complete))
  {
    if es != [] {
      ReplayShape(es[..|es| - 1], complete);
      StepShape(es[|es| - 1], Replay(es[..|es| - 1], complete), complete);
    }
  }

  ghost predicate DatedFrom(positions: Positions, start: int) {
    forall k :: k in positions ==> positions[k].asOf.Some? && start <= positions[k].asOf.value
  }

  lemma BucketStepDated(r: Record, current: Option<Position>, complete: bool)
    requires !r.op.Reverse?
    ensures NextPosition(r, current, complete).position.asOf == Some(r.eventTime)
  {
  }

  lemma StepDated(r: Record, before: Positions, complete: bool, start: int)
    requires start <= r.eventTime && DatedFrom(before, start)
    ensures DatedFrom(Apply(r, before, complete).positions, start)
  {
    hide NextPosition;
    if !r.op.Reverse? { BucketStepDated(r, At(before, r.Slot()), complete); }
  }

  /** Every position is dated no earlier than the earliest record. */
  lemma {:induction false} ReplayDated(es: seq<Record>, complete: bool, start: int)
    requires forall r :: r in es ==> start <= r.eventTime
    ensures DatedFrom(Replay(es, complete), start)
  {
    if es != [] {
      ReplayDated(es[..|es| - 1], complete, start);
      StepDated(es[|es| - 1], Replay(es[..|es| - 1], complete), complete, start);
    }
  }

  // ---- What the explicit operations mean ------------------------------------------

  /** The records of one symbol, in replay order. */
  function OfSymbol(es: seq<Record>, symbol: int): seq<Record> {
    if es == [] then []
    else
      var n := |es| - 1;
      OfSymbol(es[..n], symbol) + if es[n].symbol == symbol then [es[n]] else []
  }

  ghost predicate AgreeOn(a: Positions, b: Positions, symbol: int) {
    forall k: Key :: k.symbol == symbol ==> At(a, k) == At(b, k)
  }

  ghost predicate KeyedBySlot(positions: Positions) {
    forall k :: k in positions ==> positions[k].Slot() == k
  }

  lemma NextPositionSlot(r: Record, current: Option<Position>, complete: bool)
    requires !r.op.Reverse?
    ensures NextPosition(r, current, complete).position.Slot() == r.Slot()
  {
  }

  lemma {:induction false} ReplayKeyed(es: seq<Record>, complete: bool)
    ensures KeyedBySlot(Replay(es, complete))
  {
    hide NextPosition;
    if es != [] {
      var r, before := es[|es| - 1], Replay(es[..|es| - 1], complete);
      ReplayKeyed(es[..|es| - 1], complete);
      if !r.op.Reverse? { NextPositionSlot(r, At(before, r.Slot()), complete); }
    }
  }

  lemma StepOnSymbol(r: Record, a: Positions, b: Positions, symbol: int, complete: bool)
    requires AgreeOn(a, b, symbol) && r.symbol == symbol
    ensures AgreeOn(Apply(r, a, complete).positions, Apply(r, b, complete).positions, symbol)
  {
    hide NextPosition;
    assert At(a, r.Slot()) == At(b, r.Slot());
    if r.op.Reverse? {
      forall k ensures k in Opposites(r, a)
        <==> k in Opposites(r, b) { assert k.symbol == symbol ==> At(a, k) == At(b, k); }
      assert Opposites(r, a) == Opposites(r, b);
    }
  }

  lemma StepOffSymbol(r: Record, before: Positions, symbol: int, complete: bool)
    requires r.symbol != symbol
    ensures AgreeOn(Apply(r, before, complete).positions, before, symbol)
  {
    hide NextPosition;
  }

  /** Over all seven operations, REVERSE included, the positions of a symbol are those its
      own records alone would give. */
  lemma {:induction false} SymbolsAreIndependent(es: seq<Record>, symbol: int, complete: bool)
    ensures AgreeOn(Replay(es, complete), Replay(OfSymbol(es, symbol), complete), symbol)
  {
    hide Apply, AgreeOn;
    if es == [] {
      assert AgreeOn(map[], map[], symbol) by { NothingDiffers(symbol); }
    } else {
      var n := |es| - 1;
      var own := OfSymbol(es[..n], symbol);
      SymbolsAreIndependent(es[..n], symbol, complete);
      if es[n].symbol == symbol {
        assert (own + [es[n]])[..|own|] == own;
        StepOnSymbol(es[n], Replay(es[..n], complete), Replay(own, complete), symbol, complete);
      } else {
        assert OfSymbol(es, symbol) == own;
        StepOffSymbol(es[n], Replay(es[..n], complete), symbol, complete);
        AgreeTransitive(Replay(es, complete), Replay(es[..n], complete), Replay(own, complete), symbol);
      }
    }
  }

  lemma NothingDiffers(symbol: int)
    ensures AgreeOn(map[], map[], symbol)
  {
  }

  lemma AgreeTransitive(a: Positions, b: Positions, c: Positions, symbol: int)
    requires AgreeOn(a, b, symbol) && AgreeOn(b, c, symbol)
    ensures AgreeOn(a, c, symbol)
  {
    forall k: Key | k.symbol == symbol ensures At(a, k) == At(c, k) { assert At(a, k) == At(b, k); }
  }

  ghost predicate ActiveAt(positions: Positions, k: Key) {
    k in positions && positions[k].status == Active
  }

  /** A REVERSE to a direction leaves at most one active bucket of its symbol, its own, and
      that one exactly when some other bucket was active to be reversed; it then starts
      anew at the record's quantity and price, and a closed bucket is flat and dated by
      the record. */
  lemma ReverseLeavesOneSide(es: seq<Record>, r: Record, complete: bool)
    requires r.op.Reverse? && r.bucket in {Long, Short}
    ensures var before, after := Replay(es, complete), Replay(es + [r], complete);
            && (forall k: Key :: k.symbol == r.symbol && ActiveAt(after, k) ==> k == r.Slot())
            && (ActiveAt(after, r.Slot()) <==>
                  exists k: Key :: k.symbol == r.symbol && k != r.Slot() && ActiveAt(before, k))
            && (ActiveAt(after, r.Slot()) ==>
                  after[r.Slot()].quantity == r.quantity && after[r.Slot()].entry == r.price)
            && (forall k: Key :: ActiveAt(before, k) && !ActiveAt(after, k) && k != r.Slot() ==>
                  k in after && after[k] == FlatAt(k, r.eventTime, complete))
  {
    var before, after := Replay(es, complete), Replay(es + [r], complete);
    ReplayKeyed(es, complete);
    assert (es + [r])[..|es|] == es;
    hide Replay, NextPosition, ActivePosition;
    ReversedSlot(r, before, complete);
    forall k: Key | k != r.Slot() ensures At(after, k) == ReversedOther(r, before, k, complete) {
      OtherBucket(r, before, k, complete);
    }
  }

  /** What a REVERSE makes of another bucket. */
  function ReversedOther(r: Record, before: Positions, k: Key, complete: bool): Option<Position> {
    if k.symbol == r.symbol && k in before && before[k].status == Active then Some(FlatAt(k, r.eventTime, complete))
    else At(before, k)
  }

  lemma OtherBucket(r: Record, before: Positions, k: Key, complete: bool)
    requires r.op.Reverse? && r.bucket in {Long, Short} && k != r.Slot() && KeyedBySlot(before)
    ensures At(Apply(r, before, complete).positions, k) == ReversedOther(r, before, k, complete)
  {
    hide ActivePosition;
    assert k in before ==> before[k].Slot() == k;
    assert ReversedOther(r, before, k, complete) != At(before, k) ==> k in Opposites(r, before);
  }

  lemma ReversedSlot(r: Record, before: Positions, complete: bool)
    requires r.op.Reverse? && r.bucket in {Long, Short}
    ensures var after := Apply(r, before, complete).positions;
            && (ActiveAt(after, r.Slot()) <==>
                  exists k: Key :: k.symbol == r.symbol && k != r.Slot() && ActiveAt(before, k))
            && (ActiveAt(after, r.Slot()) ==>
                  after[r.Slot()].quantity == r.quantity && after[r.Slot()].entry == r.price)
  {
    forall k: Key ensures k in Opposites(r, before) <==> k.symbol == r.symbol && k != r.Slot() && ActiveAt(before, k) {}
    if k :| k in Opposites(r, before) { assert ActiveAt(before, k); }
  }

  lemma SameBucketStep(f: Record, a: Positions, b: Positions, k: Key, complete: bool)
    requires !f.op.Reverse? && At(a, k) == At(b, k)
    ensures At(Apply(f, a, complete).positions, k) == At(Apply(f, b, complete).positions, k)
  {
    hide NextPosition;
  }

  lemma OutrightStep(r: Record, a: Positions, b: Positions, complete: bool)
    requires r.op in {Open, Close}
    ensures At(Apply(r, a, complete).positions, r.Slot()) == At(Apply(r, b, complete).positions, r.Slot())
  {
  }

  lemma ReplayLast(es: seq<Record>, r: Record, complete: bool)
    ensures Replay(es + [r], complete) == Apply(r, Replay(es, complete), complete).positions
  {
    assert (es + [r])[..|es|] == es;
  }

  /** OPEN and CLOSE state a bucket outright: nothing that came before matters to what the
      following operations on it make of it. */
  lemma {:induction false} OpenAndCloseForget(es: seq<Record>, r: Record, fs: seq<Record>, complete: bool)
    requires r.op in {Open, Close}
    requires forall f :: f in fs ==> !f.op.Reverse?
    ensures At(Replay(es + [r] + fs, complete), r.Slot()) == At(Replay([r] + fs, complete), r.Slot())
  {
    hide Apply, Replay;
    if fs == [] {
      ReplayLast(es, r, complete);
      ReplayLast([], r, complete);
      assert es + [r] + fs == es + [r] && [r] + fs == [] + [r];
      OutrightStep(r, Replay(es, complete), Replay([], complete), complete);
    } else {
      var n := |fs| - 1;
      assert fs[..n] + [fs[n]] == fs;
      OpenAndCloseForget(es, r, fs[..n], complete);
      ReplayLast(es + [r] + fs[..n], fs[n], complete);
      ReplayLast([r] + fs[..n], fs[n], complete);
      assert es + [r] + fs == (es + [r] + fs[..n]) + [fs[n]] && [r] + fs == ([r] + fs[..n]) + [fs[n]];
      SameBucketStep(fs[n], Replay(es + [r] + fs[..n], complete), Replay([r] + fs[..n], complete), r.Slot(), complete);
    }
  }
}
