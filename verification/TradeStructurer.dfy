/** backend/app/services/trade_structurer.py: the server's check that a trade post's action
    fits the operation it reports. */
module TradeStructurer {
  import opened Prelude
  import opened TradeModels
  import opened TradeReconciler
  import opened TradeStore

  predicate ActionFits(action: Action, op: Operation) {
    match action
    case DidOpen => op in {Open, Increase}
    case DidAdd => op in {Add, Increase}
    case DidReduce => op in {Reduce, Decrease}
    case DidClose => op in {Close, Decrease}
    case DidReverse => op == Reverse
    case Correction => true
  }

  predicate NonNegative(x: Option<real>) { x.Some? ==> x.value >= 0.0 }

  predicate ValidEstimate(e: Estimate) {
    NonNegative(e.quantity) && NonNegative(e.entry) && NonNegative(e.leverage)
  }

  predicate UniqueKeys(cs: seq<PositionChange>) {
    forall i, j :: 0 <= i < j < |cs| ==> cs[i].key != cs[j].key
  }

  /** `TradePayload` as the analysis queue validates it; a payload that carries batch
      metadata is a version 2 payload. */
  predicate ValidPayload(p: TradePayload) {
    && ActionFits(p.action, p.record.op)
    && NonNegative(p.record.quantity) && NonNegative(p.record.price) && NonNegative(p.record.leverage)
    && ValidEstimate(p.after)
    && (p.batch.Some? ==>
          p.batch.value.size >= 1 && UniqueKeys(p.batch.value.changes)
          && forall c :: c in p.batch.value.changes ==> ValidEstimate(c.before) && ValidEstimate(c.after))
  }

  /** What the queue refuses a payload for. */
  ghost predicate PayloadFault(p: TradePayload) {
    || (p.action != Correction
        && (p.action, p.record.op) !in {(DidOpen, Open), (DidOpen, Increase), (DidAdd, Add), (DidAdd, Increase),
                                        (DidReduce, Reduce), (DidReduce, Decrease), (DidClose, Close),
                                        (DidClose, Decrease), (DidReverse, Reverse)})
    || Negative(p.record.quantity) || Negative(p.record.price) || Negative(p.record.leverage)
    || NegativeIn(p.after)
    || (p.batch.Some? && (p.batch.value.size == 0
                          || (exists c :: c in p.batch.value.changes && (NegativeIn(c.before) || NegativeIn(c.after)))
                          || Repeats(p.batch.value.changes)))
  }

  predicate Negative(x: Option<real>) { x.Some? && x.value < 0.0 }

  predicate NegativeIn(e: Estimate) { Negative(e.quantity) || Negative(e.entry) || Negative(e.leverage) }

  /** Two changes of one bucket. */
  ghost predicate Repeats(cs: seq<PositionChange>) {
    exists i, j :: 0 <= i < j < |cs| && cs[i].key.symbol == cs[j].key.symbol && cs[i].key.bucket == cs[j].key.bucket
  }

  lemma RepeatsExactly(cs: seq<PositionChange>)
    ensures Repeats(cs) <==> !UniqueKeys(cs)
  {
    forall i, j | 0 <= i < j < |cs|
      ensures cs[i].key == cs[j].key <==> cs[i].key.symbol == cs[j].key.symbol && cs[i].key.bucket == cs[j].key.bucket
    {
    }
  }

  /** The queue takes a payload exactly when it has none of these faults. */
  lemma PayloadExactly(p: TradePayload)
    ensures ValidPayload(p) <==> !PayloadFault(p)
  {
    if p.batch.Some? { RepeatsExactly(p.batch.value.changes); }
    forall e: Estimate ensures ValidEstimate(e) <==> !NegativeIn(e) {}
    hide UniqueKeys, Repeats, ValidEstimate, NegativeIn;
  }

  /** A reduction that leaves the bucket without a position. */
  predicate Empties(r: Record, current: Option<Position>, complete: bool) {
    if current.None? || current.value.status != Active then complete
    else
      && current.value.quantity.Some? && r.quantity.Some?
      && (r.quantity.value == current.value.quantity.value
          || (complete && r.quantity.value > current.value.quantity.value))
  }

  /** The two explicit operations whose inferred action the server refuses. */
  predicate Mismatched(r: Record, current: Option<Position>, complete: bool) {
    || (r.op == Add && current.Some? && current.value.status == Closed)
    || (r.op == Reduce && Empties(r, current, complete))
  }

  /** The collector's action fits its operation unless an ADD reopens a flat bucket or a
      REDUCE empties one. */
  lemma ActionFitsExactly(r: Record, positions: Positions, complete: bool)
    ensures ActionFits(Apply(r, positions, complete).action, r.op)
            <==> !Mismatched(r, At(positions, r.Slot()), complete)
  {
    match r.op
    case Open =>
    case Add =>
    case Increase =>
    case Reduce =>
    case Decrease =>
    case Close =>
    case Reverse =>
  }

  const OPEN_ONE := Record(BINANCE_COPY, 1, 1, 1, Open, 1, Long, Some(1.0), Some(1.0), None, 1, 1, 0)
  const REDUCE_ONE := OPEN_ONE.(id := 2, op := Reduce, eventTime := 2)
  const ADD_ONE := OPEN_ONE.(id := 3, op := Add, eventTime := 3)

  /** Both refusals happen, in the three-record history OPEN 1, REDUCE 1, ADD 1. */
  lemma RefusedHistory()
    ensures Sound(OPEN_ONE) && Sound(REDUCE_ONE) && Sound(ADD_ONE)
    ensures !ActionFits(Apply(REDUCE_ONE, Replay([OPEN_ONE], true), true).action, Reduce)
    ensures !ActionFits(Apply(ADD_ONE, Replay([OPEN_ONE, REDUCE_ONE], true), true).action, Add)
  {
    assert [OPEN_ONE][..0] == [] && [OPEN_ONE, REDUCE_ONE][..1] == [OPEN_ONE];
    var held := Replay([OPEN_ONE], true);
    assert held == Apply(OPEN_ONE, Replay([OPEN_ONE][..0], true), true).positions;
    assert Replay([OPEN_ONE][..0], true) == map[];
    assert held == map[OPEN_ONE.Slot() := ActivePosition(OPEN_ONE, Some(1.0), true, Some(1.0), None)];
    var emptied := Replay([OPEN_ONE, REDUCE_ONE], true);
    assert emptied == Apply(REDUCE_ONE, held, true).positions;
    assert emptied[OPEN_ONE.Slot()] == FlatAt(OPEN_ONE.Slot(), 2, true);
  }
}
