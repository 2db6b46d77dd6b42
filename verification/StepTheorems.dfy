/** What each trade operation does to its bucket, field by field, and which revision of a
    record and which action an event reports. */
module StepTheorems {
  import opened Prelude
  import opened TradeModels
  import opened TradeReconciler
  import opened ReplayTheorems
  import opened FlatBaseline
  import opened Valuation

  // ---- The operations -------------------------------------------------------------

  /** Nothing is claimed of the bucket. */
  ghost predicate SaysUnknown(p: Position, r: Record) {
    && p.status == Unknown && p.side == NoSide && p.confidence == NoConfidence
    && p.quantity.None? && p.entry.None? && p.leverage.None?
  }

  ghost predicate SaysFlat(p: Position, complete: bool) {
    && p.status == Closed && p.side == Flat && p.confidence == (if complete then High else Low)
    && p.quantity == Some(0.0) && p.entry.None? && p.leverage.None?
  }

  /** The bucket is held on its own side, with these amounts. */
  ghost predicate SaysHeld(p: Position, r: Record, complete: bool, quantity: Option<real>, entry: Option<real>,
                           leverage: Option<real>)
  {
    if r.bucket == NoSide then SaysUnknown(p, r)
    else
      && p.status == Active && p.side == r.bucket
      && p.quantity == quantity && p.entry == entry && p.leverage == leverage
      && p.confidence == (if !complete then Low else if quantity.Some? then High else Medium)
  }

  /** No position to add to or to reduce. */
  predicate Vacant(current: Option<Position>) { current.None? || current.value.status == Closed }

  /** A position on the record's own side to add to. */
  predicate Addable(r: Record, p: Position) { p.status == Active && p.side == r.bucket }

  function Sum(a: Option<real>, b: Option<real>): Option<real> {
    if a.Some? && b.Some? then Some(a.value + b.value) else None
  }

  /** `e` is the average price of the amounts held and added, where all of them are known. */
  ghost predicate AverageOf(e: Option<real>, p: Position, r: Record) {
    if p.quantity.Some? && p.entry.Some? && r.quantity.Some? && r.price.Some?
       && p.quantity.value + r.quantity.value > 0.0
    then e.Some? && Times(e.value, p.quantity.value + r.quantity.value)
                    == Times(p.quantity.value, p.entry.value) + Times(r.quantity.value, r.price.value)
    else e.None?
  }

  ghost predicate OpensAnew(r: Record, complete: bool, action: Action, p: Position) {
    action == DidOpen && SaysHeld(p, r, complete, r.quantity, r.price, r.leverage)
  }

  ghost predicate Raises(r: Record, current: Option<Position>, complete: bool, action: Action, p: Position) {
    if current.None? && r.op == Add then action == DidAdd && SaysUnknown(p, r)
    else if Vacant(current) then OpensAnew(r, complete, action, p)
    else if !Addable(r, current.value) then action == DidAdd && SaysUnknown(p, r)
    else
      && action == DidAdd
      && SaysHeld(p, r, complete, Sum(current.value.quantity, r.quantity), p.entry,
                  if r.leverage.Some? then r.leverage else current.value.leverage)
      && (r.bucket != NoSide ==> AverageOf(p.entry, current.value, r))
  }

  /** A reduction the bucket cannot cover empties it when the history is complete, and is a
      contradiction when it is not. */
  ghost predicate Contradicts(complete: bool, r: Record, action: Action, p: Position) {
    if complete then action == DidClose && SaysFlat(p, true) else action == DidReduce && SaysUnknown(p, r)
  }

  ghost predicate Lowers(r: Record, current: Option<Position>, complete: bool, action: Action, p: Position) {
    if current.None? || current.value.status != Active then Contradicts(complete, r, action, p)
    else
      var held := current.value;
      if held.quantity.None? || r.quantity.None? then
        action == DidReduce && SaysHeld(p, r, complete, None, held.entry, held.leverage)
      else if held.quantity.value < r.quantity.value then Contradicts(complete, r, action, p)
      else if held.quantity.value == r.quantity.value then action == DidClose && SaysFlat(p, complete)
      else
        && action == DidReduce
        && SaysHeld(p, r, complete, Some(held.quantity.value - r.quantity.value), held.entry, held.leverage)
  }

  /** What a record of each operation but REVERSE makes of its bucket, and the action. */
  ghost predicate Follows(r: Record, current: Option<Position>, complete: bool, action: Action, p: Position) {
    && p.symbol == r.symbol && p.bucket == r.bucket && p.asOf == Some(r.eventTime) && p.staleSince.None?
    && match r.op
       case Open => OpensAnew(r, complete, action, p)
       case Add => Raises(r, current, complete, action, p)
       case Increase => Raises(r, current, complete, action, p)
       case Reduce => Lowers(r, current, complete, action, p)
       case Decrease => Lowers(r, current, complete, action, p)
       case Close => action == DidClose && SaysFlat(p, complete)
       case Reverse => true
  }

  lemma AverageIsWeighted(p: Position, r: Record)
    ensures AverageOf(WeightedEntry(p, r), p, r)
  {
    if WeightedEntry(p, r).Some? {
      MeanBalances(p.quantity.value, p.entry.value, r.quantity.value, r.price.value);
    }
  }

  /** Every operation does what the table says, and touches no other bucket. */
  lemma StepFollows(r: Record, before: Positions, complete: bool)
    requires !r.op.Reverse?
    ensures var step := Apply(r, before, complete);
            && Follows(r, At(before, r.Slot()), complete, step.action, step.position)
            && step.positions == before[r.Slot() := step.position]
  {
    var current := At(before, r.Slot());
    if current.Some? { AverageIsWeighted(current.value, r); }
    hide AverageOf, WeightedEntry;
  }

  /** A reduction of a bucket that is absent, not active or holds less. */
  lemma UncoveredReduction(r: Record, before: Positions)
    requires r.op in {Reduce, Decrease}
    requires r.Slot() !in before || before[r.Slot()].status != Active
             || (before[r.Slot()].quantity.Some? && r.quantity.Some?
                 && before[r.Slot()].quantity.value < r.quantity.value)
    ensures SaysUnknown(Apply(r, before, false).positions[r.Slot()], r)
    ensures SaysFlat(Apply(r, before, true).positions[r.Slot()], true)
  {
    StepFollows(r, before, false);
    StepFollows(r, before, true);
    hide Apply;
  }

  ghost predicate Dated(p: Position, k: Key, time: int) {
    p.symbol == k.symbol && p.bucket == k.bucket && p.asOf == Some(time) && p.staleSince.None?
  }

  /** Another active bucket of the record's symbol. */
  predicate ToReverse(r: Record, before: Positions, k: Key) {
    k.symbol == r.symbol && k != r.Slot() && k in before && before[k].status == Active
  }

  /** A REVERSE to a direction with something to reverse closes every other active bucket of
      the symbol and opens its own anew; any other REVERSE leaves its bucket unknown. */
  lemma ReverseFollows(r: Record, before: Positions, complete: bool)
    requires r.op.Reverse? && KeyedBySlot(before)
    ensures var step := Apply(r, before, complete);
            var turns := r.bucket in {Long, Short} && exists k :: ToReverse(r, before, k);
            && step.action == DidReverse && Dated(step.position, r.Slot(), r.eventTime)
            && r.Slot() in step.positions && step.positions[r.Slot()] == step.position
            && (if turns then SaysHeld(step.position, r, complete, r.quantity, r.price, r.leverage)
                else SaysUnknown(step.position, r))
            && step.positions.Keys == before.Keys + {r.Slot()}
            && forall k :: k in before && k != r.Slot() ==>
                 if turns && ToReverse(r, before, k)
                 then SaysFlat(step.positions[k], complete) && Dated(step.positions[k], k, r.eventTime)
                 else step.positions[k] == before[k]
  {
    if k :| ToReverse(r, before, k) { ReverseTurns(r, before, k, complete); }
    else { ReverseStays(r, before, complete); }
    hide Apply;
  }

  lemma ReverseTurns(r: Record, before: Positions, k: Key, complete: bool)
    requires r.op.Reverse? && KeyedBySlot(before) && ToReverse(r, before, k)
    ensures var step := Apply(r, before, complete);
            && step.action == DidReverse && Dated(step.position, r.Slot(), r.eventTime)
            && step.positions.Keys == before.Keys + {r.Slot()} && step.positions[r.Slot()] == step.position
            && (if r.bucket in {Long, Short} then SaysHeld(step.position, r, complete, r.quantity, r.price, r.leverage)
                else SaysUnknown(step.position, r))
            && forall k :: k in before && k != r.Slot() ==>
                 if r.bucket in {Long, Short} && ToReverse(r, before, k)
                 then SaysFlat(step.positions[k], complete) && Dated(step.positions[k], k, r.eventTime)
                 else step.positions[k] == before[k]
  {
    assert k in Opposites(r, before);
    hide NextPosition;
  }

  lemma ReverseStays(r: Record, before: Positions, complete: bool)
    requires r.op.Reverse? && forall k :: !ToReverse(r, before, k)
    ensures var step := Apply(r, before, complete);
            && step.action == DidReverse && Dated(step.position, r.Slot(), r.eventTime)
            && step.positions == before[r.Slot() := step.position] && SaysUnknown(step.position, r)
  {
    forall k | k in Opposites(r, before) ensures ToReverse(r, before, k) {}
    assert Opposites(r, before) == {};
    hide NextPosition;
  }

  // ---- Events ---------------------------------------------------------------------

  /** An event reports the record's action and the position right after it; a record seen in
      several revisions is reported as a correction. */
  lemma EventsTell(rs: seq<Record>, complete: bool, i: nat)
    requires i < |Effective(rs)|
    ensures var es, event := Effective(rs), Reconcile(rs, complete).events[i];
            var before, step := Replay(es[..i], complete), Apply(es[i], Replay(es[..i], complete), complete);
            && event.record == es[i] && event.after == step.position
            && (event.action == Correction
                <==> exists x, y :: x in rs && y in rs && x.id == y.id == es[i].id && x.revision != y.revision)
            && (event.action != Correction && !es[i].op.Reverse? ==>
                  Follows(es[i], At(before, es[i].Slot()), complete, event.action, event.after))
            && (event.action != Correction && es[i].op.Reverse? ==> event.action == DidReverse)
  {
    var es := Effective(rs);
    EventsGrow(rs, es, i, complete);
    if !es[i].op.Reverse? { StepFollows(es[i], Replay(es[..i], complete), complete); }
    StepIsNoCorrection(es[i], Replay(es[..i], complete), complete);
    hide Apply, Replay, Follows, Effective;
  }

  /** Events come in the order of time, record id and revision. */
  lemma EventsAscend(rs: seq<Record>, complete: bool, i: nat, j: nat)
    requires i < j < |Effective(rs)|
    ensures var x, y := Reconcile(rs, complete).events[i].record, Reconcile(rs, complete).events[j].record;
            || x.eventTime < y.eventTime
            || (x.eventTime == y.eventTime && (x.id < y.id || (x.id == y.id && x.revision < y.revision)))
  {
    var es := Effective(rs);
    EventsGrow(rs, es, i, complete);
    EventsGrow(rs, es, j, complete);
    assert Below(RecordRank(es[i]), RecordRank(es[j]));
    hide Apply, Replay, Effective;
  }

  lemma StepIsNoCorrection(r: Record, before: Positions, complete: bool)
    ensures Apply(r, before, complete).action != Correction
    ensures r.op.Reverse? ==> Apply(r, before, complete).action == DidReverse
  {
  }

  // ---- Which revision stands ------------------------------------------------------

  /** The last observed revision, and of those the one with the greatest revision. */
  lemma WinnerExactly(rs: seq<Record>, r: Record)
    requires Consistent(rs) && r in rs
    ensures r.id in Ids(rs)
    ensures r == Winner(rs, r.id)
            <==> forall x :: x in rs && x.id == r.id ==>
                   x.observedAt < r.observedAt || (x.observedAt == r.observedAt && x.revision <= r.revision)
  {
    WinnerIsUnrevised(rs, r.id);
    if forall x :: x in rs && x.id == r.id ==>
         x.observedAt < r.observedAt || (x.observedAt == r.observedAt && x.revision <= r.revision)
    {
      UnrevisedIsWinner(rs, r);
    }
  }

  // ---- Fills of an incomplete history ---------------------------------------------

  /** The position an incomplete reading of `bs` leaves in bucket `k`. */
  function Glimpsed(bs: seq<Record>, k: Key): Option<Position> {
    At(Replay(bs, false), k)
  }

  /** A bucket of fills of unknown beginning is UNKNOWN exactly when its net sum was ever
      below zero; otherwise it holds the net sum, and is FLAT exactly when that is zero. */
  ghost predicate GlimpsedForm(p: Option<Position>, k: Key, mine: seq<Record>) {
    if mine == [] then p.None?
    else
      && p.Some?
      && (p.value.status == Unknown <==> FlatBaseline.Low(mine) < 0.0)
      && (FlatBaseline.Low(mine) < 0.0 ==>
            p.value.side == NoSide && p.value.quantity.None? && p.value.confidence == NoConfidence)
      && (FlatBaseline.Low(mine) >= 0.0 ==>
            && p.value.quantity == Some(Net(mine)) && Net(mine) >= 0.0 && p.value.confidence == Confidence.Low
            && p.value.status == (if Net(mine) == 0.0 then Closed else Active)
            && p.value.side == (if Net(mine) == 0.0 then Flat else k.bucket))
  }

  lemma GlimpsedStep(bs: seq<Record>, k: Key) returns (action: Action)
    requires bs != [] && FillsOf(bs, k)
    ensures var n := |bs| - 1;
            && FillsOf(bs[..n], k) && Fill(bs[n]) && bs[n].Slot() == k && Glimpsed(bs, k).Some?
            && Follows(bs[n], Glimpsed(bs[..n], k), false, action, Glimpsed(bs, k).value)
  {
    var n := |bs| - 1;
    assert bs[n] in bs && forall r :: r in bs[..n] ==> r in bs;
    var before := Replay(bs[..n], false);
    StepFollows(bs[n], before, false);
    action := Apply(bs[n], before, false).action;
    hide Follows, Apply;
  }

  lemma {:induction false} BucketGlimpsed(bs: seq<Record>, k: Key)
    requires FillsOf(bs, k)
    ensures GlimpsedForm(Glimpsed(bs, k), k, bs)
  {
    if bs != [] {
      var n := |bs| - 1;
      var action := GlimpsedStep(bs, k);
      BucketGlimpsed(bs[..n], k);
      GlimpsedNext(bs, k, Glimpsed(bs[..n], k), action, Glimpsed(bs, k).value);
      hide Apply;
    }
  }

  lemma GlimpsedNext(bs: seq<Record>, k: Key, before: Option<Position>, action: Action, p: Position)
    requires bs != [] && FillsOf(bs, k) && Fill(bs[|bs| - 1]) && bs[|bs| - 1].Slot() == k
    requires GlimpsedForm(before, k, bs[..|bs| - 1])
    requires Follows(bs[|bs| - 1], before, false, action, p)
    ensures GlimpsedForm(Some(p), k, bs)
  {
    var n := |bs| - 1;
    assert FlatBaseline.Low(bs) == Least(FlatBaseline.Low(bs[..n]), Net(bs));
    if bs[..n] == [] { assert Net(bs[..n]) == 0.0 && FlatBaseline.Low(bs[..n]) == 0.0; }
    hide AverageOf;
  }

  /** The same for a whole reconciliation of fills. */
  lemma IncompleteClosedForm(rs: seq<Record>, k: Key)
    requires forall r :: r in rs ==> Fill(r)
    ensures GlimpsedForm(At(Reconcile(rs, false).positions, k), k, InBucket(Effective(rs), k))
  {
    hide Apply, GlimpsedForm, Effective;
    var mine := InBucket(Effective(rs), k);
    EffectiveRecords(rs);
    BucketsAreIndependent(Effective(rs), k, false);
    if mine != [] { assert mine[0] in mine; }
    if mine != [] { BucketGlimpsed(mine, k); } else { NothingGlimpsed(k); }
  }

  lemma NothingGlimpsed(k: Key)
    ensures GlimpsedForm(Glimpsed([], k), k, [])
  {
  }
}
