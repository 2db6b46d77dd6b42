/** Arithmetic of a complete history of fills: buckets are independent, the quantity is a
    reflected running sum, and the average-cost entry price keeps the books balanced. */
module FlatBaseline {
  import opened Prelude
  import opened TradeModels
  import opened TradeReconciler
  import opened Valuation

  // ---- Buckets are independent ----------------------------------------------------

  /** The records of one bucket, in replay order. */
  function InBucket(es: seq<Record>, k: Key): (bs: seq<Record>)
    ensures forall r :: r in bs ==> r in es && r.Slot() == k
  {
    if es == [] then []
    else
      var n := |es| - 1;
      InBucket(es[..n], k) + if es[n].Slot() == k then [es[n]] else []
  }

  lemma StepInBucket(r: Record, before: Positions, k: Key, complete: bool)
    requires !r.op.Reverse?
    ensures At(Apply(r, before, complete).positions, k)
            == if r.Slot() == k then Some(NextPosition(r, At(before, k), complete).position) else At(before, k)
  {
  }

  /** Without REVERSE, a bucket's position is the replay of its own records alone. */
  lemma {:induction false} BucketsAreIndependent(es: seq<Record>, k: Key, complete: bool)
    requires forall r :: r in es ==> !r.op.Reverse?
    ensures At(Replay(es, complete), k) == At(Replay(InBucket(es, k), complete), k)
  {
    hide Apply, NextPosition;
    if es != [] {
      var n := |es| - 1;
      var bs := InBucket(es[..n], k);
      BucketsAreIndependent(es[..n], k, complete);
      StepInBucket(es[n], Replay(es[..n], complete), k, complete);
      if es[n].Slot() == k {
        assert InBucket(es, k) == bs + [es[n]] && (bs + [es[n]])[..|bs|] == bs;
        assert Replay(bs + [es[n]], complete) == Apply(es[n], Replay(bs, complete), complete).positions;
        StepInBucket(es[n], Replay(bs, complete), k, complete);
      } else {
        assert InBucket(es, k) == bs;
      }
    }
  }

  /** The position a complete reading of `bs` leaves in bucket `k`. */
  function After(bs: seq<Record>, k: Key): Option<Position> {
    At(Replay(bs, true), k)
  }

  lemma AfterStep(bs: seq<Record>, k: Key)
    requires bs != [] && FillsOf(bs, k)
    ensures var n := |bs| - 1;
            && FillsOf(bs[..n], k) && Fill(bs[n]) && bs[n].Slot() == k
            && After(bs, k) == Some(NextPosition(bs[n], After(bs[..n], k), true).position)
  {
    var n := |bs| - 1;
    assert bs[n] in bs && forall r :: r in bs[..n] ==> r in bs;
    StepInBucket(bs[n], Replay(bs[..n], true), k, true);
  }

  // ---- Quantity in closed form ----------------------------------------------------

  ghost predicate FillsOf(bs: seq<Record>, k: Key) {
    k.bucket in {Long, Short} && forall r :: r in bs ==> Fill(r) && r.Slot() == k
  }

  function Amount(x: Option<real>): real {
    if x.Some? then x.value else 0.0
  }

  /** Running sum of signed quantities. */
  function Net(bs: seq<Record>): real {
    if bs == [] then 0.0
    else
      var n := |bs| - 1;
      Net(bs[..n]) + if bs[n].op == Increase then Amount(bs[n].quantity) else -Amount(bs[n].quantity)
  }

  function NetAt(bs: seq<Record>, i: nat): real
    requires i <= |bs|
  {
    Net(bs[..i])
  }

  /** Quantity held after the fills `bs`, read off the replayed position. */
  function Held(p: Option<Position>): real {
    if p.None? then 0.0 else Amount(p.value.quantity)
  }

  /** What complete replay of fills leaves in a bucket: nothing, a flat row or an active one. */
  ghost predicate FillOutcome(p: Option<Position>, k: Key, traded: bool) {
    if !traded then p.None?
    else
      && p.Some? && p.value.quantity.Some? && p.value.Slot() == k && p.value.confidence == High && p.value.pnl.None?
      && (if p.value.quantity.value == 0.0
          then p.value.status == Closed && p.value.side == Flat && p.value.entry.None?
          else p.value.status == Active && p.value.side == k.bucket && p.value.quantity.value > 0.0
               && p.value.entry.Some?)
  }

  lemma {:induction false} FillsOutcome(bs: seq<Record>, k: Key)
    requires FillsOf(bs, k)
    ensures FillOutcome(After(bs, k), k, bs != [])
  {
    if bs != [] {
      AfterStep(bs, k);
      FillsOutcome(bs[..|bs| - 1], k);
    }
  }

  lemma HeldStep(bs: seq<Record>, k: Key)
    requires FillsOf(bs, k) && bs != []
    ensures var n := |bs| - 1;
            var held, q := Held(After(bs[..n], k)), Amount(bs[n].quantity);
            && held >= 0.0 && q > 0.0
            && Held(After(bs, k)) == if bs[n].op == Increase then held + q else if q < held then held - q else 0.0
  {
    hide Apply;
    AfterStep(bs, k);
    FillsOutcome(bs[..|bs| - 1], k);
  }

  function Least(a: real, b: real): real { if a <= b then a else b }

  /** The least running sum so far. */
  function Low(bs: seq<Record>): real {
    if bs == [] then 0.0 else Least(Low(bs[..|bs| - 1]), Net(bs))
  }

  lemma {:induction false} LowReached(bs: seq<Record>) returns (i: nat)
    ensures i <= |bs| && NetAt(bs, i) == Low(bs)
  {
    assert bs[..|bs|] == bs;
    if bs == [] {
      i := 0;
    } else {
      i := LowReached(bs[..|bs| - 1]);
      assert bs[..|bs| - 1][..i] == bs[..i];
      if Low(bs) == Net(bs) { i := |bs|; }
    }
  }

  lemma {:induction false} LowBounds(bs: seq<Record>, i: nat)
    requires i <= |bs|
    ensures Low(bs) <= NetAt(bs, i)
  {
    if i == |bs| {
      assert bs[..i] == bs;
    } else {
      assert bs[..|bs| - 1][..i] == bs[..i];
      LowBounds(bs[..|bs| - 1], i);
    }
  }

  lemma {:induction false} HeldAboveLow(bs: seq<Record>, k: Key)
    requires FillsOf(bs, k)
    ensures Held(After(bs, k)) == Net(bs) - Low(bs)
  {
    hide Apply, NextPosition;
    if bs != [] {
      AfterStep(bs, k);
      HeldStep(bs, k);
      HeldAboveLow(bs[..|bs| - 1], k);
    }
  }

  /** A bucket of fills holds its net quantity above the lowest point its net ever
      reached, is FLAT exactly when that is zero, and never turns UNKNOWN. */
  ghost predicate ClosedForm(p: Option<Position>, k: Key, mine: seq<Record>) {
    if mine == [] then p.None?
    else
      && p.Some?
      && p.value.quantity == Some(Net(mine) - Low(mine))
      && p.value.status == (if Net(mine) == Low(mine) then Closed else Active)
      && p.value.side == (if Net(mine) == Low(mine) then Flat else k.bucket)
  }

  lemma BucketClosedForm(bs: seq<Record>, k: Key)
    requires FillsOf(bs, k)
    ensures ClosedForm(After(bs, k), k, bs)
  {
    hide Net, Low, Apply, NextPosition;
    FillsOutcome(bs, k);
    HeldAboveLow(bs, k);
  }

  lemma QuantityClosedForm(rs: seq<Record>, k: Key)
    requires forall r :: r in rs ==> Fill(r)
    ensures ClosedForm(At(Reconcile(rs, true).positions, k), k, InBucket(Effective(rs), k))
  {
    hide Apply, NextPosition, ClosedForm, Net, Low;
    var mine := InBucket(Effective(rs), k);
    EffectiveRecords(rs);
    BucketsAreIndependent(Effective(rs), k, true);
    if mine != [] {
      assert mine[0] in mine;
      BucketClosedForm(mine, k);
    } else {
      NothingTraded(k);
    }
  }

  lemma NothingTraded(k: Key)
    ensures ClosedForm(After([], k), k, [])
  {
  }

  lemma EffectiveRecords(rs: seq<Record>)
    ensures forall r :: r in Effective(rs) ==> r in rs
  {
    forall r | r in Effective(rs) ensures r in rs {
      assert r in Elements(Effective(rs));
    }
  }

  // ---- Average cost ---------------------------------------------------------------

  /** Cash through a bucket: value added, value taken out and gain booked at each reduction,
      where only the quantity actually held can be taken out. */
  datatype Books = Books(added: real, removed: real, realized: real)

  function Direction(k: Key): real { if k.bucket == Short then -1.0 else 1.0 }

  function BooksOf(bs: seq<Record>, k: Key): Books {
    if bs == [] then Books(0.0, 0.0, 0.0)
    else
      var n := |bs| - 1;
      var r, before, b := bs[n], After(bs[..n], k), BooksOf(bs[..n], k);
      if r.op == Increase then b.(added := b.added + Times(Amount(r.quantity), Amount(r.price)))
      else
        var sold := Least(Amount(r.quantity), Held(before));
        b.(removed := b.removed + Times(sold, Amount(r.price)),
           realized := b.realized + Times(Direction(k), Times(sold, Amount(r.price) - Cost(before))))
  }

  function Cost(p: Option<Position>): real {
    if p.None? then 0.0 else Amount(p.value.entry)
  }

  lemma MeanBalances(q: real, e: real, d: real, p: real)
    requires q + d != 0.0
    ensures Times(Mean(q, e, d, p), q + d) == Times(q, e) + Times(d, p)
  {
  }

  /** The entry price carries exactly the cost not yet taken out. */
  lemma {:induction false} CostBasis(bs: seq<Record>, k: Key)
    requires FillsOf(bs, k)
    ensures var p, b := After(bs, k), BooksOf(bs, k);
            Times(Held(p), Cost(p)) == b.added - b.removed + Direction(k) * b.realized
  {
    hide Apply, NextPosition;
    if bs == [] {
    } else {
      var n := |bs| - 1;
      var r, p, b := bs[n], After(bs[..n], k), BooksOf(bs[..n], k);
      AfterStep(bs, k);
      CostBasis(bs[..n], k);
      FillsOutcome(bs[..n], k);
      FillsOutcome(bs, k);
      CostBasisStep(r, k, p, b);
    }
  }

  lemma CostBasisStep(r: Record, k: Key, p: Option<Position>, b: Books)
    requires Fill(r) && r.Slot() == k
    requires FillOutcome(p, k, p.Some?)
    requires Times(Held(p), Cost(p)) == b.added - b.removed + Direction(k) * b.realized
    ensures var after := Some(NextPosition(r, p, true).position);
            var q, m := r.quantity.value, r.price.value;
            var sold := Least(q, Held(p));
            if r.op == Increase then
              Times(Held(after), Cost(after)) == b.added + Times(q, m) - b.removed + Direction(k) * b.realized
            else
              Times(Held(after), Cost(after))
              == b.added - (b.removed + Times(sold, m))
                 + Direction(k) * (b.realized + Times(Direction(k), Times(sold, m - Cost(p))))
  {
    var q, m, h, c := r.quantity.value, r.price.value, Held(p), Cost(p);
    if r.op == Increase {
      if h > 0.0 { MeanBalances(h, c, q, m); }
    } else {
      var sold := Least(q, h);
      Distribute(sold, m, c);
      Distribute(c, h, sold);
    }
  }

  lemma Distribute(a: real, x: real, y: real)
    ensures Times(a, x - y) == Times(a, x) - Times(a, y)
    ensures Times(a, x) == Times(x, a) && Times(a, y) == Times(y, a)
  {
  }

  function Sales(k: Key, b: Books): real { if k.bucket == Short then b.added else b.removed }

  function Purchases(k: Key, b: Books): real { if k.bucket == Short then b.removed else b.added }

  lemma MarkToMarket(q: real, cost: real, mark: real, side: Side)
    requires side in {Long, Short}
    ensures Times(Delta(side, mark, cost), q)
            == if side == Long then Times(q, mark) - Times(q, cost) else Times(q, cost) - Times(q, mark)
  {
  }

  lemma RowBalances(p: Position, k: Key, b: Books, mark: real, priceAt: Option<int>)
    requires k.bucket in {Long, Short} && FillOutcome(Some(p), k, true)
    requires Times(Held(Some(p)), Cost(Some(p))) == b.added - b.removed + Direction(k) * b.realized
    ensures Balanced(Valued(p, Some(mark), priceAt), k, b, mark)
  {
    if p.status == Active { MarkToMarket(Held(Some(p)), Cost(Some(p)), mark, p.side); }
    else { assert Times(0.0, Cost(Some(p))) == 0.0; }
  }

  /** Sales minus purchases plus what is still held at the mark price (owed, on the short
      side) equals the gain booked at the reductions plus the estimated PnL of the row. */
  ghost predicate Balanced(row: Position, k: Key, b: Books, mark: real) {
    if row.status == Active then
      row.quantity.Some? && row.pnl.Some?
      && Sales(k, b) - Purchases(k, b) + Direction(k) * Times(row.quantity.value, mark)
         == b.realized + row.pnl.value
    else
      row.pnl.None? && Sales(k, b) - Purchases(k, b) == b.realized
  }

  lemma BooksBalance(rs: seq<Record>, k: Key, mark: real, priceAt: Option<int>)
    requires forall r :: r in rs ==> Fill(r)
    requires k in Reconcile(rs, true).positions
    ensures Balanced(Valued(Reconcile(rs, true).positions[k], Some(mark), priceAt), k,
                     BooksOf(InBucket(Effective(rs), k), k), mark)
  {
    hide Apply, NextPosition, BooksOf, Valued, Balanced;
    var mine := InBucket(Effective(rs), k);
    ReconciledBucket(rs, k);
    FillsOutcome(mine, k);
    CostBasis(mine, k);
    RowBalances(After(mine, k).value, k, BooksOf(mine, k), mark, priceAt);
  }

  /** Index of the fill that last opened the bucket. */
  function OpenedAt(bs: seq<Record>, k: Key): (i: nat)
    ensures bs != [] ==> i < |bs|
  {
    if |bs| <= 1 then 0
    else
      var n := |bs| - 1;
      var before := After(bs[..n], k);
      if bs[n].op == Increase && (before.None? || before.value.status != Active) then n else OpenedAt(bs[..n], k)
  }

  ghost predicate PricesWithin(bs: seq<Record>, from: nat, low: real, high: real) {
    forall i :: from <= i < |bs| && bs[i].op == Increase ==> low <= Amount(bs[i].price) <= high
  }

  lemma MeanWithin(q: real, e: real, d: real, p: real, low: real, high: real)
    requires q > 0.0 && d > 0.0 && low <= e <= high && low <= p <= high
    ensures low <= Mean(q, e, d, p) <= high
  {
    var total := q * e + d * p;
    assert q * (e - low) >= 0.0 && d * (p - low) >= 0.0;
    assert q * (high - e) >= 0.0 && d * (high - p) >= 0.0;
    assert low * (q + d) <= total <= high * (q + d);
    assert Mean(q, e, d, p) * (q + d) == total;
  }

  /** The entry price lies between the lowest and highest price paid since the bucket
      last opened. */
  lemma {:induction false} BucketEntryWithinPaid(bs: seq<Record>, k: Key, low: real, high: real)
    requires FillsOf(bs, k) && bs != []
    requires After(bs, k).Some? && After(bs, k).value.status == Active
    requires PricesWithin(bs, OpenedAt(bs, k), low, high)
    ensures After(bs, k).value.entry.Some? && low <= After(bs, k).value.entry.value <= high
  {
    hide Apply;
    var n := |bs| - 1;
    AfterStep(bs, k);
    FillsOutcome(bs, k);
    FillsOutcome(bs[..n], k);
    var before := After(bs[..n], k);
    if before.Some? && before.value.status == Active {
      forall i | OpenedAt(bs[..n], k) <= i < n && bs[..n][i].op == Increase
        ensures low <= Amount(bs[..n][i].price) <= high
      {
        assert bs[i] == bs[..n][i];
      }
      BucketEntryWithinPaid(bs[..n], k, low, high);
      if bs[n].op == Increase {
        MeanWithin(before.value.quantity.value, before.value.entry.value,
                   bs[n].quantity.value, bs[n].price.value, low, high);
      }
    }
  }

  ghost predicate PaidSomething(bs: seq<Record>, from: nat) {
    exists i :: from <= i < |bs| && bs[i].op == Increase && Amount(bs[i].price) > 0.0
  }

  lemma MeanZero(q: real, e: real, d: real, p: real)
    requires q > 0.0 && d > 0.0 && e >= 0.0 && p >= 0.0
    ensures Mean(q, e, d, p) >= 0.0
    ensures Mean(q, e, d, p) > 0.0 <==> e > 0.0 || p > 0.0
  {
    assert q * e >= 0.0 && d * p >= 0.0;
    assert if e > 0.0 then q * e > 0.0 else q * e == 0.0;
    assert if p > 0.0 then d * p > 0.0 else d * p == 0.0;
  }

  /** The provider lets a price of zero through. An active row has a positive entry price,
      which the server insists on, exactly when something was paid since it opened. */
  lemma {:induction false} BucketEntryPositive(bs: seq<Record>, k: Key)
    requires FillsOf(bs, k) && bs != []
    requires After(bs, k).Some? && After(bs, k).value.status == Active
    ensures After(bs, k).value.entry.Some? && After(bs, k).value.entry.value >= 0.0
    ensures After(bs, k).value.entry.value > 0.0 <==> PaidSomething(bs, OpenedAt(bs, k))
  {
    hide Apply;
    var n := |bs| - 1;
    AfterStep(bs, k);
    FillsOutcome(bs, k);
    FillsOutcome(bs[..n], k);
    var before := After(bs[..n], k);
    if before.Some? && before.value.status == Active {
      BucketEntryPositive(bs[..n], k);
      PaidGrows(bs, OpenedAt(bs[..n], k));
      if bs[n].op == Increase {
        MeanZero(before.value.quantity.value, before.value.entry.value, bs[n].quantity.value, bs[n].price.value);
      }
    }
  }

  lemma PaidGrows(bs: seq<Record>, from: nat)
    requires bs != [] && from < |bs|
    ensures var n := |bs| - 1;
            PaidSomething(bs, from)
            <==> PaidSomething(bs[..n], from) || (bs[n].op == Increase && Amount(bs[n].price) > 0.0)
  {
    var n := |bs| - 1;
    if PaidSomething(bs[..n], from) {
      var i :| from <= i < n && bs[..n][i].op == Increase && Amount(bs[..n][i].price) > 0.0;
      assert bs[i] == bs[..n][i];
    }
    if PaidSomething(bs, from) {
      var i :| from <= i < |bs| && bs[i].op == Increase && Amount(bs[i].price) > 0.0;
      assert i < n ==> bs[..n][i] == bs[i];
    }
  }

  /** For a whole reconciliation of fills: the entry price of an active position lies between
      the lowest and highest price paid since its bucket last opened. */
  lemma EntryWithinPaid(rs: seq<Record>, k: Key, low: real, high: real)
    requires forall r :: r in rs ==> Fill(r)
    requires k in Reconcile(rs, true).positions && Reconcile(rs, true).positions[k].status == Active
    requires var mine := InBucket(Effective(rs), k); PricesWithin(mine, OpenedAt(mine, k), low, high)
    ensures var p := Reconcile(rs, true).positions[k]; p.entry.Some? && low <= p.entry.value <= high
  {
    hide Apply, OpenedAt, PricesWithin, Effective;
    ReconciledBucket(rs, k);
    BucketEntryWithinPaid(InBucket(Effective(rs), k), k, low, high);
  }

  /** And it is positive exactly when something was paid since then. */
  lemma EntryPositiveExactly(rs: seq<Record>, k: Key)
    requires forall r :: r in rs ==> Fill(r)
    requires k in Reconcile(rs, true).positions && Reconcile(rs, true).positions[k].status == Active
    ensures var p, mine := Reconcile(rs, true).positions[k], InBucket(Effective(rs), k);
            p.entry.Some? && p.entry.value >= 0.0 && (p.entry.value > 0.0 <==> PaidSomething(mine, OpenedAt(mine, k)))
  {
    hide Apply, OpenedAt, PaidSomething, Effective;
    ReconciledBucket(rs, k);
    BucketEntryPositive(InBucket(Effective(rs), k), k);
  }

  /** The bucket's own fills, which alone decide its position. */
  lemma ReconciledBucket(rs: seq<Record>, k: Key)
    requires (forall r :: r in rs ==> Fill(r)) && k in Reconcile(rs, true).positions
    ensures var mine := InBucket(Effective(rs), k);
            mine != [] && FillsOf(mine, k) && After(mine, k) == Some(Reconcile(rs, true).positions[k])
  {
    hide Apply;
    var mine := InBucket(Effective(rs), k);
    EffectiveRecords(rs);
    BucketsAreIndependent(Effective(rs), k, true);
    assert mine != [];
    assert mine[0] in mine;
  }
}
