/** What polling the same records again does. Every poll observes them later than the one
    before, so it always moves observation times, and nothing else unless a record comes
    in several revisions. */
module Refetch {
  import opened Prelude
  import opened TradeModels
  import opened TradeReconciler
  import opened ReplayTheorems
  import opened TradeStore
  import opened PositionView
  import opened FetchTheorems

  // ---- The ledger -----------------------------------------------------------------

  /** Every record of the window is in the ledger with its content, whenever observed. */
  ghost predicate Known(ledger: Ledger, rs: seq<Record>) {
    forall r {:trigger RecordKey(r)} :: r in rs ==>
      RecordKey(r) in ledger && ledger[RecordKey(r)].canon == Canonical(r)
  }

  /** `m` is the latest of `old` and the window's observations of `k`. */
  ghost predicate LastSeen(m: int, old': int, rs: seq<Record>, k: LedgerKey) {
    && old' <= m
    && (forall r {:trigger RecordKey(r)} :: r in rs && RecordKey(r) == k ==> r.observedAt <= m)
    && (m == old' || exists r :: r in rs && RecordKey(r) == k && r.observedAt == m)
  }

  ghost predicate RowDated(before: LedgerRow, after: LedgerRow, rs: seq<Record>, k: LedgerKey) {
    && after.canon == before.canon && after.firstObserved == before.firstObserved
    && LastSeen(after.lastObserved, before.lastObserved, rs, k)
  }

  /** The same keys and contents, each last observed when the window last showed it. */
  ghost predicate OnlyDated(before: Ledger, after: Ledger, rs: seq<Record>) {
    after.Keys == before.Keys && forall k :: k in before ==> RowDated(before[k], after[k], rs, k)
  }

  lemma {:induction false} KnownWindowOnlyDates(ledger: Ledger, rs: seq<Record>)
    requires Known(ledger, rs)
    ensures MergeAll(ledger, rs).Merged? && MergeAll(ledger, rs).inserted == {}
    ensures OnlyDated(ledger, MergeAll(ledger, rs).ledger, rs)
  {
    if rs != [] {
      var n := |rs| - 1;
      assert forall r :: r in rs[..n] ==> r in rs;
      assert rs[n] in rs;
      KnownWindowOnlyDates(ledger, rs[..n]);
      DateOne(ledger, MergeAll(ledger, rs[..n]), rs);
    }
    hide MergeOne, LastSeen;
  }

  lemma DateOne(ledger: Ledger, m: Merge, rs: seq<Record>)
    requires rs != [] && m.Merged? && OnlyDated(ledger, m.ledger, rs[..|rs| - 1])
    requires var r := rs[|rs| - 1]; RecordKey(r) in ledger && ledger[RecordKey(r)].canon == Canonical(r)
    ensures var next := MergeOne(m, rs[|rs| - 1]);
            next.Merged? && next.inserted == m.inserted && OnlyDated(ledger, next.ledger, rs)
  {
    var r := rs[|rs| - 1];
    assert RowDated(ledger[RecordKey(r)], m.ledger[RecordKey(r)], rs[..|rs| - 1], RecordKey(r));
    MergedRows(m, r);
    var next := MergeOne(m, r);
    hide LastSeen, RecordKey, MergeOne;
    forall k | k in ledger ensures RowDated(ledger[k], next.ledger[k], rs, k) {
      assert RowDated(ledger[k], m.ledger[k], rs[..|rs| - 1], k);
      OneMoreSeen(m.ledger[k].lastObserved, ledger[k].lastObserved, rs, k);
    }
  }

  lemma MergedRows(m: Merge, r: Record)
    requires m.Merged? && RecordKey(r) in m.ledger && m.ledger[RecordKey(r)].canon == Canonical(r)
    ensures var next := MergeOne(m, r);
            && next.Merged? && next.inserted == m.inserted && next.ledger.Keys == m.ledger.Keys
            && forall k :: k in m.ledger ==>
                 next.ledger[k] == m.ledger[k].(lastObserved := if RecordKey(r) == k
                   && r.observedAt > m.ledger[k].lastObserved
                                                                then r.observedAt else m.ledger[k].lastObserved)
  {
    hide Canonical, RecordKey;
  }

  lemma OneMoreSeen(m: int, old': int, rs: seq<Record>, k: LedgerKey)
    requires rs != [] && LastSeen(m, old', rs[..|rs| - 1], k)
    ensures var r := rs[|rs| - 1];
            LastSeen(if RecordKey(r) == k && r.observedAt > m then r.observedAt else m, old', rs, k)
  {
    var n := |rs| - 1;
    assert forall r :: r in rs <==> r in rs[..n] || r == rs[n];
  }

  lemma {:induction false} NothingInsertedNothingNew(events: seq<Event>)
    ensures NewEvents(events, {}) == []
  {
    if events != [] { NothingInsertedNothingNew(events[..|events| - 1]); }
  }

  lemma NothingNewPosted(t: Tables, target: Target, result: FetchResult)
    requires Shaped(t.ledger)
    requires MergeAll(t.ledger, result.records).Merged? && MergeAll(t.ledger, result.records).inserted == {}
    requires FetchInto(t, target.subscription, target, result).Accepted?
    ensures FetchInto(t, target.subscription, target, result).posts == []
  {
    MergeKeepsShape(t.ledger, result.records);
    hide FetchErrorOf, RepricedAll, Reconcile, ChangesBetween, MergeAll, Rows;
    var ledger := MergeAll(t.ledger, result.records).ledger;
    if ledger != map[] {
      RowsOfSomething(ledger);
      NothingInsertedNothingNew(Reconcile(Rows(ledger), result.complete).events);
    }
  }

  /** Whenever known records are polled again, only observation times change in the ledger,
      to the latest, and no post arises. */
  lemma RefetchOnlyDates(t: Tables, target: Target, result: FetchResult)
    requires Shaped(t.ledger) && Known(t.ledger, result.records)
    requires FetchInto(t, target.subscription, target, result).Accepted?
    ensures var step := FetchInto(t, target.subscription, target, result);
            step.posts == [] && OnlyDated(t.ledger, step.tables.ledger, result.records)
  {
    KnownWindowOnlyDates(t.ledger, result.records);
    FetchedLedger(t, target, result);
    NothingNewPosted(t, target, result);
    hide FetchInto, MergeAll;
  }

  // ---- Replay does not read observation times -------------------------------------

  function Canonicals(rs: seq<Record>): (out: seq<Record>)
    ensures |out| == |rs|
  {
    seq(|rs|, i requires 0 <= i < |rs| => Canonical(rs[i]))
  }

  lemma CanonicalsAscend(rs: seq<Record>)
    requires Ascending(rs, RecordRank)
    ensures Ascending(Canonicals(rs), RecordRank)
  {
    forall i, j | 0 <= i < j < |rs| ensures Below(RecordRank(Canonicals(rs)[i]), RecordRank(Canonicals(rs)[j])) {
      assert Below(RecordRank(rs[i]), RecordRank(rs[j]));
    }
  }

  lemma CanonicalElements(sorted: seq<Record>, rs: seq<Record>)
    requires Elements(sorted) == Elements(rs)
    ensures Elements(Canonicals(sorted)) == set r | r in rs :: Canonical(r)
  {
    hide Canonical;
    var plain := Canonicals(sorted);
    forall r | r in rs ensures Canonical(r) in plain {
      assert r in Elements(sorted);
      var i :| 0 <= i < |sorted| && sorted[i] == r;
      assert plain[i] == Canonical(r);
    }
    forall x | x in plain ensures exists r :: r in rs && Canonical(r) == x {
      var i :| 0 <= i < |plain| && plain[i] == x;
      assert sorted[i] in Elements(sorted);
    }
  }

  lemma BucketStepUndated(r: Record, current: Option<Position>, complete: bool)
    requires !r.op.Reverse?
    ensures NextPosition(r, current, complete) == NextPosition(Canonical(r), current, complete)
  {
    if current.Some? { assert WeightedEntry(current.value, r) == WeightedEntry(current.value, Canonical(r)); }
  }

  lemma StepUndated(r: Record, before: Positions, complete: bool)
    ensures Apply(r, before, complete) == Apply(Canonical(r), before, complete)
  {
    if r.op.Reverse? {
      assert Opposites(r, before) == Opposites(Canonical(r), before);
    } else {
      BucketStepUndated(r, At(before, r.Slot()), complete);
      hide NextPosition;
    }
  }

  lemma {:induction false} ReplayUndated(es: seq<Record>, complete: bool)
    ensures Replay(es, complete) == Replay(Canonicals(es), complete)
  {
    hide Apply;
    if es != [] {
      var n := |es| - 1;
      assert Canonicals(es)[..n] == Canonicals(es[..n]);
      ReplayUndated(es[..n], complete);
      StepUndated(es[n], Replay(es[..n], complete), complete);
    }
  }

  // ---- Winners --------------------------------------------------------------------

  ghost predicate SameContents(a: Ledger, b: Ledger) {
    a.Keys == b.Keys && forall k :: k in a ==> a[k].canon == b[k].canon
  }

  lemma RowsAreConsistent(ledger: Ledger)
    requires Shaped(ledger)
    ensures Consistent(Rows(ledger))
    ensures forall r :: r in Rows(ledger) <==> r in RecordSet(ledger)
  {
    var rs := Rows(ledger);
    assert forall r :: r in rs <==> r in Elements(rs);
  }

  /** The ledger has a row of this id. */
  ghost predicate HasRow(ledger: Ledger, id: int) {
    exists k :: k in ledger && k.id == id
  }

  lemma RowIds(ledger: Ledger)
    requires Shaped(ledger)
    ensures forall id :: id in Ids(Rows(ledger)) <==> HasRow(ledger, id)
  {
    RowsAreConsistent(ledger);
    hide Rows;
    forall id ensures id in Ids(Rows(ledger)) <==> HasRow(ledger, id) {
      if k :| k in ledger && k.id == id { assert RecordOf(ledger[k]) in Rows(ledger); }
      if id in Ids(Rows(ledger)) {
        var r :| r in Rows(ledger) && r.id == id;
        assert r in RecordSet(ledger);
      }
    }
  }

  /** The row that stands for record `id`. */
  ghost function WinningKey(ledger: Ledger, id: int): (k: LedgerKey)
    requires Shaped(ledger) && HasRow(ledger, id)
    ensures k in ledger && k.id == id
    ensures id in Ids(Rows(ledger)) && RecordOf(ledger[k]) == Winner(Rows(ledger), id)
  {
    RowIds(ledger);
    RowsAreConsistent(ledger);
    var w := Winner(Rows(ledger), id);
    assert w in RecordSet(ledger);
    RecordKey(w)
  }

  ghost predicate Unrevised(ledger: Ledger, k: LedgerKey) {
    && k in ledger
    && forall j :: j in ledger && j.id == k.id ==> !RecordOf(ledger[k]).RevisedBy(RecordOf(ledger[j]))
  }

  /** It is the one row of its id that no other row revises. */
  lemma WinningKeyUnrevised(ledger: Ledger, id: int)
    requires Shaped(ledger) && HasRow(ledger, id)
    ensures Unrevised(ledger, WinningKey(ledger, id))
    ensures forall k: LedgerKey :: k.id == id && Unrevised(ledger, k) ==> k == WinningKey(ledger, id)
  {
    var w := WinningKey(ledger, id);
    RowsAreConsistent(ledger);
    WinnerIsUnrevised(Rows(ledger), id);
    hide Rows, Ids;
    forall j | j in ledger && j.id == id ensures !RecordOf(ledger[w]).RevisedBy(RecordOf(ledger[j])) {
      assert RecordOf(ledger[j]) in Rows(ledger);
    }
    forall k: LedgerKey | k.id == id && Unrevised(ledger, k) ensures k == w {
      assert !RecordOf(ledger[w]).RevisedBy(RecordOf(ledger[k]));
      assert !RecordOf(ledger[k]).RevisedBy(RecordOf(ledger[w]));
      assert RecordKey(RecordOf(ledger[k])) == k && RecordKey(RecordOf(ledger[w])) == w;
    }
  }

  ghost predicate SameWinners(a: Ledger, b: Ledger)
    requires Shaped(a) && Shaped(b) && a.Keys == b.Keys
  {
    forall id :: HasRow(a, id) ==> WinningKey(a, id) == WinningKey(b, id)
  }

  /** The keys of the records the replay sees. */
  lemma EffectiveKeys(ledger: Ledger, r: Record)
    requires Shaped(ledger)
    ensures r in Effective(Rows(ledger)) <==>
            HasRow(ledger, r.id) && r == RecordOf(ledger[WinningKey(ledger, r.id)])
  {
    var rs := Rows(ledger);
    assert r in Effective(rs) <==> r in Elements(Effective(rs));
    RowIds(ledger);
    hide Rows, Effective;
  }

  lemma SameWinnersSameMembers(a: Ledger, b: Ledger, x: Record)
    requires Shaped(a) && Shaped(b) && SameContents(a, b) && SameWinners(a, b)
    requires x in Effective(Rows(a))
    ensures exists y :: y in Effective(Rows(b)) && Canonical(y) == Canonical(x)
  {
    EffectiveKeys(a, x);
    var k := WinningKey(a, x.id);
    var y := RecordOf(b[k]);
    assert k == WinningKey(b, x.id);
    EffectiveKeys(b, y);
    assert Canonical(y) == b[k].canon && Canonical(x) == a[k].canon;
  }

  lemma SameWinnersSymmetric(a: Ledger, b: Ledger)
    requires Shaped(a) && Shaped(b) && SameContents(a, b) && SameWinners(a, b)
    ensures SameContents(b, a) && SameWinners(b, a)
  {
    forall id | HasRow(b, id) ensures WinningKey(b, id) == WinningKey(a, id) {
      var k :| k in b && k.id == id;
      assert k in a;
      assert HasRow(a, id);
    }
  }

  lemma SameWinnersSameHistory(a: Ledger, b: Ledger)
    requires Shaped(a) && Shaped(b) && SameContents(a, b) && SameWinners(a, b)
    ensures Canonicals(Effective(Rows(a))) == Canonicals(Effective(Rows(b)))
  {
    var es, fs := Effective(Rows(a)), Effective(Rows(b));
    HistoryWithin(a, b);
    SameWinnersSymmetric(a, b);
    HistoryWithin(b, a);
    assert Ascending(es, RecordRank) && Ascending(fs, RecordRank);
    hide Effective, Rows, RecordRank, Canonical, Canonicals, SameWinners, SameContents;
    CanonicalsAscend(es);
    CanonicalsAscend(fs);
    AscendingUnique(Canonicals(es), Canonicals(fs), RecordRank);
  }

  lemma HistoryWithin(a: Ledger, b: Ledger)
    requires Shaped(a) && Shaped(b) && SameContents(a, b) && SameWinners(a, b)
    ensures Elements(Canonicals(Effective(Rows(a)))) <= Elements(Canonicals(Effective(Rows(b))))
  {
    hide Effective, Rows, Canonical, SameWinners, SameContents;
    var es, fs := Effective(Rows(a)), Effective(Rows(b));
    forall c | c in Canonicals(es) ensures c in Canonicals(fs) {
      var i :| 0 <= i < |es| && Canonicals(es)[i] == c;
      SameWinnersSameMembers(a, b, es[i]);
      var y :| y in fs && Canonical(y) == Canonical(es[i]);
      var j :| 0 <= j < |fs| && fs[j] == y;
      assert Canonicals(fs)[j] == c;
    }
  }

  lemma SameHistorySameWinners(a: Ledger, b: Ledger, id: int)
    requires Shaped(a) && Shaped(b) && SameContents(a, b) && HasRow(a, id)
    requires Canonicals(Effective(Rows(a))) == Canonicals(Effective(Rows(b)))
    ensures HasRow(b, id) && WinningKey(a, id) == WinningKey(b, id)
  {
    var es, fs := Effective(Rows(a)), Effective(Rows(b));
    var x := RecordOf(a[WinningKey(a, id)]);
    EffectiveKeys(a, x);
    hide Effective, Rows;
    var i :| 0 <= i < |es| && es[i] == x;
    assert Canonicals(es)[i] == Canonical(x) && Canonicals(fs)[i] == Canonical(fs[i]);
    EffectiveKeys(b, fs[i]);
    assert RecordKey(fs[i]) == RecordKey(x);
  }

  /** With equal contents, the replay sees the same history exactly when the same revision
      stands for every record; and then it gives the same positions. */
  lemma SameWinnersExactly(a: Ledger, b: Ledger, complete: bool)
    requires Shaped(a) && Shaped(b) && SameContents(a, b)
    ensures SameWinners(a, b) <==> Canonicals(Effective(Rows(a))) == Canonicals(Effective(Rows(b)))
    ensures SameWinners(a, b) ==> Reconcile(Rows(a), complete).positions == Reconcile(Rows(b), complete).positions
  {
    if SameWinners(a, b) { SameWinnersSameHistory(a, b); }
    if Canonicals(Effective(Rows(a))) == Canonicals(Effective(Rows(b))) {
      forall id | HasRow(a, id) ensures WinningKey(a, id) == WinningKey(b, id) { SameHistorySameWinners(a, b, id); }
    }
    ReplayUndated(Effective(Rows(a)), complete);
    ReplayUndated(Effective(Rows(b)), complete);
    hide Effective, Rows, Replay, Events;
  }

  // ---- When a refetch keeps the winners -------------------------------------------

  /** Every record the window shows either does not overtake the revision that stands in the
      ledger, or the window shows that one again no earlier. */
  ghost predicate NothingRevived(before: Ledger, rs: seq<Record>)
    requires Shaped(before)
  {
    forall r :: r in rs && HasRow(before, r.id) ==>
      var w := WinningKey(before, r.id);
      || !RecordOf(before[w]).RevisedBy(r)
      || exists x :: x in rs && RecordKey(x) == w && !x.RevisedBy(r)
  }

  /** In the merged ledger, no record of the window overtakes a revision that stood. */
  ghost predicate NoneOvertakes(before: Ledger, after: Ledger, rs: seq<Record>)
    requires Shaped(before) && before.Keys == after.Keys
  {
    forall r :: r in rs && HasRow(before, r.id) ==> !RecordOf(after[WinningKey(before, r.id)]).RevisedBy(r)
  }

  lemma OvertakesExactly(before: Ledger, after: Ledger, rs: seq<Record>, w: LedgerKey, r: Record)
    requires Shaped(before) && w in before && w in after && RowDated(before[w], after[w], rs, w)
    ensures !RecordOf(after[w]).RevisedBy(r)
            <==> !RecordOf(before[w]).RevisedBy(r) || exists x :: x in rs && RecordKey(x) == w && !x.RevisedBy(r)
  {
    assert RecordKey(before[w].canon) == w;
    if after[w].lastObserved != before[w].lastObserved {
      var x :| x in rs && RecordKey(x) == w && x.observedAt == after[w].lastObserved;
      assert x.RevisedBy(r) <==> RecordOf(after[w]).RevisedBy(r);
    }
  }

  lemma RevivedExactly(before: Ledger, after: Ledger, rs: seq<Record>)
    requires Shaped(before) && OnlyDated(before, after, rs)
    ensures NothingRevived(before, rs) <==> NoneOvertakes(before, after, rs)
  {
    hide RowDated, RecordOf, WinningKey;
    forall r | r in rs && HasRow(before, r.id)
      ensures var w := WinningKey(before, r.id);
              !RecordOf(after[w]).RevisedBy(r)
              <==> !RecordOf(before[w]).RevisedBy(r) || exists x :: x in rs && RecordKey(x) == w && !x.RevisedBy(r)
    {
      OvertakesExactly(before, after, rs, WinningKey(before, r.id), r);
    }
  }

  lemma StandingRowStays(before: Ledger, after: Ledger, rs: seq<Record>, id: int)
    requires Shaped(before) && Shaped(after) && OnlyDated(before, after, rs) && Known(before, rs) && HasRow(before, id)
    requires NoneOvertakes(before, after, rs)
    ensures Unrevised(after, WinningKey(before, id))
  {
    var w := WinningKey(before, id);
    WinningKeyUnrevised(before, id);
    hide WinningKey, RowDated, RecordOf, RecordKey;
    forall j | j in after && j.id == id ensures !RecordOf(after[w]).RevisedBy(RecordOf(after[j])) {
      NotRevisedLater(before, after, rs, w, j);
    }
  }

  lemma NotRevisedLater(before: Ledger, after: Ledger, rs: seq<Record>, w: LedgerKey, j: LedgerKey)
    requires Shaped(after) && w in before && j in before && w in after && j in after
    requires RowDated(before[w], after[w], rs, w) && RowDated(before[j], after[j], rs, j)
    requires !RecordOf(before[w]).RevisedBy(RecordOf(before[j]))
    requires forall r :: r in rs && r.id == j.id ==> !RecordOf(after[w]).RevisedBy(r)
    ensures !RecordOf(after[w]).RevisedBy(RecordOf(after[j]))
  {
    assert RecordKey(after[j].canon) == j;
    if after[j].lastObserved != before[j].lastObserved {
      var r :| r in rs && RecordKey(r) == j && r.observedAt == after[j].lastObserved;
      assert !RecordOf(after[w]).RevisedBy(r);
    }
  }

  lemma StandingRowIsNotOvertaken(before: Ledger, after: Ledger, rs: seq<Record>, r: Record)
    requires Shaped(before) && Shaped(after) && OnlyDated(before, after, rs) && Known(before, rs)
    requires r in rs && HasRow(before, r.id) && HasRow(after, r.id)
    requires WinningKey(before, r.id) == WinningKey(after, r.id)
    ensures !RecordOf(after[WinningKey(before, r.id)]).RevisedBy(r)
  {
    WinningKeyUnrevised(after, r.id);
    var k, w := RecordKey(r), WinningKey(after, r.id);
    hide WinningKey;
    assert k in after && LastSeen(after[k].lastObserved, before[k].lastObserved, rs, k);
    assert !RecordOf(after[w]).RevisedBy(RecordOf(after[k]));
    assert RecordOf(after[k]).revision == r.revision;
  }

  /** A refetch keeps every standing revision exactly when nothing it shows overtakes one;
      whether that is so can be read off the ledger and the window before merging. */
  lemma RefetchKeepsWinnersExactly(before: Ledger, after: Ledger, rs: seq<Record>)
    requires Shaped(before) && Shaped(after) && OnlyDated(before, after, rs) && Known(before, rs)
    ensures SameWinners(before, after) <==> NothingRevived(before, rs)
  {
    RevivedExactly(before, after, rs);
    if NoneOvertakes(before, after, rs) {
      forall id | HasRow(before, id) ensures WinningKey(before, id) == WinningKey(after, id) {
        StandingRowStays(before, after, rs, id);
        SameRows(before, after, id);
        WinningKeyUnrevised(after, id);
      }
    }
    if SameWinners(before, after) {
      forall r | r in rs && HasRow(before, r.id) ensures !RecordOf(after[WinningKey(before, r.id)]).RevisedBy(r) {
        SameRows(before, after, r.id);
        StandingRowIsNotOvertaken(before, after, rs, r);
      }
    }
  }

  lemma SameRows(a: Ledger, b: Ledger, id: int)
    requires a.Keys == b.Keys && HasRow(a, id)
    ensures HasRow(b, id)
  {
    var k :| k in a && k.id == id;
    assert k in b;
  }

  /** Polling known records again leaves all estimates as they are if no superseded revision
      overtakes the standing one. */
  lemma RefetchKeepsEstimates(t: Tables, target: Target, result: FetchResult)
    requires IsView(t, Exact) && Known(t.ledger, result.records) && result.complete == t.Start().Some?
    requires FetchInto(t, target.subscription, target, result).Accepted?
    ensures var after := FetchInto(t, target.subscription, target, result).tables;
            && OnlyDated(t.ledger, after.ledger, result.records)
            && (NothingRevived(t.ledger, result.records) ==> SameEstimates(after.positions, t.positions))
  {
    var after := FetchInto(t, target.subscription, target, result).tables;
    RefetchOnlyDates(t, target, result);
    AcceptedFetchRestoresImage(t, Exact, target.subscription, target, result);
    hide FetchInto, Reconcile, Rows, LastSeen, NothingRevived;
    if NothingRevived(t.ledger, result.records) {
      RefetchKeepsWinnersExactly(t.ledger, after.ledger, result.records);
      SameWinnersExactly(t.ledger, after.ledger, result.complete);
    }
  }

  // ---- One revision per record ----------------------------------------------------

  /** What the provider's digests give: the revision is computed from fields that the id
      covers. */
  ghost predicate OneRevision(ledger: Ledger) {
    forall j, k :: j in ledger && k in ledger && j.id == k.id ==> j == k
  }

  lemma OneRevisionSameWinners(a: Ledger, b: Ledger)
    requires Shaped(a) && Shaped(b) && SameContents(a, b) && OneRevision(a)
    ensures SameWinners(a, b)
  {
    forall id | HasRow(a, id) ensures WinningKey(a, id) == WinningKey(b, id) {
      SameRows(a, b, id);
      assert WinningKey(a, id) in a && WinningKey(b, id) in a;
    }
  }

  /** With one revision per record, polling again posts nothing and gives the estimates the
      ledger stood for before, whatever marks lay on them. */
  lemma SingleRevisionsRefetch(t: Tables, mark: Mark, target: Target, result: FetchResult)
    requires IsView(t, mark) && Known(t.ledger, result.records) && result.complete == t.Start().Some?
    requires OneRevision(t.ledger)
    requires FetchInto(t, target.subscription, target, result).Accepted?
    ensures var step := FetchInto(t, target.subscription, target, result);
            && step.posts == [] && ReadsAs(step.tables.positions, Image(t), Exact)
            && (mark == Exact ==> SameEstimates(step.tables.positions, t.positions))
  {
    var after := FetchInto(t, target.subscription, target, result).tables;
    RefetchOnlyDates(t, target, result);
    AcceptedFetchRestoresImage(t, mark, target.subscription, target, result);
    hide FetchInto, Reconcile, Rows, LastSeen;
    OneRevisionSameWinners(t.ledger, after.ledger);
    SameWinnersExactly(t.ledger, after.ledger, result.complete);
  }

  ghost function Contents(s: set<Record>): set<Record> {
    set r | r in s :: Canonical(r)
  }

  lemma HeldContents(a: Ledger, b: Ledger, seenA: set<Record>, seenB: set<Record>, k: LedgerKey)
    requires Holds(a, seenA) && Holds(b, seenB) && Contents(seenA) == Contents(seenB) && k in a
    ensures k in b && b[k].canon == a[k].canon
  {
    var x := RecordOf(a[k]);
    assert x in seenA && Canonical(x) == a[k].canon;
    assert Canonical(x) in Contents(seenB);
    var y :| y in seenB && Canonical(y) == Canonical(x);
    assert RecordKey(y) == RecordKey(x) && RecordKey(x) == k;
  }

  /** With one revision per record, not even the observation times matter: two sequences of
      fetches that saw the same contents end with the same keys, contents and estimates. */
  lemma BatchingIgnoresObservation(t: Tables, target: Target, xs: seq<FetchResult>, ys: seq<FetchResult>)
    requires Shaped(t.ledger) && (t.ledger == map[] ==> t.positions == map[])
    requires AfterFetches(t, target, xs).Some? && AfterFetches(t, target, ys).Some?
    requires xs != [] && ys != [] && Contents(AllRecords(xs)) == Contents(AllRecords(ys))
    requires xs[|xs| - 1].complete == ys[|ys| - 1].complete
    requires OneRevision(AfterFetches(t, target, xs).value.ledger)
    ensures var a, b := AfterFetches(t, target, xs).value, AfterFetches(t, target, ys).value;
            SameContents(a.ledger, b.ledger) && SameEstimates(a.positions, b.positions)
  {
    var a, b := AfterFetches(t, target, xs).value, AfterFetches(t, target, ys).value;
    var seenA, seenB := RecordSet(t.ledger) + AllRecords(xs), RecordSet(t.ledger) + AllRecords(ys);
    FetchesHold(t, target, xs);
    FetchesHold(t, target, ys);
    LastEstimates(t, target, xs);
    LastEstimates(t, target, ys);
    assert Contents(seenA) == Contents(RecordSet(t.ledger)) + Contents(AllRecords(xs));
    assert Contents(seenB) == Contents(RecordSet(t.ledger)) + Contents(AllRecords(ys));
    hide AfterFetches, Reconcile, Rows, Holds, Contents, Agree, AllRecords, RecordSet;
    forall k | k in a.ledger ensures k in b.ledger && b.ledger[k].canon == a.ledger[k].canon {
      HeldContents(a.ledger, b.ledger, seenA, seenB, k);
    }
    forall k | k in b.ledger ensures k in a.ledger { HeldContents(b.ledger, a.ledger, seenB, seenA, k); }
    OneRevisionSameWinners(a.ledger, b.ledger);
    SameWinnersExactly(a.ledger, b.ledger, xs[|xs| - 1].complete);
  }

  // ---- A superseded revision listed again -----------------------------------------

  const OLD_REVISION := Record(BINANCE_COPY, 1, 1, 1, Increase, 1, Long, Some(1.0), Some(1.0), None, 1, 1, 0)
  const NEW_REVISION := OLD_REVISION.(revision := 2, quantity := Some(2.0), observedAt := 2)

  function RowOf(r: Record): LedgerRow { LedgerRow(Canonical(r), r.observedAt, r.observedAt) }

  const REVISED := map[RecordKey(OLD_REVISION) := RowOf(OLD_REVISION), RecordKey(NEW_REVISION) := RowOf(NEW_REVISION)]

  lemma OneEffective(ledger: Ledger, k: LedgerKey)
    requires Shaped(ledger) && k in ledger && Unrevised(ledger, k)
    requires forall j :: j in ledger ==> j.id == k.id
    ensures Effective(Rows(ledger)) == [RecordOf(ledger[k])]
  {
    assert HasRow(ledger, k.id);
    WinningKeyUnrevised(ledger, k.id);
    var es, w := Effective(Rows(ledger)), RecordOf(ledger[k]);
    assert Ascending(es, RecordRank);
    assert w.id == k.id;
    hide Effective, Rows, WinningKey, Unrevised, RecordOf, Ascending;
    forall r ensures r in es <==> r == w {
      EffectiveKeys(ledger, r);
      OnlyId(ledger, k, r.id);
    }
    OnlyMember(es, w);
  }

  lemma OnlyId(ledger: Ledger, k: LedgerKey, id: int)
    requires k in ledger && forall j :: j in ledger ==> j.id == k.id
    ensures HasRow(ledger, id) <==> id == k.id
  {
  }

  lemma OnlyMember(es: seq<Record>, w: Record)
    requires Ascending(es, RecordRank) && forall r :: r in es <==> r == w
    ensures es == [w]
  {
    assert Elements(es) == Elements([w]);
    AscendingUnique(es, [w], RecordRank);
  }

  lemma ReplayOne(r: Record, complete: bool)
    ensures Replay([r], complete) == Apply(r, map[], complete).positions
  {
    assert [r][..0] == [];
  }

  const REVISER := Target(1, BINANCE_COPY, Some(1), Some(0))

  function Shown(r: Record): FetchResult { FetchResult([r], Some(Checkpoint(1, 1)), true, None, map[]) }

  /** The tables of a fresh subscription after polls of these records, one at a time. */
  ghost function AfterPolls(rs: seq<Record>): Option<Tables>
    ensures AfterPolls(rs).Some? ==> Shaped(AfterPolls(rs).value.ledger)
  {
    AfterFetches(Restarted(NO_TABLES, Some(0)), REVISER, AllShown(rs))
  }

  function AllShown(rs: seq<Record>): (results: seq<FetchResult>)
    ensures |results| == |rs|
  {
    seq(|rs|, i requires 0 <= i < |rs| => Shown(rs[i]))
  }

  lemma OneMoreShown(rs: seq<Record>, r: Record)
    ensures AllShown(rs + [r])[..|rs|] == AllShown(rs) && AllShown(rs + [r])[|rs|] == Shown(r)
  {
  }

  lemma OnePollMore(rs: seq<Record>, r: Record)
    requires AfterPolls(rs).Some?
    ensures AfterPolls(rs + [r])
            == var step := FetchInto(AfterPolls(rs).value, 1, REVISER, Shown(r));
               if step.Rejected? then None else Some(step.tables)
  {
    hide FetchInto, AllShown, Shown;
    OneMoreShown(rs, r);
  }

  /** An accepted poll of one record leaves an exact view, past the baseline, with the record
      merged in. */
  lemma PolledOne(t: Tables, r: Record)
    requires IsView(t, Exact) && t.Start() == Some(0)
    requires r in {OLD_REVISION, NEW_REVISION, OLD_REVISION.(observedAt := 3)}
    requires t.Checkpoint().None? || t.Checkpoint() == Some(Checkpoint(1, 1))
    requires MergeOne(Merged(t.ledger, {}), r).Merged?
    ensures var step := FetchInto(t, 1, REVISER, Shown(r));
            && step.Accepted? && IsView(step.tables, Exact) && step.tables.Start() == Some(0)
            && step.tables.Checkpoint() == Some(Checkpoint(1, 1)) && !step.tables.Baseline()
            && step.tables.ledger == MergeOne(Merged(t.ledger, {}), r).ledger
  {
    assert [r][..0] == [];
    assert MergeAll(t.ledger, [r]) == MergeOne(Merged(t.ledger, {}), r);
    RecordsBelong([r], REVISER);
    MergeKeepsShape(t.ledger, [r]);
    AcceptedIf(t, Shown(r));
    AcceptedFetchRestoresImage(t, Exact, 1, REVISER, Shown(r));
    FetchedLedger(t, REVISER, Shown(r));
    FetchedCheckpoint(t, REVISER, Shown(r));
    BaselineDone(t, Shown(r));
    hide FetchInto, MergeOne, IsView;
  }

  lemma AcceptedIf(t: Tables, result: FetchResult)
    requires Shaped(t.ledger) && FirstRecordError(result.records, REVISER).None?
    requires result.candidate.Some?
             && !(t.Checkpoint().Some? && CheckpointBefore(result.candidate.value, t.Checkpoint().value))
    requires MergeAll(t.ledger, result.records).Merged?
    ensures FetchInto(t, 1, REVISER, result).Accepted?
  {
    MergeKeepsShape(t.ledger, result.records);
    hide MergeAll, FirstRecordError, PostsFor, RepricedAll, Reconcile, Rows;
  }

  lemma BaselineDone(t: Tables, result: FetchResult)
    requires Shaped(t.ledger) && FetchInto(t, 1, REVISER, result).Accepted?
    ensures !FetchInto(t, 1, REVISER, result).tables.Baseline()
  {
    hide FetchErrorOf, PostsFor, RepricedAll, MergeAll;
    MergeKeepsShape(t.ledger, result.records);
  }

  lemma RevisedLedger()
    ensures var one := MergeOne(Merged(map[], {}), OLD_REVISION);
            one.Merged? && MergeOne(Merged(one.ledger, {}), NEW_REVISION).Merged?
            && MergeOne(Merged(one.ledger, {}), NEW_REVISION).ledger == REVISED
  {
  }

  /** The tables after polls that all went well. */
  ghost predicate PolledTo(t: Tables, ledger: Ledger) {
    && IsView(t, Exact) && t.ledger == ledger && t.Start() == Some(0)
    && t.Checkpoint() == Some(Checkpoint(1, 1)) && !t.Baseline()
  }

  lemma FirstPoll()
    ensures AfterPolls([OLD_REVISION]).Some?
    ensures PolledTo(AfterPolls([OLD_REVISION]).value, MergeOne(Merged(map[], {}), OLD_REVISION).ledger)
  {
    var fresh' := Restarted(NO_TABLES, Some(0));
    EmptyTablesAreView(fresh');
    assert AfterPolls([]) == Some(fresh');
    hide FetchInto, IsView, AfterPolls;
    PolledOne(fresh', OLD_REVISION);
    OnePollMore([], OLD_REVISION);
    assert [] + [OLD_REVISION] == [OLD_REVISION];
  }

  /** Two polls from nothing leave the revised ledger. */
  lemma RevisedIsReached()
    ensures AfterPolls([OLD_REVISION, NEW_REVISION]).Some?
    ensures PolledTo(AfterPolls([OLD_REVISION, NEW_REVISION]).value, REVISED)
  {
    FirstPoll();
    RevisedLedger();
    hide FetchInto, IsView, AfterPolls, MergeOne, REVISED;
    PolledOne(AfterPolls([OLD_REVISION]).value, NEW_REVISION);
    OnePollMore([OLD_REVISION], NEW_REVISION);
    assert [OLD_REVISION] + [NEW_REVISION] == [OLD_REVISION, NEW_REVISION];
  }

  /** The failing case, reached from nothing by three accepted polls: record 1 is revised
      from quantity 1 to 2; a poll that lists the old revision again makes it stand, halves
      the position and tells nobody. */
  lemma RevivedRevision()
    ensures var polled := AfterPolls([OLD_REVISION, NEW_REVISION]);
            && polled.Some?
            && var t := polled.value;
               var result := Shown(OLD_REVISION.(observedAt := 3));
               var step := FetchInto(t, 1, REVISER, result);
               var slot := OLD_REVISION.Slot();
               && !t.Baseline() && step.Accepted? && step.posts == []
               && slot in t.positions && t.positions[slot].quantity == Some(2.0)
               && slot in step.tables.positions && step.tables.positions[slot].quantity == Some(1.0)
               && !NothingRevived(t.ledger, result.records)
  {
    RevisedIsReached();
    var t := AfterPolls([OLD_REVISION, NEW_REVISION]).value;
    var again := OLD_REVISION.(observedAt := 3);
    var result := Shown(again);
    RevivedWindow();
    PolledOne(t, again);
    RefetchOnlyDates(t, REVISER, result);
    var after := FetchInto(t, 1, REVISER, result).tables;
    RevivedStands(after.ledger);
    hide FetchInto, Effective, Rows, IsView, OnlyDated, Unrevised, REVISED, Known, AfterPolls, NothingRevived;
    OneEffective(t.ledger, RecordKey(NEW_REVISION));
    OneEffective(after.ledger, RecordKey(OLD_REVISION));
    StandingPosition(t, NEW_REVISION, RecordKey(NEW_REVISION));
    StandingPosition(after, OLD_REVISION, RecordKey(OLD_REVISION));
    RevivedWinner(t.ledger, after.ledger);
  }

  lemma RevivedWinner(before: Ledger, after: Ledger)
    requires before == REVISED && Shaped(after) && OnlyDated(before, after, [OLD_REVISION.(observedAt := 3)])
    requires Unrevised(before, RecordKey(NEW_REVISION)) && Unrevised(after, RecordKey(OLD_REVISION))
    ensures !NothingRevived(before, [OLD_REVISION.(observedAt := 3)])
  {
    var rs := [OLD_REVISION.(observedAt := 3)];
    RevivedWindow();
    assert HasRow(before, 1) && HasRow(after, 1) by {
      assert RecordKey(NEW_REVISION) in before && RecordKey(OLD_REVISION) in after;
    }
    WinningKeyUnrevised(before, 1);
    WinningKeyUnrevised(after, 1);
    RefetchKeepsWinnersExactly(before, after, rs);
    hide NothingRevived, OnlyDated, Unrevised, REVISED;
    assert WinningKey(before, 1) != WinningKey(after, 1);
  }

  lemma RevivedWindow()
    ensures Known(REVISED, [OLD_REVISION.(observedAt := 3)])
    ensures var j := RecordKey(NEW_REVISION);
            Unrevised(REVISED, j) && Canonical(NEW_REVISION) == REVISED[j].canon
            && forall k :: k in REVISED ==> k.id == j.id
  {
  }

  lemma RevivedStands(after: Ledger)
    requires OnlyDated(REVISED, after, [OLD_REVISION.(observedAt := 3)])
    ensures var k := RecordKey(OLD_REVISION);
            Unrevised(after, k) && Canonical(OLD_REVISION) == after[k].canon && forall j :: j in after ==> j.id == k.id
  {
    var k, j, again := RecordKey(OLD_REVISION), RecordKey(NEW_REVISION), OLD_REVISION.(observedAt := 3);
    assert k in REVISED && j in REVISED;
    assert again in [again] && RecordKey(again) == k;
    assert LastSeen(after[k].lastObserved, 1, [again], k);
    assert LastSeen(after[j].lastObserved, 2, [again], j);
  }

  lemma StandingPosition(t: Tables, r: Record, k: LedgerKey)
    requires IsView(t, Exact) && t.Start().Some? && k in t.ledger
    requires Effective(Rows(t.ledger)) == [RecordOf(t.ledger[k])] && Canonical(r) == t.ledger[k].canon
    requires r.op == Increase && r.bucket in {Long, Short}
    ensures r.Slot() in t.positions
    ensures t.positions[r.Slot()].quantity == r.quantity && t.positions[r.Slot()].entry == r.price
  {
    hide Effective, Rows;
    ReplayOne(RecordOf(t.ledger[k]), true);
    assert Image(t) == Replay([RecordOf(t.ledger[k])], true);
    assert EstimateOf(t.positions[r.Slot()]) == EstimateOf(Image(t)[r.Slot()]);
  }
}
