/** The position table is a view: in every state the store can reach it reads exactly as
    the replay of the whole ledger, possibly under a stale or an unknown mark. */
module PositionView {
  import opened Prelude
  import opened TradeModels
  import opened TradeReconciler
  import opened Valuation
  import opened TradeStore

  datatype Mark = Exact | StaleMark | UnknownMark | UnknownThenStale

  /** How a replayed estimate reads under a mark. */
  function Reading(mark: Mark, e: Estimate): Estimate {
    match mark
    case Exact => e
    case StaleMark => e.(status := Stale)
    case UnknownMark => Estimate(NoSide, None, None, None, NoConfidence, Unknown)
    case UnknownThenStale => Estimate(NoSide, None, None, None, NoConfidence, Stale)
  }

  /** The positions the ledger stands for; a configured start time makes it complete. */
  ghost function Image(t: Tables): Positions
    requires Shaped(t.ledger)
  {
    Reconcile(Rows(t.ledger), t.Start().Some?).positions
  }

  ghost predicate ReadsAs(rows: Positions, image: Positions, mark: Mark) {
    rows.Keys == image.Keys && forall k :: k in rows ==> EstimateOf(rows[k]) == Reading(mark, EstimateOf(image[k]))
  }

  ghost predicate IsView(t: Tables, mark: Mark) {
    Shaped(t.ledger) && ReadsAs(t.positions, Image(t), mark)
  }

  function AfterStaleMark(mark: Mark): Mark {
    if mark in {Exact, StaleMark} then StaleMark else UnknownThenStale
  }

  lemma StaleMarkReads(t: Tables, mark: Mark, time: int)
    requires IsView(t, mark)
    ensures IsView(MarkedStale(t, time), AfterStaleMark(mark))
  {
    hide Reconcile, Rows;
    assert Image(MarkedStale(t, time)) == Image(t);
  }

  lemma UnknownMarkReads(t: Tables, mark: Mark, time: int)
    requires IsView(t, mark)
    ensures IsView(MarkedUnknown(t, time), UnknownMark)
  {
    hide Reconcile, Rows;
    assert Image(MarkedUnknown(t, time)) == Image(t);
  }

  lemma EmptyReplay()
    ensures Shaped(map[]) && Rows(map[]) == []
    ensures forall complete :: Reconcile([], complete).positions == map[]
  {
    forall complete ensures Reconcile([], complete).positions == map[] {
      assert Winners([]) == {};
    }
  }

  lemma EmptyTablesAreView(t: Tables)
    requires t.ledger == map[] && t.positions == map[]
    ensures IsView(t, Exact)
  {
    EmptyReplay();
  }

  /** Repricing changes no part of the estimate. */
  lemma RepricingReadsExact(inferred: Positions, previous: Positions, marks: map<int, real>, time: int)
    ensures ReadsAs(RepricedAll(inferred, previous, marks, time), inferred, Exact)
  {
    hide Times, Ratio, Delta, Abs;
  }

  lemma {:induction false} MergeGrows(ledger: Ledger, rs: seq<Record>)
    ensures MergeAll(ledger, rs).Merged? ==> ledger.Keys <= MergeAll(ledger, rs).ledger.Keys
  {
    if rs != [] { MergeGrows(ledger, rs[..|rs| - 1]); }
  }

  /** Whatever marks lay on the table, the next accepted fetch restores the exact image of
      the merged ledger, and a rejected one changes nothing. */
  lemma AcceptedFetchRestoresImage(t: Tables, mark: Mark, subscription: int, target: Target, result: FetchResult)
    requires IsView(t, mark)
    requires result.complete == t.Start().Some?
    requires FetchInto(t, subscription, target, result).Accepted?
    ensures IsView(FetchInto(t, subscription, target, result).tables, Exact)
    ensures FetchInto(t, subscription, target, result).tables.Start() == t.Start()
  {
    hide FetchErrorOf, PostsFor, RepricedAll, MergeAll;
    var m := MergeAll(t.ledger, result.records);
    MergeKeepsShape(t.ledger, result.records);
    MergeGrows(t.ledger, result.records);
    var after := FetchInto(t, subscription, target, result).tables;
    assert after.Start() == t.Start();
    if m.ledger == map[] {
      assert t.ledger == map[] by {
        if k :| k in t.ledger { assert k in m.ledger; }
      }
      EmptyReplay();
      EmptyTablesAreView(after);
    } else {
      RowsOfSomething(m.ledger);
      var out := Reconcile(Rows(m.ledger), result.complete);
      var time := if result.account.Some? then result.account.value.observedAt else LatestObserved(Rows(m.ledger));
      RepricingReadsExact(out.positions, t.positions, result.marks, time);
    }
  }

  lemma RestartedIsView(t: Tables, mark: Mark, requested: Option<int>)
    requires IsView(t, mark)
    ensures IsView(Restarted(t, requested), if SameStart(t, requested) then mark else Exact)
    ensures Restarted(t, requested).Start() == requested
  {
    if !SameStart(t, requested) { EmptyTablesAreView(Restarted(t, requested)); }
  }
}
