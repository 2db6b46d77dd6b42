/** What one accepted fetch, and any sequence of them, does to the ledger and the posts. */
module FetchTheorems {
  import opened Prelude
  import opened TradeModels
  import opened TradeReconciler
  import opened TradeStore
  import opened PositionView

  // ---- The ledger is a function of the set of records seen ------------------------

  /** Records of one (id, revision) carry one content. */
  ghost predicate Agree(s: set<Record>) {
    forall x, y :: x in s && y in s && RecordKey(x) == RecordKey(y) ==> Canonical(x) == Canonical(y)
  }

  /** The ledger holds every record seen under its key, last observed when it was last
      seen, and nothing else. */
  ghost predicate Holds(ledger: Ledger, seen: set<Record>) {
    && Shaped(ledger)
    && (forall r {:trigger RecordKey(r)} :: r in seen ==>
          RecordKey(r) in ledger && ledger[RecordKey(r)].canon == Canonical(r)
          && r.observedAt <= ledger[RecordKey(r)].lastObserved)
    && (forall k :: k in ledger ==> RecordOf(ledger[k]) in seen)
  }

  lemma LedgerHoldsItself(ledger: Ledger)
    requires Shaped(ledger)
    ensures Holds(ledger, RecordSet(ledger)) && Agree(RecordSet(ledger))
  {
  }

  lemma MergeOneAgrees(m: Merge, seen: set<Record>, r: Record)
    requires m.Merged? && Holds(m.ledger, seen) && Agree(seen)
    ensures MergeOne(m, r).Merged? <==> Agree(seen + {r})
  {
    var k := RecordKey(r);
    if k in m.ledger {
      var known := RecordOf(m.ledger[k]);
      assert RecordKey(known) == k && Canonical(known) == m.ledger[k].canon;
      assert known in seen;
    }
  }

  lemma MergeOneHolds(m: Merge, seen: set<Record>, r: Record)
    requires m.Merged? && Holds(m.ledger, seen)
    requires MergeOne(m, r).Merged?
    ensures Holds(MergeOne(m, r).ledger, seen + {r})
  {
    assert Canonical(r).(observedAt := r.observedAt) == r;
  }

  /** A window is merged exactly when all contents agree, and then the ledger holds the
      union; otherwise the fetch is refused as a revision collision. */
  lemma {:induction false} MergeHolds(ledger: Ledger, seen: set<Record>, rs: seq<Record>)
    requires Holds(ledger, seen) && Agree(seen)
    ensures MergeAll(ledger, rs).Merged? <==> Agree(seen + Elements(rs))
    ensures MergeAll(ledger, rs).Merged? ==> Holds(MergeAll(ledger, rs).ledger, seen + Elements(rs))
  {
    hide MergeOne, Holds, Agree;
    if rs == [] {
      assert seen + Elements(rs) == seen;
    } else {
      var n := |rs| - 1;
      var all := seen + Elements(rs[..n]);
      MergeHolds(ledger, seen, rs[..n]);
      LastElement(rs);
      assert all + {rs[n]} == seen + Elements(rs);
      if MergeAll(ledger, rs[..n]).Merged? {
        MergeOneAgrees(MergeAll(ledger, rs[..n]), all, rs[n]);
        if MergeAll(ledger, rs).Merged? { MergeOneHolds(MergeAll(ledger, rs[..n]), all, rs[n]); }
      } else {
        CollisionStays(MergeAll(ledger, rs[..n]), all, rs[n]);
      }
    }
  }

  lemma LastElement(rs: seq<Record>)
    requires rs != []
    ensures Elements(rs) == Elements(rs[..|rs| - 1]) + {rs[|rs| - 1]}
  {
    assert rs == rs[..|rs| - 1] + [rs[|rs| - 1]];
  }

  lemma CollisionStays(m: Merge, seen: set<Record>, r: Record)
    requires m.Collision? && !Agree(seen)
    ensures MergeOne(m, r).Collision? && !Agree(seen + {r})
  {
  }

  lemma SameRow(a: Ledger, b: Ledger, seen: set<Record>, k: LedgerKey)
    requires Holds(a, seen) && Holds(b, seen) && k in a
    ensures k in b && RecordOf(a[k]) == RecordOf(b[k])
  {
    assert RecordKey(RecordOf(a[k])) == k && RecordOf(a[k]) in seen;
    assert RecordKey(RecordOf(b[k])) == k && RecordOf(b[k]) in seen;
  }

  /** Ledgers that hold the same records differ at most in when a record was first seen. */
  lemma SameRecordsSameRows(a: Ledger, b: Ledger, seen: set<Record>)
    requires Holds(a, seen) && Holds(b, seen)
    ensures a.Keys == b.Keys
    ensures forall k :: k in a ==> RecordOf(a[k]) == RecordOf(b[k])
    ensures Rows(a) == Rows(b)
  {
    assert Shaped(a) && Shaped(b);
    hide Holds;
    forall k | k in a ensures k in b && RecordOf(a[k]) == RecordOf(b[k]) { SameRow(a, b, seen, k); }
    forall k | k in b ensures k in a { SameRow(b, a, seen, k); }
    assert RecordSet(a) == RecordSet(b);
  }

  /** Tables after a sequence of fetches, all of which must be accepted. */
  ghost function AfterFetches(t: Tables, target: Target, results: seq<FetchResult>): Option<Tables>
    requires Shaped(t.ledger)
    ensures AfterFetches(t, target, results).Some? ==> Shaped(AfterFetches(t, target, results).value.ledger)
  {
    if results == [] then Some(t)
    else
      var n := |results| - 1;
      var before := AfterFetches(t, target, results[..n]);
      if before.None? then None
      else
        MergeKeepsShape(before.value.ledger, results[n].records);
        var step := FetchInto(before.value, target.subscription, target, results[n]);
        if step.Rejected? then None else Some(step.tables)
  }

  ghost function AllRecords(results: seq<FetchResult>): set<Record> {
    set i, r | 0 <= i < |results| && r in results[i].records :: r
  }

  lemma AllRecordsGrow(results: seq<FetchResult>)
    requires results != []
    ensures var n := |results| - 1;
            AllRecords(results) == AllRecords(results[..n]) + Elements(results[n].records)
  {
    var n := |results| - 1;
    forall r | r in AllRecords(results) ensures r in AllRecords(results[..n]) + Elements(results[n].records) {
      var i :| 0 <= i < |results| && r in results[i].records;
      if i < n { assert results[..n][i] == results[i]; }
    }
  }

  lemma FetchedLedger(t: Tables, target: Target, result: FetchResult)
    requires Shaped(t.ledger)
    requires FetchInto(t, target.subscription, target, result).Accepted?
    ensures MergeAll(t.ledger, result.records).Merged?
    ensures FetchInto(t, target.subscription, target, result).tables.ledger
            == MergeAll(t.ledger, result.records).ledger
  {
    hide FetchErrorOf, PostsFor, RepricedAll, MergeAll, Reconcile;
    MergeKeepsShape(t.ledger, result.records);
  }

  lemma {:induction false} FetchesHold(t: Tables, target: Target, results: seq<FetchResult>)
    requires Shaped(t.ledger) && AfterFetches(t, target, results).Some?
    ensures Agree(RecordSet(t.ledger) + AllRecords(results))
    ensures Holds(AfterFetches(t, target, results).value.ledger, RecordSet(t.ledger) + AllRecords(results))
  {
    hide FetchInto, Holds, Agree;
    if results == [] {
      LedgerHoldsItself(t.ledger);
      assert RecordSet(t.ledger) + AllRecords(results) == RecordSet(t.ledger);
    } else {
      var n := |results| - 1;
      var before := AfterFetches(t, target, results[..n]).value;
      FetchesHold(t, target, results[..n]);
      FetchedLedger(before, target, results[n]);
      MergeHolds(before.ledger, RecordSet(t.ledger) + AllRecords(results[..n]), results[n].records);
      AllRecordsGrow(results);
      assert RecordSet(t.ledger) + AllRecords(results)
             == RecordSet(t.ledger) + AllRecords(results[..n]) + Elements(results[n].records);
    }
  }

  /** The estimates of an accepted fetch are those of its merged ledger. */
  lemma FetchedEstimates(t: Tables, target: Target, result: FetchResult)
    requires Shaped(t.ledger) && (t.ledger == map[] ==> t.positions == map[])
    requires FetchInto(t, target.subscription, target, result).Accepted?
    ensures var after := FetchInto(t, target.subscription, target, result).tables;
            Shaped(after.ledger)
              && ReadsAs(after.positions, Reconcile(Rows(after.ledger), result.complete).positions, Exact)
    ensures FetchInto(t, target.subscription, target, result).tables.ledger == map[]
            ==> FetchInto(t, target.subscription, target, result).tables.positions == map[]
  {
    hide FetchErrorOf, PostsFor, RepricedAll, MergeAll;
    var m := MergeAll(t.ledger, result.records);
    MergeKeepsShape(t.ledger, result.records);
    MergeGrows(t.ledger, result.records);
    if m.ledger == map[] {
      assert t.ledger == map[] by {
        if k :| k in t.ledger { assert k in m.ledger; }
      }
      EmptyReplay();
    } else {
      RowsOfSomething(m.ledger);
      var out := Reconcile(Rows(m.ledger), result.complete);
      var time := if result.account.Some? then result.account.value.observedAt else LatestObserved(Rows(m.ledger));
      RepricingReadsExact(out.positions, t.positions, result.marks, time);
    }
  }

  lemma {:induction false} FetchesKeepEmpty(t: Tables, target: Target, results: seq<FetchResult>)
    requires Shaped(t.ledger) && (t.ledger == map[] ==> t.positions == map[])
    requires AfterFetches(t, target, results).Some?
    ensures var after := AfterFetches(t, target, results).value;
            after.ledger == map[] ==> after.positions == map[]
  {
    hide FetchInto;
    if results != [] {
      var n := |results| - 1;
      FetchesKeepEmpty(t, target, results[..n]);
      FetchedEstimates(AfterFetches(t, target, results[..n]).value, target, results[n]);
    }
  }

  ghost predicate SameEstimates(a: Positions, b: Positions) {
    a.Keys == b.Keys && forall k :: k in a ==> EstimateOf(a[k]) == EstimateOf(b[k])
  }

  /** However the same records are cut into overlapping windows and whatever their order,
      the ledger rows and the estimates come out the same. */
  lemma BatchingIndependence(t: Tables, target: Target, xs: seq<FetchResult>, ys: seq<FetchResult>)
    requires Shaped(t.ledger) && (t.ledger == map[] ==> t.positions == map[])
    requires AfterFetches(t, target, xs).Some? && AfterFetches(t, target, ys).Some?
    requires xs != [] && ys != [] && AllRecords(xs) == AllRecords(ys)
    requires xs[|xs| - 1].complete == ys[|ys| - 1].complete
    ensures var a, b := AfterFetches(t, target, xs).value, AfterFetches(t, target, ys).value;
            && a.ledger.Keys == b.ledger.Keys
            && (forall k :: k in a.ledger ==> RecordOf(a.ledger[k]) == RecordOf(b.ledger[k]))
            && SameEstimates(a.positions, b.positions)
  {
    hide FetchInto, Reconcile, Rows, Holds;
    var a, b := AfterFetches(t, target, xs).value, AfterFetches(t, target, ys).value;
    FetchesHold(t, target, xs);
    FetchesHold(t, target, ys);
    SameRecordsSameRows(a.ledger, b.ledger, RecordSet(t.ledger) + AllRecords(xs));
    LastEstimates(t, target, xs);
    LastEstimates(t, target, ys);
  }

  lemma LastEstimates(t: Tables, target: Target, xs: seq<FetchResult>)
    requires Shaped(t.ledger) && (t.ledger == map[] ==> t.positions == map[])
    requires xs != [] && AfterFetches(t, target, xs).Some?
    ensures var after := AfterFetches(t, target, xs).value;
            ReadsAs(after.positions, Reconcile(Rows(after.ledger), xs[|xs| - 1].complete).positions, Exact)
  {
    hide FetchInto;
    var n := |xs| - 1;
    FetchesKeepEmpty(t, target, xs[..n]);
    FetchedEstimates(AfterFetches(t, target, xs[..n]).value, target, xs[n]);
  }

  // ---- Exactly which fetches are accepted -----------------------------------------

  ghost predicate Belongs(r: Record, target: Target) {
    && r.platform == target.platform && Some(r.accountId) == target.accountId
    && (target.start.Some? ==> target.start.value <= r.eventTime)
  }

  lemma {:induction false} RecordsBelong(rs: seq<Record>, target: Target)
    ensures FirstRecordError(rs, target).None? <==> forall r :: r in rs ==> Belongs(r, target)
  {
    if rs != [] {
      var n := |rs| - 1;
      assert rs == rs[..n] + [rs[n]];
      RecordsBelong(rs[..n], target);
      assert RecordError(rs[n], target).None? <==> Belongs(rs[n], target);
      assert forall r :: r in rs <==> r in rs[..n] || r == rs[n];
    }
  }

  /** A fetch is accepted exactly when it is of the subscription, all its records are of
      the target and not before its start, the checkpoint does not move backwards, and no
      (id, revision) has two contents, in the window or against the ledger. */
  lemma FetchAcceptedExactly(t: Tables, subscription: int, target: Target, result: FetchResult)
    requires Shaped(t.ledger)
    ensures FetchInto(t, subscription, target, result).Accepted? <==>
              && target.subscription == subscription && target.accountId.Some?
              && (forall r :: r in result.records ==> Belongs(r, target))
              && !(result.candidate.Some? && t.Checkpoint().Some?
                   && CheckpointBefore(result.candidate.value, t.Checkpoint().value))
              && Agree(RecordSet(t.ledger) + Elements(result.records))
  {
    RecordsBelong(result.records, target);
    LedgerHoldsItself(t.ledger);
    MergeHolds(t.ledger, RecordSet(t.ledger), result.records);
    MergeKeepsShape(t.ledger, result.records);
    hide MergeAll, Agree, Holds, PostsFor, RepricedAll, Reconcile, FirstRecordError, Rows;
  }

  /** Over any run of accepted fetches the checkpoint never moves backwards. */
  lemma {:induction false} CheckpointsAdvance(t: Tables, target: Target, results: seq<FetchResult>)
    requires Shaped(t.ledger) && AfterFetches(t, target, results).Some?
    ensures var before, after := t.Checkpoint(), AfterFetches(t, target, results).value.Checkpoint();
            before.Some? ==> after.Some? && !CheckpointBefore(after.value, before.value)
  {
    hide FetchInto;
    if results != [] {
      var n := |results| - 1;
      CheckpointsAdvance(t, target, results[..n]);
      FetchMovesForward(AfterFetches(t, target, results[..n]).value, target, results[n]);
    }
  }

  lemma FetchedCheckpoint(t: Tables, target: Target, result: FetchResult)
    requires Shaped(t.ledger) && FetchInto(t, target.subscription, target, result).Accepted?
    ensures FetchInto(t, target.subscription, target, result).tables.Checkpoint()
            == if result.candidate.Some? then result.candidate else t.Checkpoint()
  {
    hide FetchErrorOf, PostsFor, RepricedAll, MergeAll;
    MergeKeepsShape(t.ledger, result.records);
  }

  lemma FetchMovesForward(t: Tables, target: Target, result: FetchResult)
    requires Shaped(t.ledger) && FetchInto(t, target.subscription, target, result).Accepted?
    ensures var before, after := t.Checkpoint(), FetchInto(t, target.subscription, target, result).tables.Checkpoint();
            before.Some? ==> after.Some? && !CheckpointBefore(after.value, before.value)
  {
    FetchedCheckpoint(t, target, result);
    assert FetchErrorOf(target.subscription, target, result, t.Checkpoint()).None?
      by { AcceptedIsValid(t, target, result); }
    hide FetchInto, FirstRecordError;
  }

  lemma AcceptedIsValid(t: Tables, target: Target, result: FetchResult)
    requires Shaped(t.ledger) && FetchInto(t, target.subscription, target, result).Accepted?
    ensures FetchErrorOf(target.subscription, target, result, t.Checkpoint()).None?
  {
    hide FetchErrorOf, MergeAll, Committed;
  }
}
