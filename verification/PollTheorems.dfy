/** What one poll answers, case by case, in the fields of the page and of the records. */
module PollTheorems {
  import opened Prelude
  import opened TradeModels
  import opened TradeStore
  import opened BinanceCopy

  // ---- The fills of a page --------------------------------------------------------

  /** The record says what the row says, and that it was seen now. */
  ghost predicate Says(r: Record, row: Row, account: int, observedAt: int) {
    && r.platform == BINANCE_COPY && r.accountId == account && r.id == row.recordId && r.revision == row.revision
    && r.symbol == row.symbol && r.bucket == row.bucket && r.source == row.source
    && r.quantity == Some(row.quantity) && r.price == Some(row.price) && r.leverage.None?
    && r.eventTime == row.updateTime && r.observedAt == observedAt
    && r.op == (match row.trade
                case Buy => if row.bucket == Long then Increase else Decrease
                case Sell => if row.bucket == Short then Increase else Decrease)
  }

  /** Everything is tracked without a start time; with one, only what lies between it and now. */
  predicate Tracked(row: Row, target: Target, observedAt: int) {
    target.start.Some? ==> target.start.value <= row.updateTime && row.updateTime <= observedAt
  }

  /** No record is behind a later one. */
  ghost predicate InOrder(rs: seq<Record>) {
    forall i, j :: 0 <= i < j < |rs| ==> !Below(RecordRank(rs[j]), RecordRank(rs[i]))
  }

  lemma {:induction false} PlacedInOrder(s: seq<Record>, r: Record)
    requires InOrder(s)
    ensures InOrder(Placed(s, r)) && forall x :: x in Placed(s, r) <==> x == r || x in s
  {
    hide RecordRank;
    if s != [] && Below(RecordRank(r), RecordRank(s[|s| - 1])) {
      var n := |s| - 1;
      assert s == s[..n] + [s[n]];
      PlacedInOrder(s[..n], r);
      var front := Placed(s[..n], r);
      forall i | 0 <= i < |front| ensures !Below(RecordRank(s[n]), RecordRank(front[i])) {
        assert front[i] in front;
        if front[i] != r {
          var m :| 0 <= m < n && s[..n][m] == front[i];
          assert s[m] == front[i];
        }
      }
      assert Placed(s, r) == front + [s[n]];
      hide Placed;
    } else {
      LastInOrder(s, r);
    }
  }

  lemma LastInOrder(s: seq<Record>, r: Record)
    requires InOrder(s) && (s == [] || !Below(RecordRank(r), RecordRank(s[|s| - 1])))
    ensures InOrder(s + [r])
  {
    hide RecordRank;
    forall i | 0 <= i < |s| ensures !Below(RecordRank(r), RecordRank(s[i])) {
      assert i < |s| - 1 ==> !Below(RecordRank(s[|s| - 1]), RecordRank(s[i]));
    }
  }

  lemma {:induction false} SortedInOrder(rs: seq<Record>)
    ensures InOrder(Sorted(rs)) && forall x :: x in Sorted(rs) <==> x in rs
  {
    hide InOrder, Placed;
    if rs != [] {
      var n := |rs| - 1;
      assert rs == rs[..n] + [rs[n]];
      SortedInOrder(rs[..n]);
      PlacedInOrder(Sorted(rs[..n]), rs[n]);
    } else {
      NothingInOrder();
    }
  }

  lemma NothingInOrder()
    ensures InOrder([])
  {
  }

  lemma {:induction false} WithinInOrder(rs: seq<Record>, start: int, observedAt: int)
    requires InOrder(rs)
    ensures InOrder(Within(rs, start, observedAt))
    ensures forall x :: x in Within(rs, start, observedAt) <==> x in rs && start <= x.eventTime <= observedAt
  {
    hide RecordRank;
    if rs != [] {
      var n := |rs| - 1;
      assert rs == rs[..n] + [rs[n]];
      WithinInOrder(rs[..n], start, observedAt);
      var front := Within(rs[..n], start, observedAt);
      forall i | 0 <= i < |front| ensures !Below(RecordRank(rs[n]), RecordRank(front[i])) {
        assert front[i] in front;
        var m :| 0 <= m < n && rs[..n][m] == front[i];
        assert rs[m] == front[i];
      }
    }
  }

  lemma RowSaid(row: Row, account: int, observedAt: int)
    ensures Says(Normalized(row, account, observedAt), row, account, observedAt)
  {
  }

  lemma NormalizedRows(rows: seq<Row>, account: int, observedAt: int, r: Record)
    ensures r in NormalizedAll(rows, account, observedAt)
            <==> exists row :: row in rows && r == Normalized(row, account, observedAt)
  {
    hide Normalized;
    var all := NormalizedAll(rows, account, observedAt);
    if r in all {
      var i :| 0 <= i < |all| && all[i] == r;
      assert rows[i] in rows;
    }
    if row :| row in rows && r == Normalized(row, account, observedAt) {
      var i :| 0 <= i < |rows| && rows[i] == row;
      assert all[i] == r;
    }
  }

  /** The records of a page: those of its tracked rows, all of them and nothing else, in
      (event time, id, revision) order. */
  ghost predicate TellsPage(rs: seq<Record>, rows: seq<Row>, target: Target, account: int, observedAt: int) {
    && InOrder(rs)
    && (forall r :: r in rs ==>
          exists row :: row in rows && Tracked(row, target, observedAt) && Says(r, row, account, observedAt))
    && (forall row :: row in rows && Tracked(row, target, observedAt) ==>
          exists r :: r in rs && Says(r, row, account, observedAt))
  }

  lemma FillsTell(target: Target, observedAt: int, page: Response)
    requires page.Page? && target.accountId.Some?
    ensures TellsPage(Fills(target, observedAt, page), page.rows, target, target.accountId.value, observedAt)
  {
    var account := target.accountId.value;
    var all := NormalizedAll(page.rows, account, observedAt);
    var rs := Fills(target, observedAt, page);
    SortedInOrder(all);
    if target.start.Some? { WithinInOrder(Sorted(all), target.start.value, observedAt); }
    hide InOrder, Sorted, Within, Says, NormalizedAll, Normalized;
    forall r | r in rs
      ensures exists row :: row in page.rows && Tracked(row, target, observedAt) && Says(r, row, account, observedAt)
    {
      NormalizedRows(page.rows, account, observedAt, r);
      var row :| row in page.rows && r == Normalized(row, account, observedAt);
      RowSaid(row, account, observedAt);
      SaidTime(r, row, account, observedAt);
    }
    forall row | row in page.rows && Tracked(row, target, observedAt)
      ensures exists r :: r in rs && Says(r, row, account, observedAt)
    {
      var r := Normalized(row, account, observedAt);
      NormalizedRows(page.rows, account, observedAt, r);
      RowSaid(row, account, observedAt);
      SaidTime(r, row, account, observedAt);
    }
  }

  lemma SaidTime(r: Record, row: Row, account: int, observedAt: int)
    requires Says(r, row, account, observedAt)
    ensures r.eventTime == row.updateTime && r.id == row.recordId
  {
  }

  // ---- The answer -----------------------------------------------------------------

  /** A page within the limits whose rows all make sense. */
  ghost predicate Readable(page: Response) {
    && page.Page? && |page.rows| <= 100 && |page.rows| <= page.total
    && forall row :: row in page.rows ==>
         row.bucket in {Long, Short} && row.orderTime > 0 && row.updateTime > 0 && row.quantity > 0.0
         && row.price >= 0.0
  }

  /** Nothing new, under the checkpoint there was. */
  ghost predicate Empty(answer: Answer, checkpoint: Option<Checkpoint>) {
    && answer.Answered? && |answer.result.records| == 0 && answer.result.candidate == checkpoint
    && answer.result.account.None? && answer.result.marks == map[]
  }

  /** The records after which the answer says to go on: the last one, or where it was. */
  ghost predicate GoesOnFrom(candidate: Option<Checkpoint>, rs: seq<Record>, checkpoint: Option<Checkpoint>) {
    if |rs| == 0 then candidate == checkpoint
    else
      && candidate.Some? && candidate.value.eventTime == rs[|rs| - 1].eventTime
      && candidate.value.recordId == rs[|rs| - 1].id
  }

  /** The page holds the record of the checkpoint, if there is one. */
  ghost predicate Overlaps(page: Response, target: Target, observedAt: int, checkpoint: Option<Checkpoint>)
    requires page.Page?
  {
    checkpoint.Some? ==>
      exists row :: row in page.rows && Tracked(row, target, observedAt) && row.recordId == checkpoint.value.recordId
  }

  lemma OverlapExactly(page: Response, target: Target, observedAt: int, checkpoint: Option<Checkpoint>)
    requires page.Page? && target.accountId.Some?
    ensures Overlaps(page, target, observedAt, checkpoint)
            <==> checkpoint.None? || HasId(Fills(target, observedAt, page), checkpoint.value.recordId)
  {
    FillsTell(target, observedAt, page);
    var rs := Fills(target, observedAt, page);
    hide Fills, Says, InOrder;
    if checkpoint.Some? {
      if i :| 0 <= i < |rs| && rs[i].id == checkpoint.value.recordId {
        assert rs[i] in rs;
        var row :| row in page.rows && Tracked(row, target, observedAt)
          && Says(rs[i], row, target.accountId.value, observedAt);
        SaidTime(rs[i], row, target.accountId.value, observedAt);
      }
      if row :| row in page.rows && Tracked(row, target, observedAt)
                && row.recordId == checkpoint.value.recordId
      {
        var r :| r in rs && Says(r, row, target.accountId.value, observedAt);
        SaidTime(r, row, target.accountId.value, observedAt);
      }
    }
  }

  ghost predicate GapAnswer(p: Poll) { p == Poll(HistoryGap, AccessLimited) }

  /** A poll, case by case. It is answered with records exactly when the target is one of
      this provider, tracking began within the last 30 days, the page is readable and holds
      the checkpoint's record and, if a start is set, all there is. */
  lemma PollExactly(target: Target, checkpoint: Option<Checkpoint>, observedAt: int, page: Response, extras: Extras)
    ensures var p := Polled(target, checkpoint, observedAt, page, extras);
            if target.platform != BINANCE_COPY || target.accountId.None? then
              p.health == Failed && Empty(p.answer, checkpoint)
            else if target.start.Some? && observedAt < target.start.value then
              p.health == Healthy && Empty(p.answer, checkpoint) && p.answer.result.complete
            else if target.start.Some? && observedAt - target.start.value > 2592000 then GapAnswer(p)
            else if !Readable(page) then
              && Empty(p.answer, checkpoint)
              && p.health == if page.HttpError? then Failed else if page.Refused? then AccessLimited else SchemaChanged
            else if target.start.Some? && page.total > |page.rows| then GapAnswer(p)
            else if !Overlaps(page, target, observedAt, checkpoint) then GapAnswer(p)
            else
              && p.health == Healthy && p.answer.Answered?
              && TellsPage(p.answer.result.records, page.rows, target, target.accountId.value, observedAt)
              && GoesOnFrom(p.answer.result.candidate, p.answer.result.records, checkpoint)
              && p.answer.result.complete == target.start.Some?
              && p.answer.result.account == extras.account && p.answer.result.marks == extras.marks
  {
    assert page.Page? ==> (ValidPage(page) <==> Readable(page));
    if page.Page? && target.accountId.Some? {
      FillsTell(target, observedAt, page);
      OverlapExactly(page, target, observedAt, checkpoint);
    }
    hide TellsPage, Overlaps, HasId, Fills, ValidPage, Readable;
  }
}
