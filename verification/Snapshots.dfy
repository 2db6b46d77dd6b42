/** The position snapshot the collector sends after a fetch, and the server's answer. */
module Snapshots {
  import opened Prelude
  import opened TradeModels
  import opened TradeReconciler
  import opened Valuation
  import opened TradeStore
  import opened PostTheorems
  import opened CollectorDb
  import opened CollectorApi
  import opened Reachable

  function LineOf(e: Event): Line {
    var r := e.record;
    Line(RecordKey(r), e.action, r.op, r.symbol, r.bucket, r.quantity, r.price,
         if r.quantity.Some? && r.price.Some? then Some(Times(r.quantity.value, r.price.value)) else None,
         r.leverage, r.eventTime)
  }

  function LinesOf(events: seq<Event>): (ls: seq<Line>)
    ensures |ls| == |events|
  {
    seq(|events|, i requires 0 <= i < |events| => LineOf(events[i]))
  }

  function Tail<T>(s: seq<T>, n: nat): seq<T> {
    if |s| <= n then s else s[|s| - n..]
  }

  function RowsIn(ps: Positions, keys: seq<Key>): (rows: seq<Position>)
    requires forall k :: k in keys ==> k in ps
    ensures |rows| == |keys|
  {
    seq(|keys|, i requires 0 <= i < |keys| => ps[keys[i]])
  }

  ghost function SortedKeys(ps: Positions): (keys: seq<Key>)
    ensures Elements(keys) == ps.Keys && |keys| == |ps| && Ascending(keys, KeyRank)
    ensures forall k :: k in keys ==> k in ps
  {
    KeysSeparated(ps.Keys);
    var keys := Arranged(ps.Keys, KeyRank);
    assert forall k :: k in keys ==> k in Elements(keys);
    keys
  }

  /** The account; rows in key order; the newest 2000 operations of the replay. */
  ghost function SnapshotOf(t: Tables): Snapshot
    requires Shaped(t.ledger)
  {
    Snapshot(t.account, RowsIn(t.positions, SortedKeys(t.positions)),
             Tail(LinesOf(Reconcile(Rows(t.ledger), t.Start().Some?).events), MAX_LINES))
  }

  method ListRows(ps: Positions) returns (rows: seq<Position>)
    ensures rows == RowsIn(ps, SortedKeys(ps))
  {
    hide KeyRank;
    KeysSeparated(ps.Keys);
    var keys := SelectOrdered(ps.Keys, KeyRank);
    AscendingUnique(keys, SortedKeys(ps), KeyRank);
    rows := [];
    for i := 0 to |keys|
      invariant |rows| == i && forall j :: 0 <= j < i ==> keys[j] in ps && rows[j] == ps[keys[j]]
    {
      assert keys[i] in keys;
      rows := rows + [ps[keys[i]]];
    }
  }

  method ListLines(events: seq<Event>) returns (lines: seq<Line>)
    ensures lines == LinesOf(events)
  {
    lines := [];
    for i := 0 to |events|
      invariant |lines| == i && forall j :: 0 <= j < i ==> lines[j] == LineOf(events[j])
    {
      lines := lines + [LineOf(events[i])];
    }
  }

  method BuildSnapshot(t: Tables) returns (s: Snapshot)
    requires Shaped(t.ledger)
    ensures s == SnapshotOf(t)
  {
    hide LinesOf, RowsIn;
    var rows := ListRows(t.positions);
    var rs := SelectOrdered(RecordSet(t.ledger), RecordRank);
    var out := ReconcileRecords(rs, t.Start().Some?);
    var lines := ListLines(out.events);
    s := Snapshot(t.account, rows, Tail(lines, MAX_LINES));
  }

  /** A line repeats an event: its record's identity, terms and time, and the action. */
  ghost predicate Repeats(l: Line, e: Event) {
    && l.key.id == e.record.id && l.key.revision == e.record.revision && l.eventTime == e.record.eventTime
    && l.action == e.action && l.op == e.record.op && l.symbol == e.record.symbol && l.bucket == e.record.bucket
    && l.quantity == e.record.quantity && l.price == e.record.price && l.leverage == e.record.leverage
    && (l.amount.Some? <==> l.quantity.Some? && l.price.Some?)
    && (l.amount.Some? ==> l.amount.value == Times(l.quantity.value, l.price.value))
  }

  lemma LinesRepeat(events: seq<Event>)
    ensures var ls, skipped := Tail(LinesOf(events), MAX_LINES), if |events| > 2000 then |events| - 2000 else 0;
            && |ls| == |events| - skipped
            && forall i :: 0 <= i < |ls| ==> Repeats(ls[i], events[skipped + i])
  {
    forall i | 0 <= i < |events| ensures Repeats(LineOf(events[i]), events[i]) {}
    hide Repeats, LineOf;
  }

  /** What a snapshot holds: the account, every row once in key order, and the newest 2000
      events of the replay in its order. */
  lemma SnapshotTells(t: Tables) returns (keys: seq<Key>)
    requires Shaped(t.ledger)
    ensures var s, events := SnapshotOf(t), Reconcile(Rows(t.ledger), t.Start().Some?).events;
            var skipped := if |events| > 2000 then |events| - 2000 else 0;
            && s.account == t.account
            && |s.lines| == |events| - skipped
            && forall i :: 0 <= i < |s.lines| ==> Repeats(s.lines[i], events[skipped + i])
    ensures var rows := SnapshotOf(t).positions;
            && |rows| == |keys| && Ascending(keys, KeyRank) && Elements(keys) == t.positions.Keys
            && forall i :: 0 <= i < |keys| ==> keys[i] in t.positions && rows[i] == t.positions[keys[i]]
  {
    hide Rows, Reconcile, Repeats, LinesOf, Tail, KeyRank;
    LinesRepeat(Reconcile(Rows(t.ledger), t.Start().Some?).events);
    keys := SortedKeys(t.positions);
    forall i | 0 <= i < |keys| ensures keys[i] in t.positions { assert keys[i] in keys; }
  }

  // ---- Acceptance -----------------------------------------------------------------

  ghost predicate LinesOk(ls: seq<Line>, start: Option<int>) {
    && (forall i :: 0 <= i < |ls| ==> ValidLine(ls[i]) && (start.Some? ==> start.value <= ls[i].eventTime))
    && (forall i, j :: 0 <= i < j < |ls| ==> ls[i].key != ls[j].key)
  }

  lemma LineIsValid(e: Event)
    requires Sound(e.record)
    ensures ValidLine(LineOf(e))
  {
    if e.record.quantity.Some? && e.record.price.Some? {
      assert Times(e.record.quantity.value, e.record.price.value) >= 0.0;
    }
  }

  lemma TailOk(ls: seq<Line>, start: Option<int>)
    requires LinesOk(ls, start)
    ensures LinesOk(Tail(ls, MAX_LINES), start) && |Tail(ls, MAX_LINES)| <= MAX_LINES
  {
    hide ValidLine;
  }

  lemma EventLinesOk(rs: seq<Record>, complete: bool, start: Option<int>)
    requires forall r :: r in Effective(rs) ==> Sound(r) && (start.Some? ==> start.value <= r.eventTime)
    ensures LinesOk(LinesOf(Reconcile(rs, complete).events), start)
  {
    var events := Reconcile(rs, complete).events;
    EventsHaveDistinctKeys(rs, complete);
    hide Effective, Reconcile, ValidLine;
    forall i | 0 <= i < |events|
      ensures ValidLine(LineOf(events[i])) && (start.Some? ==> start.value <= LineOf(events[i]).eventTime)
    {
      assert events[i] in events;
      assert events[i].record in Effective(rs);
      LineIsValid(events[i]);
    }
    var all := LinesOf(events);
    forall i, j | 0 <= i < j < |all| ensures all[i].key != all[j].key {
      assert EventKey(events[i]) != EventKey(events[j]);
    }
  }

  lemma LinesAreValid(t: Tables)
    requires Shaped(t.ledger) && SoundLedger(t.ledger, t.Start())
    ensures LinesOk(SnapshotOf(t).lines, t.Start()) && |SnapshotOf(t).lines| <= MAX_LINES
  {
    RowsAreSound(t.ledger, t.Start());
    hide LinesOk, LinesOf, Effective, Rows, Reconcile, Tail;
    EventLinesOk(Rows(t.ledger), t.Start().Some?, t.Start());
    TailOk(LinesOf(Reconcile(Rows(t.ledger), t.Start().Some?).events), t.Start());
  }

  ghost predicate PositionsOk(ps: seq<Position>, start: Option<int>) {
    && (forall i :: 0 <= i < |ps| ==> RowOk(ps[i].Slot(), ps[i], start))
    && (forall i, j :: 0 <= i < j < |ps| ==> ps[i].Slot() != ps[j].Slot())
  }

  lemma ListedRowsOk(rows: Positions, start: Option<int>, keys: seq<Key>)
    requires RowsOk(rows, start) && Distinct(keys) && forall k :: k in keys ==> k in rows
    ensures PositionsOk(RowsIn(rows, keys), start)
    ensures forall i :: 0 <= i < |keys| ==> RowsIn(rows, keys)[i].Slot() == keys[i]
  {
    hide Coherent;
    forall i | 0 <= i < |keys| ensures RowOk(keys[i], RowsIn(rows, keys)[i], start) {
      assert keys[i] in keys;
    }
  }

  lemma ListedRowsAreTable(rows: Positions, keys: seq<Key>)
    requires Elements(keys) == rows.Keys && forall k :: k in keys ==> k in rows
    requires forall i :: 0 <= i < |keys| ==> RowsIn(rows, keys)[i].Slot() == keys[i]
    ensures IsTableOf(rows, RowsIn(rows, keys))
  {
    var ps := RowsIn(rows, keys);
    forall k | k in rows ensures rows[k] in ps && rows[k].Slot() == k {
      assert k in Elements(keys);
      var i :| 0 <= i < |keys| && keys[i] == k;
      assert ps[i] in ps;
    }
    forall p | p in ps ensures p.Slot() in rows && rows[p.Slot()] == p {
      var i :| 0 <= i < |ps| && ps[i] == p;
      assert keys[i] in keys;
    }
  }

  lemma RowsAreValid(rows: Positions, start: Option<int>)
    requires RowsOk(rows, start)
    ensures var ps := RowsIn(rows, SortedKeys(rows));
            |ps| == |rows| && PositionsOk(ps, start) && IsTableOf(rows, ps)
  {
    hide PositionsOk, IsTableOf, RowsOk, KeyRank;
    AscendingDistinct(SortedKeys(rows), KeyRank);
    ListedRowsOk(rows, start, SortedKeys(rows));
    ListedRowsAreTable(rows, SortedKeys(rows));
  }

  lemma AnswerToOk(i: int, s: Snapshot, subs: map<int, Subscription>, start: Option<int>)
    requires ValidAccount(s.account) && LinesOk(s.lines, start) && |s.lines| <= MAX_LINES
             && PositionsOk(s.positions, start)
    requires i in subs && !subs[i].deleted && subs[i].platform == BINANCE_COPY && subs[i].start == start
    ensures Answer(i, s, subs)
            == if |s.positions| <= MAX_POSITIONS && (forall p :: p in s.positions ==> Priced(p))
               then Replaced(|s.positions|) else CollectorApi.Reply.Malformed
  {
    hide ValidLine, Coherent;
  }

  predicate AtLeastZero(x: Option<real>) { x.Some? ==> x.value >= 0.0 }

  predicate AboveZero(x: Option<real>) { x.Some? ==> x.value > 0.0 }

  /** Signs and state of a row. */
  ghost predicate SoundRow(p: Position) {
    && AtLeastZero(p.quantity) && AtLeastZero(p.notional) && AtLeastZero(p.margin)
    && AboveZero(p.entry) && AboveZero(p.mark) && AboveZero(p.leverage)
    && match p.status
       case Active => p.side == p.bucket && p.bucket in {Long, Short} && AboveZero(p.quantity)
       case Closed => p.side == Flat && p.quantity == Some(0.0)
       case Unknown => p.side == NoSide && p.quantity.None?
       case Stale => true
  }

  /** The computed values follow from the others. */
  ghost predicate SoundValues(p: Position) {
    && (p.notional.Some? ==> p.quantity.Some? && p.mark.Some?
                             && p.notional.value in {Times(p.quantity.value, p.mark.value),
                                                     -Times(p.quantity.value, p.mark.value)})
    && (p.margin.Some? ==> p.notional.Some? && p.leverage.Some?
                           && Times(p.margin.value, p.leverage.value) == p.notional.value)
    && (p.pnl.Some? ==> p.quantity.Some? && p.entry.Some? && p.mark.Some? && p.side in {Long, Short}
                        && p.pnl.value == Times(if p.side == Long then p.mark.value - p.entry.value
                                                else p.entry.value - p.mark.value, p.quantity.value))
  }

  ghost predicate SoundLine(l: Line) {
    && AtLeastZero(l.quantity) && AtLeastZero(l.price) && AtLeastZero(l.amount) && AboveZero(l.leverage)
    && (l.amount.Some? ==> l.quantity.Some? && l.price.Some?
                           && l.amount.value == Times(l.quantity.value, l.price.value))
  }

  lemma RatioExactly(a: real, b: real, q: real)
    requires b > 0.0
    ensures q == Ratio(a, b) <==> Times(q, b) == a
  {
    assert Ratio(a, b) * b == a;
    if q * b == a { assert (q - Ratio(a, b)) * b == 0.0; }
  }

  lemma RowExactly(p: Position)
    ensures ValidPosition(p) <==> SoundRow(p) && SoundValues(p)
  {
    if p.margin.Some? && p.notional.Some? && p.leverage.Some? && p.leverage.value > 0.0 {
      RatioExactly(p.notional.value, p.leverage.value, p.margin.value);
    }
    hide Times, Ratio;
  }

  lemma LineExactly(l: Line)
    ensures ValidLine(l) <==> SoundLine(l)
  {
    hide Times;
  }

  /** A snapshot the request model takes: within its sizes, sound, and no key twice. */
  ghost predicate SoundSnapshot(s: Snapshot) {
    && |s.positions| <= 1000 && |s.lines| <= 2000
    && (s.account.Some? ==> AtLeastZero(s.account.value.marginBalance))
    && (forall p :: p in s.positions ==> SoundRow(p) && SoundValues(p))
    && (forall l :: l in s.lines ==> SoundLine(l))
    && (forall m, n :: 0 <= m < n < |s.positions| ==>
          s.positions[m].symbol != s.positions[n].symbol || s.positions[m].bucket != s.positions[n].bucket)
    && (forall m, n :: 0 <= m < n < |s.lines| ==>
          s.lines[m].key.id != s.lines[n].key.id || s.lines[m].key.revision != s.lines[n].key.revision)
  }

  ghost predicate SaysEarlier(s: Snapshot, start: int) {
    || (exists p :: p in s.positions && p.asOf.Some? && p.asOf.value < start)
    || (exists l :: l in s.lines && l.eventTime < start)
  }

  lemma SnapshotExactly(s: Snapshot)
    ensures ValidSnapshot(s) <==> SoundSnapshot(s)
  {
    forall p ensures ValidPosition(p) <==> SoundRow(p) && SoundValues(p) { RowExactly(p); }
    forall l ensures ValidLine(l) <==> SoundLine(l) { LineExactly(l); }
    hide ValidPosition, ValidLine, SoundRow, SoundValues, SoundLine;
    forall m, n | 0 <= m < n < |s.positions|
      ensures s.positions[m].Slot() != s.positions[n].Slot()
              <==> s.positions[m].symbol != s.positions[n].symbol || s.positions[m].bucket != s.positions[n].bucket
    {
    }
  }

  /** The server's answer to any snapshot, whoever sent it. */
  lemma AnswerExactly(i: int, s: Snapshot, subs: map<int, Subscription>)
    ensures Answer(i, s, subs)
            == if !SoundSnapshot(s) then CollectorApi.Reply.Malformed
               else if i !in subs || subs[i].deleted || subs[i].platform != BINANCE_COPY then NotFound
               else if subs[i].start.Some? && SaysEarlier(s, subs[i].start.value) then TooEarly
               else Replaced(|s.positions|)
  {
    SnapshotExactly(s);
    hide ValidSnapshot, SoundSnapshot;
  }

  ghost predicate AllPriced(rows: Positions) {
    forall k :: k in rows ==> Priced(rows[k])
  }

  /** In every reachable state the server, configured with the same start time, takes the
      snapshot exactly when it has at most 1000 rows and no row has a zero entry price;
      nothing else can be refused. */
  lemma SnapshotAccepted(inputs: seq<Input>, i: int, subs: map<int, Subscription>)
    requires forall input :: input in inputs ==> PromisedInput(input)
    requires i in subs && !subs[i].deleted && subs[i].platform == BINANCE_COPY
    requires subs[i].start == TablesOf(AgentAfter(inputs).store.tables, i).Start()
    ensures var t := TablesOf(AgentAfter(inputs).store.tables, i);
            Answer(i, SnapshotOf(t), subs)
            == if |t.positions| <= MAX_POSITIONS && AllPriced(t.positions)
               then Replaced(|t.positions|) else CollectorApi.Reply.Malformed
  {
    EveryReachableState(inputs);
    StoredTablesOk(AgentAfter(inputs).store, i);
    hide Answer, AgentAfter, TablesOk, SnapshotOf, OutboxOk, ValidStore;
    SnapshotAnswer(i, TablesOf(AgentAfter(inputs).store.tables, i), subs);
  }

  lemma SnapshotAnswer(i: int, t: Tables, subs: map<int, Subscription>)
    requires TablesOk(t)
    requires i in subs && !subs[i].deleted && subs[i].platform == BINANCE_COPY && subs[i].start == t.Start()
    ensures Shaped(t.ledger)
    ensures Answer(i, SnapshotOf(t), subs)
            == if |t.positions| <= MAX_POSITIONS && AllPriced(t.positions)
               then Replaced(|t.positions|) else CollectorApi.Reply.Malformed
  {
    assert Shaped(t.ledger);
    hide LinesOk, PositionsOk, Answer, HasView, RowsOk, SoundLedger, Reconcile, Tail, RowsIn, Priced, IsTableOf;
    LinesAreValid(t);
    RowsAreValid(t.positions, t.Start());
    AnswerToOk(i, SnapshotOf(t), subs, t.Start());
    ListedPrices(t.positions, SnapshotOf(t).positions);
  }

  lemma ListedPrices(rows: Positions, ps: seq<Position>)
    requires IsTableOf(rows, ps)
    ensures AllPriced(rows) <==> forall p :: p in ps ==> Priced(p)
  {
    forall p | p in ps && AllPriced(rows) ensures Priced(p) { assert rows[p.Slot()] == p; }
    forall k | k in rows && (forall p :: p in ps ==> Priced(p)) ensures Priced(rows[k]) { assert rows[k] in ps; }
  }

  /** End to end: after an accepted sync the server's table of the subscription is the
      collector's, row for row, and its operations are exactly the lines sent. */
  method Sync(store: CollectorStore, api: Api, i: int) returns (reply: CollectorApi.Reply)
    requires store.Valid() && TablesOk(TablesOf(store.tables, i))
    modifies api`positions, api`accounts, api`operations
    ensures reply == Answer(i, SnapshotOf(TablesOf(store.tables, i)), api.subscriptions)
    ensures !reply.Replaced? ==>
              api.positions == old(api.positions) && api.accounts == old(api.accounts)
                && api.operations == old(api.operations)
    ensures reply.Replaced? ==>
              && i in api.positions && api.positions[i] == TablesOf(store.tables, i).positions
              && (TablesOf(store.tables, i).account.Some? ==>
                    i in api.accounts && Some(api.accounts[i]) == TablesOf(store.tables, i).account)
              && i in api.operations && IsRegisterOf(api.operations[i], SnapshotOf(TablesOf(store.tables, i)).lines)
  {
    var t := TablesOf(store.tables, i);
    var s := BuildSnapshot(t);
    RowsAreValid(t.positions, t.Start());
    hide RowsIn, Reconcile, Tail, RowsOk;
    reply := api.ReplacePositions(i, s);
    if reply.Replaced? { SameTable(api.positions[i], t.positions, s.positions); }
  }

  lemma SameTable(a: Positions, b: Positions, ps: seq<Position>)
    requires IsTableOf(a, ps) && IsTableOf(b, ps)
    ensures a == b
  {
    forall k | k in a ensures k in b && a[k] == b[k] { assert a[k] in ps; }
    forall k | k in b ensures k in a { assert b[k] in ps; }
  }
}
