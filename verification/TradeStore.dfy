/** collector/collector_agent/trade_store.py: the revision ledger of one subscription, the
    position table derived from it and the posts a fetch gives rise to. */
module TradeStore {
  import opened Prelude
  import opened TradeModels
  import opened TradeReconciler
  import opened Valuation

  // ---- Tables ---------------------------------------------------------------------

  datatype LedgerKey = LedgerKey(id: int, revision: int)

  /** One `trade_events` row; `canon` is the canonical content, without its observation. */
  datatype LedgerRow = LedgerRow(canon: Record, firstObserved: int, lastObserved: int)

  type Ledger = map<LedgerKey, LedgerRow>

  /** One `subscription_state` row. */
  datatype StateRow = StateRow(checkpoint: Option<Checkpoint>, start: Option<int>, baselineDone: bool)

  /** Everything the trade store keeps for one subscription. */
  datatype Tables = Tables(state: Option<StateRow>, ledger: Ledger, positions: Positions, account: Option<Account>)
  {
    function Checkpoint(): Option<TradeModels.Checkpoint> {
      if state.Some? then state.value.checkpoint else None
    }

    function Start(): Option<int> {
      if state.Some? then state.value.start else None
    }

    function Baseline(): bool { state.None? || !state.value.baselineDone }
  }

  const NO_TABLES := Tables(None, map[], map[], None)

  function RecordKey(r: Record): LedgerKey { LedgerKey(r.id, r.revision) }

  function Canonical(r: Record): Record { r.(observedAt := 0) }

  function RecordOf(row: LedgerRow): Record { row.canon.(observedAt := row.lastObserved) }

  ghost predicate Shaped(ledger: Ledger) {
    forall k :: k in ledger ==> RecordKey(ledger[k].canon) == k && ledger[k].canon.observedAt == 0
  }

  function RecordSet(ledger: Ledger): (s: set<Record>)
    ensures Shaped(ledger) ==> Separated(s, RecordRank)
  {
    set k | k in ledger :: RecordOf(ledger[k])
  }

  /** `SELECT ... ORDER BY event_time, source_record_id, revision`. */
  ghost function Rows(ledger: Ledger): seq<Record>
    requires Shaped(ledger)
  {
    Arranged(RecordSet(ledger), RecordRank)
  }

  // ---- Accepting a fetch ----------------------------------------------------------

  datatype FetchError = TargetMismatch | BeforeStart | CheckpointBackwards | RevisionCollision

  function CheckpointBefore(a: Checkpoint, b: Checkpoint): bool {
    a.eventTime < b.eventTime || (a.eventTime == b.eventTime && a.recordId < b.recordId)
  }

  function RecordError(r: Record, target: Target): Option<FetchError> {
    if r.platform != target.platform || Some(r.accountId) != target.accountId then Some(TargetMismatch)
    else if target.start.Some? && r.eventTime < target.start.value then Some(BeforeStart)
    else None
  }

  function FirstRecordError(rs: seq<Record>, target: Target): Option<FetchError> {
    if rs == [] then None
    else
      var e := FirstRecordError(rs[..|rs| - 1], target);
      if e.Some? then e else RecordError(rs[|rs| - 1], target)
  }

  function FetchErrorOf(subscription: int, target: Target, result: FetchResult,
                        before: Option<Checkpoint>): Option<FetchError> {
    if target.subscription != subscription || target.accountId.None? then Some(TargetMismatch)
    else
      var e := FirstRecordError(result.records, target);
      if e.Some? then e
      else if result.candidate.Some? && before.Some? && CheckpointBefore(result.candidate.value, before.value)
      then Some(CheckpointBackwards)
      else None
  }

  datatype Merge = Collision | Merged(ledger: Ledger, inserted: set<LedgerKey>)

  function MergeOne(m: Merge, r: Record): Merge {
    if m.Collision? then m
    else
      var k := RecordKey(r);
      if k !in m.ledger then
        Merged(m.ledger[k := LedgerRow(Canonical(r), r.observedAt, r.observedAt)], m.inserted + {k})
      else if m.ledger[k].canon != Canonical(r) then Collision
      else if r.observedAt > m.ledger[k].lastObserved then
        m.(ledger := m.ledger[k := m.ledger[k].(lastObserved := r.observedAt)])
      else m
  }

  /** The window merged into the ledger, record by record. */
  function MergeAll(ledger: Ledger, rs: seq<Record>): (m: Merge) {
    if rs == [] then Merged(ledger, {})
    else MergeOne(MergeAll(ledger, rs[..|rs| - 1]), rs[|rs| - 1])
  }

  lemma {:induction false} MergeKeepsShape(ledger: Ledger, rs: seq<Record>)
    requires Shaped(ledger)
    ensures MergeAll(ledger, rs).Merged? ==> Shaped(MergeAll(ledger, rs).ledger)
  {
    if rs != [] { MergeKeepsShape(ledger, rs[..|rs| - 1]); }
  }

  // ---- Repricing ------------------------------------------------------------------

  function LatestObserved(rs: seq<Record>): int
    requires rs != []
  {
    if |rs| == 1 then rs[0].observedAt
    else
      var m := LatestObserved(rs[..|rs| - 1]);
      if rs[|rs| - 1].observedAt > m then rs[|rs| - 1].observedAt else m
  }

  /** The row written for an inferred position: marked with the fetched price, or with the
      price the row it replaces carried. */
  function Repriced(p: Position, k: Key, previous: Positions, marks: map<int, real>, time: int): Position {
    if k.symbol in marks then Valued(p, Some(marks[k.symbol]), Some(time))
    else if k in previous then Valued(p, previous[k].mark, previous[k].priceAt)
    else Valued(p, None, None)
  }

  function RepricedAll(inferred: Positions, previous: Positions, marks: map<int, real>, time: int): Positions {
    map k | k in inferred :: Repriced(inferred[k], k, previous, marks, time)
  }

  // ---- Posts ----------------------------------------------------------------------

  /** The state a post or a change reports of a position. */
  datatype Estimate = Estimate(side: Side, quantity: Option<real>, entry: Option<real>,
                               leverage: Option<real>, confidence: Confidence, status: Status)

  datatype PositionChange = PositionChange(key: Key, before: Estimate, after: Estimate)

  /** The digest over the platform, the account and the batch's (id, revision) pairs. */
  datatype BatchId = BatchId(platform: int, account: int, records: seq<LedgerKey>)

  datatype Batch = Batch(id: BatchId, size: nat, changes: seq<PositionChange>)

  datatype TradePayload = TradePayload(
    record: Record, action: Action, after: Estimate, batch: Option<Batch>)

  datatype ExternalId = TradeId(account: int, record: int, revision: int) | SocialId(post: int)

  datatype Post = Post(platform: int, ext: ExternalId, publishedAt: Option<int>, trade: Option<TradePayload>)

  datatype OutboxRow = OutboxRow(subscription: int, post: Post)

  function EstimateOf(p: Position): Estimate {
    Estimate(p.side, p.quantity, p.entry, p.leverage, p.confidence, p.status)
  }

  const MISSING := Estimate(Flat, Some(0.0), None, None, High, Closed)

  function EstimateAt(ps: Positions, k: Key): Estimate {
    if k in ps then EstimateOf(ps[k]) else MISSING
  }

  /** The part of an estimate whose change is worth reporting. */
  predicate SameSignature(a: Estimate, b: Estimate) {
    a.side == b.side && a.quantity == b.quantity && a.entry == b.entry && a.leverage == b.leverage
  }

  function ChangesOver(keys: seq<Key>, before: Positions, after: Positions): seq<PositionChange> {
    if keys == [] then []
    else
      var n := |keys| - 1;
      var k := keys[n];
      ChangesOver(keys[..n], before, after)
      + if SameSignature(EstimateAt(before, k), EstimateAt(after, k)) then []
        else [PositionChange(k, EstimateAt(before, k), EstimateAt(after, k))]
  }

  lemma KeysSeparated(keys: set<Key>)
    ensures Separated(keys, KeyRank)
  {
  }

  ghost function ChangesBetween(before: Positions, after: Positions): seq<PositionChange> {
    KeysSeparated(before.Keys + after.Keys);
    ChangesOver(Arranged(before.Keys + after.Keys, KeyRank), before, after)
  }

  function EventKey(e: Event): LedgerKey { RecordKey(e.record) }

  function NewEvents(events: seq<Event>, inserted: set<LedgerKey>): seq<Event> {
    if events == [] then []
    else
      var n := |events| - 1;
      NewEvents(events[..n], inserted) + if EventKey(events[n]) in inserted then [events[n]] else []
  }

  function EventKeys(events: seq<Event>): (keys: seq<LedgerKey>)
    ensures |keys| == |events|
  {
    seq(|events|, i requires 0 <= i < |events| => EventKey(events[i]))
  }

  function PostOf(e: Event, batch: Option<Batch>): Post {
    var r := e.record;
    Post(r.platform, TradeId(r.accountId, r.id, r.revision), Some(r.eventTime),
         Some(TradePayload(r, e.action, EstimateOf(e.after), batch)))
  }

  function BatchOf(p: Post): Option<Batch> {
    if p.trade.Some? then p.trade.value.batch else None
  }

  function PostsOf(events: seq<Event>, batch: Batch): (posts: seq<Post>)
    ensures |posts| == |events|
  {
    seq(|events|, i requires 0 <= i < |events| => PostOf(events[i], Some(batch)))
  }

  // ---- The whole transaction ------------------------------------------------------

  datatype FetchStep = Rejected(error: FetchError) | Accepted(tables: Tables, posts: seq<Post>)

  function Advanced(state: Option<StateRow>, candidate: Option<Checkpoint>): StateRow {
    var before := if state.Some? then state.value else StateRow(None, None, false);
    StateRow(if candidate.Some? then candidate else before.checkpoint, before.start, true)
  }

  ghost function PostsFor(events: seq<Event>, inserted: set<LedgerKey>, target: Target,
                          before: Positions, after: Positions): seq<Post>
    requires target.accountId.Some?
  {
    var fresh' := NewEvents(events, inserted);
    PostsOf(fresh', Batch(BatchId(target.platform, target.accountId.value, EventKeys(fresh')),
                          |fresh'|, ChangesBetween(before, after)))
  }

  /** The tables and posts of an accepted fetch whose merged ledger is `ledger`. */
  ghost function Committed(t: Tables, target: Target, result: FetchResult, ledger: Ledger,
                           inserted: set<LedgerKey>): FetchStep
    requires Shaped(ledger) && target.accountId.Some?
  {
    var state := Some(Advanced(t.state, result.candidate));
    var account := if result.account.Some? then result.account else t.account;
    if ledger == map[] then Accepted(Tables(state, ledger, t.positions, account), [])
    else
      var rs := Rows(ledger);
      RowsOfSomething(ledger);
      var out := Reconcile(rs, result.complete);
      var time := if result.account.Some? then result.account.value.observedAt else LatestObserved(rs);
      var rows := RepricedAll(out.positions, t.positions, result.marks, time);
      Accepted(Tables(state, ledger, rows, account),
               if t.Baseline() then []
               else PostsFor(out.events, inserted, target, t.positions, out.positions))
  }

  ghost function FetchInto(t: Tables, subscription: int, target: Target, result: FetchResult): FetchStep
    requires Shaped(t.ledger)
  {
    var e := FetchErrorOf(subscription, target, result, t.Checkpoint());
    if e.Some? then Rejected(e.value)
    else
      var m := MergeAll(t.ledger, result.records);
      if m.Collision? then Rejected(RevisionCollision)
      else
        MergeKeepsShape(t.ledger, result.records);
        Committed(t, target, result, m.ledger, m.inserted)
  }

  // ---- Marks ----------------------------------------------------------------------

  function StaleRow(p: Position, time: int): Position { p.(status := Stale, staleSince := Some(time)) }

  function UnknownRow(p: Position, time: int): Position {
    p.(side := NoSide, quantity := None, entry := None, notional := None, leverage := None,
       margin := None, pnl := None, confidence := NoConfidence, status := Unknown, staleSince := Some(time))
  }

  function MarkedStale(t: Tables, time: int): Tables {
    t.(positions := map k | k in t.positions :: StaleRow(t.positions[k], time))
  }

  function MarkedUnknown(t: Tables, time: int): Tables {
    t.(positions := map k | k in t.positions :: UnknownRow(t.positions[k], time))
  }

  /** `ensure_trade_start`: a changed start time opens a new epoch with empty tables. */
  predicate SameStart(t: Tables, requested: Option<int>) {
    t.Start() == requested && (t.state.Some? || requested.None?)
  }

  function Restarted(t: Tables, requested: Option<int>): Tables {
    if SameStart(t, requested) then t
    else Tables(Some(StateRow(None, requested, false)), map[], map[], None)
  }

  // ---- Loops of record_trade_fetch ------------------------------------------------

  method ValidateFetch(subscription: int, target: Target, result: FetchResult, before: Option<Checkpoint>)
    returns (error: Option<FetchError>)
    ensures error == FetchErrorOf(subscription, target, result, before)
  {
    if target.subscription != subscription || target.accountId.None? { return Some(TargetMismatch); }
    for i := 0 to |result.records|
      invariant FirstRecordError(result.records[..i], target).None?
    {
      assert result.records[..i + 1][..i] == result.records[..i];
      error := RecordError(result.records[i], target);
      if error.Some? {
        SameFirstError(result.records, i, target);
        return;
      }
    }
    assert result.records[..|result.records|] == result.records;
    if result.candidate.Some? && before.Some? && CheckpointBefore(result.candidate.value, before.value) {
      return Some(CheckpointBackwards);
    }
    return None;
  }

  lemma {:induction false} SameFirstError(rs: seq<Record>, i: nat, target: Target)
    requires i < |rs| && FirstRecordError(rs[..i], target).None? && RecordError(rs[i], target).Some?
    ensures FirstRecordError(rs, target) == RecordError(rs[i], target)
  {
    if i == |rs| - 1 {
    } else {
      assert rs[..|rs| - 1][..i] == rs[..i];
      SameFirstError(rs[..|rs| - 1], i, target);
    }
  }

  method MergeRecords(ledger: Ledger, rs: seq<Record>) returns (m: Merge)
    ensures m == MergeAll(ledger, rs)
  {
    var merged, inserted: set<LedgerKey> := ledger, {};
    for i := 0 to |rs|
      invariant Merged(merged, inserted) == MergeAll(ledger, rs[..i])
    {
      var r := rs[i];
      var k := RecordKey(r);
      assert rs[..i + 1][..i] == rs[..i];
      if k in merged {
        if merged[k].canon != Canonical(r) {
          CollisionIsFinal(ledger, rs, i + 1);
          return Collision;
        }
        if r.observedAt > merged[k].lastObserved {
          merged := merged[k := merged[k].(lastObserved := r.observedAt)];
        }
      } else {
        merged := merged[k := LedgerRow(Canonical(r), r.observedAt, r.observedAt)];
        inserted := inserted + {k};
      }
    }
    assert rs[..|rs|] == rs;
    m := Merged(merged, inserted);
  }

  lemma {:induction false} CollisionIsFinal(ledger: Ledger, rs: seq<Record>, i: nat)
    requires i <= |rs| && MergeAll(ledger, rs[..i]).Collision?
    ensures MergeAll(ledger, rs).Collision?
  {
    if i == |rs| {
      assert rs[..i] == rs;
    } else {
      assert rs[..|rs| - 1][..i] == rs[..i];
      CollisionIsFinal(ledger, rs[..|rs| - 1], i);
    }
  }

  method RepriceRows(inferred: Positions, previous: Positions, marks: map<int, real>, time: int)
    returns (rows: Positions)
    ensures rows == RepricedAll(inferred, previous, marks, time)
  {
    rows := map[];
    var rest := inferred.Keys;
    while rest != {}
      invariant rest <= inferred.Keys && rows.Keys == inferred.Keys - rest
      invariant forall k :: k in rows ==> rows[k] == Repriced(inferred[k], k, previous, marks, time)
      decreases |rest|
    {
      var k :| k in rest;
      var mark, priceAt := None, None;
      if k.symbol in marks {
        mark, priceAt := Some(marks[k.symbol]), Some(time);
      } else if k in previous {
        mark, priceAt := previous[k].mark, previous[k].priceAt;
      }
      rows := rows[k := Valued(inferred[k], mark, priceAt)];
      rest := rest - {k};
    }
  }

  method DiffOver(keys: seq<Key>, before: Positions, after: Positions) returns (changes: seq<PositionChange>)
    ensures changes == ChangesOver(keys, before, after)
  {
    changes := [];
    for i := 0 to |keys|
      invariant changes == ChangesOver(keys[..i], before, after)
    {
      assert keys[..i + 1][..i] == keys[..i];
      var previous, current := EstimateAt(before, keys[i]), EstimateAt(after, keys[i]);
      if !SameSignature(previous, current) {
        changes := changes + [PositionChange(keys[i], previous, current)];
      }
    }
    assert keys[..|keys|] == keys;
  }

  method DiffPositions(before: Positions, after: Positions) returns (changes: seq<PositionChange>)
    ensures changes == ChangesBetween(before, after)
  {
    KeysSeparated(before.Keys + after.Keys);
    var keys := SelectOrdered(before.Keys + after.Keys, KeyRank);
    changes := DiffOver(keys, before, after);
  }

  method BuildPosts(events: seq<Event>, inserted: set<LedgerKey>, target: Target, before: Positions, after: Positions)
    returns (posts: seq<Post>)
    requires target.accountId.Some?
    ensures posts == PostsFor(events, inserted, target, before, after)
  {
    var selected: seq<Event> := [];
    for i := 0 to |events|
      invariant selected == NewEvents(events[..i], inserted)
    {
      assert events[..i + 1][..i] == events[..i];
      if EventKey(events[i]) in inserted { selected := selected + [events[i]]; }
    }
    assert events[..|events|] == events;
    var changes := DiffPositions(before, after);
    var batch := Batch(BatchId(target.platform, target.accountId.value, EventKeys(selected)), |selected|, changes);
    posts := [];
    for i := 0 to |selected|
      invariant posts == PostsOf(selected[..i], batch)
    {
      posts := posts + [PostOf(selected[i], Some(batch))];
    }
    assert selected[..|selected|] == selected;
  }

  method ComputeFetch(t: Tables, subscription: int, target: Target, result: FetchResult) returns (step: FetchStep)
    requires Shaped(t.ledger)
    ensures step == FetchInto(t, subscription, target, result)
  {
    var error := ValidateFetch(subscription, target, result, t.Checkpoint());
    if error.Some? { return Rejected(error.value); }
    var m := MergeRecords(t.ledger, result.records);
    if m.Collision? { return Rejected(RevisionCollision); }
    MergeKeepsShape(t.ledger, result.records);
    step := CommitFetch(t, target, result, m.ledger, m.inserted);
  }

  method CommitFetch(t: Tables, target: Target, result: FetchResult, ledger: Ledger, inserted: set<LedgerKey>)
    returns (step: FetchStep)
    requires Shaped(ledger) && target.accountId.Some?
    ensures step == Committed(t, target, result, ledger, inserted)
  {
    var state := Some(Advanced(t.state, result.candidate));
    var account := if result.account.Some? then result.account else t.account;
    if ledger == map[] { return Accepted(Tables(state, ledger, t.positions, account), []); }
    var rs := SelectOrdered(RecordSet(ledger), RecordRank);
    RowsOfSomething(ledger);
    var out := ReconcileRecords(rs, result.complete);
    var time := if result.account.Some? then result.account.value.observedAt else LatestObserved(rs);
    var rows := RepriceRows(out.positions, t.positions, result.marks, time);
    var posts := [];
    if !t.Baseline() { posts := BuildPosts(out.events, inserted, target, t.positions, out.positions); }
    step := Accepted(Tables(state, ledger, rows, account), posts);
  }

  lemma RowsOfSomething(ledger: Ledger)
    requires Shaped(ledger) && ledger != map[]
    ensures Rows(ledger) != []
  {
    var k :| k in ledger;
    assert RecordOf(ledger[k]) in Elements(Rows(ledger));
  }
}
