/** collector/collector_agent/trade_reconciler.py: replay of a revisable trade history
    into one position per (symbol, side) bucket. */
module TradeReconciler {
  import opened Prelude
  import opened TradeModels

  function Trust(quantity: Option<real>, complete: bool): Confidence {
    if !complete then Low else if quantity.Some? then High else Medium
  }

  function UnknownPosition(r: Record): Position {
    Position(r.symbol, r.bucket, NoSide, None, NoConfidence, Unknown, Some(r.eventTime))
  }

  function FlatAt(key: Key, time: int, complete: bool): Position {
    Position(key.symbol, key.bucket, Flat, Some(0.0), if complete then High else Low, Closed, Some(time))
  }

  function ActivePosition(r: Record, quantity: Option<real>, complete: bool,
                          entry: Option<real>, leverage: Option<real>): Position {
    if r.bucket !in {Long, Short} then UnknownPosition(r)
    else Position(r.symbol, r.bucket, r.bucket, quantity, Trust(quantity, complete), Active,
                  Some(r.eventTime), None, entry, leverage)
  }

  /** The average price of `q` units at `e` and `d` more at `p`. */
  function Mean(q: real, e: real, d: real, p: real): real
    requires q + d != 0.0
  {
    (q * e + d * p) / (q + d)
  }

  function WeightedEntry(current: Position, r: Record): Option<real> {
    if current.quantity.None? || current.entry.None? || r.quantity.None? || r.price.None? then None
    else
      var total := current.quantity.value + r.quantity.value;
      if total <= 0.0 then None
      else Some(Mean(current.quantity.value, current.entry.value, r.quantity.value, r.price.value))
  }

  datatype Change = Change(action: Action, position: Position)

  /** The six operations that look only at their own bucket. */
  function NextPosition(r: Record, current: Option<Position>, complete: bool): Change
    requires !r.op.Reverse?
  {
    match r.op
    case Open =>
      Change(DidOpen, ActivePosition(r, r.quantity, complete, r.price, r.leverage))
    case Add => Raised(r, current, complete)
    case Increase => Raised(r, current, complete)
    case Reduce => Lowered(r, current, complete)
    case Decrease => Lowered(r, current, complete)
    case Close => Change(DidClose, FlatAt(r.Slot(), r.eventTime, complete))
  }

  function Raised(r: Record, current: Option<Position>, complete: bool): Change {
    if current.None? || current.value.status == Closed then
      if r.op == Add && current.None? then Change(DidAdd, UnknownPosition(r))
      else Change(DidOpen, ActivePosition(r, r.quantity, complete, r.price, r.leverage))
    else
      var held := current.value;
      if held.status != Active || held.side != r.bucket then Change(DidAdd, UnknownPosition(r))
      else
        var quantity := if held.quantity.Some? && r.quantity.Some?
                        then Some(held.quantity.value + r.quantity.value) else None;
        Change(DidAdd, ActivePosition(r, quantity, complete, WeightedEntry(held, r),
                                      if r.leverage.Some? then r.leverage else held.leverage))
  }

  function Lowered(r: Record, current: Option<Position>, complete: bool): Change {
    var emptied := if complete then Change(DidClose, FlatAt(r.Slot(), r.eventTime, complete))
                   else Change(DidReduce, UnknownPosition(r));
    if current.None? || current.value.status != Active then emptied
    else
      var held := current.value;
      if held.quantity.None? || r.quantity.None? then
        Change(DidReduce, ActivePosition(r, None, complete, held.entry, held.leverage))
      else if r.quantity.value > held.quantity.value then emptied
      else if r.quantity.value == held.quantity.value then
        Change(DidClose, FlatAt(r.Slot(), r.eventTime, complete))
      else
        Change(DidReduce, ActivePosition(r, Some(held.quantity.value - r.quantity.value), complete,
                                         held.entry, held.leverage))
  }

  function At(positions: Positions, key: Key): Option<Position> {
    if key in positions then Some(positions[key]) else None
  }

  /** The other active buckets of the record's symbol, which a REVERSE closes. */
  function Opposites(r: Record, positions: Positions): set<Key> {
    set k | k in positions && k.symbol == r.symbol && k != r.Slot() && positions[k].status == Active
  }

  function Flattened(positions: Positions, keys: set<Key>, time: int, complete: bool): Positions {
    map k | k in positions ::
      if k in keys then FlatAt(Key(positions[k].symbol, positions[k].bucket), time, complete) else positions[k]
  }

  datatype Step = Step(positions: Positions, action: Action, position: Position)

  /** One record applied to every bucket. */
  function Apply(r: Record, positions: Positions, complete: bool): Step {
    if r.op.Reverse? then
      var opposites := Opposites(r, positions);
      if r.bucket !in {Long, Short} || opposites == {} then
        Step(positions[r.Slot() := UnknownPosition(r)], DidReverse, UnknownPosition(r))
      else
        var reopened := ActivePosition(r, r.quantity, complete, r.price, r.leverage);
        Step(Flattened(positions, opposites, r.eventTime, complete)[r.Slot() := reopened], DidReverse, reopened)
    else
      var c := NextPosition(r, At(positions, r.Slot()), complete);
      Step(positions[r.Slot() := c.position], c.action, c.position)
  }

  /** The dictionary `_apply_record` overwrites in place. */
  class PositionBook {
    var positions: Positions

    constructor ()
      ensures positions == map[]
    {
      positions := map[];
    }

    method Flatten(keys: set<Key>, time: int, complete: bool)
      requires keys <= positions.Keys
      modifies this
      ensures positions == Flattened(old(positions), keys, time, complete)
    {
      var rest := keys;
      while rest != {}
        invariant rest <= keys
        invariant positions == Flattened(old(positions), keys - rest, time, complete)
        decreases |rest|
      {
        var k :| k in rest;
        var opposite := positions[k];
        positions := positions[k := FlatAt(Key(opposite.symbol, opposite.bucket), time, complete)];
        rest := rest - {k};
      }
    }

    method ApplyRecord(r: Record, complete: bool) returns (action: Action, position: Position)
      modifies this
      ensures Step(positions, action, position) == Apply(r, old(positions), complete)
    {
      hide NextPosition, Flattened;
      if !r.op.Reverse? {
        var c := NextPosition(r, At(positions, r.Slot()), complete);
        action, position := c.action, c.position;
      } else {
        var opposites := Opposites(r, positions);
        if r.bucket !in {Long, Short} || opposites == {} {
          position := UnknownPosition(r);
        } else {
          Flatten(opposites, r.eventTime, complete);
          position := ActivePosition(r, r.quantity, complete, r.price, r.leverage);
        }
        action := DidReverse;
      }
      positions := positions[r.Slot() := position];
    }
  }

  // ---- Revisions ------------------------------------------------------------------

  function Ids(rs: seq<Record>): set<int> {
    set r | r in rs :: r.id
  }

  /** The revisions of one record, in arrival order. */
  function Group(rs: seq<Record>, id: int): seq<Record> {
    if rs == [] then []
    else
      var g := Group(rs[..|rs| - 1], id);
      if rs[|rs| - 1].id == id then g + [rs[|rs| - 1]] else g
  }

  /** `max(group, key=(observed_at, revision))`: the first of the greatest. */
  function Latest(g: seq<Record>): Record
    requires g != []
  {
    if |g| == 1 then g[0]
    else
      var best := Latest(g[..|g| - 1]);
      if best.RevisedBy(g[|g| - 1]) then g[|g| - 1] else best
  }

  lemma GroupMembers(rs: seq<Record>, id: int)
    ensures forall r :: r in Group(rs, id) <==> r in rs && r.id == id
  {
    if rs != [] {
      var n := |rs| - 1;
      GroupMembers(rs[..n], id);
      assert rs == rs[..n] + [rs[n]];
    }
  }

  lemma LatestIsGreatest(g: seq<Record>)
    requires g != []
    ensures Latest(g) in g
    ensures forall r :: r in g ==> !Latest(g).RevisedBy(r)
  {
    if |g| > 1 {
      var n := |g| - 1;
      LatestIsGreatest(g[..n]);
      assert g == g[..n] + [g[n]];
    }
  }

  lemma GroupOfPresentId(rs: seq<Record>, id: int)
    ensures Group(rs, id) != [] <==> id in Ids(rs)
  {
    GroupMembers(rs, id);
    if id in Ids(rs) {
      var r :| r in rs && r.id == id;
      assert r in Group(rs, id);
    }
    if Group(rs, id) != [] {
      assert Group(rs, id)[0] in Group(rs, id);
    }
  }

  /** The revision that stands for record `id`. */
  function Winner(rs: seq<Record>, id: int): (r: Record)
    requires id in Ids(rs)
    ensures r.id == id && r in rs
  {
    GroupOfPresentId(rs, id);
    GroupMembers(rs, id);
    LatestIsGreatest(Group(rs, id));
    Latest(Group(rs, id))
  }

  ghost function WinnersAmong(rs: seq<Record>, ids: set<int>): set<Record>
    requires ids <= Ids(rs)
  {
    set id | id in ids :: Winner(rs, id)
  }

  ghost function Winners(rs: seq<Record>): (s: set<Record>)
    ensures Separated(s, RecordRank)
  {
    WinnersAmong(rs, Ids(rs))
  }

  /** The records the replay sees, one per id, in (event time, id, revision) order. */
  ghost function Effective(rs: seq<Record>): seq<Record> {
    Arranged(Winners(rs), RecordRank)
  }

  ghost predicate Corrected(rs: seq<Record>, id: int) {
    exists x, y :: x in rs && y in rs && x.id == y.id == id && x.revision != y.revision
  }

  // ---- Replay ---------------------------------------------------------------------

  function Replay(es: seq<Record>, complete: bool): Positions {
    if es == [] then map[]
    else Apply(es[|es| - 1], Replay(es[..|es| - 1], complete), complete).positions
  }

  ghost function EventOf(rs: seq<Record>, es: seq<Record>, complete: bool): Event
    requires es != []
  {
    var last := es[|es| - 1];
    var step := Apply(last, Replay(es[..|es| - 1], complete), complete);
    Event(last, if Corrected(rs, last.id) then Correction else step.action, step.position)
  }

  ghost function Events(rs: seq<Record>, es: seq<Record>, complete: bool): (out: seq<Event>)
    ensures |out| == |es|
    ensures forall i :: 0 <= i < |es| ==> out[i] == EventOf(rs, es[..i + 1], complete)
  {
    if es == [] then []
    else
      var n := |es| - 1;
      var out := Events(rs, es[..n], complete);
      assert forall k :: 0 <= k <= n ==> es[..n][..k] == es[..k];
      assert es[..n + 1] == es;
      out + [EventOf(rs, es, complete)]
  }

  ghost function Reconcile(rs: seq<Record>, complete: bool): Reconciliation {
    var es := Effective(rs);
    Reconciliation(Events(rs, es, complete), Replay(es, complete))
  }

  // ---- The loops of reconcile_records ---------------------------------------------

  method GroupRevisions(rs: seq<Record>) returns (revisions: map<int, seq<Record>>)
    ensures revisions.Keys == Ids(rs)
    ensures forall id :: id in revisions ==> revisions[id] == Group(rs, id)
  {
    revisions := map[];
    for i := 0 to |rs|
      invariant revisions.Keys == Ids(rs[..i])
      invariant forall id :: id in revisions ==> revisions[id] == Group(rs[..i], id)
    {
      var r := rs[i];
      GroupOfPresentId(rs[..i], r.id);
      assert rs[..i + 1][..i] == rs[..i] && rs[..i + 1] == rs[..i] + [r];
      revisions := revisions[r.id := (if r.id in revisions then revisions[r.id] else []) + [r]];
    }
    assert rs[..|rs|] == rs;
  }

  method SelectRevision(group: seq<Record>) returns (selected: Record, corrected: bool)
    requires group != []
    ensures selected == Latest(group)
    ensures corrected <==> exists x, y :: x in group && y in group && x.revision != y.revision
  {
    selected, corrected := group[0], false;
    for i := 1 to |group|
      invariant selected == Latest(group[..i])
      invariant corrected <==> exists j :: 0 <= j < i && group[j].revision != group[0].revision
    {
      assert group[..i + 1][..i] == group[..i];
      if selected.RevisedBy(group[i]) { selected := group[i]; }
      if group[i].revision != group[0].revision { corrected := true; }
    }
    assert group[..|group|] == group;
  }

  method SelectWinner(rs: seq<Record>, group: seq<Record>, id: int) returns (winner: Record, corrected: bool)
    requires id in Ids(rs) && group == Group(rs, id)
    ensures winner == Winner(rs, id)
    ensures corrected <==> Corrected(rs, id)
  {
    GroupOfPresentId(rs, id);
    GroupMembers(rs, id);
    winner, corrected := SelectRevision(group);
  }

  lemma NextWinner(rs: seq<Record>, ids: set<int>, id: int, chosen: seq<Record>)
    requires ids <= Ids(rs) && id in Ids(rs) && id !in ids
    requires Distinct(chosen) && Elements(chosen) == WinnersAmong(rs, ids)
    ensures Distinct(chosen + [Winner(rs, id)])
    ensures Elements(chosen + [Winner(rs, id)]) == WinnersAmong(rs, ids + {id})
  {
    var next := chosen + [Winner(rs, id)];
    forall r ensures r in Elements(next) <==> r in WinnersAmong(rs, ids + {id}) {
      assert r in next <==> r in Elements(chosen) || r == Winner(rs, id);
    }
    forall i | 0 <= i < |chosen| ensures chosen[i] != Winner(rs, id) {
      assert chosen[i] in Elements(chosen);
    }
  }

  ghost function CorrectedAmong(rs: seq<Record>, ids: set<int>): set<int> {
    set id | id in ids && Corrected(rs, id)
  }

  lemma NextCorrected(rs: seq<Record>, ids: set<int>, id: int)
    ensures CorrectedAmong(rs, ids + {id}) == CorrectedAmong(rs, ids) + if Corrected(rs, id) then {id} else {}
  {
  }

  lemma NothingChosen(rs: seq<Record>)
    ensures Distinct<Record>([]) && Elements<Record>([]) == WinnersAmong(rs, {}) && CorrectedAmong(rs, {}) == {}
  {
  }

  method SelectEffective(rs: seq<Record>) returns (effective: seq<Record>, corrections: set<int>)
    ensures effective == Effective(rs)
    ensures corrections == CorrectedAmong(rs, Ids(rs))
  {
    var chosen: seq<Record>;
    chosen, corrections := SelectWinners(rs);
    hide CorrectedAmong, Winner, Ids;
    effective := SortRanked(chosen, RecordRank);
  }

  method SelectWinners(rs: seq<Record>) returns (chosen: seq<Record>, corrections: set<int>)
    ensures Distinct(chosen) && Elements(chosen) == WinnersAmong(rs, Ids(rs))
    ensures corrections == CorrectedAmong(rs, Ids(rs))
  {
    hide Corrected, Winner, Group, Distinct, Elements, WinnersAmong, CorrectedAmong, Ids;
    var revisions := GroupRevisions(rs);
    chosen, corrections := [], {};
    NothingChosen(rs);
    var rest := revisions.Keys;
    ghost var done := {};
    while rest != {}
      invariant done + rest == Ids(rs) && done !! rest
      invariant Distinct(chosen) && Elements(chosen) == WinnersAmong(rs, done)
      invariant corrections == CorrectedAmong(rs, done)
      decreases |rest|
    {
      var id := Pick(rest);
      var winner, corrected := SelectWinner(rs, revisions[id], id);
      NextWinner(rs, done, id, chosen);
      NextCorrected(rs, done, id);
      chosen := chosen + [winner];
      if corrected { corrections := corrections + {id}; }
      done, rest := done + {id}, rest - {id};
    }
  }

  lemma EventsGrow(rs: seq<Record>, es: seq<Record>, i: nat, complete: bool)
    requires i < |es|
    ensures Events(rs, es[..i + 1], complete) == Events(rs, es[..i], complete) + [EventOf(rs, es[..i + 1], complete)]
    ensures Replay(es[..i + 1], complete) == Apply(es[i], Replay(es[..i], complete), complete).positions
    ensures EventOf(rs, es[..i + 1], complete).record == es[i]
    ensures var step := Apply(es[i], Replay(es[..i], complete), complete);
            EventOf(rs, es[..i + 1], complete)
            == Event(es[i], if Corrected(rs, es[i].id) then Correction else step.action, step.position)
  {
    assert es[..i + 1][..i] == es[..i];
  }

  method ReconcileRecords(rs: seq<Record>, complete: bool) returns (out: Reconciliation)
    ensures out == Reconcile(rs, complete)
  {
    var effective, corrections := SelectEffective(rs);
    EffectiveIds(rs);
    hide Effective, Corrected, Replay, Events;
    out := ReplayRecords(rs, effective, corrections, complete);
  }

  lemma EffectiveIds(rs: seq<Record>)
    ensures forall r :: r in Effective(rs) ==> r.id in Ids(rs)
  {
    forall r | r in Effective(rs) ensures r.id in Ids(rs) { assert r in Elements(Effective(rs)); }
  }

  lemma NothingReplayed(rs: seq<Record>, complete: bool)
    ensures Replay([], complete) == map[] && Events(rs, [], complete) == []
  {
  }

  method ReplayRecords(rs: seq<Record>, effective: seq<Record>, corrections: set<int>, complete: bool)
    returns (out: Reconciliation)
    requires forall r :: r in effective ==> (r.id in corrections <==> Corrected(rs, r.id))
    ensures out == Reconciliation(Events(rs, effective, complete), Replay(effective, complete))
  {
    hide Apply, Replay, Events, EventOf, Corrected;
    NothingReplayed(rs, complete);
    var book := new PositionBook();
    var events: seq<Event> := [];
    for i := 0 to |effective|
      invariant book.positions == Replay(effective[..i], complete)
      invariant events == Events(rs, effective[..i], complete)
    {
      var action, after := book.ApplyRecord(effective[i], complete);
      EventsGrow(rs, effective, i, complete);
      if effective[i].id in corrections { action := Correction; }
      events := events + [Event(effective[i], action, after)];
    }
    assert effective[..|effective|] == effective;
    out := Reconciliation(events, book.positions);
  }
}
