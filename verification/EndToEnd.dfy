/** The collector and the server together, round by round, over an unreliable network. */
module EndToEnd {
  import opened Prelude
  import opened TradeModels
  import opened TradeStore
  import opened CollectorDb
  import opened CollectorApi
  import opened Delivery
  import opened Scheduler
  import opened PostAcceptance
  import opened PostTheorems
  import opened Reachable

  datatype System = System(agent: Agent, raw: seq<RawPost>)

  function WireOf(s: System): Wire { Wire(s.agent.store.boxes, s.raw) }

  /** What one round meets: the visits, the server's subscriptions and the network's mood. */
  datatype Weather = Weather(visits: seq<Visit>, providers: set<int>, subs: map<int, Subscription>, fate: Fate,
    now: int)

  ghost function SystemRound(s: System, w: Weather): (r: System)
    requires ValidStore(s.agent.store)
    ensures ValidStore(r.agent.store)
  {
    var a := VisitedAll(s.agent.(ran := []), w.visits, w.providers, w.now);
    var receipt := Receive(s.raw, PackedAll(PendingPage(a.store.boxes.outbox)), w.subs);
    if !UploadDue(a, w.now) then s.(agent := a)
    else
      match w.fate
      case RequestLost => s.(agent := Uploaded(a, None, w.now))
      case ReplyLost => System(Uploaded(a, None, w.now), receipt.raw)
      case Delivered => System(Uploaded(a, Some(receipt.items), w.now), receipt.raw)
  }

  /** The collector's half is one round of its scheduler, with the reply the network let
      through. */
  lemma SystemRoundIsRound(s: System, w: Weather)
    requires ValidStore(s.agent.store)
    ensures var a := VisitedAll(s.agent.(ran := []), w.visits, w.providers, w.now);
            var items := Receive(s.raw, PackedAll(PendingPage(a.store.boxes.outbox)), w.subs).items;
            SystemRound(s, w).agent
            == Round(s.agent, w.visits, w.providers, if w.fate == Delivered then Some(items) else None, w.now)
  {
    hide VisitedAll, Receive, ApplyAll, Backoff;
  }

  // ---- A visit is a reset and an issue --------------------------------------------

  /** The subscription is in the epoch of this start time. */
  ghost predicate Pinned(s: Store, i: int, start: Option<int>) {
    TablesOf(s.tables, i).state.Some? && TablesOf(s.tables, i).Start() == start
  }

  ghost predicate Keeps(v: Visit, i: int, start: Option<int>) {
    v.config.id == i && IsTrade(v.config) && !v.config.start.Malformed? ==> StartTime(v.config) == start
  }

  lemma FetchKeepsPinned(s: Store, c: Config, result: FetchResult, i: int, start: Option<int>)
    requires ValidStore(s) && Pinned(s, i, start)
    ensures Pinned(TradeFetch(s, c.id, TargetOf(c), result), i, start)
  {
    hide Rows, PostsFor, RepricedAll, FetchErrorOf, MergeAll;
    var t := TablesOf(s.tables, c.id);
    MergeKeepsShape(t.ledger, result.records);
  }

  lemma AnswerKeepsPinned(s: Store, c: Config, outcome: Outcome, now: int, i: int, start: Option<int>)
    requires ValidStore(s) && Pinned(s, i, start)
    ensures Pinned(Answered(s, c, outcome, now), i, start)
  {
    hide TradeFetch, FetchInto;
    if outcome.Trades? { FetchKeepsPinned(s, c, outcome.result, i, start); }
  }

  lemma PreparedKeepsPinned(a: Agent, v: Visit, i: int, start: Option<int>)
    requires Pinned(a.store, i, start) && Keeps(v, i, start) && !(IsTrade(v.config) && v.config.start.Malformed?)
    ensures Pinned(Prepared(a, v.config).store, i, start)
    ensures v.config.id == i ==> Prepared(a, v.config).store == a.store
  {
  }

  lemma VisitKeepsPinned(a: Agent, v: Visit, providers: set<int>, now: int, i: int, start: Option<int>)
    requires ValidStore(a.store) && Pinned(a.store, i, start) && Keeps(v, i, start)
    ensures Pinned(Visited(a, v, providers, now).store, i, start)
  {
    hide Answered, Pinned, Prepared, Keeps, Due;
    if !(IsTrade(v.config) && v.config.start.Malformed?) {
      PreparedValid(a, v.config);
      PreparedKeepsPinned(a, v, i, start);
      AnswerKeepsPinned(Prepared(a, v.config).store, v.config, v.outcome, now, i, start);
    }
  }

  /** Visits that keep a subscription's start time leave it in its epoch. */
  lemma {:induction false} VisitsKeepPinned(a: Agent, vs: seq<Visit>, providers: set<int>, now: int, i: int,
                                            start: Option<int>)
    requires ValidStore(a.store) && Pinned(a.store, i, start) && forall v :: v in vs ==> Keeps(v, i, start)
    ensures Pinned(VisitedAll(a, vs, providers, now).store, i, start)
  {
    hide Visited, Pinned, Keeps;
    if vs != [] {
      var n := |vs| - 1;
      assert vs == vs[..n] + [vs[n]];
      VisitsKeepPinned(a, vs[..n], providers, now, i, start);
      VisitKeepsPinned(VisitedAll(a, vs[..n], providers, now), vs[n], providers, now, i, start);
    }
  }

  /** The upload of a round is one transmission of the protocol, or nothing. */
  lemma UploadIsTransmission(s: System, w: Weather)
    requires ValidStore(s.agent.store)
    ensures var a := VisitedAll(s.agent.(ran := []), w.visits, w.providers, w.now);
            var sent := Wire(a.store.boxes, s.raw);
            && WireOf(SystemRound(s, w)) == (if UploadDue(a, w.now) then Transmit(sent, w.subs, w.fate) else sent)
            && SystemRound(s, w).agent.store.tables == a.store.tables
  {
    hide Receive, ApplyAll, VisitedAll;
  }

  ghost function Rounds(s: System, ws: seq<Weather>): (r: System)
    requires ValidStore(s.agent.store)
    ensures ValidStore(r.agent.store)
  {
    if ws == [] then s else SystemRound(Rounds(s, ws[..|ws| - 1]), ws[|ws| - 1])
  }

  ghost predicate KeepsEpoch(w: Weather, i: int, start: Option<int>) {
    forall v :: v in w.visits ==> Keeps(v, i, start)
  }

  lemma RoundKeepsPinned(s: System, w: Weather, i: int, start: Option<int>)
    requires ValidStore(s.agent.store) && Pinned(s.agent.store, i, start) && KeepsEpoch(w, i, start)
    ensures Pinned(SystemRound(s, w).agent.store, i, start)
  {
    hide VisitedAll, SystemRound, Keeps;
    VisitsKeepPinned(s.agent.(ran := []), w.visits, w.providers, w.now, i, start);
    UploadIsTransmission(s, w);
  }

  lemma {:induction false} RoundsKeepPinned(s: System, ws: seq<Weather>, i: int, start: Option<int>)
    requires ValidStore(s.agent.store) && Pinned(s.agent.store, i, start)
    requires forall w :: w in ws ==> KeepsEpoch(w, i, start)
    ensures Pinned(Rounds(s, ws).agent.store, i, start)
  {
    hide SystemRound, Pinned, KeepsEpoch;
    if ws != [] {
      var n := |ws| - 1;
      assert ws == ws[..n] + [ws[n]];
      RoundsKeepPinned(s, ws[..n], i, start);
      RoundKeepsPinned(Rounds(s, ws[..n]), ws[n], i, start);
    }
  }

  /** Over any rounds at all the server stores each identity at most once. */
  lemma {:induction false} StoredAtMostOnce(s: System, ws: seq<Weather>)
    requires ValidStore(s.agent.store) && UniqueIdentities(s.raw)
    ensures UniqueIdentities(Rounds(s, ws).raw) && s.raw <= Rounds(s, ws).raw
  {
    hide UniqueIdentities;
    if ws != [] {
      var n := |ws| - 1;
      StoredAtMostOnce(s, ws[..n]);
      RoundStoresOnce(Rounds(s, ws[..n]), ws[n]);
    }
  }

  lemma RoundStoresOnce(s: System, w: Weather)
    requires ValidStore(s.agent.store) && UniqueIdentities(s.raw)
    ensures UniqueIdentities(SystemRound(s, w).raw) && s.raw <= SystemRound(s, w).raw
  {
    hide VisitedAll, UniqueIdentities, Receive;
    var a := VisitedAll(s.agent.(ran := []), w.visits, w.providers, w.now);
    ReceiveShape(s.raw, PackedAll(PendingPage(a.store.boxes.outbox)), w.subs);
  }

  // ---- No trade post dies ---------------------------------------------------------

  /** The server's subscription of every ledger is a trade one with the same start time. */
  ghost predicate ConfiguredAlike(subs: map<int, Subscription>, tables: map<int, Tables>) {
    forall i :: i in tables && tables[i].ledger != map[] ==>
      i in subs && subs[i].platform == BINANCE_COPY && subs[i].start == tables[i].Start()
  }

  /** The providers keep their promises and the server is configured like the collector. */
  ghost predicate Fair(s: System, w: Weather)
    requires ValidStore(s.agent.store)
  {
    && (forall v :: v in w.visits ==> Promised(v))
    && ConfiguredAlike(w.subs, VisitedAll(s.agent.(ran := []), w.visits, w.providers, w.now).store.tables)
  }

  ghost predicate NoTradeIn(rows: seq<OutboxRow>) {
    forall row :: row in rows ==> !row.post.ext.TradeId?
  }

  lemma PendingTradeIsAdmitted(s: Store, row: OutboxRow, subs: map<int, Subscription>)
    requires StoreOk(s) && ConfiguredAlike(subs, s.tables)
    requires row in s.boxes.outbox && row.post.ext.TradeId?
    ensures Admissible(Packed(row), subs)
  {
    hide PostOk, TablesOk, Admissible;
    assert PostKey(row.post) in TablesOf(s.tables, row.subscription).ledger;
    assert row.subscription in s.tables;
    OkPostIsAdmitted(row, subs, TablesOf(s.tables, row.subscription).Start());
  }

  lemma {:induction false} RefusedWereInvalid(page: seq<OutboxRow>, items: seq<Item>, row: OutboxRow)
    requires |items| == |page| && row in Refused(page, items)
    ensures exists i :: 0 <= i < |page| && page[i] == row && items[i].verdict == Invalid
  {
    var n := |page| - 1;
    if row in Refused(page[..n], items[..n]) {
      RefusedWereInvalid(page[..n], items[..n], row);
      var i :| 0 <= i < n && page[..n][i] == row && items[..n][i].verdict == Invalid;
      assert page[i] == row && items[i].verdict == Invalid;
    } else {
      assert page[n] == row && items[n].verdict == Invalid;
    }
  }

  lemma DeliveryBuriesNoTrade(s: Store, raw: seq<RawPost>, subs: map<int, Subscription>, fate: Fate)
    requires StoreOk(s) && ConfiguredAlike(subs, s.tables) && NoTradeIn(s.boxes.dead)
    ensures NoTradeIn(Transmit(Wire(s.boxes, raw), subs, fate).boxes.dead)
  {
    var w := Wire(s.boxes, raw);
    var page := PendingPage(s.boxes.outbox);
    var us := PackedAll(page);
    DeliveredPage(w, subs);
    ReceiveShape(raw, us, subs);
    hide StoreOk, ConfiguredAlike, Receive, Refused, ApplyAll, Admissible, UniqueIdentities;
    var items := Receive(raw, us, subs).items;
    forall row | row in Refused(page, items) ensures !row.post.ext.TradeId? {
      RefusedWereInvalid(page, items, row);
      var i :| 0 <= i < |page| && page[i] == row && items[i].verdict == Invalid;
      assert us[i] == Packed(row) && row in s.boxes.outbox;
      if row.post.ext.TradeId? { PendingTradeIsAdmitted(s, row, subs); }
    }
  }

  lemma {:induction false} VisitsBuryNothing(a: Agent, vs: seq<Visit>, providers: set<int>, now: int)
    requires ValidStore(a.store)
    ensures VisitedAll(a, vs, providers, now).store.boxes.dead == a.store.boxes.dead
  {
    hide Visited;
    if vs != [] {
      var n := |vs| - 1;
      VisitsBuryNothing(a, vs[..n], providers, now);
      VisitBuriesNothing(VisitedAll(a, vs[..n], providers, now), vs[n], providers, now);
    }
  }

  lemma VisitBuriesNothing(a: Agent, v: Visit, providers: set<int>, now: int)
    requires ValidStore(a.store)
    ensures Visited(a, v, providers, now).store.boxes.dead == a.store.boxes.dead
  {
    hide FetchInto, Due, FailuresAfter, EnqueueAll, Accepts;
    PreparedValid(a, v.config);
  }

  ghost predicate Sane(s: System) { StoreOk(s.agent.store) && NoTradeIn(s.agent.store.boxes.dead) }

  lemma FairRoundStaysSane(s: System, w: Weather)
    requires Sane(s) && ValidStore(s.agent.store) && Fair(s, w)
    ensures Sane(SystemRound(s, w))
  {
    var a := VisitedAll(s.agent.(ran := []), w.visits, w.providers, w.now);
    VisitsOk(s.agent.(ran := []), w.visits, w.providers, w.now);
    VisitsBuryNothing(s.agent.(ran := []), w.visits, w.providers, w.now);
    var receipt := Receive(s.raw, PackedAll(PendingPage(a.store.boxes.outbox)), w.subs);
    UploadOk(a, None, w.now);
    UploadOk(a, Some(receipt.items), w.now);
    UploadIsTransmission(s, w);
    DeliveryBuriesNoTrade(a.store, s.raw, w.subs, w.fate);
    hide StoreOk, VisitedAll, Transmit, Receive, ConfiguredAlike, Uploaded;
  }

  ghost predicate AllFair(s: System, ws: seq<Weather>)
    requires ValidStore(s.agent.store)
  {
    forall n :: 0 <= n < |ws| ==> Fair(Rounds(s, ws[..n]), ws[n])
  }

  lemma LastIsFair(s: System, ws: seq<Weather>)
    requires ValidStore(s.agent.store) && AllFair(s, ws) && ws != []
    ensures var n := |ws| - 1; AllFair(s, ws[..n]) && Fair(Rounds(s, ws[..n]), ws[n])
  {
    hide Fair, Rounds;
    var n := |ws| - 1;
    forall m | 0 <= m < n ensures Fair(Rounds(s, ws[..n][..m]), ws[..n][m]) {
      assert ws[..n][..m] == ws[..m];
      assert Fair(Rounds(s, ws[..m]), ws[m]);
    }
  }

  /** Over any rounds whatever the network does: as long as providers keep their promises
      and the server is configured like the collector, no trade post ever ends up as a dead
      letter; `Arrival.TradePostArrives` says where each one goes. */
  lemma {:induction false} NoTradePostDies(s: System, ws: seq<Weather>)
    requires Sane(s) && ValidStore(s.agent.store) && AllFair(s, ws)
    ensures Sane(Rounds(s, ws))
  {
    hide SystemRound, Sane, AllFair;
    if ws != [] {
      var n := |ws| - 1;
      LastIsFair(s, ws);
      NoTradePostDies(s, ws[..n]);
      FairRoundStaysSane(Rounds(s, ws[..n]), ws[n]);
    }
  }

  /** An empty start is sane. */
  lemma BootSane()
    ensures Sane(System(BOOT, []))
  {
    BootOk();
  }
}
