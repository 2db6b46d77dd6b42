/** No silent gap over whole scheduler rounds: between accepted fetches there may be failed,
    gap and skipped visits, other subscriptions and uploads. */
module GapFree {
  import opened Prelude
  import opened TradeModels
  import opened TradeStore
  import opened PositionView
  import opened FetchTheorems
  import opened Refetch
  import opened CollectorDb
  import opened Scheduler
  import opened BinanceCopy
  import opened EndToEnd

  /** What is known of a ledger read from the source: the slice it covers, empty before the
      first window that is not, and whether it holds nothing else than source records. */
  datatype Span = Span(first: nat, last: nat, stored: bool)
  {
    predicate Begun() { first < last }
  }

  /** The ledger holds every source record from `first` up to `last`, where the checkpoint
      sits. */
  ghost predicate Gapless(t: Tables, source: seq<Record>, x: Span) {
    && Shaped(t.ledger)
    && (x.stored ==> StoredFrom(t.ledger, source))
    && (x.Begun() ==> Covers(t.ledger, source, x.first, x.last) && CheckpointAt(t.Checkpoint(), source, x.last - 1))
  }

  /** Once begun, the slice only grows, and only at its end. */
  predicate Grows(x: Span, y: Span) {
    y.stored == x.stored && (x.Begun() ==> y.first == x.first && x.last <= y.last)
  }

  /** The provider's answer before the start time by its own clock. */
  ghost predicate Idle(result: FetchResult, checkpoint: Option<Checkpoint>) {
    result.records == [] && result.candidate == checkpoint
  }

  /** The result is idle or was read from the source with this checkpoint. */
  ghost predicate ReadFrom(result: FetchResult, source: seq<Record>, checkpoint: Option<Checkpoint>) {
    Idle(result, checkpoint) || exists from, to :: FromSource(result, source, checkpoint, from, to)
  }

  /** Every healthy poll of the source is such a result. */
  lemma HealthyPollReads(target: Target, checkpoint: Option<Checkpoint>, observedAt: int, response: Response,
                         extras: Extras, source: seq<Record>, from: nat, to: nat)
    requires Polled(target, checkpoint, observedAt, response, extras).health == Healthy && IsSource(source)
    requires response.Page? && ValidPage(response) && target.accountId.Some? ==>
               Lists(NormalizedAll(response.rows, target.accountId.value, observedAt), source, from, to)
    ensures var answer := Polled(target, checkpoint, observedAt, response, extras).answer;
            answer.Answered? && ReadFrom(answer.result, source, checkpoint)
  {
    hide Fills, ValidPage, Lists, IsSource, FromSource;
    if !Idle(Polled(target, checkpoint, observedAt, response, extras).answer.result, checkpoint) {
      var low, high := AnswersComeFromSource(target, checkpoint, observedAt, response, extras, source, from, to);
    }
  }

  /** What a visit of subscription `i` hands over was read with the checkpoint it found. */
  ghost predicate Reads(a: Agent, v: Visit, source: seq<Record>, i: int) {
    v.config.id == i ==>
      && IsTrade(v.config) && !v.outcome.Social?
      && (v.outcome.Trades? ==> ReadFrom(v.outcome.result, source, TablesOf(a.store.tables, i).Checkpoint()))
  }

  lemma MarkedGapless(s: Store, c: Config, outcome: Outcome, now: int, i: int, source: seq<Record>, x: Span)
    requires ValidStore(s) && Gapless(TablesOf(s.tables, i), source, x)
    requires c.id == i ==> IsTrade(c) && !outcome.Social? && !Succeeds(s, c, outcome)
    ensures Gapless(TablesOf(Scheduler.Answered(s, c, outcome, now).tables, i), source, x)
  {
    hide FetchInto, Covers, CheckpointAt, StoredFrom;
    var t, u := TablesOf(s.tables, i), TablesOf(Scheduler.Answered(s, c, outcome, now).tables, i);
    assert u.ledger == t.ledger && u.Checkpoint() == t.Checkpoint();
  }

  lemma FetchedTables(s: Store, c: Config, result: FetchResult, now: int)
    requires ValidStore(s) && Accepts(s, c, result)
    ensures TablesOf(Scheduler.Answered(s, c, Trades(result), now).tables, c.id)
            == FetchInto(TablesOf(s.tables, c.id), c.id, TargetOf(c), result).tables
  {
    hide FetchInto, EnqueueAll;
  }

  lemma AnswerGapless(s: Store, v: Visit, now: int, i: int, source: seq<Record>, x: Span)
    returns (y: Span)
    requires ValidStore(s) && IsSource(source) && Gapless(TablesOf(s.tables, i), source, x)
    requires v.config.id == i ==>
               && IsTrade(v.config) && !v.outcome.Social?
               && (v.outcome.Trades? ==> ReadFrom(v.outcome.result, source, TablesOf(s.tables, i).Checkpoint()))
    ensures Grows(x, y) && Gapless(TablesOf(Scheduler.Answered(s, v.config, v.outcome, now).tables, i), source, y)
  {
    var c := v.config;
    y := x;
    if c.id == i && Succeeds(s, c, v.outcome) {
      var t, result := TablesOf(s.tables, i), v.outcome.result;
      FetchedTables(s, c, result, now);
      y := AcceptedGapless(t, TargetOf(c), result, source, x);
      hide FetchInto, Gapless, ReadFrom, Scheduler.Answered;
    } else {
      MarkedGapless(s, c, v.outcome, now, i, source, x);
    }
  }

  lemma AcceptedGapless(t: Tables, target: Target, result: FetchResult, source: seq<Record>, x: Span)
    returns (y: Span)
    requires IsSource(source) && Gapless(t, source, x) && ReadFrom(result, source, t.Checkpoint())
    requires FetchInto(t, target.subscription, target, result).Accepted?
    ensures Grows(x, y) && Gapless(FetchInto(t, target.subscription, target, result).tables, source, y)
  {
    hide FetchInto, Covers, CheckpointAt, HasId, Shows, StoredFrom;
    AcceptedShape(t, target, result);
    FetchedLedger(t, target, result);
    FetchedCheckpoint(t, target, result);
    y := x;
    if !Idle(result, t.Checkpoint()) {
      var from, to :| FromSource(result, source, t.Checkpoint(), from, to);
      if x.Begun() {
        NextWindowCovers(t, target, result, source, from, to, x.first, x.last);
        y := x.(last := to);
      } else if from < to {
        FirstWindowCovers(t, target, result, source, from, to);
        y := Span(from, to, x.stored);
      }
      if x.stored { FetchStaysWithin(t, target, result, source, from, to); }
    }
  }

  lemma AcceptedShape(t: Tables, target: Target, result: FetchResult)
    requires Shaped(t.ledger) && FetchInto(t, target.subscription, target, result).Accepted?
    ensures Shaped(FetchInto(t, target.subscription, target, result).tables.ledger)
  {
    MergeKeepsShape(t.ledger, result.records);
    hide FetchErrorOf, PostsFor, RepricedAll, MergeAll;
  }

  lemma PreparedTables(a: Agent, v: Visit, i: int, start: Option<int>)
    requires Pinned(a.store, i, start) && Keeps(v, i, start) && !(IsTrade(v.config) && v.config.start.Malformed?)
    ensures TablesOf(Prepared(a, v.config).store.tables, i) == TablesOf(a.store.tables, i)
  {
  }

  lemma VisitGapless(a: Agent, v: Visit, providers: set<int>, now: int, i: int, start: Option<int>,
                     source: seq<Record>, x: Span)
    returns (y: Span)
    requires ValidStore(a.store) && Pinned(a.store, i, start) && Keeps(v, i, start)
    requires IsSource(source) && Gapless(TablesOf(a.store.tables, i), source, x) && Reads(a, v, source, i)
    ensures Grows(x, y) && Gapless(TablesOf(Visited(a, v, providers, now).store.tables, i), source, y)
  {
    hide Gapless, Scheduler.Answered, Due, Pinned, Keeps, FromSource, Prepared;
    var c := v.config;
    y := x;
    if !(IsTrade(c) && c.start.Malformed?) {
      PreparedValid(a, c);
      var b := Prepared(a, c);
      PreparedTables(a, v, i, start);
      if Due(b, c, providers, now) { y := AnswerGapless(b.store, v, now, i, source, x); }
    }
  }

  ghost predicate AllRead(a: Agent, vs: seq<Visit>, providers: set<int>, now: int, source: seq<Record>, i: int)
    requires ValidStore(a.store)
  {
    forall n :: 0 <= n < |vs| ==> Reads(VisitedAll(a, vs[..n], providers, now), vs[n], source, i)
  }

  lemma {:induction false} VisitsGapless(a: Agent, vs: seq<Visit>, providers: set<int>, now: int, i: int,
                                         start: Option<int>,
                                         source: seq<Record>, x: Span)
    returns (y: Span)
    requires ValidStore(a.store) && Pinned(a.store, i, start) && forall v :: v in vs ==> Keeps(v, i, start)
    requires IsSource(source) && Gapless(TablesOf(a.store.tables, i), source, x)
    requires AllRead(a, vs, providers, now, source, i)
    ensures Grows(x, y) && Gapless(TablesOf(VisitedAll(a, vs, providers, now).store.tables, i), source, y)
  {
    hide Gapless, Visited, Pinned, Keeps, Reads, IsSource;
    y := x;
    if vs != [] {
      var n := |vs| - 1;
      assert vs == vs[..n] + [vs[n]];
      forall m | 0 <= m < n ensures Reads(VisitedAll(a, vs[..n][..m], providers, now), vs[..n][m], source, i) {
        assert vs[..n][..m] == vs[..m];
        assert Reads(VisitedAll(a, vs[..m], providers, now), vs[m], source, i);
      }
      var before := VisitsGapless(a, vs[..n], providers, now, i, start, source, x);
      VisitsKeepPinned(a, vs[..n], providers, now, i, start);
      y := VisitGapless(VisitedAll(a, vs[..n], providers, now), vs[n], providers, now, i, start, source, before);
    }
  }

  /** Every visit of the rounds that concerns subscription `i` reads from the source and
      keeps its start time. */
  ghost predicate RoundReads(s: System, w: Weather, source: seq<Record>, i: int, start: Option<int>)
    requires ValidStore(s.agent.store)
  {
    KeepsEpoch(w, i, start) && AllRead(s.agent.(ran := []), w.visits, w.providers, w.now, source, i)
  }

  ghost predicate RoundsRead(s: System, ws: seq<Weather>, source: seq<Record>, i: int, start: Option<int>)
    requires ValidStore(s.agent.store)
  {
    forall n :: 0 <= n < |ws| ==> RoundReads(Rounds(s, ws[..n]), ws[n], source, i, start)
  }

  lemma ReadsKeepEpoch(s: System, ws: seq<Weather>, source: seq<Record>, i: int, start: Option<int>)
    requires ValidStore(s.agent.store) && RoundsRead(s, ws, source, i, start)
    ensures forall w :: w in ws ==> KeepsEpoch(w, i, start)
  {
    hide KeepsEpoch, AllRead, Rounds;
    forall w | w in ws ensures KeepsEpoch(w, i, start) {
      var n :| 0 <= n < |ws| && ws[n] == w;
      assert RoundReads(Rounds(s, ws[..n]), ws[n], source, i, start);
    }
  }

  lemma RoundGapless(s: System, w: Weather, i: int, start: Option<int>, source: seq<Record>, x: Span)
    returns (y: Span)
    requires ValidStore(s.agent.store) && Pinned(s.agent.store, i, start) && RoundReads(s, w, source, i, start)
    requires IsSource(source) && Gapless(TablesOf(s.agent.store.tables, i), source, x)
    ensures Grows(x, y) && Gapless(TablesOf(SystemRound(s, w).agent.store.tables, i), source, y)
  {
    hide Gapless, VisitedAll, SystemRound, AllRead, IsSource;
    y := VisitsGapless(s.agent.(ran := []), w.visits, w.providers, w.now, i, start, source, x);
    UploadIsTransmission(s, w);
  }

  /** Over any rounds of an epoch, with failed, gap and skipped visits wherever they fall,
      the ledger keeps holding every source record from the first covered one up to the
      checkpoint, the checkpoint only moves on, and a ledger that held nothing but source
      records still does. */
  lemma {:induction false} RoundsStayGapless(s: System, ws: seq<Weather>, i: int, start: Option<int>,
                                             source: seq<Record>,
                                             x: Span)
    returns (y: Span)
    requires ValidStore(s.agent.store) && Pinned(s.agent.store, i, start) && RoundsRead(s, ws, source, i, start)
    requires IsSource(source) && Gapless(TablesOf(s.agent.store.tables, i), source, x)
    ensures Grows(x, y) && Gapless(TablesOf(Rounds(s, ws).agent.store.tables, i), source, y)
  {
    hide Gapless, SystemRound, RoundReads, Pinned, IsSource;
    y := x;
    if ws != [] {
      var n := |ws| - 1;
      forall m | 0 <= m < n ensures RoundReads(Rounds(s, ws[..n][..m]), ws[..n][m], source, i, start) {
        assert ws[..n][..m] == ws[..m];
        assert RoundReads(Rounds(s, ws[..m]), ws[m], source, i, start);
      }
      var before := RoundsStayGapless(s, ws[..n], i, start, source, x);
      ReadsKeepEpoch(s, ws, source, i, start);
      RoundsKeepPinned(s, ws[..n], i, start);
      y := RoundGapless(Rounds(s, ws[..n]), ws[n], i, start, source, before);
    }
  }

  /** The first accepted window that is not empty starts it. */
  lemma FirstVisitGapless(s: Store, c: Config, result: FetchResult, now: int, source: seq<Record>, from: nat, to: nat)
    requires ValidStore(s) && Accepts(s, c, result) && from < to
    requires FromSource(result, source, TablesOf(s.tables, c.id).Checkpoint(), from, to)
    ensures Gapless(TablesOf(Scheduler.Answered(s, c, Trades(result), now).tables, c.id), source, Span(from, to, false))
  {
    hide Scheduler.Answered, FetchInto, Covers, CheckpointAt, FromSource;
    var t := TablesOf(s.tables, c.id);
    FetchedTables(s, c, result, now);
    FirstWindowCovers(t, TargetOf(c), result, source, from, to);
    AcceptedShape(t, TargetOf(c), result);
  }

  /** Over any rounds of an epoch that begin with an empty ledger, polling known records
      again posts nothing and gives the estimates the ledger stood for. */
  lemma PollAgainOverRounds(s: System, ws: seq<Weather>, i: int, start: Option<int>, source: seq<Record>,
                            mark: Mark, target: Target, again: FetchResult)
    requires ValidStore(s.agent.store) && Pinned(s.agent.store, i, start) && RoundsRead(s, ws, source, i, start)
    requires IsSource(source) && TablesOf(s.agent.store.tables, i).ledger == map[]
    requires var t := TablesOf(Rounds(s, ws).agent.store.tables, i);
             && IsView(t, mark) && Known(t.ledger, again.records) && again.complete == t.Start().Some?
             && FetchInto(t, target.subscription, target, again).Accepted?
    ensures var t := TablesOf(Rounds(s, ws).agent.store.tables, i);
            var step := FetchInto(t, target.subscription, target, again);
            step.posts == [] && ReadsAs(step.tables.positions, Image(t), Exact)
  {
    var y := RoundsStayGapless(s, ws, i, start, source, Span(0, 0, true));
    hide FetchInto, IsView, IsSource, Rounds, RoundsRead, Known, Pinned, StoredFrom, Covers, CheckpointAt;
    StoredRefetchIsSilent(TablesOf(Rounds(s, ws).agent.store.tables, i), mark, target, again, source);
  }
}
