/** What holds of the collector's tables in every state scheduler rounds can reach. */
module Reachable {
  import opened Prelude
  import opened TradeModels
  import opened TradeReconciler
  import opened ReplayTheorems
  import opened Valuation
  import opened TradeStore
  import opened PositionView
  import opened FetchTheorems
  import opened PostTheorems
  import opened CollectorDb
  import opened CollectorApi
  import opened PostAcceptance
  import TradeStructurer
  import opened Scheduler

  // ---- What the providers promise -------------------------------------------------

  const PAGE_RECORDS := 100

  /** A trade fetch is at most one page, it is complete exactly when a start time is
      configured, its quantities and mark prices are positive and a margin balance is not
      negative; a social fetch never poses as a trade ledger. */
  ghost predicate Promised(v: Visit) {
    && (v.outcome.Trades? ==>
          && IsTrade(v.config)
          && v.outcome.result.complete == StartTime(v.config).Some?
          && |v.outcome.result.records| <= PAGE_RECORDS
          && (forall r :: r in v.outcome.result.records ==> Sound(r))
          && ValidAccount(v.outcome.result.account)
          && (forall s :: s in v.outcome.result.marks ==> v.outcome.result.marks[s] > 0.0))
    && (v.outcome.Social? ==> !IsTrade(v.config) && forall p :: p in v.outcome.posts ==> p.ext.SocialId?)
  }

  // ---- One subscription's tables --------------------------------------------------

  ghost predicate SoundLedger(ledger: Ledger, start: Option<int>) {
    forall k :: k in ledger ==>
      Sound(ledger[k].canon) && ledger[k].canon.platform == BINANCE_COPY
        && (start.Some? ==> start.value <= ledger[k].canon.eventTime)
  }

  ghost predicate RowOk(k: Key, p: Position, start: Option<int>) {
    && p.Slot() == k && Coherent(p) && (p.entry.Some? ==> p.entry.value >= 0.0)
    && p.asOf.Some? && (start.Some? ==> start.value <= p.asOf.value)
  }

  ghost predicate RowsOk(rows: Positions, start: Option<int>) {
    forall k :: k in rows ==> RowOk(k, rows[k], start)
  }

  ghost predicate HasView(t: Tables) {
    exists mark :: IsView(t, mark)
  }

  ghost predicate TablesOk(t: Tables) {
    HasView(t) && SoundLedger(t.ledger, t.Start()) && RowsOk(t.positions, t.Start()) && ValidAccount(t.account)
  }

  lemma NoTablesOk(t: Tables)
    requires t.ledger == map[] && t.positions == map[] && t.account.None?
    ensures TablesOk(t)
  {
    EmptyTablesAreView(t);
  }

  lemma StaleOk(t: Tables, time: int)
    requires TablesOk(t)
    ensures TablesOk(MarkedStale(t, time))
  {
    hide IsView;
    var mark :| IsView(t, mark);
    StaleMarkReads(t, mark, time);
  }

  lemma UnknownOk(t: Tables, time: int)
    requires TablesOk(t)
    ensures TablesOk(MarkedUnknown(t, time))
  {
    hide IsView;
    var mark :| IsView(t, mark);
    UnknownMarkReads(t, mark, time);
  }

  // ---- An accepted fetch ----------------------------------------------------------

  lemma TimesSign(a: real, b: real)
    requires a >= 0.0 && b > 0.0
    ensures Ratio(a, b) >= 0.0
  {
  }

  lemma ValuedCoherent(k: Key, p: Position, mark: Option<real>, priceAt: Option<int>)
    requires WellShaped(k, p) && (mark.Some? ==> mark.value > 0.0)
    ensures Coherent(Valued(p, mark, priceAt)) && Valued(p, mark, priceAt).Slot() == k
    ensures Valued(p, mark, priceAt).entry == p.entry
  {
    if p.status == Active && p.quantity.Some? && mark.Some? && p.leverage.Some? {
      TimesSign(Abs(Times(p.quantity.value, mark.value)), p.leverage.value);
    }
  }

  lemma RowsAreSound(ledger: Ledger, start: Option<int>)
    requires Shaped(ledger) && SoundLedger(ledger, start)
    ensures forall r :: r in Effective(Rows(ledger)) ==>
              Sound(r) && r.platform == BINANCE_COPY && (start.Some? ==> start.value <= r.eventTime)
  {
    hide Rows, Effective;
    forall r | r in Effective(Rows(ledger))
      ensures Sound(r) && r.platform == BINANCE_COPY && (start.Some? ==> start.value <= r.eventTime)
    {
      EffectiveRow(ledger, r);
    }
  }

  lemma RepricedOk(ledger: Ledger, complete: bool, start: Option<int>, previous: Positions, marks: map<int, real>,
                   time: int)
    requires Shaped(ledger) && SoundLedger(ledger, start) && RowsOk(previous, start)
    requires forall s :: s in marks ==> marks[s] > 0.0
    ensures RowsOk(RepricedAll(Reconcile(Rows(ledger), complete).positions, previous, marks, time), start)
  {
    var es := Effective(Rows(ledger));
    var image := Replay(es, complete);
    RowsAreSound(ledger, start);
    ReplayShape(es, complete);
    if start.Some? { ReplayDated(es, complete, start.value); }
    hide Replay, Effective, Rows, Valued, WellShaped;
    forall k | k in image ensures RowOk(k, Repriced(image[k], k, previous, marks, time), start) {
      assert WellShaped(k, image[k]);
      RepricedRowOk(k, image[k], previous, marks, time, start);
    }
  }

  lemma RepricedRowOk(k: Key, p: Position, previous: Positions, marks: map<int, real>, time: int, start: Option<int>)
    requires WellShaped(k, p) && RowsOk(previous, start)
    requires start.Some? ==> start.value <= p.asOf.value
    requires forall s :: s in marks ==> marks[s] > 0.0
    ensures RowOk(k, Repriced(p, k, previous, marks, time), start)
  {
    if k.symbol in marks { ValuedCoherent(k, p, Some(marks[k.symbol]), Some(time)); }
    else if k in previous { ValuedCoherent(k, p, previous[k].mark, previous[k].priceAt); }
    else { ValuedCoherent(k, p, None, None); }
  }

  lemma {:induction false} NoRecordError(rs: seq<Record>, target: Target)
    requires FirstRecordError(rs, target).None?
    ensures forall r :: r in rs ==> RecordError(r, target).None?
  {
    if rs != [] {
      NoRecordError(rs[..|rs| - 1], target);
      assert rs == rs[..|rs| - 1] + [rs[|rs| - 1]];
    }
  }

  lemma {:induction false} MergeSound(ledger: Ledger, rs: seq<Record>, start: Option<int>)
    requires SoundLedger(ledger, start)
    requires forall r :: r in rs ==>
               Sound(r) && r.platform == BINANCE_COPY && (start.Some? ==> start.value <= r.eventTime)
    ensures MergeAll(ledger, rs).Merged? ==> SoundLedger(MergeAll(ledger, rs).ledger, start)
  {
    if rs != [] {
      var n := |rs| - 1;
      assert rs == rs[..n] + [rs[n]];
      MergeSound(ledger, rs[..n], start);
      if MergeAll(ledger, rs).Merged? { MergeOneSound(MergeAll(ledger, rs[..n]), rs[n], start); }
    }
  }

  lemma MergeOneSound(m: Merge, r: Record, start: Option<int>)
    requires m.Merged? && SoundLedger(m.ledger, start) && MergeOne(m, r).Merged?
    requires Sound(r) && r.platform == BINANCE_COPY && (start.Some? ==> start.value <= r.eventTime)
    ensures SoundLedger(MergeOne(m, r).ledger, start)
  {
  }

  lemma FetchOk(t: Tables, target: Target, result: FetchResult)
    requires TablesOk(t) && target.start == t.Start() && result.complete == t.Start().Some?
    requires target.platform == BINANCE_COPY && |result.records| <= PAGE_RECORDS
    requires ValidAccount(result.account) && forall r :: r in result.records ==> Sound(r)
    requires forall s :: s in result.marks ==> result.marks[s] > 0.0
    requires FetchInto(t, target.subscription, target, result).Accepted?
    ensures TablesOk(FetchInto(t, target.subscription, target, result).tables)
    ensures IsView(FetchInto(t, target.subscription, target, result).tables, Exact)
    ensures FetchInto(t, target.subscription, target, result).tables.Start() == t.Start()
    ensures forall p :: p in FetchInto(t, target.subscription, target, result).posts ==> PostOk(p, t.Start())
  {
    var mark :| IsView(t, mark);
    AcceptedFetchRestoresImage(t, mark, target.subscription, target, result);
    NoRecordError(result.records, target);
    MergeSound(t.ledger, result.records, t.Start());
    FetchedLedger(t, target, result);
    FetchedRowsOk(t, target, result);
    FetchedPostsOk(t, target, result);
    FetchedAccount(t, target, result);
    hide FetchInto, IsView, RowsOk, SoundLedger, PostOk;
  }

  lemma FetchedAccount(t: Tables, target: Target, result: FetchResult)
    requires Shaped(t.ledger) && FetchInto(t, target.subscription, target, result).Accepted?
    ensures FetchInto(t, target.subscription, target, result).tables.account
            == if result.account.Some? then result.account else t.account
  {
    hide FetchErrorOf, PostsFor, RepricedAll, MergeAll;
    MergeKeepsShape(t.ledger, result.records);
  }

  lemma FetchedPostsOk(t: Tables, target: Target, result: FetchResult)
    requires Shaped(t.ledger) && RowsOk(t.positions, t.Start()) && |result.records| <= PAGE_RECORDS
    requires MergeAll(t.ledger, result.records).Merged?
    requires SoundLedger(MergeAll(t.ledger, result.records).ledger, t.Start())
    requires FetchInto(t, target.subscription, target, result).Accepted?
    ensures forall p :: p in FetchInto(t, target.subscription, target, result).posts ==> PostOk(p, t.Start())
  {
    var m := MergeAll(t.ledger, result.records);
    MergeKeepsShape(t.ledger, result.records);
    FewInserted(t.ledger, result.records);
    hide FirstRecordError, PostsFor, RepricedAll, MergeAll, Reconcile, RowsOk, SoundLedger, PostOk, Effective, Shaped,
         TradeStructurer.ValidEstimate, EstimateOf, Sound;
    RowEstimatesOk(t.positions, t.Start());
    RowsAreSound(m.ledger, t.Start());
    if m.ledger != map[] && !t.Baseline() {
      PostsForOk(Rows(m.ledger), result.complete, m.inserted, target, t.positions, t.Start());
    }
  }

  lemma RowEstimatesOk(rows: Positions, start: Option<int>)
    requires RowsOk(rows, start)
    ensures forall k :: k in rows ==> TradeStructurer.ValidEstimate(EstimateOf(rows[k]))
  {
    forall k | k in rows ensures TradeStructurer.ValidEstimate(EstimateOf(rows[k])) {
      assert RowOk(k, rows[k], start);
    }
  }

  lemma FetchedRowsOk(t: Tables, target: Target, result: FetchResult)
    requires Shaped(t.ledger) && RowsOk(t.positions, t.Start())
    requires forall s :: s in result.marks ==> result.marks[s] > 0.0
    requires MergeAll(t.ledger, result.records).Merged?
    requires SoundLedger(MergeAll(t.ledger, result.records).ledger, t.Start())
    requires FetchInto(t, target.subscription, target, result).Accepted?
    ensures RowsOk(FetchInto(t, target.subscription, target, result).tables.positions, t.Start())
  {
    hide FirstRecordError, PostsFor, RepricedAll, MergeAll, Reconcile, RowsOk, SoundLedger;
    var m := MergeAll(t.ledger, result.records);
    MergeKeepsShape(t.ledger, result.records);
    if m.ledger != map[] {
      RowsOfSomething(m.ledger);
      var time := if result.account.Some? then result.account.value.observedAt else LatestObserved(Rows(m.ledger));
      RepricedOk(m.ledger, result.complete, t.Start(), t.positions, result.marks, time);
    }
  }

  // ---- Rounds ---------------------------------------------------------------------

  /** Every pending trade post is of a record its subscription's ledger holds, and the
      server will take it. */
  ghost predicate OutboxOk(s: Store) {
    forall row :: row in s.boxes.outbox && row.post.ext.TradeId? ==>
      && PostKey(row.post) in TablesOf(s.tables, row.subscription).ledger
      && PostOk(row.post, TablesOf(s.tables, row.subscription).Start())
  }

  ghost predicate AllTablesOk(tables: map<int, Tables>) {
    forall i :: i in tables ==> TablesOk(tables[i])
  }

  ghost predicate StoreOk(s: Store) {
    ValidStore(s) && AllTablesOk(s.tables) && OutboxOk(s)
  }

  lemma StoredTablesOk(s: Store, i: int)
    requires AllTablesOk(s.tables)
    ensures TablesOk(TablesOf(s.tables, i))
  {
    NoTablesOk(NO_TABLES);
  }

  lemma RestartOk(s: Store, i: int, requested: Option<int>)
    requires StoreOk(s)
    ensures StoreOk(Restart(s, i, requested))
    ensures TablesOf(Restart(s, i, requested).tables, i).Start() == requested
  {
    hide TablesOk, PostOk;
    var t := TablesOf(s.tables, i);
    if !SameStart(t, requested) { NoTablesOk(Restarted(t, requested)); }
  }

  lemma MarkOk(s: Store, i: int, time: int)
    requires StoreOk(s)
    ensures StoreOk(MarkStale(s, i, time)) && StoreOk(MarkUnknown(s, i, time))
  {
    hide TablesOk, PostOk;
    StoredTablesOk(s, i);
    StaleOk(TablesOf(s.tables, i), time);
    UnknownOk(TablesOf(s.tables, i), time);
  }

  lemma {:induction false} EnqueuedRows(outbox: seq<OutboxRow>, i: int, posts: seq<Post>)
    ensures forall row :: row in EnqueueAll(outbox, i, posts) ==>
              row in outbox || (row.subscription == i && row.post in posts)
  {
    if posts != [] {
      var n := |posts| - 1;
      EnqueuedRows(outbox, i, posts[..n]);
      assert posts == posts[..n] + [posts[n]];
    }
  }

  lemma SocialOk(s: Store, i: int, checkpoint: Option<Checkpoint>, posts: seq<Post>)
    requires StoreOk(s) && forall p :: p in posts ==> p.ext.SocialId?
    ensures StoreOk(SocialFetch(s, i, checkpoint, posts))
  {
    hide TablesOk, EnqueueAll, PostOk;
    var t, after := TablesOf(s.tables, i), SocialFetch(s, i, checkpoint, posts);
    EnqueuedRows(s.boxes.outbox, i, posts);
    StoredTablesOk(s, i);
    if checkpoint.Some? { NewCheckpointOk(t, TablesOf(after.tables, i)); }
  }

  lemma NewCheckpointOk(t: Tables, u: Tables)
    requires TablesOk(t) && u.ledger == t.ledger && u.positions == t.positions && u.Start() == t.Start()
    requires u.account == t.account
    ensures TablesOk(u)
  {
    hide ReadsAs, Reconcile, Rows;
    var mark :| IsView(t, mark);
    assert IsView(u, mark);
  }

  lemma TradeOk(s: Store, c: Config, result: FetchResult)
    requires StoreOk(s) && TablesOf(s.tables, c.id).Start() == StartTime(c)
    requires IsTrade(c) && result.complete == StartTime(c).Some? && |result.records| <= PAGE_RECORDS
    requires ValidAccount(result.account) && forall r :: r in result.records ==> Sound(r)
    requires forall m :: m in result.marks ==> result.marks[m] > 0.0
    requires Accepts(s, c, result)
    ensures StoreOk(TradeFetch(s, c.id, TargetOf(c), result))
    ensures IsView(TradeFetch(s, c.id, TargetOf(c), result).tables[c.id], Exact)
  {
    hide TablesOk, FetchInto, EnqueueAll, IsView, PostOk;
    var t, target := TablesOf(s.tables, c.id), TargetOf(c);
    StoredTablesOk(s, c.id);
    FetchOk(t, target, result);
    TradeFetchKeepsValid(s, c.id, target, result);
    FetchPostKeys(t, target, result);
    EnqueuedRows(s.boxes.outbox, c.id, FetchInto(t, c.id, target, result).posts);
  }

  lemma AnsweredOk(s: Store, v: Visit, now: int)
    requires StoreOk(s) && Promised(v)
    requires IsTrade(v.config) ==> TablesOf(s.tables, v.config.id).Start() == StartTime(v.config)
    ensures StoreOk(Answered(s, v.config, v.outcome, now))
  {
    hide StoreOk, TradeFetch, SocialFetch, MarkStale, MarkUnknown, Accepts;
    assert ValidStore(s) by { StoreIsValid(s); }
    var c := v.config;
    MarkOk(s, c.id, now);
    match v.outcome
    case Gap =>
    case Unhealthy =>
    case Raised =>
    case Social(checkpoint, posts) => SocialOk(s, c.id, checkpoint, posts);
    case Trades(result) => if Accepts(s, c, result) { TradeOk(s, c, result); }
  }

  lemma StoreIsValid(s: Store)
    requires StoreOk(s)
    ensures ValidStore(s)
  {
    hide AllTablesOk, OutboxOk;
  }

  lemma PreparedOk(a: Agent, c: Config)
    requires StoreOk(a.store)
    ensures StoreOk(Prepared(a, c).store) && ValidStore(Prepared(a, c).store)
  {
    hide StoreOk, Restart;
    if IsTrade(c) { RestartOk(a.store, c.id, StartTime(c)); }
    StoreIsValid(Prepared(a, c).store);
  }

  lemma VisitOk(a: Agent, v: Visit, providers: set<int>, now: int)
    requires StoreOk(a.store) && Promised(v)
    ensures ValidStore(a.store) && StoreOk(Visited(a, v, providers, now).store)
  {
    StoreIsValid(a.store);
    PreparedOk(a, v.config);
    AnsweredOk(Prepared(a, v.config).store, v, now);
    hide StoreOk, Answered, Prepared, Promised, Due, ValidStore, FailuresAfter, Succeeds;
  }

  lemma {:induction false} VisitsOk(a: Agent, vs: seq<Visit>, providers: set<int>, now: int)
    requires StoreOk(a.store) && forall v :: v in vs ==> Promised(v)
    ensures ValidStore(a.store) && StoreOk(VisitedAll(a, vs, providers, now).store)
  {
    StoreIsValid(a.store);
    hide StoreOk, Visited, Promised;
    if vs != [] {
      var n := |vs| - 1;
      assert vs == vs[..n] + [vs[n]];
      VisitsOk(a, vs[..n], providers, now);
      VisitOk(VisitedAll(a, vs[..n], providers, now), vs[n], providers, now);
    }
  }

  lemma {:induction false} AppliedShrinks(b: Boxes, items: seq<Item>)
    ensures forall row :: row in ApplyAll(b, items).outbox ==> row in b.outbox
  {
    if items != [] { AppliedShrinks(b, items[..|items| - 1]); }
  }

  lemma UploadOk(a: Agent, reply: Option<seq<Item>>, now: int)
    requires StoreOk(a.store)
    ensures StoreOk(Uploaded(a, reply, now).store)
  {
    hide ApplyAll, TablesOk, PostOk;
    if reply.Some? { AppliedShrinks(a.store.boxes, reply.value); }
  }

  /** What a round is given: the visits, the reply to the upload, and the time. */
  datatype Input = Input(visits: seq<Visit>, providers: set<int>, reply: Option<seq<Item>>, now: int)

  ghost predicate PromisedInput(i: Input) {
    forall v :: v in i.visits ==> Promised(v)
  }

  const BOOT := Agent(Store(map[], Boxes([], [])), map[], {}, map[], [], 0, None)

  /** The agent after a sequence of rounds from an empty database. */
  ghost function AgentAfter(inputs: seq<Input>): (a: Agent)
    ensures ValidStore(a.store)
  {
    if inputs == [] then BOOT
    else
      var n := |inputs| - 1;
      Round(AgentAfter(inputs[..n]), inputs[n].visits, inputs[n].providers, inputs[n].reply, inputs[n].now)
  }

  /** In every reachable state the position table of every subscription is the replay of
      its whole ledger under at most a stale and an unknown mark, every row meets
      all the server's checks but possibly the one that its entry price is not zero, and
      every pending trade post is one the server takes. */
  lemma {:induction false} EveryReachableState(inputs: seq<Input>)
    requires forall i :: i in inputs ==> PromisedInput(i)
    ensures StoreOk(AgentAfter(inputs).store)
  {
    hide StoreOk, VisitedAll, Uploaded;
    if inputs == [] {
      BootOk();
    } else {
      var n := |inputs| - 1;
      var i := inputs[n];
      EveryReachableState(inputs[..n]);
      var a := AgentAfter(inputs[..n]).(ran := []);
      assert PromisedInput(i);
      VisitsOk(a, i.visits, i.providers, i.now);
      UploadOk(VisitedAll(a, i.visits, i.providers, i.now), i.reply, i.now);
    }
  }

  lemma BootOk()
    ensures StoreOk(BOOT.store)
  {
  }

  // ---- What a visit may change ----------------------------------------------------

  /** A failed or gap visit leaves ledger, checkpoint, start and outbox as they were; a
      gap marks the rows unknown and a failure of a trade source marks them stale. */
  lemma FailedVisitKeepsLedger(s: Store, c: Config, outcome: Outcome, now: int)
    requires ValidStore(s) && !Succeeds(s, c, outcome)
    ensures var t, u := TablesOf(s.tables, c.id), TablesOf(Answered(s, c, outcome, now).tables, c.id);
            && u.ledger == t.ledger && u.state == t.state && u.account == t.account
            && Answered(s, c, outcome, now).boxes == s.boxes
            && u.positions.Keys == t.positions.Keys
            && forall k :: k in u.positions ==>
                 u.positions[k] == if outcome.Gap? then UnknownRow(t.positions[k], now)
                                   else if IsTrade(c) then StaleRow(t.positions[k], now) else t.positions[k]
  {
    hide FetchInto, TradeFetch;
  }

  /** The next accepted fetch restores the exact image, whatever was marked before. */
  lemma AcceptedVisitRestores(s: Store, v: Visit, now: int)
    requires StoreOk(s) && Promised(v) && v.outcome.Trades?
    requires TablesOf(s.tables, v.config.id).Start() == StartTime(v.config)
    requires ValidStore(s) && Accepts(s, v.config, v.outcome.result)
    ensures var after := Answered(s, v.config, v.outcome, now);
            v.config.id in after.tables && IsView(after.tables[v.config.id], Exact)
  {
    hide StoreOk, FetchInto, IsView;
    TradeOk(s, v.config, v.outcome.result);
  }

  // ---- Nothing is silently ignored ------------------------------------------------

  function RowsFor(i: int, posts: seq<Post>): (rows: seq<OutboxRow>)
    ensures |rows| == |posts|
  {
    seq(|posts|, j requires 0 <= j < |posts| => OutboxRow(i, posts[j]))
  }

  lemma {:induction false} FreshPostsAllEnqueued(outbox: seq<OutboxRow>, i: int, posts: seq<Post>)
    requires DistinctPosts(posts) && forall p :: p in posts ==> p.ext.TradeId?
    requires forall row, p :: row in outbox && p in posts && row.subscription == i ==> row.post.ext != p.ext
    ensures EnqueueAll(outbox, i, posts) == outbox + RowsFor(i, posts)
  {
    if posts == [] {
      assert outbox + RowsFor(i, posts) == outbox;
    } else {
      var n := |posts| - 1;
      assert posts == posts[..n] + [posts[n]];
      FreshPostsAllEnqueued(outbox, i, posts[..n]);
      var before := outbox + RowsFor(i, posts[..n]);
      forall j | 0 <= j < |before| && before[j].subscription == i ensures before[j].post.ext != posts[n].ext {
        if j < |outbox| {
          assert before[j] in outbox && posts[n] in posts;
        } else {
          assert PostKey(posts[j - |outbox|]) != PostKey(posts[n]);
        }
      }
      assert outbox + RowsFor(i, posts) == before + [OutboxRow(i, posts[n])];
    }
  }

  /** In a reachable state `INSERT OR IGNORE` ignores nothing: every post of an accepted
      trade fetch ends up at the tail of the outbox, once. */
  lemma TradeFetchEnqueuesAll(s: Store, c: Config, result: FetchResult)
    requires StoreOk(s) && ValidStore(s) && Accepts(s, c, result)
    ensures TradeFetch(s, c.id, TargetOf(c), result).boxes.outbox
            == s.boxes.outbox + RowsFor(c.id, FetchInto(TablesOf(s.tables, c.id), c.id, TargetOf(c), result).posts)
  {
    hide AllTablesOk, FetchInto, EnqueueAll, DistinctPosts, PostOk;
    var t := TablesOf(s.tables, c.id);
    var posts := FetchInto(t, c.id, TargetOf(c), result).posts;
    FetchPostKeys(t, TargetOf(c), result);
    forall row, p | row in s.boxes.outbox && p in posts && row.subscription == c.id
      ensures row.post.ext != p.ext
    {
      assert row.post.ext == p.ext ==> PostKey(row.post) == PostKey(p);
    }
    FreshPostsAllEnqueued(s.boxes.outbox, c.id, posts);
  }
}
