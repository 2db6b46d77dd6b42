/** When the scheduler calls a provider and when it uploads, in terms of the clock: every
    visit and every upload attempt case by case, and what follows for the next one. */
module ScheduleTheorems {
  import opened Prelude
  import opened TradeModels
  import opened TradeStore
  import opened CollectorDb
  import opened CollectorApi
  import opened Delivery
  import opened Scheduler

  // ---- One visit ------------------------------------------------------------------

  /** The start time a subscription's tables were opened under. */
  function StoredStart(s: Store, i: int): Option<int> {
    if i in s.tables && s.tables[i].state.Some? then s.tables[i].state.value.start else None
  }

  /** The configuration asks for another start time than the stored one. */
  predicate Anew(s: Store, c: Config) {
    && c.platform == BINANCE_COPY
    && (if c.start.StartAt? then StoredStart(s, c.id) != Some(c.start.time) else StoredStart(s, c.id).Some?)
  }

  /** The tables the visit works on: emptied, with nothing pending, for a new start time. */
  ghost predicate EpochOpened(s: Store, c: Config, after: Store) {
    if !Anew(s, c) then after == s
    else
      && c.id in after.tables && after.tables == s.tables[c.id := after.tables[c.id]]
      && after.tables[c.id] == Tables(after.tables[c.id].state, map[], map[], None)
      && after.tables[c.id].state
         == Some(StateRow(None, if c.start.StartAt? then Some(c.start.time) else None, false))
      && after.boxes.dead == s.boxes.dead
      && after.boxes.outbox == Without(s.boxes.outbox, c.id)
  }

  /** Enabled, idle, with a provider and, for a trade source, past its start time. */
  predicate CanRun(a: Agent, c: Config, providers: set<int>, now: int) {
    && c.enabled && c.id !in a.active && c.platform in providers
    && (c.platform == BINANCE_COPY ==> c.start == NotSet || (c.start.StartAt? && c.start.time <= now))
  }

  predicate NotStarted(a: Agent, c: Config, now: int) {
    c.enabled && c.id !in a.active && c.platform == BINANCE_COPY && c.start.StartAt? && now < c.start.time
  }

  predicate Waiting(a: Agent, c: Config, now: int) {
    c.id in a.nextCheck && now < a.nextCheck[c.id] && !Anew(a.store, c)
  }

  function Interval(c: Config): int { if c.interval <= 1 then 60 else 60 * c.interval }

  /** The provider's answer is in the store, and the next check is an interval away. */
  ghost predicate Called(a: Agent, prepared: Store, v: Visit, now: int, b: Agent)
    requires ValidStore(prepared)
  {
    && b.store == Answered(prepared, v.config, v.outcome, now)
    && b.nextCheck == a.nextCheck[v.config.id := now + Interval(v.config)]
    && b.ran == a.ran + (if Succeeds(prepared, v.config, v.outcome) then [v.config.id] else [])
  }

  ghost predicate UploadUntouched(a: Agent, b: Agent) {
    b.active == a.active && b.uploadFailures == a.uploadFailures && b.nextUploadAt == a.nextUploadAt
  }

  lemma PreparedExactly(a: Agent, c: Config)
    requires !(c.platform == BINANCE_COPY && c.start.Malformed?)
    ensures var b := Prepared(a, c);
            && EpochOpened(a.store, c, b.store)
            && b == a.(store := b.store, nextCheck := if Anew(a.store, c) then a.nextCheck - {c.id} else a.nextCheck)
  {
  }

  lemma DueExactly(a: Agent, c: Config, providers: set<int>, now: int)
    requires !(c.platform == BINANCE_COPY && c.start.Malformed?)
    ensures Due(Prepared(a, c), c, providers, now) <==> CanRun(a, c, providers, now) && !Waiting(a, c, now)
  {
    PreparedExactly(a, c);
    hide Prepared, EpochOpened, Anew;
  }

  /** A visit, case by case. */
  lemma VisitExactly(a: Agent, v: Visit, providers: set<int>, now: int) returns (prepared: Store)
    requires ValidStore(a.store)
    ensures ValidStore(prepared)
    ensures var c, b := v.config, Visited(a, v, providers, now);
            && UploadUntouched(a, b)
            && if c.platform == BINANCE_COPY && c.start.Malformed? then
                 b == a.(failures := a.failures[BINANCE_COPY := BadStart])
               else
                 && EpochOpened(a.store, c, prepared)
                 && if CanRun(a, c, providers, now) && !Waiting(a, c, now) then Called(a, prepared, v, now, b)
                    else
                      && b.store == prepared && b.ran == a.ran && b.failures == a.failures
                      && b.nextCheck == if NotStarted(a, c, now) then a.nextCheck[c.id := c.start.time]
                                        else if Anew(a.store, c) then a.nextCheck - {c.id} else a.nextCheck
  {
    prepared := a.store;
    if !(IsTrade(v.config) && v.config.start.Malformed?) {
      PreparedValid(a, v.config);
      PreparedExactly(a, v.config);
      DueExactly(a, v.config, providers, now);
      prepared := Prepared(a, v.config).store;
    }
    hide Answered, Succeeds, FailuresAfter, Prepared, EpochOpened, Anew, Due, CanRun, Waiting, ValidStore;
  }

  lemma {:induction false} VisitsRun(a: Agent, vs: seq<Visit>, providers: set<int>, now: int)
    requires ValidStore(a.store)
    ensures var b := VisitedAll(a, vs, providers, now);
            && a.ran <= b.ran && |b.ran| - |a.ran| <= |vs|
            && forall n :: |a.ran| <= n < |b.ran| ==> exists v :: v in vs && v.config.id == b.ran[n]
  {
    if vs != [] {
      var m := |vs| - 1;
      assert vs == vs[..m] + [vs[m]];
      assert vs[m] in vs && forall v :: v in vs[..m] ==> v in vs;
      VisitsRun(a, vs[..m], providers, now);
      var _ := VisitExactly(VisitedAll(a, vs[..m], providers, now), vs[m], providers, now);
      hide Visited, Answered, EpochOpened, CanRun, Waiting, ValidStore;
    }
  }

  /** The list of runs is that of this round alone. */
  lemma RoundRuns(a: Agent, vs: seq<Visit>, providers: set<int>, reply: Option<seq<Item>>, now: int)
    requires ValidStore(a.store)
    ensures var ran := Round(a, vs, providers, reply, now).ran;
            |ran| <= |vs| && forall n :: 0 <= n < |ran| ==> exists v :: v in vs && v.config.id == ran[n]
  {
    VisitsRun(a.(ran := []), vs, providers, now);
    hide VisitedAll, ApplyAll, Backoff;
  }

  // ---- The next visit -------------------------------------------------------------

  /** Nothing that decides the subscription's next visit has changed. */
  ghost predicate TurnKept(a: Agent, b: Agent, i: int) {
    && (i in b.active <==> i in a.active)
    && (i in b.nextCheck <==> i in a.nextCheck) && (i in a.nextCheck ==> b.nextCheck[i] == a.nextCheck[i])
    && StoredStart(b.store, i) == StoredStart(a.store, i)
  }

  lemma OtherVisitKeepsTurn(a: Agent, v: Visit, providers: set<int>, now: int, i: int)
    requires ValidStore(a.store) && v.config.id != i
    ensures TurnKept(a, Visited(a, v, providers, now), i)
  {
    var prepared := VisitExactly(a, v, providers, now);
    AnswerKeepsOthers(prepared, v.config, v.outcome, now, i);
    hide Visited, Answered, Succeeds;
  }

  lemma AnswerKeepsOthers(s: Store, c: Config, outcome: Outcome, now: int, i: int)
    requires ValidStore(s) && c.id != i
    ensures TablesOf(Answered(s, c, outcome, now).tables, i) == TablesOf(s.tables, i)
  {
    hide FetchInto, Accepts, EnqueueAll;
  }

  lemma {:induction false} OtherVisitsKeepTurn(a: Agent, vs: seq<Visit>, providers: set<int>, now: int, i: int)
    requires ValidStore(a.store) && forall v :: v in vs ==> v.config.id != i
    ensures TurnKept(a, VisitedAll(a, vs, providers, now), i)
  {
    if vs != [] {
      var n := |vs| - 1;
      assert vs == vs[..n] + [vs[n]];
      OtherVisitsKeepTurn(a, vs[..n], providers, now, i);
      OtherVisitKeepsTurn(VisitedAll(a, vs[..n], providers, now), vs[n], providers, now, i);
      hide Visited;
    }
  }

  /** A round that does not visit the subscription, uploading or not, keeps its turn. */
  lemma OtherRoundKeepsTurn(a: Agent, vs: seq<Visit>, providers: set<int>, reply: Option<seq<Item>>, now: int, i: int)
    requires ValidStore(a.store) && forall v :: v in vs ==> v.config.id != i
    ensures TurnKept(a, Round(a, vs, providers, reply, now), i)
  {
    OtherVisitsKeepTurn(a.(ran := []), vs, providers, now, i);
    hide VisitedAll, Backoff, ApplyAll;
  }

  /** After a visit that called the provider, and whatever happens to other subscriptions
      in between, the next call is at the first visit after the interval: at any earlier one
      nothing happens, at any later one the provider is called. */
  lemma CalledAgain(a: Agent, v: Visit, providers: set<int>, now: int, b: Agent, w: Visit, later: int)
    requires ValidStore(a.store) && ValidStore(b.store) && w.config == v.config
    requires CanRun(a, v.config, providers, now) && !Waiting(a, v.config, now)
    requires TurnKept(Visited(a, v, providers, now), b, v.config.id) && CanRun(b, w.config, providers, later)
    ensures Interval(v.config) >= 60 && (v.config.interval >= 1 ==> Interval(v.config) == 60 * v.config.interval)
    ensures var after := Visited(b, w, providers, later);
            if later < now + Interval(v.config) then after == b else Called(b, b.store, w, later, after)
  {
    var c := v.config;
    var prepared := VisitExactly(a, v, providers, now);
    CalledKeepsStart(a.store, prepared, c, v.outcome, now);
    var again := VisitExactly(b, w, providers, later);
    hide Visited, Answered, Succeeds, StoredStart;
    assert !Anew(b.store, c);
    assert c.id in b.nextCheck && b.nextCheck[c.id] == now + Interval(c);
  }

  lemma CalledKeepsStart(s: Store, prepared: Store, c: Config, outcome: Outcome, now: int)
    requires ValidStore(prepared) && EpochOpened(s, c, prepared) && !(c.platform == BINANCE_COPY && c.start.Malformed?)
    ensures !Anew(Answered(prepared, c, outcome, now), c)
  {
    AnswerKeepsStart(prepared, c, outcome, now);
    hide Answered;
  }

  /** A subscription visited before its start time is not called before it, and is called
      at every visit from the start time on. */
  lemma CalledFromStart(a: Agent, v: Visit, providers: set<int>, now: int, b: Agent, w: Visit, later: int)
    requires ValidStore(a.store) && ValidStore(b.store) && w.config == v.config
    requires NotStarted(a, v.config, now)
    requires TurnKept(Visited(a, v, providers, now), b, v.config.id)
    requires v.config.id !in b.active && v.config.platform in providers
    ensures Visited(a, v, providers, now).store == a.store || Anew(a.store, v.config)
    ensures var after := Visited(b, w, providers, later);
            if later < v.config.start.time then after == b else Called(b, b.store, w, later, after)
  {
    var c := v.config;
    var prepared := VisitExactly(a, v, providers, now);
    var again := VisitExactly(b, w, providers, later);
    hide Visited, Answered, Succeeds;
    assert !Anew(b.store, c);
  }

  // ---- What an answer stores ------------------------------------------------------

  /** A row marked at `now`: after a gap nothing is claimed any more, after another failure
      everything still is. */
  ghost predicate MarkedAt(p: Position, q: Position, gap: bool, now: int) {
    && q.staleSince == Some(now) && q.status == (if gap then Unknown else Stale)
    && q.symbol == p.symbol && q.bucket == p.bucket && q.asOf == p.asOf && q.mark == p.mark && q.priceAt == p.priceAt
    && if gap then
         && q.side == NoSide && q.confidence == NoConfidence && q.quantity.None? && q.entry.None?
         && q.leverage.None? && q.notional.None? && q.margin.None? && q.pnl.None?
       else
         && q.side == p.side && q.confidence == p.confidence && q.quantity == p.quantity && q.entry == p.entry
         && q.leverage == p.leverage && q.notional == p.notional && q.margin == p.margin && q.pnl == p.pnl
  }

  /** The subscription's rows after a failed visit, one by one. */
  lemma FailureMarks(s: Store, c: Config, outcome: Outcome, now: int, k: Key)
    requires ValidStore(s) && !Succeeds(s, c, outcome) && c.id in s.tables
    ensures var before := s.tables[c.id].positions;
            var after := TablesOf(Answered(s, c, outcome, now).tables, c.id).positions;
            && (k in after <==> k in before)
            && (k in before ==>
                  if outcome.Gap? || c.platform == BINANCE_COPY then MarkedAt(before[k], after[k], outcome.Gap?, now)
                  else after[k] == before[k])
  {
    hide FetchInto, TradeFetch;
  }

  /** `after` is `before` with the posts not yet pending for the subscription behind it, none
      of them twice. */
  ghost predicate EnqueuedOnce(before: seq<OutboxRow>, i: int, posts: seq<Post>, after: seq<OutboxRow>) {
    && before <= after
    && (forall n :: |before| <= n < |after| ==> after[n].subscription == i && after[n].post in posts)
    && (forall p :: p in posts ==> HasPending(after, i, p.ext))
    && (forall m, n :: 0 <= m < n < |after| && |before| <= n && after[m].subscription == i ==>
          after[m].post.ext != after[n].post.ext)
  }

  ghost predicate HasPending(outbox: seq<OutboxRow>, i: int, ext: ExternalId) {
    exists n :: 0 <= n < |outbox| && outbox[n].subscription == i && outbox[n].post.ext == ext
  }

  lemma PendingStays(outbox: seq<OutboxRow>, row: OutboxRow, i: int, ext: ExternalId)
    requires HasPending(outbox, i, ext)
    ensures HasPending(outbox + [row], i, ext)
  {
    var n :| 0 <= n < |outbox| && outbox[n].subscription == i && outbox[n].post.ext == ext;
    assert (outbox + [row])[n] == outbox[n];
  }

  lemma OneEnqueued(before: seq<OutboxRow>, i: int, posts: seq<Post>, after: seq<OutboxRow>, post: Post)
    requires EnqueuedOnce(before, i, posts, after)
    ensures EnqueuedOnce(before, i, posts + [post], Enqueue(after, i, post))
  {
    var grown := Enqueue(after, i, post);
    if grown != after {
      forall p | p in posts ensures HasPending(grown, i, p.ext) {
        PendingStays(after, OutboxRow(i, post), i, p.ext);
      }
      assert grown[|after|] == OutboxRow(i, post);
    }
  }

  /** `INSERT OR IGNORE`, post by post. */
  lemma {:induction false} EachEnqueuedOnce(outbox: seq<OutboxRow>, i: int, posts: seq<Post>)
    ensures EnqueuedOnce(outbox, i, posts, EnqueueAll(outbox, i, posts))
  {
    hide EnqueuedOnce, Enqueue;
    if posts == [] {
      NoneEnqueued(outbox, i);
    } else {
      var n := |posts| - 1;
      assert posts == posts[..n] + [posts[n]];
      EachEnqueuedOnce(outbox, i, posts[..n]);
      OneEnqueued(outbox, i, posts[..n], EnqueueAll(outbox, i, posts[..n]), posts[n]);
    }
  }

  lemma NoneEnqueued(outbox: seq<OutboxRow>, i: int)
    ensures EnqueuedOnce(outbox, i, [], outbox)
  {
  }

  /** A social answer adds its posts once each and stores a checkpoint that came with it. */
  lemma SocialAnswer(s: Store, c: Config, checkpoint: Option<Checkpoint>, posts: seq<Post>, now: int)
    requires ValidStore(s)
    ensures var t, after := TablesOf(s.tables, c.id), Answered(s, c, Social(checkpoint, posts), now);
            var u := TablesOf(after.tables, c.id);
            && after.boxes.dead == s.boxes.dead
            && EnqueuedOnce(s.boxes.outbox, c.id, posts, after.boxes.outbox)
            && (checkpoint.None? ==> after.tables == s.tables)
            && u.Start() == t.Start() && u.Baseline() == t.Baseline()
            && u.ledger == t.ledger && u.positions == t.positions && u.account == t.account
            && (checkpoint.Some? ==> u.state.Some? && u.state.value.checkpoint == checkpoint)
  {
    EachEnqueuedOnce(s.boxes.outbox, c.id, posts);
    hide EnqueueAll, EnqueuedOnce;
  }

  // ---- Failures shown for a platform ----------------------------------------------

  /** Whether the visit sent the position table: after an accepted trade fetch, or to show
      the marks a failure left on rows. */
  ghost predicate SendsTable(prepared: Store, v: Visit, after: Store)
    requires ValidStore(prepared)
  {
    match v.outcome
    case Social(_, _) => false
    case Trades(result) =>
      Accepts(prepared, v.config, result)
      || (v.config.platform == BINANCE_COPY && TablesOf(after.tables, v.config.id).positions != map[])
    case Gap => TablesOf(after.tables, v.config.id).positions != map[]
    case Unhealthy => v.config.platform == BINANCE_COPY && TablesOf(after.tables, v.config.id).positions != map[]
    case Raised => v.config.platform == BINANCE_COPY && TablesOf(after.tables, v.config.id).positions != map[]
  }

  /** What a visit leaves shown of its platform, and that it touches no other. */
  ghost predicate Shows(f: map<int, Failure>, prepared: Store, v: Visit, after: Store, g: map<int, Failure>)
    requires ValidStore(prepared)
  {
    var c := v.config;
    var fetchFailed := v.outcome.Raised? || (v.outcome.Trades? && !Accepts(prepared, c, v.outcome.result));
    && (forall p :: p != c.platform ==> (p in g <==> p in f) && (p in g ==> g[p] == f[p]))
    && (if SendsTable(prepared, v, after) && !v.syncOk then c.platform in g && g[c.platform] == SyncFailed
        else if fetchFailed then c.platform in g && g[c.platform] == FetchFailed
        else c.platform !in g)
  }

  lemma FailuresShow(f: map<int, Failure>, prepared: Store, v: Visit, after: Store)
    requires ValidStore(prepared)
    ensures Shows(f, prepared, v, after, FailuresAfter(f, prepared, after, v))
  {
    hide Accepts, ValidStore;
  }

  /** A failed fetch or sync is shown under the platform until a visit ends without one. */
  lemma FailuresTell(a: Agent, v: Visit, providers: set<int>, now: int) returns (prepared: Store)
    requires ValidStore(a.store)
    requires CanRun(a, v.config, providers, now) && !Waiting(a, v.config, now)
    ensures ValidStore(prepared) && EpochOpened(a.store, v.config, prepared)
    ensures var b := Visited(a, v, providers, now); Shows(a.failures, prepared, v, b.store, b.failures)
  {
    PreparedValid(a, v.config);
    PreparedExactly(a, v.config);
    DueExactly(a, v.config, providers, now);
    prepared := Prepared(a, v.config).store;
    FailuresShow(a.failures, prepared, v, Answered(prepared, v.config, v.outcome, now));
    hide Answered, EpochOpened, Prepared, Due, Waiting, ValidStore, Shows, FailuresAfter, Succeeds;
  }

  // ---- Uploads --------------------------------------------------------------------

  /** Seconds to wait after that many failures in a row. */
  predicate Waits(failures: nat, seconds: int) {
    seconds == [1, 2, 4, 8, 16, 32, 64, 128, 256][if failures < 8 then failures else 8]
  }

  lemma BackoffWaits(failures: nat)
    ensures Waits(failures, Backoff(failures))
  {
    assert Power2(2) == 4 && Power2(4) == 16 && Power2(6) == 64 && Power2(8) == 256;
    assert Power2(1) == 2 && Power2(3) == 8 && Power2(5) == 32 && Power2(7) == 128;
  }

  /** Nothing to send, or not yet. */
  predicate Idle(a: Agent, now: int) {
    |a.store.boxes.outbox| == 0 || (a.nextUploadAt.Some? && now < a.nextUploadAt.value)
  }

  /** One upload attempt, case by case: nothing, a failure that sets the next time, or a
      reply that settles exactly the page sent and clears the backoff. */
  lemma UploadExactly(a: Agent, reply: Option<seq<Item>>, now: int)
    requires reply.Some? ==> Answers(reply.value, PendingPage(a.store.boxes.outbox))
    ensures var b, n := Uploaded(a, reply, now), |a.store.boxes.outbox|;
            if Idle(a, now) then b == a
            else if reply.None? then
              && b.store == a.store && b.uploadFailures == a.uploadFailures + 1
              && b.nextUploadAt.Some? && Waits(b.uploadFailures, b.nextUploadAt.value - now)
            else
              && b.store.tables == a.store.tables && b.uploadFailures == 0 && b.nextUploadAt.None?
              && b.store.boxes.outbox == a.store.boxes.outbox[if n < 100 then n else 100..]
              && b.store.boxes.dead == a.store.boxes.dead + Refused(PendingPage(a.store.boxes.outbox), reply.value)
  {
    var outbox := a.store.boxes.outbox;
    var page := PendingPage(outbox);
    BackoffWaits(a.uploadFailures + 1);
    hide Backoff, Waits, Answers, Refused, ApplyAll;
    assert outbox == page + outbox[|page|..];
    if reply.Some? { ResultsMatchByOrder(page, outbox[|page|..], a.store.boxes.dead, reply.value); }
  }

  /** After a failed upload nothing is sent until the wait is over, whatever has been
      visited meanwhile; from then on a delivered upload takes exactly one page off the
      outbox and ends the backoff. */
  lemma UploadedAgain(a: Agent, now: int, b: Agent, reply: Option<seq<Item>>, later: int) returns (wait: int)
    requires !Idle(a, now)
    requires b.uploadFailures == Uploaded(a, None, now).uploadFailures
    requires b.nextUploadAt == Uploaded(a, None, now).nextUploadAt
    requires reply.Some? ==> Answers(reply.value, PendingPage(b.store.boxes.outbox))
    ensures Waits(a.uploadFailures + 1, wait) && 2 <= wait <= 256
    ensures var after, n := Uploaded(b, reply, later), |b.store.boxes.outbox|;
            if n == 0 || later < now + wait then after == b
            else if reply.Some? then
              && after.store.boxes.outbox == b.store.boxes.outbox[if n < 100 then n else 100..]
              && after.uploadFailures == 0 && after.nextUploadAt.None?
            else after.store == b.store && after.uploadFailures == a.uploadFailures + 2
  {
    UploadExactly(a, None, now);
    UploadExactly(b, reply, later);
    hide Uploaded, Answers, Refused;
    wait := Uploaded(a, None, now).nextUploadAt.value - now;
  }

  /** Visits do not touch the upload state. */
  lemma {:induction false} VisitsKeepUpload(a: Agent, vs: seq<Visit>, providers: set<int>, now: int)
    requires ValidStore(a.store)
    ensures UploadUntouched(a, VisitedAll(a, vs, providers, now))
  {
    hide Visited;
    if vs != [] {
      var n := |vs| - 1;
      VisitsKeepUpload(a, vs[..n], providers, now);
      var _ := VisitExactly(VisitedAll(a, vs[..n], providers, now), vs[n], providers, now);
    }
  }
}
