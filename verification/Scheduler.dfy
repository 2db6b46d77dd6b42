/** collector/collector_agent/scheduler.py: one round over the configured subscriptions and
    one upload attempt. What the providers and the network answer is a parameter. */
module Scheduler {
  import opened Prelude
  import opened TradeModels
  import opened TradeStore
  import opened CollectorDb

  datatype StartField = NotSet | StartAt(time: int) | Malformed

  /** One subscription of the configuration the server hands out. */
  datatype Config = Config(id: int, platform: int, accountId: Option<int>, start: StartField, enabled: bool,
    interval: int)

  /** What `provider.fetch` and the health check after it came to. */
  datatype Outcome =
    | Gap
    | Unhealthy
    | Raised
    | Social(checkpoint: Option<Checkpoint>, posts: seq<Post>)
    | Trades(result: FetchResult)

  datatype Failure = BadStart | FetchFailed | SyncFailed

  /** A configured subscription together with what happens when it is visited. */
  datatype Visit = Visit(config: Config, outcome: Outcome, syncOk: bool)

  /** The scheduler's fields and its database. */
  datatype Agent = Agent(store: Store, nextCheck: map<int, int>, active: set<int>, failures: map<int, Failure>,
                         ran: seq<int>, uploadFailures: nat, nextUploadAt: Option<int>)

  function StartTime(c: Config): Option<int> {
    if c.platform == BINANCE_COPY && c.start.StartAt? then Some(c.start.time) else None
  }

  function TargetOf(c: Config): Target { Target(c.id, c.platform, c.accountId, StartTime(c)) }

  function Cleared<T>(m: map<int, T>, i: int): map<int, T> { m - {i} }

  predicate IsTrade(c: Config) { c.platform == BINANCE_COPY }

  /** `ensure_trade_start` at the head of every visit. */
  function Prepared(a: Agent, c: Config): Agent {
    if !IsTrade(c) then a
    else
      a.(store := Restart(a.store, c.id, StartTime(c)),
         nextCheck := if SameStart(TablesOf(a.store.tables, c.id), StartTime(c)) then a.nextCheck
                      else Cleared(a.nextCheck, c.id))
  }

  /** Whether the provider is called at all. */
  predicate Due(a: Agent, c: Config, providers: set<int>, now: int) {
    && c.enabled
    && c.id !in a.active
    && !(StartTime(c).Some? && now < StartTime(c).value)
    && !(c.id in a.nextCheck && now < a.nextCheck[c.id])
    && c.platform in providers
  }

  function StaleIfTrade(s: Store, c: Config, now: int): Store {
    if IsTrade(c) then MarkStale(s, c.id, now) else s
  }

  ghost predicate Accepts(s: Store, c: Config, result: FetchResult)
    requires ValidStore(s)
  {
    FetchInto(TablesOf(s.tables, c.id), c.id, TargetOf(c), result).Accepted?
  }

  /** The database after the provider's answer. */
  ghost function Answered(s: Store, c: Config, outcome: Outcome, now: int): Store
    requires ValidStore(s)
  {
    match outcome
    case Gap => MarkUnknown(s, c.id, now)
    case Unhealthy => StaleIfTrade(s, c, now)
    case Raised => StaleIfTrade(s, c, now)
    case Social(checkpoint, posts) => SocialFetch(s, c.id, checkpoint, posts)
    case Trades(result) =>
      if Accepts(s, c, result) then TradeFetch(s, c.id, TargetOf(c), result) else StaleIfTrade(s, c, now)
  }

  ghost predicate Succeeds(s: Store, c: Config, outcome: Outcome)
    requires ValidStore(s)
  {
    outcome.Social? || (outcome.Trades? && Accepts(s, c, outcome.result))
  }

  /** Whether the position table is sent to the server. */
  ghost predicate Syncs(before: Store, after: Store, c: Config, outcome: Outcome)
    requires ValidStore(before)
  {
    if outcome.Social? then false
    else if outcome.Trades? && Accepts(before, c, outcome.result) then true
    else (IsTrade(c) || outcome.Gap?) && TablesOf(after.tables, c.id).positions != map[]
  }

  ghost function FailuresAfter(f: map<int, Failure>, s: Store, after: Store, v: Visit): map<int, Failure>
    requires ValidStore(s)
  {
    var c := v.config;
    var fetched := if Succeeds(s, c, v.outcome) || v.outcome.Gap? || v.outcome.Unhealthy? then Cleared(f, c.platform)
                   else f[c.platform := FetchFailed];
    if Syncs(s, after, c, v.outcome) && !v.syncOk then fetched[c.platform := SyncFailed] else fetched
  }

  function Delay(c: Config): int { 60 * if c.interval < 1 then 1 else c.interval }

  ghost function Fetched(a: Agent, v: Visit, now: int): Agent
    requires ValidStore(a.store)
  {
    var after := Answered(a.store, v.config, v.outcome, now);
    a.(store := after,
       failures := FailuresAfter(a.failures, a.store, after, v),
       ran := if Succeeds(a.store, v.config, v.outcome) then a.ran + [v.config.id] else a.ran,
       nextCheck := a.nextCheck[v.config.id := now + Delay(v.config)])
  }

  lemma PreparedValid(a: Agent, c: Config)
    requires ValidStore(a.store)
    ensures ValidStore(Prepared(a, c).store)
  {
  }

  lemma AnsweredValid(s: Store, c: Config, outcome: Outcome, now: int)
    requires ValidStore(s)
    ensures ValidStore(Answered(s, c, outcome, now))
  {
    if outcome.Trades? { TradeFetchKeepsValid(s, c.id, TargetOf(c), outcome.result); }
    hide FetchInto;
  }

  /** One subscription's turn in a round. */
  ghost function Visited(a: Agent, v: Visit, providers: set<int>, now: int): (r: Agent)
    requires ValidStore(a.store)
    ensures ValidStore(r.store)
  {
    var c := v.config;
    if IsTrade(c) && c.start.Malformed? then a.(failures := a.failures[c.platform := BadStart])
    else
      PreparedValid(a, c);
      var b := Prepared(a, c);
      AnsweredValid(b.store, c, v.outcome, now);
      if Due(b, c, providers, now) then Fetched(b, v, now)
      else if c.enabled && c.id !in b.active && StartTime(c).Some? && now < StartTime(c).value
      then b.(nextCheck := b.nextCheck[c.id := StartTime(c).value])
      else b
  }

  ghost function VisitedAll(a: Agent, vs: seq<Visit>, providers: set<int>, now: int): (r: Agent)
    requires ValidStore(a.store)
    ensures ValidStore(r.store)
  {
    if vs == [] then a
    else Visited(VisitedAll(a, vs[..|vs| - 1], providers, now), vs[|vs| - 1], providers, now)
  }

  // ---- Upload ---------------------------------------------------------------------

  const BACKOFF_CAP := 300

  function Power2(n: nat): nat { if n == 0 then 1 else 2 * Power2(n - 1) }

  function Backoff(failures: nat): int {
    var d := Power2(if failures < 8 then failures else 8);
    if d < BACKOFF_CAP then d else BACKOFF_CAP
  }

  predicate UploadDue(a: Agent, now: int) {
    a.store.boxes.outbox != [] && (a.nextUploadAt.None? || now >= a.nextUploadAt.value)
  }

  /** `reply` is None when the request raised. */
  function Uploaded(a: Agent, reply: Option<seq<Item>>, now: int): Agent {
    if !UploadDue(a, now) then a
    else if reply.None? then
      a.(uploadFailures := a.uploadFailures + 1, nextUploadAt := Some(now + Backoff(a.uploadFailures + 1)))
    else
      a.(store := a.store.(boxes := ApplyAll(a.store.boxes, reply.value)), uploadFailures := 0, nextUploadAt := None)
  }

  ghost function Round(a: Agent, vs: seq<Visit>, providers: set<int>, reply: Option<seq<Item>>, now: int): (r: Agent)
    requires ValidStore(a.store)
    ensures ValidStore(r.store)
  {
    Uploaded(VisitedAll(a.(ran := []), vs, providers, now), reply, now)
  }

  // ---- The class ------------------------------------------------------------------

  class CollectorScheduler {
    const store: CollectorStore
    const providers: set<int>
    var nextCheck: map<int, int>
    var active: set<int>
    var failures: map<int, Failure>
    var ran: seq<int>
    var uploadFailures: nat
    var nextUploadAt: Option<int>

    ghost function View(): Agent
      reads this, store
    {
      Agent(store.View(), nextCheck, active, failures, ran, uploadFailures, nextUploadAt)
    }

    ghost predicate Valid() reads this, store { store.Valid() }

    constructor (store: CollectorStore, providers: set<int>)
      requires store.Valid()
      ensures Valid() && this.store == store && this.providers == providers
      ensures View() == Agent(store.View(), map[], {}, map[], [], 0, None)
    {
      this.store, this.providers := store, providers;
      nextCheck, active, failures, ran := map[], {}, map[], [];
      uploadFailures, nextUploadAt := 0, None;
    }

    /** The `try` block around one provider call; `synced` says whether the snapshot is
        sent and `ok` whether the fetch counts as a run. */
    method HandleOutcome(v: Visit, now: int) returns (ok: bool, synced: bool)
      requires Valid()
      modifies this`failures, store
      ensures Valid() && store.View() == Answered(old(store.View()), v.config, v.outcome, now)
      ensures ok <==> Succeeds(old(store.View()), v.config, v.outcome)
      ensures synced <==> Syncs(old(store.View()), store.View(), v.config, v.outcome)
      ensures failures == if ok || v.outcome.Gap? || v.outcome.Unhealthy? then Cleared(old(failures), v.config.platform)
                          else old(failures)[v.config.platform := FetchFailed]
    {
      hide FetchInto;
      var c := v.config;
      ok, synced := false, false;
      match v.outcome {
        case Social(checkpoint, posts) =>
          var _ := store.RecordFetch(c.id, checkpoint, posts);
          ok := true;
        case Trades(result) =>
          var error, _ := store.RecordTradeFetch(c.id, TargetOf(c), result);
          ok := error.None?;
        case Gap =>
          store.MarkTradePositionsUnknown(c.id, now);
        case Unhealthy =>
        case Raised =>
      }
      if !ok && IsTrade(c) && !v.outcome.Gap? { store.MarkTradePositionsStale(c.id, now); }
      if ok {
        synced := v.outcome.Trades?;
      } else {
        synced := (IsTrade(c) || v.outcome.Gap?) && TablesOf(store.tables, c.id).positions != map[];
      }
      failures := if ok || v.outcome.Gap? || v.outcome.Unhealthy? then Cleared(failures, c.platform)
                  else failures[c.platform := FetchFailed];
    }

    /** The visit of a due subscription, from claiming it to releasing it. */
    method CallProvider(v: Visit, now: int)
      requires Valid() && v.config.id !in active
      modifies this, store
      ensures Valid() && View() == Fetched(old(View()), v, now)
    {
      hide Answered, Succeeds, Syncs;
      var c := v.config;
      active := active + {c.id};
      var ok, synced := HandleOutcome(v, now);
      if ok { ran := ran + [c.id]; }
      if synced && !v.syncOk { failures := failures[c.platform := SyncFailed]; }
      nextCheck := nextCheck[c.id := now + Delay(c)];
      active := active - {c.id};
      assert active == old(active);
    }

    method VisitSubscription(v: Visit, now: int)
      requires Valid()
      modifies this, store
      ensures Valid() && View() == Visited(old(View()), v, providers, now)
    {
      hide Fetched, Restart, Answered;
      var c := v.config;
      if IsTrade(c) {
        if c.start.Malformed? {
          failures := failures[c.platform := BadStart];
          return;
        }
        var changed := store.EnsureTradeStart(c.id, StartTime(c));
        if changed { nextCheck := Cleared(nextCheck, c.id); }
      }
      if !c.enabled { return; }
      if c.id in active { return; }
      if StartTime(c).Some? && now < StartTime(c).value {
        nextCheck := nextCheck[c.id := StartTime(c).value];
        return;
      }
      if c.id in nextCheck && now < nextCheck[c.id] { return; }
      if c.platform !in providers { return; }
      CallProvider(v, now);
    }

    method UploadPending(reply: Option<seq<Item>>, now: int)
      requires Valid()
      modifies this, store
      ensures Valid() && View() == Uploaded(old(View()), reply, now)
    {
      var pending := store.PendingPosts();
      if pending == [] || !(nextUploadAt.None? || now >= nextUploadAt.value) { return; }
      if reply.None? {
        uploadFailures := uploadFailures + 1;
        nextUploadAt := Some(now + Backoff(uploadFailures));
      } else {
        store.ApplyUploadResults(reply.value);
        uploadFailures, nextUploadAt := 0, None;
      }
    }

    method RunOnce(vs: seq<Visit>, reply: Option<seq<Item>>, now: int)
      requires Valid()
      modifies this, store
      ensures Valid() && View() == Round(old(View()), vs, providers, reply, now)
    {
      hide Visited;
      ran := [];
      ghost var start := View();
      for i := 0 to |vs|
        invariant Valid() && View() == VisitedAll(start, vs[..i], providers, now)
      {
        assert vs[..i + 1][..i] == vs[..i];
        VisitSubscription(vs[i], now);
      }
      assert vs[..|vs|] == vs;
      UploadPending(reply, now);
    }
  }

  /** The delay is 2, 4, 8, ... seconds and stays at 256: the configured cap of 300 is
      never what limits it. */
  lemma BackoffCeiling(failures: nat)
    requires failures > 0
    ensures 2 <= Backoff(failures) <= 256
    ensures failures >= 8 ==> Backoff(failures) == 256
    ensures failures < 8 ==> Backoff(failures + 1) == 2 * Backoff(failures)
  {
    assert Power2(2) == 4 && Power2(4) == 16 && Power2(6) == 64 && Power2(8) == 256;
    assert Power2(1) == 2 && Power2(3) == 8 && Power2(5) == 32 && Power2(7) == 128;
  }

  /** After a visit that called the provider, the same configuration is not due again until
      its interval, of at least a minute, has passed. */
  lemma NotCalledEarly(a: Agent, v: Visit, providers: set<int>, now: int, later: int)
    requires ValidStore(a.store) && !(IsTrade(v.config) && v.config.start.Malformed?)
    requires Due(Prepared(a, v.config), v.config, providers, now)
    requires later < now + Delay(v.config)
    ensures Delay(v.config) >= 60
    ensures !Due(Prepared(Visited(a, v, providers, now), v.config), v.config, providers, later)
  {
    PreparedValid(a, v.config);
    AnswerKeepsStart(Prepared(a, v.config).store, v.config, v.outcome, now);
    hide Answered, FailuresAfter, Succeeds;
  }

  lemma AnswerKeepsStart(s: Store, c: Config, outcome: Outcome, now: int)
    requires ValidStore(s)
    requires IsTrade(c) ==> SameStart(TablesOf(s.tables, c.id), StartTime(c))
    ensures IsTrade(c) ==> SameStart(TablesOf(Answered(s, c, outcome, now).tables, c.id), StartTime(c))
  {
    if outcome.Trades? {
      MergeKeepsShape(TablesOf(s.tables, c.id).ledger, outcome.result.records);
    }
    hide FetchErrorOf, MergeAll, PostsFor, RepricedAll, Rows;
  }

  /** A changed start time makes the subscription due at once, unless it is disabled, busy,
      without a provider or not started yet. */
  lemma RestartIsDueAtOnce(a: Agent, c: Config, providers: set<int>, now: int)
    requires IsTrade(c) && !SameStart(TablesOf(a.store.tables, c.id), StartTime(c))
    ensures Due(Prepared(a, c), c, providers, now)
            <==> c.enabled && c.id !in a.active && c.platform in providers
                 && !(StartTime(c).Some? && now < StartTime(c).value)
  {
  }
}
