/** A batch reaches the server whole over scheduler rounds: what the release needs of the
    other posts follows from what fetches enqueue. */
module ReleaseRounds {
  import opened Prelude
  import opened TradeModels
  import opened TradeReconciler
  import opened TradeStore
  import opened FetchTheorems
  import opened PostTheorems
  import opened CollectorDb
  import opened CollectorApi
  import opened Delivery
  import opened PostAcceptance
  import opened Scheduler
  import opened Reachable
  import opened EndToEnd
  import opened Arrival
  import opened BatchRelease

  // ---- What an accepted fetch enqueues --------------------------------------------

  function KeysOf(ps: seq<Post>): (keys: seq<LedgerKey>)
    ensures |keys| == |ps|
  {
    seq(|ps|, j requires 0 <= j < |ps| => PostKey(ps[j]))
  }

  /** A batch whose id is the digest over its own records. */
  ghost predicate Signed(ps: seq<Post>, b: Batch) {
    IsBatch(ps, b) && ps != [] && b.id.records == KeysOf(ps)
  }

  /** A trade post of this account. */
  predicate OfAccount(p: Post, account: int) { p.ext.TradeId? && p.ext.account == account }

  ghost predicate AllOfAccount(ps: seq<Post>, account: int) {
    forall p :: p in ps ==> OfAccount(p, account)
  }

  lemma NotStored(ledger: Ledger, r: Record)
    requires Shaped(ledger) && RecordKey(r) !in ledger
    ensures r !in RecordSet(ledger)
  {
    forall k | k in ledger ensures RecordOf(ledger[k]) != r { assert RecordKey(ledger[k].canon) == k; }
  }

  /** Rows a fetch inserted are records of its window. */
  lemma InsertedAreFetched(ledger: Ledger, rs: seq<Record>, k: LedgerKey)
    requires Shaped(ledger) && MergeAll(ledger, rs).Merged? && k in MergeAll(ledger, rs).inserted
    ensures k in MergeAll(ledger, rs).ledger && RecordOf(MergeAll(ledger, rs).ledger[k]) in rs
  {
    InsertedKeys(ledger, rs);
    LedgerHoldsItself(ledger);
    MergeHolds(ledger, RecordSet(ledger), rs);
    var m := MergeAll(ledger, rs);
    hide MergeAll, Agree, RecordSet;
    var r := RecordOf(m.ledger[k]);
    assert r in RecordSet(ledger) + Elements(rs);
    assert RecordKey(r) == k;
    NotStored(ledger, r);
  }

  lemma PostsAreSigned(es: seq<Event>, batch: Batch, account: int)
    requires es != [] && batch.size == |es| && batch.id.records == EventKeys(es)
    requires DistinctKeys(es)
    requires forall e :: e in es ==> e.record.platform == BINANCE_COPY && e.record.accountId == account
    ensures Signed(PostsOf(es, batch), batch) && AllOfAccount(PostsOf(es, batch), account)
  {
    var ps := PostsOf(es, batch);
    assert forall j :: 0 <= j < |es| ==> es[j] in es && PostKey(ps[j]) == EventKey(es[j]);
    assert KeysOf(ps) == EventKeys(es);
  }

  lemma NewEventsOfAccount(ledger: Ledger, merged: Merge, rs: seq<Record>, target: Target, complete: bool, e: Event)
    requires Shaped(ledger) && merged == MergeAll(ledger, rs) && merged.Merged? && FirstRecordError(rs, target).None?
    requires Shaped(merged.ledger) && e in NewEvents(Reconcile(Rows(merged.ledger), complete).events, merged.inserted)
    requires target.platform == BINANCE_COPY
    ensures Some(e.record.accountId) == target.accountId && e.record.platform == BINANCE_COPY
  {
    var events := Reconcile(Rows(merged.ledger), complete).events;
    NewEventsAreMembers(events, merged.inserted);
    EventsHaveDistinctKeys(Rows(merged.ledger), complete);
    hide Reconcile, Effective, Rows, MergeAll, NewEvents;
    assert e in events && EventKey(e) in merged.inserted;
    EffectiveRow(merged.ledger, e.record);
    InsertedAreFetched(ledger, rs, EventKey(e));
    NoRecordError(rs, target);
  }

  /** The posts of an accepted fetch are none, or a signed batch of the target's account. */
  lemma FetchedBatch(t: Tables, target: Target, result: FetchResult) returns (b: Batch)
    requires Shaped(t.ledger) && FetchInto(t, target.subscription, target, result).Accepted?
    requires target.platform == BINANCE_COPY
    ensures target.accountId.Some?
    ensures var ps := FetchInto(t, target.subscription, target, result).posts;
            AllOfAccount(ps, target.accountId.value) && (ps != [] ==> Signed(ps, b))
    ensures FetchInto(t, target.subscription, target, result).posts != [] ==>
              b.id.platform == target.platform && b.id.account == target.accountId.value
  {
    var m := MergeAll(t.ledger, result.records);
    MergeKeepsShape(t.ledger, result.records);
    InsertedKeys(t.ledger, result.records);
    b := Batch(BatchId(0, 0, []), 0, []);
    hide FirstRecordError, MergeAll, RepricedAll, NewEvents, ChangesBetween, Rows, PostsOf, Signed, AllOfAccount;
    if m.ledger != map[] && !t.Baseline() {
      var out := Reconcile(Rows(m.ledger), result.complete);
      var es := NewEvents(out.events, m.inserted);
      EventsHaveDistinctKeys(Rows(m.ledger), result.complete);
      NewEventsAreFiltered(out.events, m.inserted);
      forall e | e in es ensures e.record.platform == BINANCE_COPY && e.record.accountId == target.accountId.value {
        NewEventsOfAccount(t.ledger, m, result.records, target, result.complete, e);
      }
      hide Reconcile, EventKeys, DistinctKeys;
      b := Batch(BatchId(target.platform, target.accountId.value, EventKeys(es)), |es|,
                 ChangesBetween(t.positions, out.positions));
      if es != [] { PostsAreSigned(es, b, target.accountId.value); }
      else { NoPosts(b, target.accountId.value); }
    } else {
      NoPosts(b, target.accountId.value);
    }
  }

  lemma NoPosts(b: Batch, account: int)
    ensures PostsOf([], b) == [] && AllOfAccount([], account)
  {
  }

  // ---- What belongs to a subscription's account -----------------------------------

  /** A trade post of the account is of this subscription and of a record its ledger holds,
      and so is the batch of any post of the subscription. */
  ghost predicate Owned(subscription: int, p: Post, ledger: Ledger, i: int, account: int) {
    && (OfAccount(p, account) ==> subscription == i && PostKey(p) in ledger)
    && (subscription == i && BatchOf(p).Some? ==>
          BatchOf(p).value.id.records != [] && BatchOf(p).value.id.records[0] in ledger)
  }

  ghost predicate AllOwned(w: Wire, ledger: Ledger, i: int, account: int) {
    && (forall row :: row in w.boxes.outbox ==> Owned(row.subscription, row.post, ledger, i, account))
    && (forall r :: r in w.raw ==> Owned(r.subscription, r.post, ledger, i, account))
  }

  datatype Lot = Lot(batch: Batch, posts: seq<Post>)

  ghost predicate Kept(w: Wire, i: int, account: int, lot: Lot) {
    Signed(lot.posts, lot.batch) && AllOfAccount(lot.posts, account) && Tracked(w, i, lot.batch, lot.posts)
  }

  /** Nobody else's posts get in the way of these batches, and each is waiting or stored. */
  ghost predicate Guarded(w: Wire, ledger: Ledger, i: int, account: int, lots: set<Lot>) {
    && UniqueIdentities(w.raw) && AllOwned(w, ledger, i, account)
    && forall lot :: lot in lots ==> Kept(w, i, account, lot)
  }

  lemma LotIsOwned(w: Wire, ledger: Ledger, i: int, account: int, lot: Lot, p: Post)
    requires AllOwned(w, ledger, i, account) && Kept(w, i, account, lot) && p in lot.posts
    ensures OfAccount(p, account) && PostKey(p) in ledger
  {
    if OutboxRow(i, p) !in w.boxes.outbox { assert RawPost(i, p) in w.raw; }
  }

  /** A post of a record the ledger did not hold, under a batch of such records, claims
      nothing of a batch that was there before. */
  lemma NewClaimsNothing(w: Wire, ledger: Ledger, i: int, account: int, lot: Lot, subscription: int, p: Post)
    requires AllOwned(w, ledger, i, account) && Kept(w, i, account, lot)
    requires OfAccount(p, account) ==> PostKey(p) !in ledger
    requires subscription == i && BatchOf(p).Some? ==>
               BatchOf(p).value.id.records != [] && BatchOf(p).value.id.records[0] !in ledger
    ensures !Claims(subscription, p, i, lot.batch, lot.posts)
  {
    hide AllOwned, Tracked, IsBatch;
    var first := lot.posts[0];
    LotIsOwned(w, ledger, i, account, lot, first);
    assert lot.batch.id.records[0] == PostKey(first);
    forall q | q in lot.posts ensures !SameIdentity(q, p) { LotIsOwned(w, ledger, i, account, lot, q); }
  }

  // ---- What a visit enqueues ------------------------------------------------------

  ghost function IssuedBy(s: Store, c: Config, outcome: Outcome): seq<Post>
    requires ValidStore(s)
  {
    if outcome.Social? then outcome.posts
    else if outcome.Trades? && Accepts(s, c, outcome.result)
    then FetchInto(TablesOf(s.tables, c.id), c.id, TargetOf(c), outcome.result).posts
    else []
  }

  lemma AnswerIssues(s: Store, c: Config, outcome: Outcome, now: int)
    requires ValidStore(s)
    ensures Answered(s, c, outcome, now).boxes
            == s.boxes.(outbox := EnqueueAll(s.boxes.outbox, c.id, IssuedBy(s, c, outcome)))
  {
    hide FetchInto;
  }

  /** Accounts are not shared: this one is the subscription's, and no other's. */
  ghost predicate Honest(v: Visit, i: int, account: int) {
    && (v.config.id == i ==> IsTrade(v.config) && v.config.accountId == Some(account))
    && (v.config.id != i && IsTrade(v.config) ==> v.config.accountId != Some(account))
  }

  function LedgerOf(s: Store, i: int): Ledger { TablesOf(s.tables, i).ledger }

  lemma AnswerGrowsLedger(s: Store, c: Config, outcome: Outcome, now: int, i: int)
    requires ValidStore(s)
    ensures LedgerOf(s, i).Keys <= LedgerOf(Answered(s, c, outcome, now), i).Keys
    ensures c.id == i && outcome.Trades? && Accepts(s, c, outcome.result) ==>
              LedgerOf(Answered(s, c, outcome, now), i)
              == FetchInto(TablesOf(s.tables, i), i, TargetOf(c), outcome.result).tables.ledger
  {
    if outcome.Trades? && Accepts(s, c, outcome.result) {
      FetchPostKeys(TablesOf(s.tables, c.id), TargetOf(c), outcome.result);
      TradeFetchGrowsLedger(s, c, outcome.result, i);
    } else {
      FailedGrowsLedger(s, c, outcome, now, i);
    }
    hide FetchInto, TradeFetch, DistinctPosts, ValidStore;
  }

  lemma TradeFetchGrowsLedger(s: Store, c: Config, result: FetchResult, i: int)
    requires ValidStore(s) && Accepts(s, c, result)
    ensures LedgerOf(TradeFetch(s, c.id, TargetOf(c), result), i)
            == if c.id == i then FetchInto(TablesOf(s.tables, i), i, TargetOf(c), result).tables.ledger
              else LedgerOf(s, i)
  {
    hide FetchInto, EnqueueAll;
  }

  lemma FailedGrowsLedger(s: Store, c: Config, outcome: Outcome, now: int, i: int)
    requires ValidStore(s) && !(outcome.Trades? && Accepts(s, c, outcome.result))
    ensures LedgerOf(Answered(s, c, outcome, now), i) == LedgerOf(s, i)
  {
    hide Accepts, EnqueueAll;
  }

  /** Of what a visit enqueues, trade posts of the account are new records of the
      subscription, and so are their batches. */
  lemma IssuedAreNew(s: Store, v: Visit, now: int, i: int, account: int, p: Post)
    requires ValidStore(s) && Promised(v) && Honest(v, i, account) && p in IssuedBy(s, v.config, v.outcome)
    ensures var after := LedgerOf(Answered(s, v.config, v.outcome, now), i);
            && Owned(v.config.id, p, after, i, account)
            && (OfAccount(p, account) ==> PostKey(p) !in LedgerOf(s, i))
            && (v.config.id == i && BatchOf(p).Some? ==>
                  BatchOf(p).value.id.records != [] && BatchOf(p).value.id.records[0] !in LedgerOf(s, i))
  {
    var c := v.config;
    if v.outcome.Trades? {
      var t := TablesOf(s.tables, c.id);
      var b := FetchedBatch(t, TargetOf(c), v.outcome.result);
      FetchPostKeys(t, TargetOf(c), v.outcome.result);
      AnswerGrowsLedger(s, c, v.outcome, now, i);
      var ps := IssuedBy(s, c, v.outcome);
      assert ps[0] in ps && b.id.records[0] == PostKey(ps[0]);
    }
    hide FetchInto, Answered, DistinctPosts, Sound;
  }

  // ---- Steps ----------------------------------------------------------------------

  lemma OwnedGrows(w: Wire, ledger: Ledger, more: Ledger, i: int, account: int)
    requires AllOwned(w, ledger, i, account) && ledger.Keys <= more.Keys
    ensures AllOwned(w, more, i, account)
  {
  }

  lemma AnswerKeepsOwned(s: Store, v: Visit, now: int, raw: seq<RawPost>, i: int, account: int)
    requires ValidStore(s) && Promised(v) && Honest(v, i, account)
    requires AllOwned(Wire(s.boxes, raw), LedgerOf(s, i), i, account)
    ensures var after := Answered(s, v.config, v.outcome, now);
            AllOwned(Wire(after.boxes, raw), LedgerOf(after, i), i, account)
  {
    var c := v.config;
    var after := Answered(s, c, v.outcome, now);
    var posts := IssuedBy(s, c, v.outcome);
    AnswerIssues(s, c, v.outcome, now);
    AnswerGrowsLedger(s, c, v.outcome, now, i);
    OwnedGrows(Wire(s.boxes, raw), LedgerOf(s, i), LedgerOf(after, i), i, account);
    EnqueuedRows(s.boxes.outbox, c.id, posts);
    hide Answered, IssuedBy, Owned, EnqueueAll, Accepts, Promised, Honest;
    forall row | row in after.boxes.outbox && row !in s.boxes.outbox
      ensures Owned(row.subscription, row.post, LedgerOf(after, i), i, account)
    {
      IssuedAreNew(s, v, now, i, account, row.post);
    }
  }

  lemma AnswerKeepsLot(s: Store, v: Visit, now: int, raw: seq<RawPost>, i: int, account: int, lot: Lot)
    requires ValidStore(s) && Promised(v) && Honest(v, i, account)
    requires AllOwned(Wire(s.boxes, raw), LedgerOf(s, i), i, account) && Kept(Wire(s.boxes, raw), i, account, lot)
    ensures Kept(Wire(Answered(s, v.config, v.outcome, now).boxes, raw), i, account, lot)
  {
    var c := v.config;
    var posts := IssuedBy(s, c, v.outcome);
    AnswerIssues(s, c, v.outcome, now);
    hide Answered, IssuedBy, AllOwned, Accepts, Promised, Honest, Tracked, IsBatch, AllOfAccount, Claims;
    forall p | p in posts ensures BatchRelease.Belongs(c.id, p, i, lot.batch, lot.posts) {
      IssuedAreNew(s, v, now, i, account, p);
      NewClaimsNothing(Wire(s.boxes, raw), LedgerOf(s, i), i, account, lot, c.id, p);
    }
    MoveStaysTracked(Wire(s.boxes, raw), Issue(c.id, posts), i, lot.batch, lot.posts);
  }

  lemma AnswerKeepsGuard(s: Store, v: Visit, now: int, raw: seq<RawPost>, i: int, account: int, lots: set<Lot>)
    requires ValidStore(s) && Promised(v) && Honest(v, i, account)
    requires Guarded(Wire(s.boxes, raw), LedgerOf(s, i), i, account, lots)
    ensures var after := Answered(s, v.config, v.outcome, now);
            Guarded(Wire(after.boxes, raw), LedgerOf(after, i), i, account, lots)
  {
    AnswerKeepsOwned(s, v, now, raw, i, account);
    hide Answered, AllOwned, Kept, Promised, Honest, UniqueIdentities;
    forall lot | lot in lots ensures Kept(Wire(Answered(s, v.config, v.outcome, now).boxes, raw), i, account, lot) {
      AnswerKeepsLot(s, v, now, raw, i, account, lot);
    }
  }

  lemma ResetKeepsGuard(w: Wire, ledger: Ledger, i: int, account: int, lots: set<Lot>, j: int)
    requires Guarded(w, ledger, i, account, lots) && j != i
    ensures Guarded(Moved(w, Reset(j)), ledger, i, account, lots)
  {
    hide Owned, UniqueIdentities, Tracked, IsBatch, AllOfAccount;
    forall lot | lot in lots ensures Kept(Moved(w, Reset(j)), i, account, lot) {
      assert Kept(w, i, account, lot);
      MoveStaysTracked(w, Reset(j), i, lot.batch, lot.posts);
    }
  }

  lemma PreparedKeepsGuard(a: Agent, v: Visit, raw: seq<RawPost>, i: int, start: Option<int>, account: int,
                           lots: set<Lot>)
    requires Guarded(Wire(a.store.boxes, raw), LedgerOf(a.store, i), i, account, lots)
    requires Pinned(a.store, i, start) && Keeps(v, i, start) && !(IsTrade(v.config) && v.config.start.Malformed?)
    ensures Guarded(Wire(Prepared(a, v.config).store.boxes, raw), LedgerOf(Prepared(a, v.config).store, i), i, account,
            lots)
  {
    PreparedKeepsPinned(a, v, i, start);
    hide Guarded, Pinned, Keeps, SameStart, Without;
    if v.config.id != i {
      ResetKeepsGuard(Wire(a.store.boxes, raw), LedgerOf(a.store, i), i, account, lots, v.config.id);
    }
  }

  lemma VisitKeepsGuard(a: Agent, v: Visit, providers: set<int>, now: int, raw: seq<RawPost>, i: int,
                        start: Option<int>,
                        account: int, lots: set<Lot>)
    requires ValidStore(a.store) && Promised(v) && Honest(v, i, account)
    requires Guarded(Wire(a.store.boxes, raw), LedgerOf(a.store, i), i, account, lots)
    requires Pinned(a.store, i, start) && Keeps(v, i, start)
    ensures var after := Visited(a, v, providers, now).store;
            Guarded(Wire(after.boxes, raw), LedgerOf(after, i), i, account, lots)
  {
    hide Guarded, Answered, Pinned, Prepared, Keeps, Due, Promised, Honest;
    var c := v.config;
    if !(IsTrade(c) && c.start.Malformed?) {
      PreparedValid(a, c);
      PreparedKeepsGuard(a, v, raw, i, start, account, lots);
      AnswerKeepsGuard(Prepared(a, c).store, v, now, raw, i, account, lots);
    }
  }

  lemma {:induction false} VisitsKeepGuard(a: Agent, vs: seq<Visit>, providers: set<int>, now: int, raw: seq<RawPost>,
                                           i: int,
                                           start: Option<int>, account: int, lots: set<Lot>)
    requires ValidStore(a.store) && forall v :: v in vs ==> Promised(v) && Honest(v, i, account) && Keeps(v, i, start)
    requires Guarded(Wire(a.store.boxes, raw), LedgerOf(a.store, i), i, account, lots) && Pinned(a.store, i, start)
    ensures var after := VisitedAll(a, vs, providers, now).store;
            Guarded(Wire(after.boxes, raw), LedgerOf(after, i), i, account, lots)
  {
    hide Guarded, Visited, Pinned, Keeps, Promised, Honest;
    if vs != [] {
      var n := |vs| - 1;
      assert vs == vs[..n] + [vs[n]];
      VisitsKeepGuard(a, vs[..n], providers, now, raw, i, start, account, lots);
      VisitsKeepPinned(a, vs[..n], providers, now, i, start);
      VisitKeepsGuard(VisitedAll(a, vs[..n], providers, now), vs[n], providers, now, raw, i, start, account, lots);
    }
  }

  lemma SendKeepsOwned(w: Wire, subs: map<int, CollectorApi.Subscription>, fate: Fate, ledger: Ledger, i: int,
                       account: int)
    requires AllOwned(w, ledger, i, account)
    ensures AllOwned(Transmit(w, subs, fate), ledger, i, account)
  {
    var page := PendingPage(w.boxes.outbox);
    var us := PackedAll(page);
    DeliveredPage(w, subs);
    ReceiveShape(w.raw, us, subs);
    hide Receive, Refused, ApplyAll, Owned, Admissible, UniqueIdentities;
    var raw := Receive(w.raw, us, subs).raw;
    forall r | r in raw ensures Owned(r.subscription, r.post, ledger, i, account) {
      var j :| 0 <= j < |raw| && raw[j] == r;
      if j < |w.raw| {
        assert w.raw[j] == r;
      } else {
        NothingInvented(w.raw, us, subs, j);
        var k :| 0 <= k < |page| && raw[j] == RawPost(us[k].subscription, us[k].post);
        assert page[k] in w.boxes.outbox;
      }
    }
  }

  lemma SendKeepsGuard(s: Store, raw: seq<RawPost>, subs: map<int, CollectorApi.Subscription>, fate: Fate,
                       ledger: Ledger, i: int,
                       account: int, lots: set<Lot>)
    requires StoreOk(s) && ConfiguredAlike(subs, s.tables) && Guarded(Wire(s.boxes, raw), ledger, i, account, lots)
    ensures Guarded(Transmit(Wire(s.boxes, raw), subs, fate), ledger, i, account, lots)
  {
    var w := Wire(s.boxes, raw);
    SendKeepsOwned(w, subs, fate, ledger, i, account);
    ReceiveShape(raw, PackedAll(PendingPage(s.boxes.outbox)), subs);
    hide Receive, ApplyAll, AllOwned, UniqueIdentities, StoreOk, ConfiguredAlike, Tracked, Admissible, AllOfAccount;
    forall lot | lot in lots ensures Kept(Transmit(w, subs, fate), i, account, lot) {
      assert Kept(w, i, account, lot);
      forall p | p in lot.posts && OutboxRow(i, p) in s.boxes.outbox ensures Admissible(Packed(OutboxRow(i, p)), subs) {
        PendingTradeIsAdmitted(s, OutboxRow(i, p), subs);
      }
      SentStaysTracked(w, subs, fate, i, lot.batch, lot.posts);
    }
  }

  // ---- Rounds ---------------------------------------------------------------------

  ghost predicate RoundHonest(w: Weather, i: int, start: Option<int>, account: int) {
    forall v :: v in w.visits ==> Honest(v, i, account) && Keeps(v, i, start)
  }

  ghost predicate Watched(s: System, i: int, start: Option<int>, account: int, lots: set<Lot>) {
    && Sane(s) && Pinned(s.agent.store, i, start)
    && Guarded(WireOf(s), LedgerOf(s.agent.store, i), i, account, lots)
  }

  lemma RoundKeepsGuard(s: System, w: Weather, i: int, start: Option<int>, account: int, lots: set<Lot>)
    requires ValidStore(s.agent.store) && Watched(s, i, start, account, lots)
    requires Fair(s, w) && RoundHonest(w, i, start, account)
    ensures Watched(SystemRound(s, w), i, start, account, lots)
  {
    var a0 := s.agent.(ran := []);
    var a := VisitedAll(a0, w.visits, w.providers, w.now);
    FairRoundStaysSane(s, w);
    RoundKeepsPinned(s, w, i, start);
    VisitsOk(a0, w.visits, w.providers, w.now);
    VisitsKeepGuard(a0, w.visits, w.providers, w.now, s.raw, i, start, account, lots);
    UploadIsTransmission(s, w);
    SendKeepsGuard(a.store, s.raw, w.subs, w.fate, LedgerOf(a.store, i), i, account, lots);
    hide StoreOk, VisitedAll, Transmit, SystemRound, Guarded, ConfiguredAlike, Promised, Honest, Keeps, Pinned, Sane,
      UploadDue;
  }

  /** From then on, over any fair rounds of the epoch, batches stay guarded: later fetches
      reuse neither identity nor id, and nothing is refused. */
  lemma {:induction false} RoundsKeepGuard(s: System, ws: seq<Weather>, i: int, start: Option<int>, account: int,
                                           lots: set<Lot>)
    requires ValidStore(s.agent.store) && Watched(s, i, start, account, lots) && AllFair(s, ws)
    requires forall w :: w in ws ==> RoundHonest(w, i, start, account)
    ensures Watched(Rounds(s, ws), i, start, account, lots)
  {
    hide Watched, SystemRound, AllFair, RoundHonest;
    if ws != [] {
      var n := |ws| - 1;
      assert ws == ws[..n] + [ws[n]];
      LastIsFair(s, ws);
      RoundsKeepGuard(s, ws[..n], i, start, account, lots);
      RoundKeepsGuard(Rounds(s, ws[..n]), ws[n], i, start, account, lots);
    }
  }

  /** An accepted fetch after the baseline opens a batch: it is guarded, and in line. */
  lemma FetchOpensBatch(s: Store, v: Visit, now: int, raw: seq<RawPost>, i: int, account: int, lots: set<Lot>)
    returns (lot: Lot)
    requires StoreOk(s) && ValidStore(s) && Promised(v) && Honest(v, i, account) && v.config.id == i
    requires v.outcome.Trades? && Accepts(s, v.config, v.outcome.result) && IssuedBy(s, v.config, v.outcome) != []
    requires Guarded(Wire(s.boxes, raw), LedgerOf(s, i), i, account, lots)
    ensures lot.posts == IssuedBy(s, v.config, v.outcome)
    ensures var after := Answered(s, v.config, v.outcome, now);
            && Guarded(Wire(after.boxes, raw), LedgerOf(after, i), i, account, lots + {lot})
            && forall p :: p in lot.posts ==> InLine(after.boxes.outbox, OutboxRow(i, p), |after.boxes.outbox| - 1)
  {
    var c := v.config;
    var after, w := Answered(s, c, v.outcome, now), Wire(s.boxes, raw);
    var b := FetchedBatch(TablesOf(s.tables, i), TargetOf(c), v.outcome.result);
    var ps := IssuedBy(s, c, v.outcome);
    lot := Lot(b, ps);
    AnswerKeepsGuard(s, v, now, raw, i, account, lots);
    TradeFetchEnqueuesAll(s, c, v.outcome.result);
    FetchPostKeys(TablesOf(s.tables, i), TargetOf(c), v.outcome.result);
    assert after.boxes == s.boxes.(outbox := s.boxes.outbox + RowsFor(i, ps));
    hide FetchInto, Answered, StoreOk, IssuedBy, TradeFetch, Tracked, UniqueIdentities, InLine, DistinctPosts,
      EnqueueAll;
    OldClaimNothing(w, LedgerOf(s, i), i, account, lot);
    EnqueuedIsTracked(w, i, b, ps);
    assert Kept(Wire(after.boxes, raw), i, account, lot);
    forall p | p in ps ensures InLine(after.boxes.outbox, OutboxRow(i, p), |after.boxes.outbox| - 1) {
      AtTheTail(s.boxes.outbox, i, ps, p);
    }
  }

  lemma AtTheTail(outbox: seq<OutboxRow>, i: int, ps: seq<Post>, p: Post)
    requires p in ps
    ensures InLine(outbox + RowsFor(i, ps), OutboxRow(i, p), |outbox| + |ps| - 1)
  {
    var k :| 0 <= k < |ps| && ps[k] == p;
    assert (outbox + RowsFor(i, ps))[|outbox| + k] == OutboxRow(i, p);
  }

  /** Posts of records the ledger holds claim nothing of a batch of records it does not. */
  lemma OldClaimNothing(w: Wire, ledger: Ledger, i: int, account: int, lot: Lot)
    requires AllOwned(w, ledger, i, account) && Signed(lot.posts, lot.batch) && AllOfAccount(lot.posts, account)
    requires forall p :: p in lot.posts ==> PostKey(p) !in ledger
    ensures forall row :: row in w.boxes.outbox ==> !Claims(row.subscription, row.post, i, lot.batch, lot.posts)
    ensures forall r :: r in w.raw ==> !Claims(r.subscription, r.post, i, lot.batch, lot.posts)
  {
    hide IsBatch, Claims, Owned;
    assert lot.posts[0] in lot.posts && lot.batch.id.records[0] == PostKey(lot.posts[0]);
    forall row | row in w.boxes.outbox ensures !Claims(row.subscription, row.post, i, lot.batch, lot.posts) {
      OwnedClaimsNothing(ledger, i, account, lot, row.subscription, row.post);
    }
    forall r | r in w.raw ensures !Claims(r.subscription, r.post, i, lot.batch, lot.posts) {
      OwnedClaimsNothing(ledger, i, account, lot, r.subscription, r.post);
    }
  }

  lemma OwnedClaimsNothing(ledger: Ledger, i: int, account: int, lot: Lot, subscription: int, p: Post)
    requires Owned(subscription, p, ledger, i, account) && AllOfAccount(lot.posts, account)
    requires lot.batch.id.records != [] && lot.batch.id.records[0] !in ledger
    requires forall q :: q in lot.posts ==> PostKey(q) !in ledger
    ensures !Claims(subscription, p, i, lot.batch, lot.posts)
  {
    forall q | q in lot.posts ensures !SameIdentity(q, p) {
      assert OfAccount(q, account) && PostKey(q) !in ledger;
    }
  }

  /** And after enough rounds with the network up, 256 seconds clear of the last failed
      request, the server holds the batch whole, so that, all analysed, it is released
      (`WholeBatchIsReady`, `LastAnalysisReleases`). */
  lemma BatchArrivesWhole(s: System, ws: seq<Weather>, i: int, start: Option<int>, account: int, lots: set<Lot>,
                          lot: Lot, p: int, t0: int)
    requires ValidStore(s.agent.store) && Watched(s, i, start, account, lots) && lot in lots
    requires s.agent.nextUploadAt.Some? ==> s.agent.nextUploadAt.value <= t0
    requires AllFair(s, ws) && forall w :: w in ws ==> RoundHonest(w, i, start, account)
    requires forall q :: q in lot.posts ==> InLine(s.agent.store.boxes.outbox, OutboxRow(i, q), p)
    requires PAGE * SpacedRounds(ws, t0) > p
    ensures Whole(Rounds(s, ws).raw, i, lot.batch, lot.posts)
  {
    RoundsKeepGuard(s, ws, i, start, account, lots);
    var t := Rounds(s, ws);
    assert Kept(WireOf(t), i, account, lot);
    HonestKeepEpoch(ws, i, start, account);
    hide Rounds, SpacedRounds, CollectorApi.Holds, InLine, AllFair, Pinned, KeepsEpoch, RoundHonest, Guarded, Sane,
      UniqueIdentities, IsBatch, BatchRelease.Belongs, Tagged;
    assert Belonging(t.raw, i, lot);
    forall q | q in lot.posts ensures RawPost(i, q) in t.raw {
      TradePostArrives(s, ws, OutboxRow(i, q), p, start, t0);
      HeldIsStored(t.raw, q, i, lot.batch, lot.posts);
    }
    TaggedAreTheirs(t.raw, i, lot);
  }

  ghost predicate Belonging(raw: seq<RawPost>, i: int, lot: Lot) {
    forall r :: r in raw ==> BatchRelease.Belongs(r.subscription, r.post, i, lot.batch, lot.posts)
  }

  lemma TaggedAreTheirs(raw: seq<RawPost>, i: int, lot: Lot)
    requires Belonging(raw, i, lot)
    ensures forall r :: r in raw && Tagged(r, i, lot.batch) ==> r.post in lot.posts
  {
    forall r | r in raw && Tagged(r, i, lot.batch) ensures r.post in lot.posts {
      assert BatchRelease.Belongs(r.subscription, r.post, i, lot.batch, lot.posts);
      assert r == RawPost(r.subscription, r.post);
    }
  }

  lemma HonestKeepEpoch(ws: seq<Weather>, i: int, start: Option<int>, account: int)
    requires forall w :: w in ws ==> RoundHonest(w, i, start, account)
    ensures forall w :: w in ws ==> KeepsEpoch(w, i, start)
  {
    hide Honest, Keeps;
  }

  /** The very first epoch begins guarded. */
  lemma BootIsGuarded(i: int, account: int)
    ensures Guarded(WireOf(System(BOOT, [])), LedgerOf(BOOT.store, i), i, account, {})
  {
  }
}
