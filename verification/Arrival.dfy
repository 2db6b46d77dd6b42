/** Where a pending post goes: it waits in line, the line only gets shorter in front of it,
    and nothing takes it out but the server's copy or, for a post the server refuses, the
    dead letters. */
module Arrival {
  import opened Prelude
  import opened TradeModels
  import opened TradeStore
  import opened CollectorDb
  import opened CollectorApi
  import opened Delivery
  import opened Scheduler
  import opened EndToEnd
  import opened ScheduleTheorems

  /** The row is in line with at most `p` rows before it. */
  ghost predicate InLine(outbox: seq<OutboxRow>, row: OutboxRow, p: int) {
    exists i :: 0 <= i < |outbox| && i <= p && outbox[i] == row
  }

  /** On the server or given up on. */
  ghost predicate Gone(w: Wire, row: OutboxRow) {
    row in w.boxes.dead || Holds(w.raw, row.post.platform, row.post.ext)
  }

  lemma {:induction false} WithoutKeepsPlace(outbox: seq<OutboxRow>, subscription: int, i: nat) returns (j: nat)
    requires i < |outbox| && outbox[i].subscription != subscription
    ensures j <= i && j < |Without(outbox, subscription)| && Without(outbox, subscription)[j] == outbox[i]
  {
    var n := |outbox| - 1;
    if i == n {
      j := |Without(outbox[..n], subscription)|;
      WithoutShrinks(outbox[..n], subscription);
    } else {
      j := WithoutKeepsPlace(outbox[..n], subscription, i);
    }
  }

  lemma {:induction false} WithoutShrinks(outbox: seq<OutboxRow>, subscription: int)
    ensures |Without(outbox, subscription)| <= |outbox|
  {
    if outbox != [] { WithoutShrinks(outbox[..|outbox| - 1], subscription); }
  }

  lemma VisitKeepsLine(a: Agent, v: Visit, providers: set<int>, now: int, row: OutboxRow, p: int, start: Option<int>)
    requires ValidStore(a.store) && InLine(a.store.boxes.outbox, row, p)
    requires Pinned(a.store, row.subscription, start) && Keeps(v, row.subscription, start)
    ensures InLine(Visited(a, v, providers, now).store.boxes.outbox, row, p)
  {
    var c := v.config;
    if !(IsTrade(c) && c.start.Malformed?) {
      PreparedValid(a, c);
      PreparedKeepsPinned(a, v, row.subscription, start);
      if c.id != row.subscription {
        var i :| 0 <= i < |a.store.boxes.outbox| && i <= p && a.store.boxes.outbox[i] == row;
        var j := WithoutKeepsPlace(a.store.boxes.outbox, c.id, i);
      }
      AnswerGrowsLine(Prepared(a, c).store, c, v.outcome, now);
      hide Answered, Pinned, Keeps, Due, SameStart, Without;
    }
  }

  lemma AnswerGrowsLine(s: Store, c: Config, outcome: Outcome, now: int)
    requires ValidStore(s)
    ensures s.boxes.outbox <= Answered(s, c, outcome, now).boxes.outbox
  {
    hide FetchInto, Accepts;
  }

  lemma {:induction false} VisitsKeepLine(a: Agent, vs: seq<Visit>, providers: set<int>, now: int, row: OutboxRow,
                                          p: int, start: Option<int>)
    requires ValidStore(a.store) && InLine(a.store.boxes.outbox, row, p)
    requires Pinned(a.store, row.subscription, start) && forall v :: v in vs ==> Keeps(v, row.subscription, start)
    ensures InLine(VisitedAll(a, vs, providers, now).store.boxes.outbox, row, p)
  {
    hide InLine, Visited, Pinned, Keeps;
    if vs != [] {
      var n := |vs| - 1;
      assert vs == vs[..n] + [vs[n]];
      VisitsKeepLine(a, vs[..n], providers, now, row, p, start);
      VisitsKeepPinned(a, vs[..n], providers, now, row.subscription, start);
      VisitKeepsLine(VisitedAll(a, vs[..n], providers, now), vs[n], providers, now, row, p, start);
    }
  }

  /** A delivered upload settles the rows of its page and moves the others up by a page. */
  lemma DeliveryMovesLine(w: Wire, subs: map<int, CollectorApi.Subscription>, row: OutboxRow, p: int)
    requires InLine(w.boxes.outbox, row, p)
    ensures var after := Transmit(w, subs, Delivered);
            Gone(after, row) || (p >= PAGE && InLine(after.boxes.outbox, row, p - PAGE))
  {
    hide Receive, Refused, ApplyAll, Admissible, UniqueIdentities;
    var outbox := w.boxes.outbox;
    var page := PendingPage(outbox);
    var us := PackedAll(page);
    DeliveredPage(w, subs);
    ReceiveShape(w.raw, us, subs);
    var i :| 0 <= i < |outbox| && i <= p && outbox[i] == row;
    if i >= |page| {
      assert outbox[|page|..][i - PAGE] == row;
    } else if Admissible(us[i], subs) {
      AdmittedIsHeld(w.raw, us, subs, i);
    } else {
      RefusedMembers(page, Receive(w.raw, us, subs).items, i);
    }
  }

  lemma GoneStaysGone(w: Wire, subs: map<int, CollectorApi.Subscription>, fate: Fate, row: OutboxRow)
    requires Gone(w, row)
    ensures Gone(Transmit(w, subs, fate), row)
  {
    hide Receive, Refused, ApplyAll, Holds, UniqueIdentities;
    var us := PackedAll(PendingPage(w.boxes.outbox));
    ReceiveShape(w.raw, us, subs);
    DeliveredPage(w, subs);
    if Holds(w.raw, row.post.platform, row.post.ext) {
      HeldForever(w.raw, Receive(w.raw, us, subs).raw, row.post.platform, row.post.ext);
    }
  }

  ghost predicate Delivers(s: System, w: Weather)
    requires ValidStore(s.agent.store)
  {
    UploadDue(VisitedAll(s.agent.(ran := []), w.visits, w.providers, w.now), w.now) && w.fate == Delivered
  }

  /** Settled, or in line with at most `p` minus a page per delivery before it. */
  ghost predicate Advanced(t: System, row: OutboxRow, p: int, deliveries: nat) {
    || Gone(WireOf(t), row)
    || (PAGE * deliveries <= p && InLine(t.agent.store.boxes.outbox, row, p - PAGE * deliveries))
  }

  lemma SendAdvances(w: Wire, subs: map<int, CollectorApi.Subscription>, fate: Fate, row: OutboxRow, p: int)
    requires Gone(w, row) || InLine(w.boxes.outbox, row, p)
    ensures var after := Transmit(w, subs, fate);
            if fate == Delivered then Gone(after, row) || (p >= PAGE && InLine(after.boxes.outbox, row, p - PAGE))
            else Gone(after, row) || InLine(after.boxes.outbox, row, p)
  {
    if Gone(w, row) { GoneStaysGone(w, subs, fate, row); }
    else if fate == Delivered { DeliveryMovesLine(w, subs, row, p); }
    hide Gone, InLine, Receive, ApplyAll;
  }

  lemma RoundAdvances(t: System, w: Weather, row: OutboxRow, p: int, deliveries: nat, start: Option<int>)
    requires ValidStore(t.agent.store) && KeepsEpoch(w, row.subscription, start)
    requires Pinned(t.agent.store, row.subscription, start) && Advanced(t, row, p, deliveries)
    ensures Advanced(SystemRound(t, w), row, p, deliveries + if Delivers(t, w) then 1 else 0)
  {
    var a0 := t.agent.(ran := []);
    var a := VisitedAll(a0, w.visits, w.providers, w.now);
    VisitsBuryNothing(a0, w.visits, w.providers, w.now);
    UploadIsTransmission(t, w);
    hide VisitedAll, Transmit, Holds, InLine, SystemRound, Pinned, Keeps, UploadDue;
    var left := p - PAGE * deliveries;
    if !Gone(WireOf(t), row) { VisitsKeepLine(a0, w.visits, w.providers, w.now, row, left, start); }
    SendAdvances(Wire(a.store.boxes, t.raw), w.subs, w.fate, row, left);
    assert left - PAGE == p - PAGE * (deliveries + 1);
  }

  /** Rounds whose upload went through. */
  ghost function DeliveredRounds(s: System, ws: seq<Weather>): nat
    requires ValidStore(s.agent.store)
  {
    if ws == [] then 0
    else
      var n := |ws| - 1;
      DeliveredRounds(s, ws[..n]) + if Delivers(Rounds(s, ws[..n]), ws[n]) then 1 else 0
  }

  /** Over any rounds that do not change the subscription's start time, whatever the
      providers and the network do: a pending post stays pending, a page further ahead for
      every delivered upload, until the server has it or has refused it. */
  lemma {:induction false} PostsSurviveRounds(s: System, ws: seq<Weather>, row: OutboxRow, p: int, start: Option<int>)
    requires ValidStore(s.agent.store) && InLine(s.agent.store.boxes.outbox, row, p)
    requires Pinned(s.agent.store, row.subscription, start)
    requires forall w :: w in ws ==> KeepsEpoch(w, row.subscription, start)
    ensures Advanced(Rounds(s, ws), row, p, DeliveredRounds(s, ws))
  {
    hide *;
    if ws == [] {
      NoRounds(s, row, p);
    } else {
      var n := |ws| - 1;
      assert ws == ws[..n] + [ws[n]];
      PostsSurviveRounds(s, ws[..n], row, p, start);
      RoundsKeepPinned(s, ws[..n], row.subscription, start);
      RoundAdvances(Rounds(s, ws[..n]), ws[n], row, p, DeliveredRounds(s, ws[..n]), start);
      LastRound(s, ws);
    }
  }

  lemma NoRounds(s: System, row: OutboxRow, p: int)
    requires ValidStore(s.agent.store) && InLine(s.agent.store.boxes.outbox, row, p)
    ensures Advanced(Rounds(s, []), row, p, DeliveredRounds(s, []))
  {
  }

  lemma LastRound(s: System, ws: seq<Weather>)
    requires ValidStore(s.agent.store) && ws != []
    ensures var n := |ws| - 1;
            && Rounds(s, ws) == SystemRound(Rounds(s, ws[..n]), ws[n])
            && DeliveredRounds(s, ws)
               == DeliveredRounds(s, ws[..n]) + if Delivers(Rounds(s, ws[..n]), ws[n]) then 1 else 0
  {
    hide SystemRound, Delivers;
  }

  // ---- Which rounds are sure to deliver -------------------------------------------

  /** The network is up, and every failed request before lies at least 256 seconds back. */
  ghost predicate Spaced(ws: seq<Weather>, n: nat, t0: int)
    requires n < |ws|
  {
    && ws[n].fate == Delivered && ws[n].now >= t0
    && forall m :: 0 <= m < n && ws[m].fate != Delivered ==> ws[n].now >= ws[m].now + 256
  }

  /** The number of such rounds. */
  ghost function SpacedRounds(ws: seq<Weather>, t0: int): nat {
    if ws == [] then 0
    else SpacedRounds(ws[..|ws| - 1], t0) + if Spaced(ws, |ws| - 1, t0) then 1 else 0
  }

  /** No upload has to wait longer than this. */
  ghost predicate WaitsAtMost(t: System, ws: seq<Weather>, t0: int) {
    t.agent.nextUploadAt.Some? ==>
      || t.agent.nextUploadAt.value <= t0
      || exists m :: 0 <= m < |ws| && ws[m].fate != Delivered && t.agent.nextUploadAt.value <= ws[m].now + 256
  }

  lemma UploadTime(t: System, w: Weather)
    requires ValidStore(t.agent.store)
    ensures var next, before := SystemRound(t, w).agent.nextUploadAt, t.agent.nextUploadAt;
            next.Some? && next != before ==> w.fate != Delivered && next.value <= w.now + 256
  {
    var a := t.agent.(ran := []);
    VisitsKeepUpload(a, w.visits, w.providers, w.now);
    BackoffCeiling(VisitedAll(a, w.visits, w.providers, w.now).uploadFailures + 1);
    hide VisitedAll, Receive, ApplyAll, Backoff;
  }

  lemma {:induction false} RoundsWait(s: System, ws: seq<Weather>, t0: int)
    requires ValidStore(s.agent.store) && WaitsAtMost(s, [], t0)
    ensures WaitsAtMost(Rounds(s, ws), ws, t0)
  {
    hide SystemRound;
    if ws != [] {
      var n := |ws| - 1;
      RoundsWait(s, ws[..n], t0);
      UploadTime(Rounds(s, ws[..n]), ws[n]);
      if m :| 0 <= m < n && ws[..n][m].fate != Delivered
              && Rounds(s, ws[..n]).agent.nextUploadAt.Some?
              && Rounds(s, ws[..n]).agent.nextUploadAt.value <= ws[..n][m].now + 256
      {
        assert ws[m] == ws[..n][m];
      }
    }
  }

  /** A round that comes late enough delivers, if there is anything to deliver. */
  lemma SpacedDelivers(t: System, ws: seq<Weather>, t0: int)
    requires ws != [] && ValidStore(t.agent.store) && WaitsAtMost(t, ws[..|ws| - 1], t0) && Spaced(ws, |ws| - 1, t0)
    requires var w := ws[|ws| - 1];
             VisitedAll(t.agent.(ran := []), w.visits, w.providers, w.now).store.boxes.outbox != []
    ensures Delivers(t, ws[|ws| - 1])
  {
    var n := |ws| - 1;
    var w := ws[n];
    VisitsKeepUpload(t.agent.(ran := []), w.visits, w.providers, w.now);
    hide VisitedAll;
    if t.agent.nextUploadAt.Some? && t.agent.nextUploadAt.value > t0 {
      var m :| 0 <= m < n && ws[..n][m].fate != Delivered && t.agent.nextUploadAt.value <= ws[..n][m].now + 256;
      assert ws[m] == ws[..n][m];
    }
  }

  lemma FewerIsWeaker(t: System, row: OutboxRow, p: int, deliveries: nat)
    requires Advanced(t, row, p, deliveries + 1)
    ensures Advanced(t, row, p, deliveries)
  {
    hide Gone;
    assert p - PAGE * (deliveries + 1) <= p - PAGE * deliveries;
  }

  /** One round more: a page ahead if it is a spaced one, and never back. */
  lemma SpacedRoundAdvances(t: System, ws: seq<Weather>, row: OutboxRow, p: int, count: nat, start: Option<int>,
                            t0: int)
    requires ws != [] && ValidStore(t.agent.store) && WaitsAtMost(t, ws[..|ws| - 1], t0)
    requires KeepsEpoch(ws[|ws| - 1], row.subscription, start)
    requires Pinned(t.agent.store, row.subscription, start) && Advanced(t, row, p, count)
    ensures Advanced(SystemRound(t, ws[|ws| - 1]), row, p, count + if Spaced(ws, |ws| - 1, t0) then 1 else 0)
  {
    var w := ws[|ws| - 1];
    var after := SystemRound(t, w);
    RoundAdvances(t, w, row, p, count, start);
    hide SystemRound, Delivers, WaitsAtMost, Spaced, Pinned, KeepsEpoch, VisitedAll, Advanced;
    if Spaced(ws, |ws| - 1, t0) {
      if Gone(WireOf(t), row) {
        RoundKeepsGone(t, w, row);
        AdvancedGone(after, row, p, count + 1);
      } else {
        LineIsKept(t, w, row, p, count, start);
        SpacedDelivers(t, ws, t0);
      }
    } else if Delivers(t, w) {
      FewerIsWeaker(after, row, p, count);
    }
  }

  lemma AdvancedGone(t: System, row: OutboxRow, p: int, count: nat)
    requires Gone(WireOf(t), row)
    ensures Advanced(t, row, p, count)
  {
  }

  lemma RoundKeepsGone(t: System, w: Weather, row: OutboxRow)
    requires ValidStore(t.agent.store) && Gone(WireOf(t), row)
    ensures Gone(WireOf(SystemRound(t, w)), row)
  {
    var a0 := t.agent.(ran := []);
    var a := VisitedAll(a0, w.visits, w.providers, w.now);
    VisitsBuryNothing(a0, w.visits, w.providers, w.now);
    UploadIsTransmission(t, w);
    hide VisitedAll, Transmit, Holds, SystemRound, UploadDue;
    GoneStaysGone(Wire(a.store.boxes, t.raw), w.subs, w.fate, row);
  }

  lemma LineIsKept(t: System, w: Weather, row: OutboxRow, p: int, count: nat, start: Option<int>)
    requires ValidStore(t.agent.store) && KeepsEpoch(w, row.subscription, start)
    requires Pinned(t.agent.store, row.subscription, start)
    requires Advanced(t, row, p, count) && !Gone(WireOf(t), row)
    ensures VisitedAll(t.agent.(ran := []), w.visits, w.providers, w.now).store.boxes.outbox != []
  {
    hide Gone, VisitedAll, Pinned, Keeps;
    VisitsKeepLine(t.agent.(ran := []), w.visits, w.providers, w.now, row, p - PAGE * count, start);
  }

  /** Over any rounds that do not change the subscription's start time, a pending post moves
      a page ahead in every round with the network up that comes 256 seconds after the last
      failed request, or once the present wait, up to `t0`, is over. */
  lemma {:induction false} PostsMoveUp(s: System, ws: seq<Weather>, row: OutboxRow, p: int, start: Option<int>, t0: int)
    requires ValidStore(s.agent.store) && InLine(s.agent.store.boxes.outbox, row, p)
    requires s.agent.nextUploadAt.Some? ==> s.agent.nextUploadAt.value <= t0
    requires Pinned(s.agent.store, row.subscription, start)
    requires forall w :: w in ws ==> KeepsEpoch(w, row.subscription, start)
    ensures Advanced(Rounds(s, ws), row, p, SpacedRounds(ws, t0))
  {
    hide *;
    if ws == [] {
      NoSpacedRounds(s, row, p, t0);
    } else {
      var n := |ws| - 1;
      assert ws == ws[..n] + [ws[n]];
      PostsMoveUp(s, ws[..n], row, p, start, t0);
      RoundsKeepPinned(s, ws[..n], row.subscription, start);
      StartsWaiting(s, t0);
      RoundsWait(s, ws[..n], t0);
      SpacedRoundAdvances(Rounds(s, ws[..n]), ws, row, p, SpacedRounds(ws[..n], t0), start, t0);
      LastRound(s, ws);
      LastSpaced(ws, t0);
    }
  }

  lemma StartsWaiting(s: System, t0: int)
    requires s.agent.nextUploadAt.Some? ==> s.agent.nextUploadAt.value <= t0
    ensures WaitsAtMost(s, [], t0)
  {
  }

  lemma LastSpaced(ws: seq<Weather>, t0: int)
    requires ws != []
    ensures SpacedRounds(ws, t0) == SpacedRounds(ws[..|ws| - 1], t0) + if Spaced(ws, |ws| - 1, t0) then 1 else 0
  {
  }

  lemma NoSpacedRounds(s: System, row: OutboxRow, p: int, t0: int)
    requires ValidStore(s.agent.store) && InLine(s.agent.store.boxes.outbox, row, p)
    ensures Advanced(Rounds(s, []), row, p, SpacedRounds([], t0))
  {
  }

  /** In fair rounds a trade post is always in line or on the server, and with `p` posts
      before it it is on the server after more than p / 100 rounds in which the network is
      up and the last failed request lies 256 seconds back. */
  lemma TradePostArrives(s: System, ws: seq<Weather>, row: OutboxRow, p: int, start: Option<int>, t0: int)
    requires Sane(s) && ValidStore(s.agent.store) && AllFair(s, ws)
    requires s.agent.nextUploadAt.Some? ==> s.agent.nextUploadAt.value <= t0
    requires Pinned(s.agent.store, row.subscription, start)
    requires forall w :: w in ws ==> KeepsEpoch(w, row.subscription, start)
    requires row.post.ext.TradeId? && InLine(s.agent.store.boxes.outbox, row, p)
    ensures var t, sent := Rounds(s, ws), PAGE * SpacedRounds(ws, t0);
            || Holds(t.raw, row.post.platform, row.post.ext)
            || (sent <= p && InLine(t.agent.store.boxes.outbox, row, p - sent))
  {
    hide *;
    PostsMoveUp(s, ws, row, p, start, t0);
    NoTradePostDies(s, ws);
    TradeIsNotBuried(Rounds(s, ws), row, p, SpacedRounds(ws, t0));
  }

  lemma TradeIsNotBuried(t: System, row: OutboxRow, p: int, deliveries: nat)
    requires Sane(t) && Advanced(t, row, p, deliveries) && row.post.ext.TradeId?
    ensures || Holds(t.raw, row.post.platform, row.post.ext)
            || (PAGE * deliveries <= p && InLine(t.agent.store.boxes.outbox, row, p - PAGE * deliveries))
  {
    hide Holds, InLine;
  }
}
