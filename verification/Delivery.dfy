/** The upload protocol between the outbox and the server: at-least-once sending, server
    side deduplication and results matched by order. */
module Delivery {
  import opened TradeModels
  import opened TradeStore
  import opened CollectorDb
  import opened CollectorApi

  // ---- Results match by order -----------------------------------------------------

  predicate Terminal(v: Verdict) { v != Unrecognised }

  /** One terminal status per sent row, in sending order. */
  ghost predicate Answers(items: seq<Item>, page: seq<OutboxRow>) {
    |items| == |page|
    && forall i :: 0 <= i < |page| ==> items[i].ext == page[i].post.ext && Terminal(items[i].verdict)
  }

  function Refused(page: seq<OutboxRow>, items: seq<Item>): seq<OutboxRow>
    requires |items| == |page|
  {
    if page == [] then []
    else
      var n := |page| - 1;
      Refused(page[..n], items[..n]) + if items[n].verdict == Invalid then [page[n]] else []
  }

  lemma HeadAnswered(row: OutboxRow, rest: seq<OutboxRow>, dead: seq<OutboxRow>, item: Item)
    requires item.ext == row.post.ext && Terminal(item.verdict)
    ensures ApplyOne(Boxes([row] + rest, dead), item)
            == Boxes(rest, if item.verdict == Invalid then dead + [row] else dead)
  {
    var all := [row] + rest;
    assert Oldest(all, item.ext) == 0;
    assert all[..0] + all[1..] == rest;
  }

  /** Whatever else waits, and even when several subscriptions share an external id, the
      reply takes exactly the sent rows and gives each its own status. */
  lemma {:induction false} ResultsMatchByOrder(page: seq<OutboxRow>, rest: seq<OutboxRow>, dead: seq<OutboxRow>,
                                               items: seq<Item>)
    requires Answers(items, page)
    ensures ApplyAll(Boxes(page + rest, dead), items) == Boxes(rest, dead + Refused(page, items))
  {
    hide ApplyOne;
    if page == [] {
      assert page + rest == rest && dead + [] == dead;
    } else {
      var n := |page| - 1;
      assert page + rest == page[..n] + ([page[n]] + rest);
      ResultsMatchByOrder(page[..n], [page[n]] + rest, dead, items[..n]);
      HeadAnswered(page[n], rest, dead + Refused(page[..n], items[..n]), items[n]);
      assert dead + Refused(page, items)
             == dead + Refused(page[..n], items[..n]) + if items[n].verdict == Invalid then [page[n]] else [];
    }
  }

  // ---- The server -----------------------------------------------------------------

  lemma ReceiveOneUnique(r: Receipt, u: Upload, subs: map<int, Subscription>)
    requires UniqueIdentities(r.raw)
    ensures UniqueIdentities(ReceiveOne(r, u, subs).raw)
  {
    hide Admissible;
  }

  lemma {:induction false} ReceiveShape(raw: seq<RawPost>, us: seq<Upload>, subs: map<int, Subscription>)
    ensures var r := Receive(raw, us, subs);
            && raw <= r.raw
            && |r.items| == |us|
            && (UniqueIdentities(raw) ==> UniqueIdentities(r.raw))
            && (forall i :: 0 <= i < |us| ==> r.items[i].ext == us[i].post.ext && Terminal(r.items[i].verdict))
            && (forall i :: 0 <= i < |us| ==> (r.items[i].verdict == Invalid <==> !Admissible(us[i], subs)))
  {
    if us != [] {
      var n := |us| - 1;
      ReceiveShape(raw, us[..n], subs);
      if UniqueIdentities(raw) { ReceiveOneUnique(Receive(raw, us[..n], subs), us[n], subs); }
      hide UniqueIdentities, Holds, Admissible;
    }
  }

  lemma HeldForever(raw: seq<RawPost>, more: seq<RawPost>, platform: int, ext: ExternalId)
    requires raw <= more && Holds(raw, platform, ext)
    ensures Holds(more, platform, ext)
  {
    var i :| 0 <= i < |raw| && raw[i].post.platform == platform && raw[i].post.ext == ext;
    assert more[i] == raw[i];
  }

  lemma ReceiveOneHolds(r: Receipt, u: Upload, subs: map<int, Subscription>)
    requires Admissible(u, subs)
    ensures Holds(ReceiveOne(r, u, subs).raw, u.post.platform, u.post.ext)
  {
    if !Holds(r.raw, u.post.platform, u.post.ext) {
      assert ReceiveOne(r, u, subs).raw[|r.raw|] == RawPost(u.subscription, u.post);
    }
  }

  lemma {:induction false} AdmittedIsHeld(raw: seq<RawPost>, us: seq<Upload>, subs: map<int, Subscription>, i: nat)
    requires i < |us| && Admissible(us[i], subs)
    ensures Holds(Receive(raw, us, subs).raw, us[i].post.platform, us[i].post.ext)
  {
    var n := |us| - 1;
    var before := Receive(raw, us[..n], subs);
    if i == n {
      ReceiveOneHolds(before, us[n], subs);
    } else {
      AdmittedIsHeld(raw, us[..n], subs, i);
      HeldForever(before.raw, Receive(raw, us, subs).raw, us[i].post.platform, us[i].post.ext);
    }
  }

  /** What makes the server refuse an upload: an unknown subscription or another platform's,
      a time before the subscription's start, half a batch reference or an impossible size,
      or a payload that says something else about its batch. */
  ghost predicate Faulty(u: Upload, subs: map<int, Subscription>) {
    || u.subscription !in subs
    || subs[u.subscription].platform != u.post.platform
    || (u.post.publishedAt.Some? && subs[u.subscription].start.Some?
        && u.post.publishedAt.value < subs[u.subscription].start.value)
    || u.batchId.Some? != u.batchSize.Some?
    || (u.batchSize.Some? && (u.batchSize.value == 0 || u.batchSize.value > 10000))
    || (u.post.trade.Some? && u.post.trade.value.batch.Some?
        && (u.post.platform != BINANCE_COPY || u.batchId.None?
            || u.batchId.value != u.post.trade.value.batch.value.id
            || u.batchSize.value != u.post.trade.value.batch.value.size))
  }

  predicate SameIdentity(x: Post, y: Post) { x.platform == y.platform && x.ext == y.ext }

  /** The server has the post already, or took it earlier in the same request. */
  ghost predicate AlreadyTaken(raw: seq<RawPost>, us: seq<Upload>, subs: map<int, Subscription>, i: nat)
    requires i < |us|
  {
    || (exists j :: 0 <= j < |raw| && SameIdentity(raw[j].post, us[i].post))
    || (exists j :: 0 <= j < i && !Faulty(us[j], subs) && SameIdentity(us[j].post, us[i].post))
  }

  lemma FaultyExactly(u: Upload, subs: map<int, Subscription>)
    ensures Faulty(u, subs) <==> !Admissible(u, subs)
  {
  }

  /** The rows held after an upload are those before and the uploads taken. */
  lemma {:induction false} HeldExactly(raw: seq<RawPost>, us: seq<Upload>, subs: map<int, Subscription>, p: Post)
    ensures Holds(Receive(raw, us, subs).raw, p.platform, p.ext) <==>
              || (exists j :: 0 <= j < |raw| && SameIdentity(raw[j].post, p))
              || (exists j :: 0 <= j < |us| && !Faulty(us[j], subs) && SameIdentity(us[j].post, p))
  {
    hide Faulty, Admissible;
    if us == [] {
      assert forall j :: 0 <= j < |raw| ==>
        (SameIdentity(raw[j].post, p) <==> raw[j].post.platform == p.platform && raw[j].post.ext == p.ext);
    } else {
      var n := |us| - 1;
      var before, after := Receive(raw, us[..n], subs).raw, Receive(raw, us, subs).raw;
      HeldExactly(raw, us[..n], subs, p);
      FaultyExactly(us[n], subs);
      if Holds(before, p.platform, p.ext) { HeldForever(before, after, p.platform, p.ext); }
      assert forall j :: 0 <= j < n ==> us[..n][j] == us[j];
      if !Faulty(us[n], subs) { AdmittedIsHeld(raw, us, subs, n); }
      if Holds(after, p.platform, p.ext) && !Holds(before, p.platform, p.ext) {
        var j :| 0 <= j < |after| && after[j].post.platform == p.platform && after[j].post.ext == p.ext;
        assert j == |before|;
      }
    }
  }

  /** The verdict on every upload of a request. */
  lemma {:induction false} VerdictExactly(raw: seq<RawPost>, us: seq<Upload>, subs: map<int, Subscription>, i: nat)
    requires i < |us|
    ensures |Receive(raw, us, subs).items| == |us|
    ensures Receive(raw, us, subs).items[i].verdict
            == if Faulty(us[i], subs) then Invalid else if AlreadyTaken(raw, us, subs, i) then Duplicate else Stored
  {
    hide Faulty, Admissible;
    var n := |us| - 1;
    ReceiveShape(raw, us, subs);
    if i < n {
      VerdictExactly(raw, us[..n], subs, i);
      assert forall j :: 0 <= j < n ==> us[..n][j] == us[j];
    } else {
      ReceiveShape(raw, us[..n], subs);
      HeldExactly(raw, us[..n], subs, us[n].post);
      FaultyExactly(us[n], subs);
      assert forall j :: 0 <= j < n ==> us[..n][j] == us[j];
    }
    hide Holds, SameIdentity;
  }

  /** A status the collector does not know settles nothing. */
  lemma {:induction false} UnknownStatusSettlesNothing(b: Boxes, items: seq<Item>)
    requires forall i :: 0 <= i < |items| ==> items[i].verdict == Unrecognised
    ensures ApplyAll(b, items) == b
  {
    if items != [] { UnknownStatusSettlesNothing(b, items[..|items| - 1]); }
  }

  function StoredIn(items: seq<Item>): nat {
    if items == [] then 0 else StoredIn(items[..|items| - 1]) + if items[|items| - 1].verdict == Stored then 1 else 0
  }

  /** The server tells the truth: it reports as stored exactly what it added. */
  lemma {:induction false} StoredIsAdded(raw: seq<RawPost>, us: seq<Upload>, subs: map<int, Subscription>)
    ensures var r := Receive(raw, us, subs);
            |r.raw| == |raw| + StoredIn(r.items)
  {
    if us != [] {
      StoredIsAdded(raw, us[..|us| - 1], subs);
      var before := Receive(raw, us[..|us| - 1], subs);
      var after := Receive(raw, us, subs);
      assert after.items[..|after.items| - 1] == before.items;
    }
  }

  /** And it adds nothing but admissible uploads, filed under their subscription. */
  lemma {:induction false} NothingInvented(raw: seq<RawPost>, us: seq<Upload>, subs: map<int, Subscription>, j: nat)
    requires |raw| <= j < |Receive(raw, us, subs).raw|
    ensures exists i :: 0 <= i < |us| && Admissible(us[i], subs)
                        && Receive(raw, us, subs).raw[j] == RawPost(us[i].subscription, us[i].post)
  {
    hide Admissible;
    var n := |us| - 1;
    var before := Receive(raw, us[..n], subs);
    if j < |before.raw| {
      NothingInvented(raw, us[..n], subs, j);
      var i :| 0 <= i < n && Admissible(us[..n][i], subs)
        && before.raw[j] == RawPost(us[..n][i].subscription, us[..n][i].post);
      assert us[i] == us[..n][i];
    } else {
      assert Admissible(us[n], subs);
    }
  }

  // ---- One upload, whatever the network does --------------------------------------

  datatype Fate = RequestLost | ReplyLost | Delivered

  /** Both ends of the protocol. */
  datatype Wire = Wire(boxes: Boxes, raw: seq<RawPost>)

  function Transmit(w: Wire, subs: map<int, Subscription>, fate: Fate): Wire {
    var page := PendingPage(w.boxes.outbox);
    var receipt := Receive(w.raw, PackedAll(page), subs);
    match fate
    case RequestLost => w
    case ReplyLost => w.(raw := receipt.raw)
    case Delivered => Wire(ApplyAll(w.boxes, receipt.items), receipt.raw)
  }

  /** A delivered upload empties the page: what the server refused is a dead letter, the
      rest it now holds. */
  lemma DeliveredPage(w: Wire, subs: map<int, Subscription>)
    ensures var page := PendingPage(w.boxes.outbox);
            var items := Receive(w.raw, PackedAll(page), subs).items;
            && Answers(items, page)
            && Transmit(w, subs, Delivered).boxes
               == Boxes(w.boxes.outbox[|page|..], w.boxes.dead + Refused(page, items))
  {
    hide Receive, ApplyAll, Refused;
    var page := PendingPage(w.boxes.outbox);
    ReceiveShape(w.raw, PackedAll(page), subs);
    assert w.boxes.outbox == page + w.boxes.outbox[|page|..];
    ResultsMatchByOrder(page, w.boxes.outbox[|page|..], w.boxes.dead,
                        Receive(w.raw, PackedAll(page), subs).items);
  }

  lemma {:induction false} RefusedMembers(page: seq<OutboxRow>, items: seq<Item>, i: nat)
    requires |items| == |page| && i < |page| && items[i].verdict == Invalid
    ensures page[i] in Refused(page, items)
  {
    if i < |page| - 1 { RefusedMembers(page[..|page| - 1], items[..|page| - 1], i); }
  }

  /** Still waiting, given up on, or in the server's hands. */
  ghost predicate Accounted(row: OutboxRow, w: Wire) {
    || row in w.boxes.outbox
    || row in w.boxes.dead
    || Holds(w.raw, row.post.platform, row.post.ext)
  }

  lemma TransmitAccounts(w: Wire, subs: map<int, Subscription>, fate: Fate, row: OutboxRow)
    requires Accounted(row, w)
    ensures Accounted(row, Transmit(w, subs, fate))
  {
    hide Receive, ApplyAll, Refused, Holds;
    var page := PendingPage(w.boxes.outbox);
    var us := PackedAll(page);
    var receipt := Receive(w.raw, us, subs);
    ReceiveShape(w.raw, us, subs);
    if Holds(w.raw, row.post.platform, row.post.ext) {
      HeldForever(w.raw, receipt.raw, row.post.platform, row.post.ext);
    } else if fate == Delivered {
      DeliveredPage(w, subs);
      if row in page {
        var i :| 0 <= i < |page| && page[i] == row;
        assert us[i] == Packed(row);
        if Admissible(us[i], subs) { AdmittedIsHeld(w.raw, us, subs, i); }
        else { RefusedMembers(page, receipt.items, i); }
      } else if row in w.boxes.outbox {
        assert w.boxes.outbox == page + w.boxes.outbox[|page|..];
        assert row in w.boxes.outbox[|page|..];
      }
    }
  }

  // ---- Whole runs -----------------------------------------------------------------

  datatype Move =
    | Issue(subscription: int, posts: seq<Post>)
    | Reset(subscription: int)
    | Send(subs: map<int, Subscription>, fate: Fate)

  function Moved(w: Wire, m: Move): Wire {
    match m
    case Issue(s, posts) => w.(boxes := w.boxes.(outbox := EnqueueAll(w.boxes.outbox, s, posts)))
    case Reset(s) => w.(boxes := w.boxes.(outbox := Without(w.boxes.outbox, s)))
    case Send(subs, fate) => Transmit(w, subs, fate)
  }

  function Run(w: Wire, moves: seq<Move>): Wire {
    if moves == [] then w else Moved(Run(w, moves[..|moves| - 1]), moves[|moves| - 1])
  }

  /** Over every interleaving, and however many replies are lost, the server stores each
      (platform, external id) at most once and never forgets one. */
  lemma {:induction false} AtMostOnce(w: Wire, moves: seq<Move>)
    requires UniqueIdentities(w.raw)
    ensures UniqueIdentities(Run(w, moves).raw) && w.raw <= Run(w, moves).raw
  {
    if moves != [] {
      var n := |moves| - 1;
      AtMostOnce(w, moves[..n]);
      var before := Run(w, moves[..n]);
      match moves[n]
      case Issue(_, _) =>
      case Reset(_) =>
      case Send(subs, _) => ReceiveShape(before.raw, PackedAll(PendingPage(before.boxes.outbox)), subs);
    }
  }

  /** An enqueued post leaves the outbox only into the server's hands or the dead letters,
      as long as its subscription is not restarted. */
  lemma {:induction false} NothingLost(w: Wire, moves: seq<Move>, row: OutboxRow)
    requires Accounted(row, w)
    requires Reset(row.subscription) !in moves
    ensures Accounted(row, Run(w, moves))
  {
    if moves != [] {
      var n := |moves| - 1;
      NothingLost(w, moves[..n], row);
      match moves[n]
      case Issue(_, _) =>
      case Reset(_) =>
      case Send(subs, fate) => TransmitAccounts(Run(w, moves[..n]), subs, fate, row);
    }
  }

  /** Each delivered upload takes a full page off the outbox: `n` of them, with failed
      attempts in between, drain any outbox of up to 100 n posts. */
  lemma {:induction false} Drains(w: Wire, moves: seq<Move>)
    requires forall m :: m in moves ==> m.Send?
    ensures var sent := PAGE * Deliveries(moves);
            Run(w, moves).boxes.outbox
            == if sent <= |w.boxes.outbox| then w.boxes.outbox[sent..] else []
  {
    if moves != [] {
      var n := |moves| - 1;
      Drains(w, moves[..n]);
      if moves[n].fate == Delivered { DeliveredPage(Run(w, moves[..n]), moves[n].subs); }
    }
  }

  function Deliveries(moves: seq<Move>): nat {
    if moves == [] then 0
    else Deliveries(moves[..|moves| - 1])
         + if moves[|moves| - 1].Send? && moves[|moves| - 1].fate == Delivered then 1 else 0
  }
}
