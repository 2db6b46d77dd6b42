/** From outbox to notification: once a batch is through the wire, the server holds exactly
    its posts under its batch id, so the barrier opens. */
module BatchRelease {
  import opened Prelude
  import opened TradeModels
  import opened TradeStore
  import opened PostTheorems
  import opened CollectorDb
  import opened CollectorApi
  import opened Delivery
  import opened PostAcceptance
  import opened Reachable
  import Notifications
  import NotificationTheorems

  // ---- A batch --------------------------------------------------------------------

  /** The posts one fetch gave rise to, all under one batch. */
  ghost predicate IsBatch(ps: seq<Post>, b: Batch) {
    && DistinctPosts(ps) && b.size == |ps|
    && forall p :: p in ps ==> p.ext.TradeId? && p.platform == BINANCE_COPY && BatchOf(p) == Some(b)
  }

  /** A fetch after the baseline enqueues such a batch. */
  lemma FetchedPostsAreBatch(t: Tables, target: Target, result: FetchResult) returns (b: Batch)
    requires Shaped(t.ledger) && FetchInto(t, target.subscription, target, result).Accepted?
    requires var posts := FetchInto(t, target.subscription, target, result).posts;
             posts != [] && forall p :: p in posts ==> PostOk(p, t.Start())
    ensures IsBatch(FetchInto(t, target.subscription, target, result).posts, b)
  {
    var posts := FetchInto(t, target.subscription, target, result).posts;
    FetchPostsAreExact(t, target, result);
    hide FetchInto, RightKeys, ChangesBetween, DistinctPosts;
    b := BatchOf(posts[0]).value;
    assert posts[0] in posts;
  }

  predicate Tagged(r: RawPost, i: int, b: Batch) {
    r.subscription == i && BatchOf(r.post).Some? && BatchOf(r.post).value.id == b.id
  }

  /** Under the batch id are exactly the posts of the batch. */
  ghost predicate Whole(raw: seq<RawPost>, i: int, b: Batch, ps: seq<Post>) {
    && UniqueIdentities(raw)
    && (forall p :: p in ps ==> RawPost(i, p) in raw)
    && (forall r :: r in raw && Tagged(r, i, b) ==> r.post in ps)
  }

  /** Claims the batch: its id under its subscription, or the identity of one of its posts. */
  ghost predicate Claims(subscription: int, post: Post, i: int, b: Batch, ps: seq<Post>) {
    || Tagged(RawPost(subscription, post), i, b)
    || (exists p :: p in ps && SameIdentity(p, post))
  }

  ghost predicate Belongs(subscription: int, post: Post, i: int, b: Batch, ps: seq<Post>) {
    Claims(subscription, post, i, b, ps) ==> subscription == i && post in ps
  }

  /** Only posts of the batch claim it, and each is waiting or stored. */
  ghost predicate Tracked(w: Wire, i: int, b: Batch, ps: seq<Post>) {
    && UniqueIdentities(w.raw)
    && (forall row :: row in w.boxes.outbox ==> Belongs(row.subscription, row.post, i, b, ps))
    && (forall r :: r in w.raw ==> Belongs(r.subscription, r.post, i, b, ps))
    && (forall p :: p in ps ==> OutboxRow(i, p) in w.boxes.outbox || RawPost(i, p) in w.raw)
  }

  /** A batch nobody else claims is tracked from the moment it is enqueued. */
  lemma FreshBatchIsTracked(w: Wire, i: int, b: Batch, ps: seq<Post>)
    requires IsBatch(ps, b) && UniqueIdentities(w.raw)
    requires forall row :: row in w.boxes.outbox ==>
               !Claims(row.subscription, row.post, i, b, ps)
                 && (row.subscription == i ==> row.post.platform == BINANCE_COPY)
    requires forall r :: r in w.raw ==> !Claims(r.subscription, r.post, i, b, ps)
    ensures Tracked(Moved(w, Issue(i, ps)), i, b, ps)
  {
    var outbox := w.boxes.outbox;
    EnqueuedRows(outbox, i, ps);
    forall row, p | row in outbox && p in ps && row.subscription == i ensures row.post.ext != p.ext {
      assert !Claims(row.subscription, row.post, i, b, ps);
      assert !SameIdentity(p, row.post);
    }
    FreshPostsAllEnqueued(outbox, i, ps);
    hide Claims, EnqueueAll, UniqueIdentities, DistinctPosts;
    EnqueuedIsTracked(w, i, b, ps);
  }

  /** The same once it is known that all of it was enqueued. */
  lemma EnqueuedIsTracked(w: Wire, i: int, b: Batch, ps: seq<Post>)
    requires UniqueIdentities(w.raw)
    requires forall row :: row in w.boxes.outbox ==> !Claims(row.subscription, row.post, i, b, ps)
    requires forall r :: r in w.raw ==> !Claims(r.subscription, r.post, i, b, ps)
    ensures Tracked(w.(boxes := w.boxes.(outbox := w.boxes.outbox + RowsFor(i, ps))), i, b, ps)
  {
    hide Claims, UniqueIdentities;
    var more := w.boxes.outbox + RowsFor(i, ps);
    forall p | p in ps ensures OutboxRow(i, p) in more {
      var k :| 0 <= k < |ps| && ps[k] == p;
      assert RowsFor(i, ps)[k] == OutboxRow(i, p);
    }
    forall row | row in more ensures Belongs(row.subscription, row.post, i, b, ps) {
      if row !in w.boxes.outbox {
        var k :| 0 <= k < |ps| && RowsFor(i, ps)[k] == row;
        assert ps[k] in ps;
      }
    }
  }

  /** What other subscriptions and fetches do: accounts are not shared, so nobody else posts
      these identities, and batch ids are digests of the records. */
  ghost predicate Respects(m: Move, i: int, b: Batch, ps: seq<Post>) {
    match m
    case Issue(s, posts) => forall p :: p in posts ==> Belongs(s, p, i, b, ps)
    case Reset(s) => s != i
    case Send(subs, _) => forall p :: p in ps ==> Admissible(Packed(OutboxRow(i, p)), subs)
  }

  lemma SameIdentitySamePost(ps: seq<Post>, b: Batch, x: Post, y: Post)
    requires IsBatch(ps, b) && x in ps && y in ps && SameIdentity(x, y)
    ensures x == y
  {
    var j :| 0 <= j < |ps| && ps[j] == x;
    var k :| 0 <= k < |ps| && ps[k] == y;
    assert PostKey(x) == PostKey(y);
  }

  lemma ReceivedBelong(raw: seq<RawPost>, page: seq<OutboxRow>, subs: map<int, CollectorApi.Subscription>, r: RawPost,
                       i: int, b: Batch, ps: seq<Post>)
    requires r in Receive(raw, PackedAll(page), subs).raw
    requires forall row :: row in page ==> Belongs(row.subscription, row.post, i, b, ps)
    requires forall r :: r in raw ==> Belongs(r.subscription, r.post, i, b, ps)
    ensures Belongs(r.subscription, r.post, i, b, ps)
  {
    hide Receive, Belongs, Admissible, UniqueIdentities;
    var after := Receive(raw, PackedAll(page), subs).raw;
    ReceiveShape(raw, PackedAll(page), subs);
    var j :| 0 <= j < |after| && after[j] == r;
    if j < |raw| {
      assert raw[j] == r;
    } else {
      NothingInvented(raw, PackedAll(page), subs, j);
      var k :| 0 <= k < |page| && after[j] == RawPost(PackedAll(page)[k].subscription, PackedAll(page)[k].post);
      assert page[k] in page;
    }
  }

  lemma HeldIsStored(raw: seq<RawPost>, p: Post, i: int, b: Batch, ps: seq<Post>)
    requires IsBatch(ps, b) && p in ps && Holds(raw, p.platform, p.ext)
    requires forall r :: r in raw ==> Belongs(r.subscription, r.post, i, b, ps)
    ensures RawPost(i, p) in raw
  {
    var j :| 0 <= j < |raw| && raw[j].post.platform == p.platform && raw[j].post.ext == p.ext;
    assert raw[j] in raw && SameIdentity(p, raw[j].post);
    assert Claims(raw[j].subscription, raw[j].post, i, b, ps);
    SameIdentitySamePost(ps, b, p, raw[j].post);
  }

  lemma SentStaysTracked(w: Wire, subs: map<int, CollectorApi.Subscription>, fate: Fate, i: int, b: Batch,
                         ps: seq<Post>)
    requires IsBatch(ps, b) && Tracked(w, i, b, ps)
    requires forall p :: p in ps && OutboxRow(i, p) in w.boxes.outbox ==> Admissible(Packed(OutboxRow(i, p)), subs)
    ensures Tracked(Transmit(w, subs, fate), i, b, ps)
  {
    var page := PendingPage(w.boxes.outbox);
    var us := PackedAll(page);
    var after := Transmit(w, subs, fate);
    DeliveredPage(w, subs);
    ReceiveShape(w.raw, us, subs);
    hide Receive, Refused, ApplyAll, Belongs, Admissible, UniqueIdentities, IsBatch;
    assert w.boxes.outbox == page + w.boxes.outbox[|page|..];
    forall r | r in after.raw ensures Belongs(r.subscription, r.post, i, b, ps) {
      if r !in w.raw { ReceivedBelong(w.raw, page, subs, r, i, b, ps); }
    }
    forall p | p in ps ensures OutboxRow(i, p) in after.boxes.outbox || RawPost(i, p) in after.raw {
      StaysSomewhere(w, subs, fate, i, b, ps, p);
    }
  }

  lemma StaysSomewhere(w: Wire, subs: map<int, CollectorApi.Subscription>, fate: Fate, i: int, b: Batch,
                       ps: seq<Post>, p: Post)
    requires IsBatch(ps, b) && Tracked(w, i, b, ps) && p in ps
    requires OutboxRow(i, p) in w.boxes.outbox ==> Admissible(Packed(OutboxRow(i, p)), subs)
    ensures var after := Transmit(w, subs, fate);
            OutboxRow(i, p) in after.boxes.outbox || RawPost(i, p) in after.raw
  {
    var page, row := PendingPage(w.boxes.outbox), OutboxRow(i, p);
    var us := PackedAll(page);
    DeliveredPage(w, subs);
    ReceiveShape(w.raw, us, subs);
    hide Receive, Refused, ApplyAll, Belongs, Admissible, UniqueIdentities, IsBatch, Holds;
    var receipt := Receive(w.raw, us, subs);
    assert w.boxes.outbox == page + w.boxes.outbox[|page|..];
    if RawPost(i, p) !in w.raw && fate == Delivered && row in page {
      var j :| 0 <= j < |page| && page[j] == row;
      assert us[j] == Packed(row);
      AdmittedIsHeld(w.raw, us, subs, j);
      forall r | r in receipt.raw ensures Belongs(r.subscription, r.post, i, b, ps) {
        ReceivedBelong(w.raw, page, subs, r, i, b, ps);
      }
      HeldIsStored(receipt.raw, p, i, b, ps);
    }
  }

  lemma MoveStaysTracked(w: Wire, m: Move, i: int, b: Batch, ps: seq<Post>)
    requires IsBatch(ps, b) && Tracked(w, i, b, ps) && Respects(m, i, b, ps)
    ensures Tracked(Moved(w, m), i, b, ps)
  {
    hide Belongs, UniqueIdentities, IsBatch, Transmit;
    match m
    case Issue(s, posts) =>
      EnqueuedRows(w.boxes.outbox, s, posts);
      KeepsRows(w.boxes.outbox, EnqueueAll(w.boxes.outbox, s, posts));
    case Reset(s) =>
    case Send(subs, fate) => SentStaysTracked(w, subs, fate, i, b, ps);
  }

  lemma KeepsRows(outbox: seq<OutboxRow>, more: seq<OutboxRow>)
    requires outbox <= more
    ensures forall row :: row in outbox ==> row in more
  {
  }

  lemma {:induction false} RunStaysTracked(w: Wire, moves: seq<Move>, i: int, b: Batch, ps: seq<Post>)
    requires IsBatch(ps, b) && Tracked(w, i, b, ps) && forall m :: m in moves ==> Respects(m, i, b, ps)
    ensures Tracked(Run(w, moves), i, b, ps)
  {
    hide IsBatch, Tracked, Respects, Moved;
    if moves != [] {
      var n := |moves| - 1;
      assert moves == moves[..n] + [moves[n]];
      RunStaysTracked(w, moves[..n], i, b, ps);
      MoveStaysTracked(Run(w, moves[..n]), moves[n], i, b, ps);
    }
  }

  /** Over every interleaving and whatever the network loses: once none of its posts waits
      any more, the server's posts under the batch id are exactly the batch. */
  lemma DeliveredBatchIsWhole(w: Wire, moves: seq<Move>, i: int, b: Batch, ps: seq<Post>)
    requires IsBatch(ps, b) && Tracked(w, i, b, ps) && forall m :: m in moves ==> Respects(m, i, b, ps)
    requires forall p :: p in ps ==> OutboxRow(i, p) !in Run(w, moves).boxes.outbox
    ensures Whole(Run(w, moves).raw, i, b, ps)
  {
    RunStaysTracked(w, moves, i, b, ps);
    hide IsBatch, Run, UniqueIdentities, Respects, Tagged;
  }

  // ---- The server's view ----------------------------------------------------------

  /** A stored post as the notification service reads it. */
  function AsRaw(r: RawPost): Notifications.Raw {
    var b := BatchOf(r.post);
    var id := if b.Some? then Some(b.value.id) else None;
    var size := if b.Some? then Some(b.value.size as int) else None;
    Notifications.Raw(r.post.platform == BINANCE_COPY, Some(r.subscription), id, size,
                      if r.post.trade.Some?
                        then Some(Notifications.Payload(id, size, if b.Some? then b.value.changes else []))
                      else None)
  }

  /** Post ids are places in the sequence. */
  function AsPosts(raw: seq<RawPost>): map<int, Notifications.Raw> {
    map j | 0 <= j < |raw| :: AsRaw(raw[j])
  }

  ghost function Places(raw: seq<RawPost>, i: int, b: Batch): set<int> {
    Notifications.Members(AsPosts(raw), i, b.id)
  }

  lemma PlacesAre(raw: seq<RawPost>, i: int, b: Batch, j: int)
    ensures j in Places(raw, i, b) <==>
            0 <= j < |raw| && Tagged(raw[j], i, b)
  {
  }

  lemma {:induction false} SizeOfDistinct(ps: seq<Post>)
    requires DistinctPosts(ps)
    ensures |Elements(ps)| == |ps|
  {
    if ps != [] {
      var n := |ps| - 1;
      SizeOfDistinct(ps[..n]);
      assert ps == ps[..n] + [ps[n]];
      assert Elements(ps) == Elements(ps[..n]) + {ps[n]};
      assert ps[n] !in ps[..n];
    }
  }

  function TaggedPosts(raw: seq<RawPost>, i: int, b: Batch): set<Post> {
    set r | r in raw && Tagged(r, i, b) :: r.post
  }

  lemma {:induction false} PlacesCountPosts(raw: seq<RawPost>, i: int, b: Batch)
    requires UniqueIdentities(raw)
    ensures |Places(raw, i, b)| == |TaggedPosts(raw, i, b)|
  {
    if raw == [] {
      assert Places(raw, i, b) == {} && TaggedPosts(raw, i, b) == {};
    } else {
      PlacesCountPosts(raw[..|raw| - 1], i, b);
      LastPlace(raw, i, b);
      LastTagged(raw, i, b);
    }
    hide Places, TaggedPosts, UniqueIdentities;
  }

  lemma LastPlace(raw: seq<RawPost>, i: int, b: Batch)
    requires raw != []
    ensures var n := |raw| - 1;
            n !in Places(raw[..n], i, b)
            && Places(raw, i, b) == Places(raw[..n], i, b) + if Tagged(raw[n], i, b) then {n} else {}
  {
    var n := |raw| - 1;
    PlacesAre(raw[..n], i, b, n);
    forall j ensures j in Places(raw, i, b) <==> j in Places(raw[..n], i, b) || (j == n && Tagged(raw[n], i, b)) {
      PlacesAre(raw, i, b, j);
      PlacesAre(raw[..n], i, b, j);
    }
    hide Places, Tagged;
  }

  lemma LastTagged(raw: seq<RawPost>, i: int, b: Batch)
    requires raw != [] && UniqueIdentities(raw)
    ensures var n := |raw| - 1;
            raw[n].post !in TaggedPosts(raw[..n], i, b)
            && TaggedPosts(raw, i, b)
               == TaggedPosts(raw[..n], i, b) + if Tagged(raw[n], i, b) then {raw[n].post} else {}
  {
    hide Tagged;
    var n := |raw| - 1;
    assert raw == raw[..n] + [raw[n]];
    forall r | r in raw[..n] ensures r.post != raw[n].post {
      var j :| 0 <= j < n && raw[j] == r;
    }
  }

  lemma PlacesCount(raw: seq<RawPost>, i: int, b: Batch, ps: seq<Post>)
    requires Whole(raw, i, b, ps) && IsBatch(ps, b)
    ensures |Places(raw, i, b)| == |ps|
  {
    PlacesCountPosts(raw, i, b);
    SizeOfDistinct(ps);
    hide Places, UniqueIdentities, DistinctPosts;
    forall p | p in ps ensures p in TaggedPosts(raw, i, b) {
      assert RawPost(i, p) in raw && Tagged(RawPost(i, p), i, b);
    }
    assert TaggedPosts(raw, i, b) == Elements(ps);
  }

  lemma PlaceFits(raw: seq<RawPost>, i: int, b: Batch, ps: seq<Post>, j: int)
    requires Whole(raw, i, b, ps) && IsBatch(ps, b) && j in Places(raw, i, b)
    ensures 0 <= j < |raw| && raw[j].post in ps
    ensures j in AsPosts(raw) && AsPosts(raw)[j] == AsRaw(raw[j]) && AsPosts(raw)[j].trade
    ensures Notifications.FitsBatch(AsPosts(raw)[j], Some(b.id), |ps|)
    ensures AsPosts(raw)[j].payload.Some? && AsPosts(raw)[j].payload.value.changes == b.changes
    ensures AsPosts(raw)[j].subscription == Some(i) && AsPosts(raw)[j].batchId == Some(b.id)
  {
    hide UniqueIdentities, DistinctPosts;
    PlacesAre(raw, i, b, j);
    assert raw[j] in raw;
  }

  /** Once the batch is whole on the server and all its posts are analysed, each of them
      passes the barrier; and there is something to tell exactly when the account has a
      profile and the batch changed a position. */
  lemma WholeBatchIsReady(d: Notifications.Desk, raw: seq<RawPost>, i: int, b: Batch, ps: seq<Post>, j: int)
    requires Whole(raw, i, b, ps) && IsBatch(ps, b) && d.posts == AsPosts(raw)
    requires j in Places(raw, i, b) && forall m :: m in Places(raw, i, b) ==> m in d.signals
    ensures j in d.posts && NotificationTheorems.LastOfBatch(d, j)
    ensures Notifications.Tellable(d, Notifications.GroupOf(d, j)) <==> i in d.profiled && b.changes != []
  {
    var places := Places(raw, i, b);
    PlacesCount(raw, i, b, ps);
    PlaceFits(raw, i, b, ps, j);
    forall m | m in places
      ensures m in d.posts && d.posts[m].trade && m in d.signals
              && Notifications.FitsBatch(d.posts[m], Some(b.id), |ps|)
      ensures d.posts[m].payload.Some? && d.posts[m].payload.value.changes == b.changes
    {
      PlaceFits(raw, i, b, ps, m);
    }
    assert Notifications.GroupOf(d, j).members == places;
    hide Whole, IsBatch, AsPosts;
  }
}
