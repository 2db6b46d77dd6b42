/** backend/app/routers/collector.py: what the server makes of uploaded posts and position
    snapshots. */
module CollectorApi {
  import opened Prelude
  import opened TradeModels
  import opened TradeReconciler
  import opened Valuation
  import opened TradeStore
  import opened CollectorDb

  // ---- Posts ----------------------------------------------------------------------

  datatype Subscription = Subscription(platform: int, start: Option<int>, deleted: bool)

  /** A post as `collected_post_payload` packs it: the batch fields are repeated outside
      the raw payload. */
  datatype Upload = Upload(subscription: int, post: Post, batchId: Option<BatchId>, batchSize: Option<nat>)

  function Packed(row: OutboxRow): Upload {
    var b := BatchOf(row.post);
    Upload(row.subscription, row.post, if b.Some? then Some(b.value.id) else None,
           if b.Some? then Some(b.value.size) else None)
  }

  function PackedAll(rows: seq<OutboxRow>): (r: seq<Upload>)
    ensures |r| == |rows|
  {
    seq(|rows|, i requires 0 <= i < |rows| => Packed(rows[i]))
  }

  const MAX_BATCH := 10000

  predicate ConsistentBatch(u: Upload) {
    && (u.batchId.None? <==> u.batchSize.None?)
    && (u.batchSize.Some? ==> 1 <= u.batchSize.value <= MAX_BATCH)
    && (BatchOf(u.post).Some? ==>
          && u.post.platform == BINANCE_COPY
          && u.batchId == Some(BatchOf(u.post).value.id)
          && u.batchSize == Some(BatchOf(u.post).value.size))
  }

  predicate Admissible(u: Upload, subs: map<int, Subscription>) {
    && ConsistentBatch(u)
    && u.subscription in subs
    && subs[u.subscription].platform == u.post.platform
    && !(subs[u.subscription].start.Some? && u.post.publishedAt.Some?
         && u.post.publishedAt.value < subs[u.subscription].start.value)
  }

  /** One `raw_posts` row; its place in the sequence is its id order. */
  datatype RawPost = RawPost(subscription: int, post: Post)

  predicate Holds(raw: seq<RawPost>, platform: int, ext: ExternalId) {
    exists i :: 0 <= i < |raw| && raw[i].post.platform == platform && raw[i].post.ext == ext
  }

  /** No two rows share (platform, external id). */
  ghost predicate UniqueIdentities(raw: seq<RawPost>) {
    forall i, j :: 0 <= i < j < |raw| ==>
      raw[i].post.platform != raw[j].post.platform || raw[i].post.ext != raw[j].post.ext
  }

  datatype Receipt = Receipt(raw: seq<RawPost>, items: seq<Item>)

  function ReceiveOne(r: Receipt, u: Upload, subs: map<int, Subscription>): Receipt {
    if !Admissible(u, subs) then r.(items := r.items + [Item(u.post.ext, Invalid)])
    else if Holds(r.raw, u.post.platform, u.post.ext) then r.(items := r.items + [Item(u.post.ext, Duplicate)])
    else Receipt(r.raw + [RawPost(u.subscription, u.post)], r.items + [Item(u.post.ext, Stored)])
  }

  function Receive(raw: seq<RawPost>, us: seq<Upload>, subs: map<int, Subscription>): Receipt {
    if us == [] then Receipt(raw, [])
    else ReceiveOne(Receive(raw, us[..|us| - 1], subs), us[|us| - 1], subs)
  }

  // ---- Position snapshots ---------------------------------------------------------

  /** `UploadedPosition`: field bounds and `validate_state`. */
  predicate ValidPosition(p: Position) { Priced(p) && Coherent(p) }

  /** The bound on the entry price. */
  predicate Priced(p: Position) { p.entry.Some? ==> p.entry.value > 0.0 }

  /** All the other checks. */
  predicate Coherent(p: Position) {
    && (p.quantity.Some? ==> p.quantity.value >= 0.0)
    && (p.mark.Some? ==> p.mark.value > 0.0)
    && (p.notional.Some? ==> p.notional.value >= 0.0)
    && (p.leverage.Some? ==> p.leverage.value > 0.0)
    && (p.margin.Some? ==> p.margin.value >= 0.0)
    && (p.status == Active ==>
          p.side == p.bucket && p.side in {Long, Short} && (p.quantity.Some? ==> p.quantity.value > 0.0))
    && (p.status == Closed ==> p.side == Flat && p.quantity == Some(0.0))
    && (p.status == Unknown ==> p.side == NoSide && p.quantity.None?)
    && (p.notional.Some? ==>
          p.quantity.Some? && p.mark.Some? && p.notional.value == Abs(Times(p.quantity.value, p.mark.value)))
    && (p.margin.Some? ==>
          p.notional.Some? && p.leverage.Some? && p.leverage.value > 0.0
          && p.margin.value == Ratio(p.notional.value, p.leverage.value))
    && (p.pnl.Some? ==>
          p.quantity.Some? && p.entry.Some? && p.mark.Some? && p.side in {Long, Short}
          && p.pnl.value == Times(Delta(p.side, p.mark.value, p.entry.value), p.quantity.value))
  }

  /** One operation line of a snapshot. */
  datatype Line = Line(key: LedgerKey, action: Action, op: Operation, symbol: int, bucket: BucketSide,
                       quantity: Option<real>, price: Option<real>, amount: Option<real>,
                       leverage: Option<real>, eventTime: int)

  predicate ValidLine(l: Line) {
    && (l.quantity.Some? ==> l.quantity.value >= 0.0)
    && (l.price.Some? ==> l.price.value >= 0.0)
    && (l.amount.Some? ==> l.amount.value >= 0.0)
    && (l.leverage.Some? ==> l.leverage.value > 0.0)
    && (l.amount.Some? ==>
          l.quantity.Some? && l.price.Some? && l.amount.value == Times(l.quantity.value, l.price.value))
  }

  /** `UploadedPositionAccount`. */
  predicate ValidAccount(account: Option<Account>) {
    account.Some? && account.value.marginBalance.Some? ==> account.value.marginBalance.value >= 0.0
  }

  datatype Snapshot = Snapshot(account: Option<Account>, positions: seq<Position>, lines: seq<Line>)

  const MAX_POSITIONS := 1000
  const MAX_LINES := 2000

  predicate ValidSnapshot(s: Snapshot) {
    && ValidAccount(s.account) && |s.positions| <= MAX_POSITIONS && |s.lines| <= MAX_LINES
    && (forall p :: p in s.positions ==> ValidPosition(p))
    && (forall l :: l in s.lines ==> ValidLine(l))
    && (forall i, j :: 0 <= i < j < |s.positions| ==> s.positions[i].Slot() != s.positions[j].Slot())
    && (forall i, j :: 0 <= i < j < |s.lines| ==> s.lines[i].key != s.lines[j].key)
  }

  predicate BeforeStart(s: Snapshot, start: int) {
    || (exists p :: p in s.positions && p.asOf.Some? && p.asOf.value < start)
    || (exists l :: l in s.lines && l.eventTime < start)
  }

  datatype Reply = Replaced(count: nat) | NotFound | TooEarly | Malformed

  function Answer(subscription: int, s: Snapshot, subs: map<int, Subscription>): Reply {
    if !ValidSnapshot(s) then Malformed
    else if subscription !in subs || subs[subscription].deleted
      || subs[subscription].platform != BINANCE_COPY then NotFound
    else if subs[subscription].start.Some? && BeforeStart(s, subs[subscription].start.value) then TooEarly
    else Replaced(|s.positions|)
  }

  /** The rows of `ps`, each under its own key, and no others. */
  ghost predicate IsTableOf(rows: Positions, ps: seq<Position>) {
    && (forall p :: p in ps ==> p.Slot() in rows && rows[p.Slot()] == p)
    && (forall k :: k in rows ==> rows[k] in ps && rows[k].Slot() == k)
  }

  ghost predicate IsRegisterOf(lines: map<LedgerKey, Line>, ls: seq<Line>) {
    && (forall l :: l in ls ==> l.key in lines && lines[l.key] == l)
    && (forall k :: k in lines ==> lines[k] in ls && lines[k].key == k)
  }

  class Api {
    var subscriptions: map<int, Subscription>
    var raw: seq<RawPost>
    var positions: map<int, Positions>
    var accounts: map<int, Account>
    var operations: map<int, map<LedgerKey, Line>>

    constructor (subs: map<int, Subscription>)
      ensures subscriptions == subs && raw == [] && positions == map[] && accounts == map[] && operations == map[]
    {
      subscriptions, raw, positions, accounts, operations := subs, [], map[], map[], map[];
    }

    method CollectorPosts(us: seq<Upload>) returns (items: seq<Item>)
      modifies this`raw
      ensures Receipt(raw, items) == Receive(old(raw), us, subscriptions)
    {
      items := [];
      for i := 0 to |us|
        invariant Receipt(raw, items) == Receive(old(raw), us[..i], subscriptions)
      {
        var u := us[i];
        assert us[..i + 1][..i] == us[..i];
        if !Admissible(u, subscriptions) {
          items := items + [Item(u.post.ext, Invalid)];
        } else if Holds(raw, u.post.platform, u.post.ext) {
          items := items + [Item(u.post.ext, Duplicate)];
        } else {
          raw := raw + [RawPost(u.subscription, u.post)];
          items := items + [Item(u.post.ext, Stored)];
        }
      }
      assert us[..|us|] == us;
    }

    /** Deletes the subscription's rows and inserts the snapshot; an account that is sent
        replaces the stored one; operations are deleted, updated and inserted by key. */
    method ReplacePositions(subscription: int, s: Snapshot) returns (reply: Reply)
      modifies this`positions, this`accounts, this`operations
      ensures reply == Answer(subscription, s, subscriptions)
      ensures !reply.Replaced? ==>
                positions == old(positions) && accounts == old(accounts) && operations == old(operations)
      ensures reply.Replaced? ==>
                accounts == if s.account.Some? then old(accounts)[subscription := s.account.value] else old(accounts)
      ensures reply.Replaced? ==>
                && positions.Keys == old(positions).Keys + {subscription}
                && operations.Keys == old(operations).Keys + {subscription}
                && (forall i :: i in old(positions) && i != subscription ==> positions[i] == old(positions)[i])
                && (forall i :: i in old(operations) && i != subscription ==> operations[i] == old(operations)[i])
                && IsTableOf(positions[subscription], s.positions)
                && IsRegisterOf(operations[subscription], s.lines)
    {
      reply := Answer(subscription, s, subscriptions);
      if !reply.Replaced? { return; }
      var rows := InsertRows(s.positions);
      var kept: map<LedgerKey, Line> := if subscription in operations then operations[subscription] else map[];
      var lines := UpsertLines(kept, s.lines);
      positions := positions[subscription := rows];
      if s.account.Some? { accounts := accounts[subscription := s.account.value]; }
      operations := operations[subscription := lines];
    }

    static method InsertRows(ps: seq<Position>) returns (rows: Positions)
      requires forall i, j :: 0 <= i < j < |ps| ==> ps[i].Slot() != ps[j].Slot()
      ensures IsTableOf(rows, ps)
    {
      rows := map[];
      for i := 0 to |ps|
        invariant forall k :: k in rows ==> rows[k] in ps && rows[k].Slot() == k
        invariant forall j :: 0 <= j < i ==> ps[j].Slot() in rows && rows[ps[j].Slot()] == ps[j]
      {
        rows := rows[ps[i].Slot() := ps[i]];
      }
    }

    static method UpsertLines(kept: map<LedgerKey, Line>, ls: seq<Line>) returns (lines: map<LedgerKey, Line>)
      requires forall i, j :: 0 <= i < j < |ls| ==> ls[i].key != ls[j].key
      ensures IsRegisterOf(lines, ls)
    {
      var incoming := set l | l in ls :: l.key;
      lines := map k | k in kept && k in incoming :: kept[k];
      for i := 0 to |ls|
        invariant forall k :: k in lines ==> k in incoming
        invariant forall j :: 0 <= j < i ==> ls[j].key in lines && lines[ls[j].key] == ls[j]
      {
        lines := lines[ls[i].key := ls[i]];
      }
      forall k | k in lines ensures lines[k] in ls && lines[k].key == k {
        var l :| l in ls && l.key == k;
      }
    }
  }
}
