/** collector/collector_agent/db.py: the local database of the collector. A row's place in
    the outbox sequence is its id order. */
module CollectorDb {
  import opened Prelude
  import opened TradeModels
  import opened TradeStore

  datatype Verdict = Stored | Duplicate | Invalid | Unrecognised

  /** One entry of an upload reply. */
  datatype Item = Item(ext: ExternalId, verdict: Verdict)

  /** The pending posts and the posts given up on. */
  datatype Boxes = Boxes(outbox: seq<OutboxRow>, dead: seq<OutboxRow>)

  datatype Store = Store(tables: map<int, Tables>, boxes: Boxes)

  const PAGE := 100

  function TablesOf(tables: map<int, Tables>, subscription: int): Tables {
    if subscription in tables then tables[subscription] else NO_TABLES
  }

  // ---- Outbox ---------------------------------------------------------------------

  predicate Pending(outbox: seq<OutboxRow>, subscription: int, ext: ExternalId) {
    exists i :: 0 <= i < |outbox| && outbox[i].subscription == subscription && outbox[i].post.ext == ext
  }

  /** `INSERT OR IGNORE` under the unique (subscription, external id). */
  function Enqueue(outbox: seq<OutboxRow>, subscription: int, post: Post): seq<OutboxRow> {
    if Pending(outbox, subscription, post.ext) then outbox else outbox + [OutboxRow(subscription, post)]
  }

  function EnqueueAll(outbox: seq<OutboxRow>, subscription: int, posts: seq<Post>): (r: seq<OutboxRow>)
    ensures outbox <= r
  {
    if posts == [] then outbox
    else
      var n := |posts| - 1;
      Enqueue(EnqueueAll(outbox, subscription, posts[..n]), subscription, posts[n])
  }

  function Without(outbox: seq<OutboxRow>, subscription: int): (r: seq<OutboxRow>)
    ensures forall row :: row in r <==> row in outbox && row.subscription != subscription
  {
    if outbox == [] then []
    else
      var n := |outbox| - 1;
      assert forall row :: row in outbox <==> row in outbox[..n] || row == outbox[n];
      Without(outbox[..n], subscription) + if outbox[n].subscription == subscription then [] else [outbox[n]]
  }

  function PendingPage(outbox: seq<OutboxRow>): seq<OutboxRow> {
    outbox[..if |outbox| < PAGE then |outbox| else PAGE]
  }

  /** Index of the oldest pending row with this external id, or the length. */
  function Oldest(outbox: seq<OutboxRow>, ext: ExternalId): (i: nat)
    ensures i <= |outbox|
    ensures i < |outbox| ==> outbox[i].post.ext == ext
    ensures forall j :: 0 <= j < i ==> outbox[j].post.ext != ext
  {
    if outbox == [] || outbox[0].post.ext == ext then 0 else 1 + Oldest(outbox[1..], ext)
  }

  function ApplyOne(b: Boxes, item: Item): Boxes {
    var i := Oldest(b.outbox, item.ext);
    if i == |b.outbox| || item.verdict == Unrecognised then b
    else
      Boxes(b.outbox[..i] + b.outbox[i + 1..],
            if item.verdict == Invalid then b.dead + [b.outbox[i]] else b.dead)
  }

  function ApplyAll(b: Boxes, items: seq<Item>): Boxes {
    if items == [] then b else ApplyOne(ApplyAll(b, items[..|items| - 1]), items[|items| - 1])
  }

  // ---- Transactions ---------------------------------------------------------------

  function Restart(s: Store, subscription: int, requested: Option<int>): Store {
    var t := TablesOf(s.tables, subscription);
    if SameStart(t, requested) then s
    else Store(s.tables[subscription := Restarted(t, requested)],
               s.boxes.(outbox := Without(s.boxes.outbox, subscription)))
  }

  ghost predicate ValidStore(s: Store) {
    forall i :: i in s.tables ==> Shaped(s.tables[i].ledger)
  }

  ghost function TradeFetch(s: Store, subscription: int, target: Target, result: FetchResult): Store
    requires ValidStore(s)
  {
    var step := FetchInto(TablesOf(s.tables, subscription), subscription, target, result);
    if step.Rejected? then s
    else Store(s.tables[subscription := step.tables],
               s.boxes.(outbox := EnqueueAll(s.boxes.outbox, subscription, step.posts)))
  }

  /** `record_fetch`: posts of a social source and its checkpoint. */
  function SocialFetch(s: Store, subscription: int, checkpoint: Option<Checkpoint>, posts: seq<Post>): Store {
    var t := TablesOf(s.tables, subscription);
    var state := if t.state.Some? then t.state.value.(checkpoint := checkpoint) else StateRow(checkpoint, None, false);
    Store(if checkpoint.Some? then s.tables[subscription := t.(state := Some(state))] else s.tables,
          s.boxes.(outbox := EnqueueAll(s.boxes.outbox, subscription, posts)))
  }

  function Marked(s: Store, subscription: int, t: Tables): Store {
    if subscription in s.tables then s.(tables := s.tables[subscription := t]) else s
  }

  function MarkStale(s: Store, subscription: int, time: int): Store {
    Marked(s, subscription, MarkedStale(TablesOf(s.tables, subscription), time))
  }

  function MarkUnknown(s: Store, subscription: int, time: int): Store {
    Marked(s, subscription, MarkedUnknown(TablesOf(s.tables, subscription), time))
  }

  lemma TradeFetchKeepsValid(s: Store, subscription: int, target: Target, result: FetchResult)
    requires ValidStore(s)
    ensures ValidStore(TradeFetch(s, subscription, target, result))
  {
    hide Rows, PostsFor, RepricedAll, FetchErrorOf, MergeAll;
    var t := TablesOf(s.tables, subscription);
    MergeKeepsShape(t.ledger, result.records);
  }

  class CollectorStore {
    var tables: map<int, Tables>
    var outbox: seq<OutboxRow>
    var deadLetters: seq<OutboxRow>

    /** The database as a value. */
    ghost function View(): Store reads this { Store(tables, Boxes(outbox, deadLetters)) }

    ghost predicate Valid() reads this { ValidStore(View()) }

    constructor ()
      ensures Valid() && View() == Store(map[], Boxes([], []))
    {
      tables, outbox, deadLetters := map[], [], [];
    }

    method EnsureTradeStart(subscription: int, requested: Option<int>) returns (changed: bool)
      requires Valid()
      modifies this
      ensures Valid() && View() == Restart(old(View()), subscription, requested)
      ensures changed <==> !SameStart(TablesOf(old(tables), subscription), requested)
    {
      var t := TablesOf(tables, subscription);
      if t.Start() == requested && (t.state.Some? || requested.None?) { return false; }
      outbox := Without(outbox, subscription);
      tables := tables[subscription := Tables(Some(StateRow(None, requested, false)), map[], map[], None)];
      changed := true;
    }

    method InsertPosts(subscription: int, posts: seq<Post>) returns (inserted: nat)
      modifies this`outbox
      ensures outbox == EnqueueAll(old(outbox), subscription, posts)
      ensures inserted == |outbox| - |old(outbox)|
    {
      inserted := 0;
      for i := 0 to |posts|
        invariant outbox == EnqueueAll(old(outbox), subscription, posts[..i])
        invariant inserted == |outbox| - |old(outbox)|
      {
        assert posts[..i + 1][..i] == posts[..i];
        if !Pending(outbox, subscription, posts[i].ext) {
          outbox := outbox + [OutboxRow(subscription, posts[i])];
          inserted := inserted + 1;
        }
      }
      assert posts[..|posts|] == posts;
    }

    method RecordFetch(subscription: int, checkpoint: Option<Checkpoint>, posts: seq<Post>) returns (inserted: nat)
      requires Valid()
      modifies this
      ensures Valid() && View() == SocialFetch(old(View()), subscription, checkpoint, posts)
      ensures inserted == |outbox| - |old(outbox)|
    {
      inserted := InsertPosts(subscription, posts);
      if checkpoint.Some? {
        var t := TablesOf(tables, subscription);
        var state := if t.state.Some? then t.state.value else StateRow(None, None, false);
        tables := tables[subscription := t.(state := Some(state.(checkpoint := checkpoint)))];
      }
    }

    /** Atomic: a rejected fetch leaves every table as it was. */
    method RecordTradeFetch(subscription: int, target: Target, result: FetchResult)
      returns (error: Option<FetchError>, inserted: nat)
      requires Valid()
      modifies this
      ensures Valid() && View() == TradeFetch(old(View()), subscription, target, result)
      ensures var step := FetchInto(TablesOf(old(tables), subscription), subscription, target, result);
              error == if step.Rejected? then Some(step.error) else None
      ensures inserted == |outbox| - |old(outbox)|
      ensures error.Some? ==> View() == old(View())
    {
      hide FetchInto;
      TradeFetchKeepsValid(View(), subscription, target, result);
      var step := ComputeFetch(TablesOf(tables, subscription), subscription, target, result);
      if step.Rejected? { return Some(step.error), 0; }
      tables := tables[subscription := step.tables];
      inserted := InsertPosts(subscription, step.posts);
      error := None;
    }

    method MarkTradePositionsStale(subscription: int, time: int)
      requires Valid()
      modifies this
      ensures Valid() && View() == MarkStale(old(View()), subscription, time)
    {
      if subscription in tables {
        var t := tables[subscription];
        tables := tables[subscription := t.(positions := map k | k in t.positions :: StaleRow(t.positions[k], time))];
      }
    }

    method MarkTradePositionsUnknown(subscription: int, time: int)
      requires Valid()
      modifies this
      ensures Valid() && View() == MarkUnknown(old(View()), subscription, time)
    {
      if subscription in tables {
        var t := tables[subscription];
        tables := tables[subscription := t.(positions := map k | k in t.positions :: UnknownRow(t.positions[k], time))];
      }
    }

    /** The oldest rows: a full page, or everything there is. */
    method PendingPosts() returns (rows: seq<OutboxRow>)
      ensures rows <= outbox && |rows| <= PAGE
      ensures |rows| == PAGE || rows == outbox
    {
      rows := outbox[..if |outbox| < PAGE then |outbox| else PAGE];
    }

    method ApplyResult(item: Item)
      modifies this`outbox, this`deadLetters
      ensures Boxes(outbox, deadLetters) == ApplyOne(Boxes(old(outbox), old(deadLetters)), item)
    {
      var i := Oldest(outbox, item.ext);
      if i < |outbox| {
        match item.verdict {
          case Stored | Duplicate =>
            outbox := outbox[..i] + outbox[i + 1..];
          case Invalid =>
            deadLetters := deadLetters + [outbox[i]];
            outbox := outbox[..i] + outbox[i + 1..];
          case Unrecognised =>
        }
      }
    }

    method ApplyUploadResults(items: seq<Item>)
      modifies this`outbox, this`deadLetters
      ensures Boxes(outbox, deadLetters) == ApplyAll(Boxes(old(outbox), old(deadLetters)), items)
    {
      hide ApplyOne;
      for n := 0 to |items|
        invariant Boxes(outbox, deadLetters) == ApplyAll(Boxes(old(outbox), old(deadLetters)), items[..n])
      {
        assert items[..n + 1][..n] == items[..n];
        ApplyResult(items[n]);
      }
      assert items[..|items|] == items;
    }
  }
}
