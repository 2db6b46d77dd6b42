/** frontend/src/lib/signalFeed.ts: the infinite scroll that merges pages of a list which
    keeps growing at its head. */
module SignalFeed {
  import opened Prelude

  datatype Signal = Signal(id: int, body: int)

  datatype Page = Page(items: seq<Signal>, total: nat, offset: nat)

  const BATCH := 20

  predicate HasId(s: seq<Signal>, id: int) {
    exists i :: 0 <= i < |s| && s[i].id == id
  }

  /** The first occurrence of every id, in order. */
  function Unique(s: seq<Signal>): seq<Signal> {
    if s == [] then []
    else
      var n := |s| - 1;
      var u := Unique(s[..n]);
      if HasId(u, s[n].id) then u else u + [s[n]]
  }

  function Cut(s: seq<Signal>, total: nat): seq<Signal> {
    if |s| <= total then s else s[..total]
  }

  function NextOffset(p: Page): nat {
    if p.items != [] then p.offset + |p.items| else p.total
  }

  function AppendPage(current: Page, next: Page): Page {
    Page(Cut(Unique(Flat([current.items, next.items])), next.total), next.total, 0)
  }

  function RefreshPage(current: Page, refreshed: Page): Page {
    refreshed.(items := Cut(Unique(Flat([refreshed.items, current.items])), refreshed.total))
  }

  predicate HasMore(nextOffset: nat, total: nat) { nextOffset < total }

  /** `flat`: the groups one after another. */
  function Flat(groups: seq<seq<Signal>>): seq<Signal> {
    if groups == [] then [] else Flat(groups[..|groups| - 1]) + groups[|groups| - 1]
  }

  lemma FlatPair(a: seq<Signal>, b: seq<Signal>)
    ensures Flat([a, b]) == a + b
  {
    assert [a, b][..1] == [a] && [a][..0] == [];
    assert Flat([a]) == Flat([]) + a;
    assert Flat([]) + a == a;
  }

  method Flatten(groups: seq<seq<Signal>>) returns (flat: seq<Signal>)
    ensures flat == Flat(groups)
  {
    flat := [];
    for i := 0 to |groups|
      invariant flat == Flat(groups[..i])
    {
      assert groups[..i + 1][..i] == groups[..i];
      flat := flat + groups[i];
    }
    assert groups[..|groups|] == groups;
  }

  /** `uniqueSignals`: filters the flattened groups through a set of seen ids. */
  method UniqueSignals(groups: seq<seq<Signal>>) returns (kept: seq<Signal>)
    ensures kept == Unique(Flat(groups))
  {
    var flat := Flatten(groups);
    var seen: set<int> := {};
    kept := [];
    for i := 0 to |flat|
      invariant kept == Unique(flat[..i])
      invariant forall id :: id in seen <==> HasId(kept, id)
    {
      assert flat[..i + 1][..i] == flat[..i];
      if flat[i].id !in seen {
        SeenGrows(kept, flat[i]);
        seen := seen + {flat[i].id};
        kept := kept + [flat[i]];
      }
    }
    assert flat[..|flat|] == flat;
  }

  lemma SeenGrows(s: seq<Signal>, x: Signal)
    ensures forall id :: HasId(s + [x], id) <==> HasId(s, id) || id == x.id
  {
    forall id | HasId(s, id) ensures HasId(s + [x], id) {
      var i :| 0 <= i < |s| && s[i].id == id;
      assert (s + [x])[i].id == id;
    }
    assert (s + [x])[|s|].id == x.id;
  }

  // ---- What merging keeps ---------------------------------------------------------

  ghost predicate DistinctIds(s: seq<Signal>) {
    forall i, j :: 0 <= i < j < |s| ==> s[i].id != s[j].id
  }

  lemma {:induction false} UniqueIsUnique(s: seq<Signal>)
    ensures DistinctIds(Unique(s))
    ensures forall x :: x in Unique(s) ==> x in s
    ensures forall x :: x in s ==> HasId(Unique(s), x.id)
  {
    if s != [] {
      var n := |s| - 1;
      UniqueIsUnique(s[..n]);
      assert s == s[..n] + [s[n]];
      SeenGrows(Unique(s[..n]), s[n]);
    }
  }

  /** The first place with this id. */
  predicate FirstPlace(s: seq<Signal>, i: nat) {
    i < |s| && forall j :: 0 <= j < i ==> s[j].id != s[i].id
  }

  /** What is kept are the items at the first place of their id, unchanged and in order. */
  lemma {:induction false} FirstOfEach(s: seq<Signal>) returns (places: seq<nat>)
    ensures |places| == |Unique(s)|
    ensures forall a, b :: 0 <= a < b < |places| ==> places[a] < places[b]
    ensures forall a :: 0 <= a < |places| ==> FirstPlace(s, places[a]) && Unique(s)[a] == s[places[a]]
    ensures forall i :: FirstPlace(s, i) ==> i in places
  {
    places := [];
    if s != [] {
      var n := |s| - 1;
      places := FirstOfEach(s[..n]);
      UniqueIsUnique(s[..n]);
      assert s == s[..n] + [s[n]];
      forall i | 0 <= i < n ensures FirstPlace(s, i) <==> FirstPlace(s[..n], i) {}
      assert FirstPlace(s, n) <==> !HasId(Unique(s[..n]), s[n].id) by { NewId(s, n); }
      if !HasId(Unique(s[..n]), s[n].id) { places := places + [n]; }
      hide FirstPlace, HasId;
    }
  }

  lemma NewId(s: seq<Signal>, n: nat)
    requires n < |s|
    ensures FirstPlace(s, n) <==> !HasId(Unique(s[..n]), s[n].id)
  {
    UniqueIsUnique(s[..n]);
    var u := Unique(s[..n]);
    hide Unique;
    if HasId(u, s[n].id) {
      var i :| 0 <= i < |u| && u[i].id == s[n].id;
      assert u[i] in s[..n];
      var j :| 0 <= j < n && s[..n][j] == u[i];
      assert s[j].id == s[n].id;
    } else {
      forall j | 0 <= j < n ensures s[j].id != s[n].id { assert s[..n][j] in s[..n]; }
    }
  }

  /** Items drawn from one list of distinct ids are told apart by their ids. */
  lemma SameIdSameItem(list: seq<Signal>, x: Signal, y: Signal)
    requires DistinctIds(list) && x in list && y in list && x.id == y.id
    ensures x == y
  {
  }

  lemma {:induction false} DistinctSize(s: seq<Signal>)
    requires DistinctIds(s)
    ensures |Elements(s)| == |s|
  {
    if s != [] {
      var n := |s| - 1;
      assert s == s[..n] + [s[n]];
      DistinctSize(s[..n]);
      assert Elements(s) == Elements(s[..n]) + {s[n]};
    }
  }

  /** A cut loses an item exactly when there are more items than its total. */
  lemma CutDropsNothingExactly(a: seq<Signal>, total: nat)
    ensures (forall x :: x in a ==> HasId(Cut(Unique(a), total), x.id)) <==> |Unique(a)| <= total
  {
    var u := Unique(a);
    UniqueIsUnique(a);
    if |u| > total {
      assert u[total] in u;
      forall i | 0 <= i < total ensures u[i].id != u[total].id {}
      assert !HasId(u[..total], u[total].id);
    }
  }

  /** What was all drawn from one list fits into the total of that list or a longer one. */
  lemma CutDropsNothing(a: seq<Signal>, list: seq<Signal>)
    requires DistinctIds(list) && forall x :: x in a ==> x in list
    ensures Cut(Unique(a), |list|) == Unique(a)
  {
    var u := Unique(a);
    UniqueIsUnique(a);
    DistinctSize(u);
    DistinctSize(list);
    assert Elements(u) <= Elements(list);
    SubsetSize(Elements(u), Elements(list));
  }

  /** Merging two draws from a live list gives exactly their union, without repetition. */
  lemma MergeIsUnion(a: seq<Signal>, b: seq<Signal>, list: seq<Signal>)
    requires DistinctIds(list)
    requires forall x :: x in a || x in b ==> x in list
    ensures var m := Cut(Unique(a + b), |list|);
            DistinctIds(m) && forall x :: x in m <==> x in a || x in b
  {
    CutDropsNothing(a + b, list);
    UniqueIsUnique(a + b);
    hide Unique, DistinctIds;
    var m := Unique(a + b);
    forall x | x in a || x in b ensures x in m {
      assert x in a + b;
      var i :| 0 <= i < |m| && m[i].id == x.id;
      assert m[i] in m;
      SameIdSameItem(list, x, m[i]);
    }
  }

  /** What a merge puts in front stays in front, unmoved: the loaded items on an append,
      the newest page on a refresh. */
  lemma MergeKeepsFront(a: seq<Signal>, b: seq<Signal>, list: seq<Signal>)
    requires DistinctIds(list) && DistinctIds(a)
    requires forall x :: x in a || x in b ==> x in list
    ensures a <= Cut(Unique(a + b), |list|)
  {
    CutDropsNothing(a + b, list);
    UniqueOfDistinct(a);
    UniqueGrows(a, b);
  }

  lemma {:induction false} UniqueOfDistinct(a: seq<Signal>)
    requires DistinctIds(a)
    ensures Unique(a) == a
  {
    if a != [] {
      UniqueOfDistinct(a[..|a| - 1]);
      assert a == a[..|a| - 1] + [a[|a| - 1]];
    }
  }

  lemma {:induction false} UniqueGrows(a: seq<Signal>, b: seq<Signal>)
    ensures Unique(a) <= Unique(a + b)
  {
    if b == [] {
      assert a + b == a;
    } else {
      assert (a + b)[..|a + b| - 1] == a + b[..|b| - 1];
      UniqueGrows(a, b[..|b| - 1]);
    }
  }

  // ---- The session ----------------------------------------------------------------

  /** The server's page of its current list. */
  function ServerPage(list: seq<Signal>, offset: nat, limit: nat): Page {
    var from := if offset < |list| then offset else |list|;
    var to := if from + limit < |list| then from + limit else |list|;
    Page(list[from..to], |list|, offset)
  }

  /** An answer of the server on its way to the browser. */
  datatype Response = Newest(page: Page) | More(page: Page)

  /** The server's list; what the browser holds and the offset it asks for next; whether a
      load is under way; and the answers not yet merged, in the order they were given. */
  datatype Session = Session(list: seq<Signal>, page: Page, nextOffset: nat, loading: bool, wire: seq<Response>)

  function Opened(list: seq<Signal>, limit: nat): Session {
    var first := ServerPage(list, 0, limit);
    Session(list, first, NextOffset(first), false, [])
  }

  /** The list grows; the timer's refresh is answered; a load is asked for and answered; an
      answer, not necessarily the oldest, is merged or lost; a load fails unanswered. */
  datatype Turn =
    | Grow(head: seq<Signal>)
    | AnswerRefresh
    | AskLoad
    | AnswerLoad
    | Merge(i: nat)
    | Lose(i: nat)
    | FailLoad

  function Removed(wire: seq<Response>, i: nat): seq<Response>
    requires i < |wire|
  {
    wire[..i] + wire[i + 1..]
  }

  predicate LoadAnswered(wire: seq<Response>) {
    exists i :: 0 <= i < |wire| && wire[i].More?
  }

  function Merged(s: Session, i: nat): Session
    requires i < |s.wire|
  {
    var rest := s.(wire := Removed(s.wire, i));
    match s.wire[i]
    case Newest(page) => rest.(page := RefreshPage(s.page, page))
    case More(page) => rest.(page := AppendPage(s.page, page), nextOffset := NextOffset(page), loading := false)
  }

  function Took(s: Session, t: Turn, limit: nat): Session {
    match t
    case Grow(head) => s.(list := head + s.list)
    case AnswerRefresh => s.(wire := s.wire + [Newest(ServerPage(s.list, 0, limit))])
    case AskLoad => if s.loading || !HasMore(s.nextOffset, s.page.total) then s else s.(loading := true)
    case AnswerLoad =>
      if !s.loading || LoadAnswered(s.wire) then s
      else s.(wire := s.wire + [More(ServerPage(s.list, s.nextOffset, limit))])
    case Merge(i) => if i < |s.wire| then Merged(s, i) else s
    case Lose(i) =>
      if i < |s.wire| then s.(wire := Removed(s.wire, i), loading := s.loading && s.wire[i].Newest?) else s
    case FailLoad => if LoadAnswered(s.wire) then s else s.(loading := false)
  }

  /** The answer was given on a list no shorter than the one merged last. */
  predicate Timely(s: Session, i: nat)
    requires i < |s.wire|
  {
    s.page.total <= s.wire[i].page.total
  }

  /** New items are new, and no answer is merged that a longer list has overtaken. */
  ghost predicate Allowed(s: Session, t: Turn) {
    match t
    case Grow(head) => DistinctIds(head + s.list)
    case Merge(i) => i < |s.wire| ==> Timely(s, i)
    case _ => true
  }

  ghost function AfterTurns(s: Session, turns: seq<Turn>, limit: nat): Session {
    if turns == [] then s else Took(AfterTurns(s, turns[..|turns| - 1], limit), turns[|turns| - 1], limit)
  }

  ghost predicate AllAllowed(s: Session, turns: seq<Turn>, limit: nat) {
    turns != [] ==>
      var n := |turns| - 1;
      AllAllowed(s, turns[..n], limit) && Allowed(AfterTurns(s, turns[..n], limit), turns[n])
  }

  // ---- Merging in the order of the answers is allowed -----------------------------

  /** Growth is new and answers are merged oldest first. */
  ghost predicate InOrder(s: Session, turns: seq<Turn>, limit: nat) {
    turns != [] ==>
      var n := |turns| - 1;
      && InOrder(s, turns[..n], limit)
      && (turns[n].Merge? ==> turns[n].i == 0)
      && (turns[n].Grow? ==> DistinctIds(turns[n].head + AfterTurns(s, turns[..n], limit).list))
  }

  /** The totals of the answers ascend from `low` to `high`. */
  ghost predicate Climbs(wire: seq<Response>, low: nat, high: nat) {
    && low <= high
    && (forall i :: 0 <= i < |wire| ==> low <= wire[i].page.total <= high)
    && (forall i, j :: 0 <= i < j < |wire| ==> wire[i].page.total <= wire[j].page.total)
  }

  /** They do so from the held total to the list's. */
  ghost predicate Queued(s: Session) { Climbs(s.wire, s.page.total, |s.list|) }

  lemma ClimbsWithout(wire: seq<Response>, low: nat, high: nat, i: nat)
    requires Climbs(wire, low, high) && i < |wire|
    ensures Climbs(Removed(wire, i), low, high)
    ensures i == 0 ==> Climbs(Removed(wire, i), wire[0].page.total, high)
  {
  }

  lemma ClimbsTo(wire: seq<Response>, low: nat, high: nat, r: Response)
    requires Climbs(wire, low, high) && r.page.total == high
    ensures Climbs(wire + [r], low, high)
  {
  }

  lemma StaysQueued(s: Session, t: Turn, limit: nat)
    requires Queued(s) && (t.Merge? ==> t.i == 0)
    ensures Queued(Took(s, t, limit))
  {
    match t
    case Grow(_) =>
    case AnswerRefresh => ClimbsTo(s.wire, s.page.total, |s.list|, Newest(ServerPage(s.list, 0, limit)));
    case AskLoad =>
    case AnswerLoad => ClimbsTo(s.wire, s.page.total, |s.list|, More(ServerPage(s.list, s.nextOffset, limit)));
    case Merge(i) => if s.wire != [] { ClimbsWithout(s.wire, s.page.total, |s.list|, 0); }
    case Lose(i) => if i < |s.wire| { ClimbsWithout(s.wire, s.page.total, |s.list|, i); }
    case FailLoad =>
    hide Unique, Cut, Flat, Removed;
  }

  lemma {:induction false} InOrderIsAllowed(s: Session, turns: seq<Turn>, limit: nat)
    requires Queued(s) && InOrder(s, turns, limit)
    ensures AllAllowed(s, turns, limit) && Queued(AfterTurns(s, turns, limit))
  {
    hide Took;
    if turns != [] {
      var n := |turns| - 1;
      var before := AfterTurns(s, turns[..n], limit);
      InOrderIsAllowed(s, turns[..n], limit);
      StaysQueued(before, turns[n], limit);
    }
  }

  // ---- What every allowed session keeps -------------------------------------------

  /** The list as it was when it had `total` items. */
  function Earlier(list: seq<Signal>, total: nat): seq<Signal>
    requires total <= |list|
  {
    list[|list| - total..]
  }

  /** A waiting answer shows the list as it was when given, at the offset it was asked for. */
  ghost predicate Shows(s: Session, r: Response, limit: nat) {
    && r.page.total <= |s.list|
    && r.page == ServerPage(Earlier(s.list, r.page.total), if r.More? then s.nextOffset else 0, limit)
  }

  /** Answers are what they seem, at most one of them to a load. */
  ghost predicate Wired(s: Session, limit: nat) {
    && (forall i :: 0 <= i < |s.wire| ==> Shows(s, s.wire[i], limit))
    && (forall i, j :: 0 <= i < j < |s.wire| ==> !(s.wire[i].More? && s.wire[j].More?))
    && (LoadAnswered(s.wire) ==> s.loading)
  }

  /** `first` is a list the browser has seen; the rest grew in front of it. */
  ghost predicate Coherent(s: Session, first: seq<Signal>) {
    && DistinctIds(s.list) && DistinctIds(s.page.items)
    && |first| <= s.page.total <= |s.list| && s.nextOffset <= s.page.total
    && (forall x :: x in s.page.items ==> x in Earlier(s.list, s.page.total))
    && Earlier(s.list, |first|) == first
    && (forall k :: 0 <= k < |first| && k + (s.page.total - |first|) < s.nextOffset ==> first[k] in s.page.items)
  }

  lemma OpenedCoherent(list: seq<Signal>, limit: nat)
    requires DistinctIds(list) && limit > 0
    ensures Coherent(Opened(list, limit), list) && Wired(Opened(list, limit), limit)
  {
    var s := Opened(list, limit);
    assert Earlier(list, |list|) == list;
    forall k | 0 <= k < s.nextOffset ensures list[k] in s.page.items {
      assert s.page.items[k] == list[k];
    }
  }

  lemma EarlierStill(list: seq<Signal>, head: seq<Signal>, total: nat)
    requires total <= |list|
    ensures Earlier(head + list, total) == Earlier(list, total)
  {
  }

  lemma EarlierWithin(list: seq<Signal>, total: nat, longer: nat)
    requires DistinctIds(list) && total <= longer <= |list|
    ensures DistinctIds(Earlier(list, longer)) && Earlier(Earlier(list, longer), total) == Earlier(list, total)
    ensures forall x :: x in Earlier(list, total) ==> x in Earlier(list, longer)
  {
    var old', new' := Earlier(list, total), Earlier(list, longer);
    forall x | x in old' ensures x in new' {
      var i :| 0 <= i < total && old'[i] == x;
      assert new'[longer - total + i] == x;
    }
  }

  lemma GrowKeeps(s: Session, first: seq<Signal>, head: seq<Signal>, limit: nat)
    requires Coherent(s, first) && Wired(s, limit) && DistinctIds(head + s.list)
    ensures Coherent(s.(list := head + s.list), first) && Wired(s.(list := head + s.list), limit)
  {
    EarlierStill(s.list, head, |first|);
    EarlierStill(s.list, head, s.page.total);
    forall i | 0 <= i < |s.wire| ensures Shows(s.(list := head + s.list), s.wire[i], limit) {
      EarlierStill(s.list, head, s.wire[i].page.total);
    }
  }

  /** Merging a timely answer keeps everything held and adds everything it shows. */
  lemma TimelyMerge(s: Session, first: seq<Signal>, i: nat, limit: nat)
    requires Coherent(s, first) && Wired(s, limit) && i < |s.wire| && Timely(s, i)
    ensures var after, shown := Merged(s, i), s.wire[i].page;
            && after.page.total == shown.total && DistinctIds(after.page.items)
            && (forall x :: x in after.page.items <==> x in s.page.items || x in shown.items)
            && (forall x :: x in after.page.items ==> x in Earlier(s.list, shown.total))
  {
    assert Shows(s, s.wire[i], limit);
    var shown := s.wire[i].page;
    var list := Earlier(s.list, shown.total);
    EarlierWithin(s.list, s.page.total, shown.total);
    assert forall x :: x in shown.items ==> x in list;
    hide Coherent, Wired, Earlier, Unique, Cut, DistinctIds;
    FlatPair(s.page.items, shown.items);
    FlatPair(shown.items, s.page.items);
    MergeIsUnion(s.page.items, shown.items, list);
    MergeIsUnion(shown.items, s.page.items, list);
  }

  lemma MergeKeepsWire(s: Session, i: nat, limit: nat)
    requires Wired(s, limit) && i < |s.wire|
    ensures Wired(Merged(s, i), limit)
  {
    hide AppendPage, RefreshPage, ServerPage;
    var after := Merged(s, i);
    forall j | 0 <= j < |after.wire| ensures Shows(after, after.wire[j], limit) {
      var k := if j < i then j else j + 1;
      assert after.wire[j] == s.wire[k] && Shows(s, s.wire[k], limit);
      assert s.wire[i].More? ==> !s.wire[k].More?;
    }
  }

  lemma MergeKeeps(s: Session, first: seq<Signal>, i: nat, limit: nat)
    requires Coherent(s, first) && Wired(s, limit) && limit > 0 && i < |s.wire| && Timely(s, i)
    ensures Coherent(Merged(s, i), first)
  {
    TimelyMerge(s, first, i, limit);
    assert Shows(s, s.wire[i], limit);
    EarlierWithin(s.list, |first|, s.wire[i].page.total);
    hide DistinctIds, AppendPage, RefreshPage;
    var after, shown := Merged(s, i), s.wire[i].page;
    forall k | 0 <= k < |first| && k + (shown.total - |first|) < after.nextOffset ensures first[k] in after.page.items {
      if k + (shown.total - |first|) >= s.nextOffset {
        ShownAt(Earlier(s.list, shown.total), first, s.nextOffset, limit, k);
      }
    }
  }

  /** An item at or behind the offset and before the end of the page is on the page. */
  lemma ShownAt(list: seq<Signal>, first: seq<Signal>, offset: nat, limit: nat, k: nat)
    requires limit > 0 && |first| <= |list| && Earlier(list, |first|) == first && k < |first|
    requires offset <= k + (|list| - |first|) < NextOffset(ServerPage(list, offset, limit))
    ensures first[k] in ServerPage(list, offset, limit).items
  {
    var p, page := k + (|list| - |first|), ServerPage(list, offset, limit);
    assert first[k] == list[p];
    assert page.items[p - offset] == list[p];
  }

  lemma AnswerKeepsWire(s: Session, first: seq<Signal>, limit: nat)
    requires Coherent(s, first) && Wired(s, limit)
    ensures Wired(Took(s, AnswerRefresh, limit), limit) && Wired(Took(s, AnswerLoad, limit), limit)
  {
    hide Coherent, DistinctIds;
    assert Earlier(s.list, |s.list|) == s.list;
    forall t | t in {AnswerRefresh, AnswerLoad} ensures Wired(Took(s, t, limit), limit) {
      var after := Took(s, t, limit);
      forall i | 0 <= i < |after.wire| ensures Shows(after, after.wire[i], limit) {
        if i < |s.wire| { assert Shows(s, s.wire[i], limit); }
      }
    }
  }

  lemma LoseKeepsWire(s: Session, i: nat, limit: nat)
    requires Wired(s, limit) && i < |s.wire|
    ensures Wired(Took(s, Lose(i), limit), limit)
  {
    hide ServerPage;
    var after := Took(s, Lose(i), limit);
    forall j | 0 <= j < |after.wire| ensures Shows(after, after.wire[j], limit) {
      var k := if j < i then j else j + 1;
      assert after.wire[j] == s.wire[k] && Shows(s, s.wire[k], limit);
      assert s.wire[i].More? ==> !s.wire[k].More?;
    }
  }

  lemma {:induction false} CoherentOn(s: Session, first: seq<Signal>, turns: seq<Turn>, limit: nat)
    requires limit > 0 && Coherent(s, first) && Wired(s, limit) && AllAllowed(s, turns, limit)
    ensures Coherent(AfterTurns(s, turns, limit), first) && Wired(AfterTurns(s, turns, limit), limit)
  {
    if turns != [] {
      var n := |turns| - 1;
      CoherentOn(s, first, turns[..n], limit);
      TurnKeeps(AfterTurns(s, turns[..n], limit), first, turns[n], limit);
    }
    hide Coherent, Wired, Took, Allowed;
  }

  lemma TurnKeeps(s: Session, first: seq<Signal>, t: Turn, limit: nat)
    requires limit > 0 && Coherent(s, first) && Wired(s, limit) && Allowed(s, t)
    ensures Coherent(Took(s, t, limit), first) && Wired(Took(s, t, limit), limit)
  {
    hide DistinctIds, ServerPage, Merged;
    match t
    case Grow(head) => GrowKeeps(s, first, head, limit);
    case AnswerRefresh => AnswerKeepsWire(s, first, limit);
    case AskLoad =>
    case AnswerLoad => AnswerKeepsWire(s, first, limit);
    case Merge(i) =>
      if i < |s.wire| {
        MergeKeeps(s, first, i, limit);
        MergeKeepsWire(s, i, limit);
      }
    case Lose(i) => if i < |s.wire| { LoseKeepsWire(s, i, limit); }
    case FailLoad =>
  }

  /** Over any interleaving of growth at the head, refreshes and loads, with answers under
      way, lost or late, as long as none is merged that a longer list has overtaken: no id
      is held twice, everything held is live, and when there is no more to load, every item
      of the list at the first load is held. */
  lemma ScrollLoadsEverything(list: seq<Signal>, turns: seq<Turn>, limit: nat)
    requires limit > 0 && DistinctIds(list) && AllAllowed(Opened(list, limit), turns, limit)
    ensures var s := AfterTurns(Opened(list, limit), turns, limit);
            && DistinctIds(s.page.items)
            && (forall x :: x in s.page.items ==> x in s.list)
            && (!HasMore(s.nextOffset, s.page.total) ==> forall x :: x in list ==> x in s.page.items)
  {
    OpenedCoherent(list, limit);
    CoherentOn(Opened(list, limit), list, turns, limit);
  }

  /** In particular when answers are merged in the order they were given. */
  lemma ScrollInOrder(list: seq<Signal>, turns: seq<Turn>, limit: nat)
    requires limit > 0 && DistinctIds(list) && InOrder(Opened(list, limit), turns, limit)
    ensures var s := AfterTurns(Opened(list, limit), turns, limit);
            && DistinctIds(s.page.items)
            && (forall x :: x in s.page.items ==> x in s.list)
            && (!HasMore(s.nextOffset, s.page.total) ==> forall x :: x in list ==> x in s.page.items)
  {
    InOrderIsAllowed(Opened(list, limit), turns, limit);
    ScrollLoadsEverything(list, turns, limit);
  }

  // ---- One thing at a time --------------------------------------------------------

  /** A load asked for, answered and merged with nothing in between. */
  function Loaded(s: Session, limit: nat): Session {
    if !HasMore(s.nextOffset, s.page.total) then s
    else
      var next := ServerPage(s.list, s.nextOffset, limit);
      s.(page := AppendPage(s.page, next), nextOffset := NextOffset(next))
  }

  function Refreshed(s: Session, limit: nat): Session {
    s.(page := RefreshPage(s.page, ServerPage(s.list, 0, limit)))
  }

  /** Nothing is under way. */
  predicate Quiet(s: Session) { !s.loading && s.wire == [] }

  lemma AtOnce(s: Session, limit: nat)
    requires Quiet(s)
    ensures AfterTurns(s, [AskLoad, AnswerLoad, Merge(0)], limit) == Loaded(s, limit)
    ensures AfterTurns(s, [AnswerRefresh, Merge(0)], limit) == Refreshed(s, limit)
  {
    hide AppendPage, RefreshPage, ServerPage, NextOffset;
    var a, b := [AskLoad, AnswerLoad, Merge(0)], [AnswerRefresh, Merge(0)];
    assert a[..2][..1] == a[..1] && a[..1][..0] == [] && b[..1][..0] == [];
    assert AfterTurns(s, a[..1], limit) == Took(s, AskLoad, limit);
    assert AfterTurns(s, a[..2], limit) == Took(Took(s, AskLoad, limit), AnswerLoad, limit);
    assert AfterTurns(s, b[..1], limit) == Took(s, AnswerRefresh, limit);
  }

  /** A load asked for amid refreshes under way goes through, whenever there is more. */
  lemma LoadGoesThrough(s: Session, limit: nat)
    requires !s.loading && s.nextOffset < s.page.total && !LoadAnswered(s.wire)
    ensures var after := AfterTurns(s, [AskLoad, AnswerLoad, Merge(|s.wire|)], limit);
            var shown := ServerPage(s.list, s.nextOffset, limit);
            after == s.(page := AppendPage(s.page, shown), nextOffset := NextOffset(shown))
  {
    var turns := [AskLoad, AnswerLoad, Merge(|s.wire|)];
    var shown := ServerPage(s.list, s.nextOffset, limit);
    assert turns[..2] == [AskLoad, AnswerLoad] && turns[..2][..1] == [AskLoad] && turns[..2][..1][..0] == [];
    var asked := s.(loading := true);
    assert AfterTurns(s, [AskLoad], limit) == asked;
    var answered := asked.(wire := s.wire + [More(shown)]);
    assert AfterTurns(s, turns[..2], limit) == answered;
    assert Removed(answered.wire, |s.wire|) == s.wire;
    hide Unique, Cut, Flat, ServerPage;
  }

  function LoadedTimes(s: Session, n: nat, limit: nat): Session {
    if n == 0 then s else Loaded(LoadedTimes(s, n - 1, limit), limit)
  }

  lemma LoadAdvances(s: Session, limit: nat)
    requires s.nextOffset <= |s.list| && s.page.total <= |s.list|
    ensures var after := Loaded(s, limit);
            && after.list == s.list && after.page.total <= |s.list|
            && (HasMore(s.nextOffset, s.page.total) ==>
                  && after.page.total == |s.list|
                  && after.nextOffset == if s.nextOffset + limit < |s.list|
                    && limit > 0 then s.nextOffset + limit else |s.list|)
            && after.nextOffset <= |s.list|
  {
    hide Unique, Cut;
  }

  /** Once the list stops growing the scroll stops: after enough loads to cover what is
      left, there is no more. */
  lemma {:induction false} ScrollStops(s: Session, n: nat, limit: nat)
    requires s.nextOffset <= |s.list| && s.page.total <= |s.list| && limit > 0
    ensures var after := LoadedTimes(s, n, limit);
            && after.list == s.list && after.nextOffset <= |s.list| && after.page.total <= |s.list|
            && (!HasMore(after.nextOffset, after.page.total) || after.nextOffset >= s.nextOffset + limit * n)
            && (s.nextOffset + limit * n >= |s.list| ==> !HasMore(after.nextOffset, after.page.total))
  {
    hide Loaded;
    if n == 0 {
      assert limit * n == 0;
    } else {
      ScrollStops(s, n - 1, limit);
      LoadAdvances(LoadedTimes(s, n - 1, limit), limit);
      LoadSkipped(LoadedTimes(s, n - 1, limit), limit);
      OneMoreTime(limit, n);
    }
  }

  lemma LoadSkipped(s: Session, limit: nat)
    ensures !HasMore(s.nextOffset, s.page.total) ==> Loaded(s, limit) == s
  {
  }

  lemma OneMoreTime(limit: nat, n: nat)
    requires n > 0
    ensures limit * n == limit * (n - 1) + limit
  {
  }

  // ---- Items that arrive later ----------------------------------------------------

  /** The refresh answered with `total` items catches up with the growth since `first`
      unless some of it is neither in the newest page nor still ahead of the scroll. */
  predicate CatchesUp(s: Session, first: seq<Signal>, total: nat, limit: nat) {
    total - |first| <= limit || s.nextOffset <= limit
  }

  /** After merging such a refresh the scroll owes everything the list held when it was
      answered. */
  lemma RefreshCatchesUp(s: Session, first: seq<Signal>, i: nat, limit: nat)
    requires Coherent(s, first) && Wired(s, limit) && limit > 0
    requires i < |s.wire| && s.wire[i].Newest? && Timely(s, i)
    requires CatchesUp(s, first, s.wire[i].page.total, limit)
    ensures Coherent(Merged(s, i), Earlier(s.list, s.wire[i].page.total))
  {
    TimelyMerge(s, first, i, limit);
    assert Shows(s, s.wire[i], limit);
    hide DistinctIds, AppendPage, RefreshPage;
    var after, shown := Merged(s, i), s.wire[i].page;
    var list := Earlier(s.list, shown.total);
    forall k | 0 <= k < |list| && k < s.nextOffset ensures list[k] in after.page.items {
      if k < limit {
        assert shown.items[k] == list[k];
      } else {
        assert list[k] == first[k - (shown.total - |first|)];
      }
    }
  }

  /** Whatever follows the merge of a refresh that caught up, when there is no more to load
      every item of the list at that refresh is held. */
  lemma RefreshedListLoads(s: Session, first: seq<Signal>, i: nat, turns: seq<Turn>, limit: nat)
    requires limit > 0 && Coherent(s, first) && Wired(s, limit)
    requires i < |s.wire| && s.wire[i].Newest? && Timely(s, i)
    requires CatchesUp(s, first, s.wire[i].page.total, limit)
    requires AllAllowed(Merged(s, i), turns, limit)
    ensures var after := AfterTurns(Merged(s, i), turns, limit);
            && DistinctIds(after.page.items)
            && (!HasMore(after.nextOffset, after.page.total) ==>
                  forall x :: x in Earlier(s.list, s.wire[i].page.total) ==> x in after.page.items)
  {
    RefreshCatchesUp(s, first, i, limit);
    MergeKeepsWire(s, i, limit);
    CoherentOn(Merged(s, i), Earlier(s.list, s.wire[i].page.total), turns, limit);
    hide Wired, Merged, Timely, CatchesUp, AllAllowed;
  }

  /** The items of [from, to) of the list. */
  ghost predicate At(list: seq<Signal>, from: nat, to: nat, x: Signal) {
    exists k :: from <= k < to && k < |list| && list[k] == x
  }

  lemma SliceMembers(list: seq<Signal>, from: nat, to: nat)
    requires from <= to <= |list|
    ensures forall x :: x in list[from..to] <==> At(list, from, to, x)
  {
    var items := list[from..to];
    forall x ensures x in items <==> At(list, from, to, x) {
      if x in items {
        var j :| 0 <= j < |items| && items[j] == x;
        assert items[j] == list[from + j];
      }
      if At(list, from, to, x) {
        var k :| from <= k < to && k < |list| && list[k] == x;
        assert items[k - from] == list[k];
      }
    }
  }

  lemma PageMembers(list: seq<Signal>, offset: nat, limit: nat)
    requires offset <= |list|
    ensures var page := ServerPage(list, offset, limit);
            offset + |page.items| <= |list| && (offset + |page.items| == |list| || |page.items| == limit)
            && forall x :: x in page.items <==> At(list, offset, offset + |page.items|, x)
  {
    SliceMembers(list, offset, offset + |ServerPage(list, offset, limit).items|);
    hide At;
  }

  /** Held items are live, the total is current and the offset within the list. */
  ghost predicate UpToDate(s: Session) {
    DistinctIds(s.list) && (forall x :: x in s.page.items ==> x in s.list)
    && s.page.total == |s.list| && s.nextOffset <= |s.list|
  }

  lemma LoadAdds(s: Session, limit: nat)
    requires UpToDate(s) && limit > 0
    ensures var after := Loaded(s, limit);
            && UpToDate(after) && after.list == s.list && s.nextOffset <= after.nextOffset <= |s.list|
            && (after.nextOffset == |s.list| || after.nextOffset == s.nextOffset + limit)
            && forall x :: x in after.page.items <==> x in s.page.items || At(s.list, s.nextOffset, after.nextOffset, x)
  {
    if HasMore(s.nextOffset, s.page.total) {
      var next := ServerPage(s.list, s.nextOffset, limit);
      PageMembers(s.list, s.nextOffset, limit);
      assert forall x :: x in next.items ==> x in s.list;
      MergeIsUnion(s.page.items, next.items, s.list);
      FlatPair(s.page.items, next.items);
    }
    hide Unique, Cut, DistinctIds;
  }

  lemma {:induction false} LoadsAdd(s: Session, n: nat, limit: nat)
    requires UpToDate(s) && limit > 0
    ensures var after := LoadedTimes(s, n, limit);
            && UpToDate(after) && after.list == s.list && s.nextOffset <= after.nextOffset <= |s.list|
            && (after.nextOffset == |s.list| || after.nextOffset >= s.nextOffset + limit * n)
            && forall x :: x in after.page.items <==> x in s.page.items || At(s.list, s.nextOffset, after.nextOffset, x)
  {
    assert s.nextOffset <= |s.list|;
    hide Loaded, UpToDate;
    if n == 0 {
      assert limit * n == 0;
      NothingAt(s.list, s.nextOffset);
    } else {
      var before := LoadedTimes(s, n - 1, limit);
      LoadsAdd(s, n - 1, limit);
      LoadAdds(before, limit);
      OneMoreTime(limit, n);
      hide At;
      AtSplit(s.list, s.nextOffset, before.nextOffset, Loaded(before, limit).nextOffset);
    }
  }

  lemma NothingAt(list: seq<Signal>, from: nat)
    ensures forall x :: !At(list, from, from, x)
  {
  }

  lemma AtSplit(list: seq<Signal>, a: nat, b: nat, c: nat)
    requires a <= b <= c
    ensures forall x :: At(list, a, c, x) <==> At(list, a, b, x) || At(list, b, c, x)
  {
  }

  /** Exactly what a refresh and scrolling to the end of a list that has stopped growing
      leave held: the newest page, what was held before, and what the offset had not yet
      passed. The rest, growth between the newest page and the offset, is missed. */
  lemma HeldAtTheEndExactly(s: Session, first: seq<Signal>, n: nat, limit: nat, k: nat)
    requires Coherent(s, first) && limit > 0 && k < |s.list| && s.nextOffset + limit * n >= |s.list|
    ensures var after := LoadedTimes(Refreshed(s, limit), n, limit);
            && !HasMore(after.nextOffset, after.page.total)
            && (s.list[k] in after.page.items <==> k < limit || s.nextOffset <= k || s.list[k] in s.page.items)
  {
    var fresh', x := Refreshed(s, limit), s.list[k];
    var newest := ServerPage(s.list, 0, limit);
    EarlierWithin(s.list, s.page.total, |s.list|);
    assert Earlier(s.list, |s.list|) == s.list;
    MergeIsUnion(newest.items, s.page.items, s.list);
    FlatPair(newest.items, s.page.items);
    PageMembers(s.list, 0, limit);
    assert x in fresh'.page.items <==> At(s.list, 0, |newest.items|, x) || x in s.page.items;
    assert UpToDate(fresh');
    LoadsAdd(fresh', n, limit);
    OnlyAt(s.list, 0, |newest.items|, k);
    OnlyAt(s.list, s.nextOffset, |s.list|, k);
    hide Unique, Cut, DistinctIds, LoadedTimes, Refreshed;
  }

  lemma OnlyAt(list: seq<Signal>, from: nat, to: nat, k: nat)
    requires DistinctIds(list) && k < |list|
    ensures At(list, from, to, list[k]) <==> from <= k < to
  {
    if At(list, from, to, list[k]) {
      var j :| from <= j < to && j < |list| && list[j] == list[k];
      assert j == k;
    }
  }

  // ---- Inputs that lose an item ---------------------------------------------------

  /** A browser that has loaded two pages. */
  lemma TwoPages(list: seq<Signal>)
    requires |list| == 2 * BATCH && DistinctIds(list)
    ensures var s := Loaded(Opened(list, BATCH), BATCH);
            && s.list == list && s.page.items == list && s.page.total == |list| && s.nextOffset == |list| && Quiet(s)
  {
    FlatPair(list[..BATCH], list[BATCH..]);
    assert ServerPage(list, 0, BATCH).items == list[..BATCH] && ServerPage(list, BATCH, BATCH).items == list[BATCH..];
    assert list[..BATCH] + list[BATCH..] == list;
    assert Unique(list) == list by { UniqueOfDistinct(list); }
    hide Unique, DistinctIds;
  }

  /** A missed item: a browser that has scrolled to the end of forty items, one item more
      than a page arrives, a refresh and any number of loads. The oldest of the new items is
      never held. */
  lemma MissedItem(list: seq<Signal>, head: seq<Signal>, n: nat)
    requires |list| == 2 * BATCH && |head| == BATCH + 1 && DistinctIds(head + list) && n >= 2
    ensures var s := Took(Loaded(Opened(list, BATCH), BATCH), Grow(head), BATCH);
            var after := LoadedTimes(Refreshed(s, BATCH), n, BATCH);
            && head[BATCH] in s.list && head[BATCH] !in after.page.items
            && !HasMore(after.nextOffset, after.page.total)
  {
    var grown := head + list;
    assert forall i :: 0 <= i < |list| ==> grown[|head| + i] == list[i];
    assert grown[BATCH] == head[BATCH];
    TwoPages(list);
    var s := Took(Loaded(Opened(list, BATCH), BATCH), Grow(head), BATCH);
    assert Earlier(grown, |list|) == list;
    assert Coherent(s, list);
    HeldAtTheEndExactly(s, list, n, BATCH, BATCH);
    hide LoadedTimes, Refreshed;
  }

  lemma {:induction false} UniqueSkips(a: seq<Signal>, b: seq<Signal>)
    requires DistinctIds(a) && forall x :: x in b ==> HasId(a, x.id)
    ensures Unique(a + b) == a
  {
    if b == [] {
      assert a + b == a;
      UniqueOfDistinct(a);
    } else {
      var n := |b| - 1;
      assert b == b[..n] + [b[n]];
      assert (a + b)[..|a| + n] == a + b[..n];
      UniqueSkips(a, b[..n]);
    }
  }

  lemma UniqueLast(s: seq<Signal>, x: Signal)
    ensures Unique(s + [x]) == if HasId(Unique(s), x.id) then Unique(s) else Unique(s) + [x]
  {
    assert (s + [x])[..|s|] == s;
  }

  lemma UniqueAdds(a: seq<Signal>, b: seq<Signal>, x: Signal)
    requires DistinctIds(a + [x]) && forall y :: y in b ==> HasId(a, y.id)
    ensures Unique(a + (b + [x])) == a + [x]
  {
    hide HasId, DistinctIds, Unique;
    assert a + (b + [x]) == (a + b) + [x];
    DistinctFront(a, x);
    UniqueSkips(a, b);
    UniqueLast(a + b, x);
  }

  lemma DistinctFront(a: seq<Signal>, x: Signal)
    requires DistinctIds(a + [x])
    ensures DistinctIds(a) && !HasId(a, x.id)
  {
    var all := a + [x];
    assert forall i :: 0 <= i < |a| ==> all[i] == a[i];
    assert all[|a|] == x;
  }

  lemma InFront(new': Signal, held: seq<Signal>)
    ensures forall x :: x in held ==> HasId([new'] + held, x.id)
  {
    forall x | x in held ensures HasId([new'] + held, x.id) {
      var i :| 0 <= i < |held| && held[i] == x;
      assert ([new'] + held)[i + 1].id == x.id;
    }
  }

  /** A refresh that shows one new item in front of all but the last of the page held. */
  lemma OneNewInFront(new': Signal, h: seq<Signal>, x: Signal)
    requires DistinctIds(([new'] + h) + [x])
    ensures Unique(([new'] + h) + (h + [x])) == ([new'] + h) + [x]
  {
    hide Unique, DistinctIds, HasId;
    InFront(new', h);
    UniqueAdds([new'] + h, h, x);
  }

  /** The browser after the refresh was merged, with the load still under way. */
  function Ahead(list: seq<Signal>, new': Signal): Session
    requires |list| == 2 * BATCH
  {
    Session([new'] + list, Page([new'] + list[..BATCH], |list| + 1, 0), BATCH, true,
            [More(Page(list[BATCH..], |list|, BATCH))])
  }

  lemma EarlyRefresh(list: seq<Signal>, new': Signal)
    requires |list| == 2 * BATCH && DistinctIds([new'] + list)
    ensures var newest := Page(([new'] + list)[..BATCH], |list| + 1, 0);
            Cut(Unique(Flat([newest.items, list[..BATCH]])), newest.total) == [new'] + list[..BATCH]
  {
    var h, x := list[..BATCH - 1], list[BATCH - 1];
    var seen := ([new'] + h) + [x];
    assert seen == ([new'] + list)[..BATCH + 1];
    assert ([new'] + list)[..BATCH] == [new'] + h && list[..BATCH] == h + [x];
    assert [new'] + list[..BATCH] == seen;
    assert DistinctIds(seen);
    hide Unique, DistinctIds;
    FlatPair([new'] + h, h + [x]);
    OneNewInFront(new', h, x);
  }

  lemma LateLoad(list: seq<Signal>, new': Signal)
    requires |list| == 2 * BATCH && DistinctIds([new'] + list)
    ensures var after := Merged(Ahead(list, new'), 0);
            after.page.items == ([new'] + list)[..|list|] && after.page.total == |list| && after.nextOffset == |list|
  {
    var grown := [new'] + list;
    FlatPair([new'] + list[..BATCH], list[BATCH..]);
    assert ([new'] + list[..BATCH]) + list[BATCH..] == grown;
    UniqueOfDistinct(grown);
    hide Unique, DistinctIds, Flat;
  }

  /** A dropped item: while the load of the second page is under way one item arrives, and
      a refresh sees it and is merged first. The load's smaller total then cuts off the last
      item, live and on the list since the start, and there is no more to load. */
  lemma OvertakenLoad(list: seq<Signal>, new': Signal)
    requires |list| == 2 * BATCH && DistinctIds([new'] + list)
    ensures var turns := [AskLoad, AnswerLoad, Grow([new']), AnswerRefresh, Merge(1), Merge(0)];
            var s := AfterTurns(Opened(list, BATCH), turns, BATCH);
            && list[2 * BATCH - 1] in s.list && list[2 * BATCH - 1] !in s.page.items
            && !HasMore(s.nextOffset, s.page.total)
  {
    var grown := [new'] + list;
    var load := More(Page(list[BATCH..], |list|, BATCH));
    var refresh := Newest(Page(grown[..BATCH], |list| + 1, 0));
    RefreshIsAhead(list, new');
    EarlyRefresh(list, new');
    LateLoad(list, new');
    hide Unique, AfterTurns, Flat, Cut, AppendPage;
    assert Removed([load, refresh], 1) == [load];
    assert Merged(Session(grown, Page(list[..BATCH], |list|, 0), BATCH, true, [load, refresh]), 1) == Ahead(list, new');
    assert grown[|list|] == list[2 * BATCH - 1];
    LastIsNotBefore(grown, |list|);
  }

  lemma LastIsNotBefore(list: seq<Signal>, n: nat)
    requires DistinctIds(list) && n < |list|
    ensures list[n] !in list[..n] && list[n] in list
  {
  }

  lemma RefreshIsAhead(list: seq<Signal>, new': Signal)
    requires |list| == 2 * BATCH
    ensures var turns := [AskLoad, AnswerLoad, Grow([new']), AnswerRefresh, Merge(1), Merge(0)];
            var load := More(Page(list[BATCH..], |list|, BATCH));
            var refresh := Newest(Page(([new'] + list)[..BATCH], |list| + 1, 0));
            AfterTurns(Opened(list, BATCH), turns, BATCH)
            == Took(Took(Session([new'] + list, Page(list[..BATCH], |list|, 0), BATCH, true, [load, refresh]),
              Merge(1), BATCH),
                    Merge(0), BATCH)
  {
    hide AppendPage, RefreshPage, Merged;
    var turns := [AskLoad, AnswerLoad, Grow([new']), AnswerRefresh, Merge(1), Merge(0)];
    var s := Opened(list, BATCH);
    assert turns[..0] == [];
    forall n | 0 < n <= 6 ensures turns[..n][..n - 1] == turns[..n - 1] && turns[..n][n - 1] == turns[n - 1] {}
    assert turns[..6] == turns;
    var asked := Took(s, AskLoad, BATCH);
    assert AfterTurns(s, turns[..1], BATCH) == asked;
    var load := More(Page(list[BATCH..], |list|, BATCH));
    assert ServerPage(list, BATCH, BATCH).items == list[BATCH..];
    var answered := asked.(wire := [load]);
    assert AfterTurns(s, turns[..2], BATCH) == answered;
    assert AfterTurns(s, turns[..3], BATCH) == answered.(list := [new'] + list);
    assert AfterTurns(s, turns[..4], BATCH)
           == Session([new'] + list, Page(list[..BATCH], |list|, 0), BATCH, true,
                      [load, Newest(Page(([new'] + list)[..BATCH], |list| + 1, 0))]);
    assert AfterTurns(s, turns[..5], BATCH) == Took(AfterTurns(s, turns[..4], BATCH), Merge(1), BATCH);
  }
}
