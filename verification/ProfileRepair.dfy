/** `_repair_kol_platform_identity` of backend/app/db/migrations.py: every subscription
    ends up on the profile of its own platform and handle. */
module ProfileRepair {
  import opened Prelude

  const X := 1

  /** `rest` stands for avatar, description and market; a missing platform is NULL or ''. */
  datatype Profile = Profile(platform: Option<int>, name: int, rest: int)

  datatype Subscription = Subscription(profile: Option<int>, platform: int, handle: int)

  datatype Identity = Identity(platform: int, name: int)

  /** Both tables and the next automatic profile id. */
  datatype Db = Db(profiles: map<int, Profile>, subs: map<int, Subscription>, nextId: int)

  function IdRank(i: int): Rank { Rank(i, 0, 0) }

  /** References resolve and new ids are new. */
  ghost predicate Valid(db: Db) {
    && (forall i :: i in db.profiles ==> i < db.nextId)
    && (forall s :: s in db.subs && db.subs[s].profile.Some? ==> db.subs[s].profile.value in db.profiles)
  }

  function Linked(db: Db): set<int> {
    set s | s in db.subs && db.subs[s].profile.Some?
  }

  /** The listed subscriptions exist and are linked. */
  predicate AllLinked(subs: map<int, Subscription>, order: seq<int>) {
    forall k :: 0 <= k < |order| ==> order[k] in subs && subs[order[k]].profile.Some?
  }

  ghost function Order(db: Db): (order: seq<int>)
    ensures Elements(order) == Linked(db) && Ascending(order, IdRank)
  {
    Arranged(Linked(db), IdRank)
  }

  lemma OrderLinked(db: Db)
    ensures AllLinked(db.subs, Order(db))
  {
    forall k | 0 <= k < |Order(db)| ensures Order(db)[k] in Linked(db) {
      assert Order(db)[k] in Elements(Order(db));
    }
  }

  // ---- Missing platforms ----------------------------------------------------------

  /** Platform of the first linked subscription of a profile. */
  function FirstPlatform(order: seq<int>, subs: map<int, Subscription>, profile: int): Option<int> {
    if order == [] then None
    else
      var n := |order| - 1;
      var before := FirstPlatform(order[..n], subs, profile);
      if before.Some? then before
      else if order[n] in subs && subs[order[n]].profile == Some(profile) then Some(subs[order[n]].platform)
      else None
  }

  function Completed(p: Profile, first: Option<int>): Profile {
    if p.platform.Some? then p else p.(platform := Some(if first.Some? then first.value else X))
  }

  function CompletedAll(db: Db, order: seq<int>): map<int, Profile> {
    map i | i in db.profiles :: Completed(db.profiles[i], FirstPlatform(order, db.subs, i))
  }

  // ---- Identities -----------------------------------------------------------------

  predicate Bears(p: Profile, id: Identity) { p.platform == Some(id.platform) && p.name == id.name }

  /** The profile an identity resolves to: of several, the one with the highest id. */
  ghost predicate Resolves(profiles: map<int, Profile>, id: Identity, i: int) {
    i in profiles && Bears(profiles[i], id)
    && forall j :: j in profiles && Bears(profiles[j], id) ==> j <= i
  }

  /** The dictionary `profiles_by_identity`. */
  ghost predicate IsIndex(index: map<Identity, int>, profiles: map<int, Profile>) {
    && (forall id :: id in index ==> Resolves(profiles, id, index[id]))
    && (forall i :: i in profiles ==> OwnIdentity(profiles[i]) in index)
  }

  function IdentityOf(s: Subscription): Identity { Identity(s.platform, s.handle) }

  ghost predicate Known(profiles: map<int, Profile>, id: Identity) {
    exists i :: i in profiles && Bears(profiles[i], id)
  }

  ghost function Holder(profiles: map<int, Profile>, id: Identity): (i: int)
    requires Known(profiles, id)
    ensures Resolves(profiles, id, i)
  {
    var ids := Arranged(Bearers(profiles, id), IdRank);
    BearersSorted(profiles, id);
    ids[|ids| - 1]
  }

  function Bearers(profiles: map<int, Profile>, id: Identity): set<int> {
    set i | i in profiles && Bears(profiles[i], id)
  }

  lemma BearersSorted(profiles: map<int, Profile>, id: Identity)
    requires Known(profiles, id)
    ensures var ids := Arranged(Bearers(profiles, id), IdRank);
            ids != [] && Resolves(profiles, id, ids[|ids| - 1])
  {
    var bearers := Bearers(profiles, id);
    var i :| i in profiles && Bears(profiles[i], id);
    assert i in bearers;
    LastIsGreatest(bearers);
    hide Bears;
    assert forall j :: j in bearers <==> j in profiles && Bears(profiles[j], id);
  }

  lemma LastIsGreatest(s: set<int>)
    requires s != {}
    ensures var ids := Arranged(s, IdRank);
            ids != [] && ids[|ids| - 1] in s && forall j :: j in s ==> j <= ids[|ids| - 1]
  {
    var ids := Arranged(s, IdRank);
    var last := ids[|ids| - 1];
    assert last in Elements(ids);
    forall j | j in s ensures j <= last {
      assert j in Elements(ids);
      var k :| 0 <= k < |ids| && ids[k] == j;
      assert k < |ids| - 1 ==> Below(IdRank(ids[k]), IdRank(last));
    }
  }

  // ---- One subscription -----------------------------------------------------------

  ghost function RepairedOne(db: Db, s: int): Db
    requires s in db.subs && db.subs[s].profile.Some? && db.subs[s].profile.value in db.profiles
  {
    var sub := db.subs[s];
    var id := IdentityOf(sub);
    if Known(db.profiles, id) then
      db.(subs := db.subs[s := sub.(profile := Some(Holder(db.profiles, id)))])
    else
      var copy := Profile(Some(sub.platform), sub.handle, db.profiles[sub.profile.value].rest);
      Db(db.profiles[db.nextId := copy], db.subs[s := sub.(profile := Some(db.nextId))], db.nextId + 1)
  }

  /** What a step of the repair never undoes. */
  ghost predicate Extends(before: Db, after: Db) {
    && Valid(after)
    && before.nextId <= after.nextId
    && before.subs.Keys == after.subs.Keys
    && (forall i :: i in before.profiles ==> i in after.profiles && after.profiles[i] == before.profiles[i])
    && (forall i :: i in after.profiles && i !in before.profiles ==> i >= before.nextId)
    && (forall id, i :: Resolves(before.profiles, id, i) ==> Resolves(after.profiles, id, i))
    && (forall s :: s in before.subs ==> after.subs[s].(profile := None) == before.subs[s].(profile := None))
    && (forall s :: s in before.subs && before.subs[s].profile.None? ==> after.subs[s] == before.subs[s])
    && (forall s :: s in before.subs && before.subs[s].profile.Some? ==> after.subs[s].profile.Some?)
  }

  /** The subscription sits on the profile its identity resolves to. */
  ghost predicate Settled(db: Db, s: int) {
    s in db.subs && db.subs[s].profile.Some? && Resolves(db.profiles, IdentityOf(db.subs[s]), db.subs[s].profile.value)
  }

  lemma RepairOneExtends(db: Db, s: int)
    requires Valid(db) && s in db.subs && db.subs[s].profile.Some?
    ensures Extends(db, RepairedOne(db, s)) && Settled(RepairedOne(db, s), s)
    ensures forall t :: t != s && Settled(db, t) ==> Settled(RepairedOne(db, s), t)
  {
    var id := IdentityOf(db.subs[s]);
    var after := RepairedOne(db, s);
    if !Known(db.profiles, id) {
      forall other, i | Resolves(db.profiles, other, i) ensures Resolves(after.profiles, other, i) {}
    }
  }

  lemma ExtendsTransitive(a: Db, b: Db, c: Db)
    requires Extends(a, b) && Extends(b, c)
    ensures Extends(a, c)
  {
    hide Resolves;
  }

  ghost function RepairedAll(db: Db, order: seq<int>): (r: Db)
    requires Valid(db) && AllLinked(db.subs, order)
    ensures Extends(db, r)
  {
    if order == [] then db
    else
      var n := |order| - 1;
      var before := RepairedAll(db, order[..n]);
      RepairOneExtends(before, order[n]);
      ExtendsTransitive(db, before, RepairedOne(before, order[n]));
      RepairedOne(before, order[n])
  }

  ghost function Started(db: Db): (r: Db)
    requires Valid(db)
    ensures Valid(r) && r.subs == db.subs && r.nextId == db.nextId
    ensures AllLinked(r.subs, Order(db))
  {
    OrderLinked(db);
    db.(profiles := CompletedAll(db, Order(db)))
  }

  ghost function Repaired(db: Db): Db
    requires Valid(db)
  {
    RepairedAll(Started(db), Order(db))
  }

  // ---- The loops ------------------------------------------------------------------

  class ProfileTables {
    var profiles: map<int, Profile>
    var subs: map<int, Subscription>
    var nextId: int

    ghost function View(): Db reads this { Db(profiles, subs, nextId) }

    constructor (profiles: map<int, Profile>, subs: map<int, Subscription>, nextId: int)
      ensures View() == Db(profiles, subs, nextId)
    {
      this.profiles, this.subs, this.nextId := profiles, subs, nextId;
    }

    method FirstPlatforms(order: seq<int>) returns (first: map<int, int>)
      requires AllLinked(subs, order)
      ensures forall i :: (if i in first then Some(first[i]) else None) == FirstPlatform(order, subs, i)
    {
      first := map[];
      for n := 0 to |order|
        invariant forall i :: (if i in first then Some(first[i]) else None) == FirstPlatform(order[..n], subs, i)
      {
        assert order[..n + 1][..n] == order[..n];
        var owner := subs[order[n]].profile.value;
        if owner !in first { first := first[owner := subs[order[n]].platform]; }
      }
      assert order[..|order|] == order;
    }

    method CompletePlatforms(order: seq<int>)
      requires AllLinked(subs, order)
      modifies this`profiles
      ensures profiles == CompletedAll(old(View()), order)
    {
      var first := FirstPlatforms(order);
      ghost var was := old(View());
      var ids := ListIds();
      for n := 0 to |ids|
        invariant profiles.Keys == was.profiles.Keys
        invariant forall k :: 0 <= k < |ids| ==>
                    profiles[ids[k]] == if k < n
                      then Completed(was.profiles[ids[k]], FirstPlatform(order, subs, ids[k]))
                                        else was.profiles[ids[k]]
      {
        var i := ids[n];
        if profiles[i].platform.None? {
          profiles := profiles[i := profiles[i].(platform := Some(if i in first then first[i] else X))];
        }
      }
      forall i | i in profiles ensures profiles[i] == Completed(was.profiles[i], FirstPlatform(order, subs, i)) {
        var k :| 0 <= k < |ids| && ids[k] == i;
      }
    }

    /** The profile ids in ascending order. */
    method ListIds() returns (ids: seq<int>)
      ensures Distinct(ids) && Ascending(ids, IdRank)
      ensures forall k :: 0 <= k < |ids| ==> ids[k] in profiles
      ensures forall i :: i in profiles ==> exists k :: 0 <= k < |ids| && ids[k] == i
    {
      ids := SelectOrdered(profiles.Keys, IdRank);
      AscendingDistinct(ids, IdRank);
      forall k | 0 <= k < |ids| ensures ids[k] in profiles { assert ids[k] in Elements(ids); }
      forall i | i in profiles ensures exists k :: 0 <= k < |ids| && ids[k] == i { assert i in Elements(ids); }
    }

    method IndexProfiles() returns (index: map<Identity, int>)
      requires AllKnown(profiles)
      ensures IsIndex(index, profiles)
    {
      index := map[];
      var ids := ListIds();
      for n := 0 to |ids|
        invariant Indexed(profiles, ids[..n], index)
      {
        KnownAt(profiles, ids[n]);
        IndexOneMore(profiles, ids, n, index);
        index := index[OwnIdentity(profiles[ids[n]]) := ids[n]];
      }
      assert ids[..|ids|] == ids;
      IndexComplete(profiles, ids, index);
    }

    method RepairSubscription(s: int, index: map<Identity, int>) returns (index': map<Identity, int>)
      requires Valid(View()) && s in subs && subs[s].profile.Some?
      requires IsIndex(index, profiles)
      modifies this
      ensures View() == RepairedOne(old(View()), s)
      ensures IsIndex(index', profiles)
    {
      index' := index;
      var sub := subs[s];
      var id := IdentityOf(sub);
      IndexDecides(index, profiles, id);
      if id in index {
        subs := subs[s := sub.(profile := Some(index[id]))];
      } else {
        var source := profiles[sub.profile.value];
        var target := Profile(Some(sub.platform), sub.handle, source.rest);
        IndexGrows(index, profiles, nextId, target, id);
        profiles := profiles[nextId := target];
        index' := index[id := nextId];
        subs := subs[s := sub.(profile := Some(nextId))];
        nextId := nextId + 1;
      }
    }

    method RepairSubscriptions(order: seq<int>, index: map<Identity, int>)
      requires Valid(View()) && AllLinked(subs, order) && IsIndex(index, profiles)
      modifies this
      ensures View() == RepairedAll(old(View()), order)
    {
      hide Valid, RepairedOne, RepairedAll, Extends, IsIndex, Resolves;
      ghost var started := View();
      var known := index;
      EmptyOrder(started);
      for n := 0 to |order|
        invariant AllLinked(started.subs, order[..n])
        invariant View() == RepairedAll(started, order[..n])
        invariant IsIndex(known, profiles)
      {
        LinkedPrefix(started.subs, order, n);
        RepairedStep(started, order, n);
        known := RepairSubscription(order[n], known);
      }
      assert order[..|order|] == order;
    }

    method RepairKolPlatformIdentity()
      requires Valid(View())
      modifies this
      ensures View() == Repaired(old(View()))
    {
      hide Valid, RepairedAll, Extends, IsIndex, AllLinked, CompletedAll, AllKnown;
      ghost var was := View();
      var order := SelectOrdered(Linked(Db(profiles, subs, nextId)), IdRank);
      assert order == Order(was);
      OrderLinked(was);
      CompletePlatforms(order);
      assert View() == Started(was);
      AllCompleted(was);
      var index := IndexProfiles();
      RepairSubscriptions(order, index);
    }
  }

  /** Platform and name of a profile whose platform is known. */
  function OwnIdentity(p: Profile): Identity {
    Identity(if p.platform.Some? then p.platform.value else 0, p.name)
  }

  ghost predicate AllKnown(profiles: map<int, Profile>) {
    forall i :: i in profiles ==> profiles[i].platform.Some?
  }

  lemma KnownAt(profiles: map<int, Profile>, i: int)
    requires AllKnown(profiles) && i in profiles
    ensures profiles[i].platform.Some? && Bears(profiles[i], OwnIdentity(profiles[i]))
  {
  }

  /** Of the ids listed, `i` is the last that bears the identity. */
  ghost predicate LastBearer(profiles: map<int, Profile>, ids: seq<int>, id: Identity, i: int) {
    && i in profiles && Bears(profiles[i], id)
    && forall k :: 0 <= k < |ids| && ids[k] in profiles && Bears(profiles[ids[k]], id) ==> ids[k] <= i
  }

  /** The dictionary after the listed profiles were entered. */
  ghost predicate Indexed(profiles: map<int, Profile>, ids: seq<int>, index: map<Identity, int>) {
    && (forall id :: id in index ==> LastBearer(profiles, ids, id, index[id]))
    && (forall k :: 0 <= k < |ids| && ids[k] in profiles ==> OwnIdentity(profiles[ids[k]]) in index)
  }

  lemma IndexOneMore(profiles: map<int, Profile>, ids: seq<int>, n: nat, index: map<Identity, int>)
    requires n < |ids| && Ascending(ids, IdRank) && ids[n] in profiles
    requires Bears(profiles[ids[n]], OwnIdentity(profiles[ids[n]]))
    requires Indexed(profiles, ids[..n], index)
    ensures Indexed(profiles, ids[..n + 1], index[OwnIdentity(profiles[ids[n]]) := ids[n]])
  {
    forall k | 0 <= k < n ensures ids[k] < ids[n] { assert Below(IdRank(ids[k]), IdRank(ids[n])); }
    assert forall k :: 0 <= k < n ==> ids[..n][k] == ids[..n + 1][k];
    var own := OwnIdentity(profiles[ids[n]]);
    forall id | id in index && id != own ensures LastBearer(profiles, ids[..n + 1], id, index[id]) {
      assert LastBearer(profiles, ids[..n], id, index[id]);
    }
  }

  lemma IndexComplete(profiles: map<int, Profile>, ids: seq<int>, index: map<Identity, int>)
    requires forall i :: i in profiles ==> exists k :: 0 <= k < |ids| && ids[k] == i
    requires Indexed(profiles, ids, index)
    ensures IsIndex(index, profiles)
  {
    forall id | id in index ensures Resolves(profiles, id, index[id]) {
      assert LastBearer(profiles, ids, id, index[id]);
      forall j | j in profiles && Bears(profiles[j], id) ensures j <= index[id] {
        var k :| 0 <= k < |ids| && ids[k] == j;
      }
    }
    forall i | i in profiles ensures OwnIdentity(profiles[i]) in index {
      var k :| 0 <= k < |ids| && ids[k] == i;
    }
  }

  lemma AllCompleted(db: Db)
    requires Valid(db)
    ensures AllKnown(Started(db).profiles)
  {
    hide FirstPlatform;
  }

  lemma EmptyOrder(db: Db)
    requires Valid(db)
    ensures AllLinked(db.subs, []) && RepairedAll(db, []) == db
  {
  }

  lemma LinkedPrefix(subs: map<int, Subscription>, order: seq<int>, n: nat)
    requires AllLinked(subs, order) && n <= |order|
    ensures AllLinked(subs, order[..n])
  {
  }

  lemma RepairedStep(db: Db, order: seq<int>, n: nat)
    requires Valid(db) && AllLinked(db.subs, order) && n < |order| && AllLinked(db.subs, order[..n])
    ensures AllLinked(db.subs, order[..n + 1])
    ensures var before := RepairedAll(db, order[..n]); var s := order[n];
            && Valid(before) && s in before.subs && before.subs[s].profile.Some?
            && RepairedAll(db, order[..n + 1]) == RepairedOne(before, s)
  {
    hide RepairedOne;
    assert order[..n + 1][..n] == order[..n];
    AllStillLinked(db, order[..n], order[n]);
  }

  lemma IndexDecides(index: map<Identity, int>, profiles: map<int, Profile>, id: Identity)
    requires IsIndex(index, profiles)
    ensures id in index <==> Known(profiles, id)
    ensures id in index ==> index[id] == Holder(profiles, id)
  {
    if id in index { assert Resolves(profiles, id, index[id]); }
  }

  lemma IndexGrows(index: map<Identity, int>, profiles: map<int, Profile>, i: int, p: Profile, id: Identity)
    requires IsIndex(index, profiles) && id !in index && i !in profiles && Bears(p, id)
    ensures IsIndex(index[id := i], profiles[i := p])
  {
    forall other | other in index && other != id ensures Resolves(profiles[i := p], other, index[other]) {
      assert Resolves(profiles, other, index[other]);
    }
    forall j | j in profiles ensures !Bears(profiles[j], id) {
      assert OwnIdentity(profiles[j]) in index;
    }
  }

  lemma AllStillLinked(db: Db, order: seq<int>, s: int)
    requires Valid(db) && AllLinked(db.subs, order)
    requires s in db.subs && db.subs[s].profile.Some?
    ensures Valid(RepairedAll(db, order))
    ensures s in RepairedAll(db, order).subs && RepairedAll(db, order).subs[s].profile.Some?
  {
  }

  // ---- What the repair achieves ---------------------------------------------------

  ghost predicate AllAreSettled(db: Db, order: seq<int>) {
    forall k :: 0 <= k < |order| ==> Settled(db, order[k])
  }

  lemma {:induction false} AllSettled(db: Db, order: seq<int>)
    requires Valid(db) && AllLinked(db.subs, order)
    ensures AllAreSettled(RepairedAll(db, order), order)
  {
    hide RepairedOne, Extends, Settled;
    if order != [] {
      var n := |order| - 1;
      AllSettled(db, order[..n]);
      AllStillLinked(db, order[..n], order[n]);
      RepairOneExtends(RepairedAll(db, order[..n]), order[n]);
      forall k | 0 <= k < n && order[k] != order[n] ensures Settled(RepairedAll(db, order), order[k]) {
        assert Settled(RepairedAll(db, order[..n]), order[..n][k]);
      }
    }
  }

  /** After one run every linked subscription is on a profile of its own platform and
      handle; no profile is deleted or renamed; unlinked subscriptions are untouched. */
  lemma EverySubscriptionRepaired(db: Db)
    requires Valid(db)
    ensures var after := Repaired(db);
            && Valid(after)
            && (forall s :: s in db.subs && db.subs[s].profile.Some? ==>
                  && s in after.subs && after.subs[s].profile.Some?
                  && after.subs[s].profile.value in after.profiles
                  && Bears(after.profiles[after.subs[s].profile.value], IdentityOf(db.subs[s])))
            && (forall i :: i in db.profiles ==>
                  && i in after.profiles
                  && after.profiles[i].name == db.profiles[i].name && after.profiles[i].rest == db.profiles[i].rest
                  && after.profiles[i].platform.Some?
                  && (db.profiles[i].platform.Some? ==> after.profiles[i] == db.profiles[i]))
            && after.subs.Keys == db.subs.Keys
            && (forall s :: s in db.subs && db.subs[s].profile.None? ==> after.subs[s] == db.subs[s])
  {
    var start, after := Started(db), Repaired(db);
    AllSettled(start, Order(db));
    assert Extends(start, after);
    hide RepairedAll, FirstPlatform;
    forall s | s in db.subs && db.subs[s].profile.Some?
      ensures Settled(after, s) && IdentityOf(after.subs[s]) == IdentityOf(db.subs[s])
    {
      OrderLists(db, s);
      assert after.subs[s].(profile := None) == db.subs[s].(profile := None);
    }
  }

  // ---- A second run changes nothing -----------------------------------------------

  lemma SettledStays(db: Db, s: int)
    requires Valid(db) && Settled(db, s)
    ensures RepairedOne(db, s) == db
  {
    var sub := db.subs[s];
    var id := IdentityOf(sub);
    assert Bears(db.profiles[sub.profile.value], id);
    assert Known(db.profiles, id);
    assert Resolves(db.profiles, id, Holder(db.profiles, id));
    assert sub.(profile := Some(Holder(db.profiles, id))) == sub;
  }

  lemma SettledLinked(db: Db, order: seq<int>)
    requires AllAreSettled(db, order)
    ensures AllLinked(db.subs, order)
  {
    forall k | 0 <= k < |order| ensures order[k] in db.subs && db.subs[order[k]].profile.Some? {
      assert Settled(db, order[k]);
    }
  }

  lemma {:induction false} SettledAllStay(db: Db, order: seq<int>)
    requires Valid(db) && AllAreSettled(db, order) && AllLinked(db.subs, order)
    ensures RepairedAll(db, order) == db
  {
    hide Settled, Extends;
    if order != [] {
      var n := |order| - 1;
      SettledAllStay(db, order[..n]);
      SettledStays(db, order[n]);
    }
  }

  lemma {:induction false} PlatformsStayKnown(db: Db, order: seq<int>)
    requires Valid(db) && AllLinked(db.subs, order)
    requires forall i :: i in db.profiles ==> db.profiles[i].platform.Some?
    ensures forall i :: i in RepairedAll(db, order).profiles ==> RepairedAll(db, order).profiles[i].platform.Some?
  {
    hide Extends, Holder;
    if order != [] {
      var n := |order| - 1;
      PlatformsStayKnown(db, order[..n]);
      AllStillLinked(db, order[..n], order[n]);
    }
  }

  lemma OrderLists(db: Db, s: int)
    requires s in Linked(db)
    ensures exists k :: 0 <= k < |Order(db)| && Order(db)[k] == s
  {
    assert s in Elements(Order(db));
  }

  lemma NothingToComplete(db: Db)
    requires Valid(db) && forall i :: i in db.profiles ==> db.profiles[i].platform.Some?
    ensures Started(db) == db
  {
    hide FirstPlatform;
    assert CompletedAll(db, Order(db)) == db.profiles;
  }

  lemma StillSettled(db: Db)
    requires Valid(db)
    ensures AllAreSettled(Repaired(db), Order(Repaired(db)))
  {
    var after := Repaired(db);
    AllSettled(Started(db), Order(db));
    OrderLinked(after);
    assert Extends(Started(db), after);
    hide RepairedAll, Extends, Settled, FirstPlatform;
    forall k | 0 <= k < |Order(after)| ensures Settled(after, Order(after)[k]) {
      var s := Order(after)[k];
      SameLinks(db, s);
      OrderLists(db, s);
    }
  }

  lemma SecondRunIsNoOp(db: Db)
    requires Valid(db)
    ensures Valid(Repaired(db)) && Repaired(Repaired(db)) == Repaired(db)
  {
    var start, after := Started(db), Repaired(db);
    assert Extends(start, after);
    PlatformsStayKnown(start, Order(db));
    StillSettled(db);
    hide *;
    assert Valid(after) by { RepairedValid(db); }
    FinishedIsFixed(after);
  }

  lemma RepairedValid(db: Db)
    requires Valid(db)
    ensures Valid(Repaired(db))
    ensures forall i :: i in Repaired(db).profiles ==> Repaired(db).profiles[i].platform.Some?
  {
    assert Extends(Started(db), Repaired(db));
    hide FirstPlatform;
    PlatformsStayKnown(Started(db), Order(db));
  }

  lemma FinishedIsFixed(db: Db)
    requires Valid(db) && AllAreSettled(db, Order(db))
    requires forall i :: i in db.profiles ==> db.profiles[i].platform.Some?
    ensures Repaired(db) == db
  {
    NothingToComplete(db);
    SettledLinked(db, Order(db));
    SettledAllStay(db, Order(db));
  }

  lemma SameLinks(db: Db, s: int)
    requires Valid(db) && s in Linked(Repaired(db))
    ensures s in Linked(db)
  {
    assert Extends(Started(db), Repaired(db));
  }

  // ---- Where new profiles come from -----------------------------------------------

  /** Profile `i` was made for one of the listed subscriptions: it bears its identity and
      has the other columns of the profile the subscription was on before. */
  ghost predicate MadeFor(db: Db, order: seq<int>, p: Profile) {
    exists k :: 0 <= k < |order| && order[k] in db.subs && db.subs[order[k]].profile.Some?
                && db.subs[order[k]].profile.value in db.profiles
                && Bears(p, IdentityOf(db.subs[order[k]]))
                && p.rest == db.profiles[db.subs[order[k]].profile.value].rest
  }

  lemma {:induction false} NotYetRepaired(db: Db, order: seq<int>, s: int)
    requires Valid(db) && AllLinked(db.subs, order)
    requires s !in order && s in db.subs
    ensures s in RepairedAll(db, order).subs && RepairedAll(db, order).subs[s] == db.subs[s]
  {
    hide Extends, Holder;
    if order != [] {
      var n := |order| - 1;
      assert order == order[..n] + [order[n]];
      NotYetRepaired(db, order[..n], s);
      AllStillLinked(db, order[..n], order[n]);
    }
  }

  lemma MadeForMore(db: Db, order: seq<int>, n: nat, p: Profile)
    requires n <= |order| && MadeFor(db, order[..n], p)
    ensures MadeFor(db, order, p)
  {
    hide Bears;
    var k :| 0 <= k < n && order[..n][k] in db.subs && db.subs[order[..n][k]].profile.Some?
             && db.subs[order[..n][k]].profile.value in db.profiles
             && Bears(p, IdentityOf(db.subs[order[..n][k]]))
             && p.rest == db.profiles[db.subs[order[..n][k]].profile.value].rest;
    assert order[..n][k] == order[k];
  }

  lemma {:induction false} NewAreMadeFor(db: Db, order: seq<int>, i: int)
    requires Valid(db) && AllLinked(db.subs, order) && Distinct(order)
    requires i in RepairedAll(db, order).profiles && i !in db.profiles
    ensures MadeFor(db, order, RepairedAll(db, order).profiles[i])
  {
    hide Extends, Holder, MadeFor, Known;
    var n := |order| - 1;
    var before, s := RepairedAll(db, order[..n]), order[n];
    AllStillLinked(db, order[..n], s);
    if i in before.profiles {
      NewAreMadeFor(db, order[..n], i);
      MadeForMore(db, order, n, before.profiles[i]);
    } else {
      NotYetRepaired(db, order[..n], s);
      OldProfileKept(db, order[..n], db.subs[s].profile.value);
      JustMade(db, order, RepairedAll(db, order).profiles[i]);
    }
  }

  lemma OldProfileKept(db: Db, order: seq<int>, i: int)
    requires Valid(db) && AllLinked(db.subs, order) && i in db.profiles
    ensures i in RepairedAll(db, order).profiles && RepairedAll(db, order).profiles[i] == db.profiles[i]
  {
    assert Extends(db, RepairedAll(db, order));
  }

  lemma JustMade(db: Db, order: seq<int>, p: Profile)
    requires order != []
    requires var s := order[|order| - 1];
             && s in db.subs && db.subs[s].profile.Some? && db.subs[s].profile.value in db.profiles
             && p == Profile(Some(db.subs[s].platform), db.subs[s].handle, db.profiles[db.subs[s].profile.value].rest)
    ensures MadeFor(db, order, p)
  {
  }

  /** Every profile the repair adds was made for a linked subscription, from the profile
      that subscription was on. */
  lemma NewProfilesInherit(db: Db, i: int)
    requires Valid(db) && i in Repaired(db).profiles && i !in db.profiles
    ensures MadeFor(Started(db), Order(db), Repaired(db).profiles[i])
  {
    AscendingDistinct(Order(db), IdRank);
    NewAreMadeFor(Started(db), Order(db), i);
  }

  // ---- Which platform, which profile ----------------------------------------------

  /** The subscription with the lowest id on a profile. */
  ghost predicate FirstOn(db: Db, profile: int, s: int) {
    && s in db.subs && db.subs[s].profile == Some(profile)
    && forall t :: t in db.subs && db.subs[t].profile == Some(profile) ==> s <= t
  }

  lemma {:induction false} NoneOn(order: seq<int>, subs: map<int, Subscription>, profile: int)
    requires forall k :: 0 <= k < |order| && order[k] in subs ==> subs[order[k]].profile != Some(profile)
    ensures FirstPlatform(order, subs, profile).None?
  {
    if order != [] { NoneOn(order[..|order| - 1], subs, profile); }
  }

  lemma {:induction false} FirstPlatformIs(order: seq<int>, subs: map<int, Subscription>, profile: int, k: nat)
    requires k < |order| && order[k] in subs && subs[order[k]].profile == Some(profile)
    requires forall j :: 0 <= j < k && order[j] in subs ==> subs[order[j]].profile != Some(profile)
    ensures FirstPlatform(order, subs, profile) == Some(subs[order[k]].platform)
  {
    var n := |order| - 1;
    if k < n { FirstPlatformIs(order[..n], subs, profile, k); } else { NoneOn(order[..n], subs, profile); }
  }

  lemma StartedPlatform(db: Db, profile: int, s: int)
    requires Valid(db) && profile in db.profiles && db.profiles[profile].platform.None?
    ensures FirstOn(db, profile, s) ==> Started(db).profiles[profile].platform == Some(db.subs[s].platform)
    ensures (forall t :: t in db.subs ==> db.subs[t].profile != Some(profile)) ==>
              Started(db).profiles[profile].platform == Some(X)
  {
    var order := Order(db);
    if FirstOn(db, profile, s) {
      OrderLists(db, s);
      var k :| 0 <= k < |order| && order[k] == s;
      forall j | 0 <= j < k && order[j] in db.subs ensures db.subs[order[j]].profile != Some(profile) {
        assert Below(IdRank(order[j]), IdRank(order[k]));
      }
      FirstPlatformIs(order, db.subs, profile, k);
    }
    if forall t :: t in db.subs ==> db.subs[t].profile != Some(profile) { NoneOn(order, db.subs, profile); }
  }

  /** A profile without a platform takes that of its first subscription, or X if it has
      none, and keeps it. */
  lemma PlatformExactly(db: Db, profile: int, s: int)
    requires Valid(db) && profile in db.profiles && db.profiles[profile].platform.None?
    ensures profile in Repaired(db).profiles
    ensures FirstOn(db, profile, s) ==> Repaired(db).profiles[profile].platform == Some(db.subs[s].platform)
    ensures (forall t :: t in db.subs ==> db.subs[t].profile != Some(profile)) ==>
              Repaired(db).profiles[profile].platform == Some(X)
  {
    StartedPlatform(db, profile, s);
    OrderLinked(db);
    OldProfileKept(Started(db), Order(db), profile);
    hide FirstPlatform, RepairedAll;
  }

  lemma SettledAfter(db: Db, s: int)
    requires Valid(db) && s in db.subs && db.subs[s].profile.Some?
    ensures Settled(Repaired(db), s) && IdentityOf(Repaired(db).subs[s]) == IdentityOf(db.subs[s])
    ensures Extends(Started(db), Repaired(db)) && Started(db).profiles.Keys == db.profiles.Keys
  {
    AllSettled(Started(db), Order(db));
    OrderLists(db, s);
    var after := Repaired(db);
    assert Extends(Started(db), after);
    hide RepairedAll, FirstPlatform, Settled;
    assert after.subs[s].(profile := None) == db.subs[s].(profile := None);
  }

  lemma OldProfileWins(before: Db, after: Db, id: Identity, i: int, held: int)
    requires Extends(before, after) && Resolves(after.profiles, id, held)
    requires i in before.profiles && Bears(before.profiles[i], id)
    ensures held in before.profiles
  {
    assert Known(before.profiles, id);
    var holder := Holder(before.profiles, id);
    assert Resolves(before.profiles, id, holder);
    assert Resolves(after.profiles, id, holder);
    hide Extends;
  }

  /** A linked subscription ends on the profile with the highest id of those with its
      platform and handle, and on an added one only where no old one has them. */
  lemma ProfileExactly(db: Db, s: int)
    requires Valid(db) && s in db.subs && db.subs[s].profile.Some?
    ensures var after, sub := Repaired(db), db.subs[s];
            && s in after.subs && after.subs[s].platform == sub.platform && after.subs[s].handle == sub.handle
            && after.subs[s].profile.Some? && after.subs[s].profile.value in after.profiles
            && var held := after.subs[s].profile.value;
               && after.profiles[held].platform == Some(sub.platform) && after.profiles[held].name == sub.handle
               && (forall i :: i in after.profiles && i > held ==>
                     after.profiles[i].platform != Some(sub.platform) || after.profiles[i].name != sub.handle)
               && (held !in db.profiles ==>
                     forall i :: i in db.profiles ==>
                       && i in after.profiles
                       && (after.profiles[i].platform != Some(sub.platform) || after.profiles[i].name != sub.handle))
  {
    SettledAfter(db, s);
    var start, after, id := Started(db), Repaired(db), IdentityOf(db.subs[s]);
    var held := after.subs[s].profile.value;
    forall i | i in db.profiles && held !in db.profiles
      ensures i in after.profiles && !Bears(after.profiles[i], id)
    {
      if Bears(start.profiles[i], id) { OldProfileWins(start, after, id, i, held); }
    }
    hide Repaired, Started, Extends;
  }
}
