/** collector/collector_agent/providers/binance_copy.py: one poll of the newest fills, and
    why a history hole between two polls cannot go unnoticed. */
module BinanceCopy {
  import opened Prelude
  import opened TradeModels
  import opened TradeReconciler
  import opened TradeStore
  import opened PositionView
  import opened FetchTheorems
  import opened Refetch
  import opened Scheduler
  import CollectorApi
  import opened Reachable

  const OVERLAP_RECORDS := 100
  const WINDOW_SECONDS := 30 * 86400

  datatype Health = Healthy | Failed | AccessLimited | SchemaChanged

  datatype Trade = Buy | Sell

  /** One order row; the two digests over its fields come with it. */
  datatype Row = Row(recordId: int, revision: int, trade: Trade, bucket: BucketSide, symbol: int,
                     orderTime: int, updateTime: int, quantity: real, price: real, source: int)

  /** What the HTTP request came to. */
  datatype Response = HttpError | BadBody | Refused | Page(rows: seq<Row>, total: int)

  datatype Answer = HistoryGap | Answered(result: FetchResult)

  predicate ValidRow(row: Row) {
    row.bucket in {Long, Short} && row.orderTime > 0 && row.updateTime > 0
    && row.quantity > 0.0 && row.price >= 0.0
  }

  /** `BUY LONG` and `SELL SHORT` increase, the other two decrease. */
  function OperationOf(row: Row): Operation {
    if (row.trade == Buy && row.bucket == Long) || (row.trade == Sell && row.bucket == Short) then Increase
    else Decrease
  }

  function Normalized(row: Row, account: int, observedAt: int): Record {
    Record(BINANCE_COPY, account, row.recordId, row.revision, OperationOf(row), row.symbol, row.bucket,
           Some(row.quantity), Some(row.price), None, row.updateTime, observedAt, row.source)
  }

  function NormalizedAll(rows: seq<Row>, account: int, observedAt: int): (rs: seq<Record>)
    ensures |rs| == |rows|
  {
    seq(|rows|, i requires 0 <= i < |rows| => Normalized(rows[i], account, observedAt))
  }

  predicate ValidPage(page: Response)
    requires page.Page?
  {
    |page.rows| <= OVERLAP_RECORDS && page.total >= |page.rows| && forall row :: row in page.rows ==> ValidRow(row)
  }

  /** `list.sort`: stable insertion by (event time, id, revision). */
  function Placed(s: seq<Record>, r: Record): (out: seq<Record>)
    ensures |out| == |s| + 1
  {
    if s == [] || !Below(RecordRank(r), RecordRank(s[|s| - 1])) then s + [r]
    else Placed(s[..|s| - 1], r) + [s[|s| - 1]]
  }

  function Sorted(rs: seq<Record>): (out: seq<Record>)
    ensures |out| == |rs|
  {
    if rs == [] then [] else Placed(Sorted(rs[..|rs| - 1]), rs[|rs| - 1])
  }

  predicate InPeriod(r: Record, start: int, observedAt: int) { start <= r.eventTime <= observedAt }

  function Within(rs: seq<Record>, start: int, observedAt: int): seq<Record> {
    if rs == [] then []
    else
      var n := |rs| - 1;
      Within(rs[..n], start, observedAt) + if InPeriod(rs[n], start, observedAt) then [rs[n]] else []
  }

  predicate HasId(rs: seq<Record>, id: int) {
    exists i :: 0 <= i < |rs| && rs[i].id == id
  }

  function CheckpointOf(r: Record): Checkpoint { Checkpoint(r.eventTime, r.id) }

  function Candidate(rs: seq<Record>, checkpoint: Option<Checkpoint>): Option<Checkpoint> {
    if rs == [] then checkpoint else Some(CheckpointOf(rs[|rs| - 1]))
  }

  /** Account balance and mark prices, fetched beside the orders; either may be missing. */
  datatype Extras = Extras(account: Option<Account>, marks: map<int, real>)

  function Nothing(checkpoint: Option<Checkpoint>, complete: bool): Answer {
    Answered(FetchResult([], checkpoint, complete, None, map[]))
  }

  datatype Poll = Poll(answer: Answer, health: Health)

  /** The fills of a valid page inside the tracked period, in order. */
  function Fills(target: Target, observedAt: int, page: Response): seq<Record>
    requires page.Page? && target.accountId.Some?
  {
    var sorted := Sorted(NormalizedAll(page.rows, target.accountId.value, observedAt));
    if target.start.Some? then Within(sorted, target.start.value, observedAt) else sorted
  }

  function PageAnswer(target: Target, checkpoint: Option<Checkpoint>, observedAt: int, page: Response,
                      extras: Extras): Poll
    requires page.Page? && target.accountId.Some?
  {
    var rs := Fills(target, observedAt, page);
    if target.start.Some? && page.total > |page.rows| then Poll(HistoryGap, AccessLimited)
    else if checkpoint.Some? && !HasId(rs, checkpoint.value.recordId) then Poll(HistoryGap, AccessLimited)
    else Poll(Answered(FetchResult(rs, Candidate(rs, checkpoint), target.start.Some?, extras.account, extras.marks)),
      Healthy)
  }

  function Polled(target: Target, checkpoint: Option<Checkpoint>, observedAt: int, response: Response,
                  extras: Extras): Poll {
    if target.platform != BINANCE_COPY || target.accountId.None? then Poll(Nothing(checkpoint, false), Failed)
    else if target.start.Some? && observedAt < target.start.value then Poll(Nothing(checkpoint, true), Healthy)
    else if target.start.Some? && target.start.value < observedAt - WINDOW_SECONDS then Poll(HistoryGap, AccessLimited)
    else
      match response
      case HttpError => Poll(Nothing(checkpoint, false), Failed)
      case BadBody => Poll(Nothing(checkpoint, false), SchemaChanged)
      case Refused => Poll(Nothing(checkpoint, false), AccessLimited)
      case Page(_, _) =>
        if !ValidPage(response) then Poll(Nothing(checkpoint, false), SchemaChanged)
        else PageAnswer(target, checkpoint, observedAt, response, extras)
  }

  class BinanceCopyProvider {
    var health: Health

    constructor ()
      ensures health == Healthy
    {
      health := Healthy;
    }

    method Fetch(target: Target, checkpoint: Option<Checkpoint>, observedAt: int, response: Response, extras: Extras)
      returns (answer: Answer)
      modifies this
      ensures Poll(answer, health) == Polled(target, checkpoint, observedAt, response, extras)
    {
      if target.platform != BINANCE_COPY || target.accountId.None? {
        health := Failed;
        return Nothing(checkpoint, false);
      }
      if target.start.Some? {
        if observedAt < target.start.value {
          health := Healthy;
          return Nothing(checkpoint, true);
        }
        if target.start.value < observedAt - WINDOW_SECONDS {
          health := AccessLimited;
          return HistoryGap;
        }
      }
      match response {
        case HttpError =>
          health := Failed;
          return Nothing(checkpoint, false);
        case BadBody =>
          health := SchemaChanged;
          return Nothing(checkpoint, false);
        case Refused =>
          health := AccessLimited;
          return Nothing(checkpoint, false);
        case Page(rows, total) =>
          if !ValidPage(response) {
            health := SchemaChanged;
            return Nothing(checkpoint, false);
          }
          answer := ReadPage(target, checkpoint, observedAt, response, extras);
      }
    }

    method ReadPage(target: Target, checkpoint: Option<Checkpoint>, observedAt: int, page: Response, extras: Extras)
      returns (answer: Answer)
      requires page.Page? && target.accountId.Some?
      modifies this
      ensures Poll(answer, health) == PageAnswer(target, checkpoint, observedAt, page, extras)
    {
      var rs := SortRows(page.rows, target.accountId.value, observedAt);
      if target.start.Some? {
        if page.total > |page.rows| {
          health := AccessLimited;
          return HistoryGap;
        }
        rs := KeepPeriod(rs, target.start.value, observedAt);
      }
      if checkpoint.Some? && !HasId(rs, checkpoint.value.recordId) {
        health := AccessLimited;
        return HistoryGap;
      }
      health := Healthy;
      answer := Answered(FetchResult(rs, Candidate(rs, checkpoint), target.start.Some?, extras.account, extras.marks));
    }

    static method SortRows(rows: seq<Row>, account: int, observedAt: int) returns (rs: seq<Record>)
      ensures rs == Sorted(NormalizedAll(rows, account, observedAt))
    {
      var all := NormalizedAll(rows, account, observedAt);
      rs := [];
      for i := 0 to |all|
        invariant rs == Sorted(all[..i])
      {
        assert all[..i + 1][..i] == all[..i];
        rs := Placed(rs, all[i]);
      }
      assert all[..|all|] == all;
    }

    static method KeepPeriod(rs: seq<Record>, start: int, observedAt: int) returns (kept: seq<Record>)
      ensures kept == Within(rs, start, observedAt)
    {
      kept := [];
      for i := 0 to |rs|
        invariant kept == Within(rs[..i], start, observedAt)
      {
        assert rs[..i + 1][..i] == rs[..i];
        if InPeriod(rs[i], start, observedAt) { kept := kept + [rs[i]]; }
      }
      assert rs[..|rs|] == rs;
    }
  }

  // ---- The source -----------------------------------------------------------------

  /** Everything the source ever published, in (event time, id) order; it only appends. */
  ghost predicate IsSource(source: seq<Record>) {
    && (forall i :: 0 <= i < |source| ==> source[i].observedAt == 0)
    && (forall i, j :: 0 <= i < j < |source| ==>
          source[i].id != source[j].id && CheckpointBefore(CheckpointOf(source[i]), CheckpointOf(source[j])))
  }

  /** `rs` is the slice [from, to) of the source as observed at some moment. */
  ghost predicate Shows(rs: seq<Record>, source: seq<Record>, from: nat, to: nat) {
    && from <= to <= |source| && |rs| == to - from
    && forall i :: 0 <= i < |rs| ==> Canonical(rs[i]) == source[from + i]
  }

  lemma {:induction false} PlacedAscending(s: seq<Record>, r: Record)
    requires Ascending(s, RecordRank) && forall x :: x in s ==> x.id != r.id
    ensures Ascending(Placed(s, r), RecordRank) && Elements(Placed(s, r)) == Elements(s) + {r}
  {
    if s == [] || !Below(RecordRank(r), RecordRank(s[|s| - 1])) {
      assert s != [] ==> s[|s| - 1] in s;
    } else {
      var n := |s| - 1;
      assert s == s[..n] + [s[n]];
      PlacedAscending(s[..n], r);
      AppendGreatest(Placed(s[..n], r), s[n], RecordRank);
      assert Elements(s) == Elements(s[..n]) + {s[n]} by { LastElement(s); }
      hide Placed;
    }
  }

  ghost predicate DistinctIds(rs: seq<Record>) {
    forall i, j :: 0 <= i < j < |rs| ==> rs[i].id != rs[j].id
  }

  lemma {:induction false} SortedAscending(rs: seq<Record>)
    requires DistinctIds(rs)
    ensures Ascending(Sorted(rs), RecordRank) && Elements(Sorted(rs)) == Elements(rs)
  {
    if rs != [] {
      var n := |rs| - 1;
      SortedAscending(rs[..n]);
      assert rs == rs[..n] + [rs[n]];
      forall x | x in Sorted(rs[..n]) ensures x.id != rs[n].id {
        assert x in Elements(Sorted(rs[..n]));
        var i :| 0 <= i < n && rs[i] == x;
      }
      PlacedAscending(Sorted(rs[..n]), rs[n]);
      assert Elements(rs) == Elements(rs[..n]) + {rs[n]};
    }
  }

  /** A page lists each record of the slice [from, to) once, in any order. */
  ghost predicate Lists(rs: seq<Record>, source: seq<Record>, from: nat, to: nat) {
    && from <= to <= |source| && DistinctIds(rs)
    && (set r | r in rs :: Canonical(r)) == Elements(source[from..to])
  }

  lemma SliceAscending(source: seq<Record>, from: nat, to: nat)
    requires IsSource(source) && from <= to <= |source|
    ensures Ascending(source[from..to], RecordRank)
  {
  }

  /** Sorting a page restores the source's order. */
  lemma SortedPageShows(rs: seq<Record>, source: seq<Record>, from: nat, to: nat)
    requires IsSource(source) && Lists(rs, source, from, to)
    ensures Shows(Sorted(rs), source, from, to)
  {
    SortedAscending(rs);
    SliceAscending(source, from, to);
    hide Sorted, IsSource, RecordRank, Canonical;
    var sorted := Sorted(rs);
    CanonicalsAscend(sorted);
    CanonicalElements(sorted, rs);
    AscendingUnique(Canonicals(sorted), source[from..to], RecordRank);
    assert forall i :: 0 <= i < |sorted| ==> Canonicals(sorted)[i] == source[from..to][i];
  }

  lemma PeriodConvex(source: seq<Record>, i: nat, j: nat, k: nat, start: int, observedAt: int)
    requires IsSource(source) && i <= j <= k < |source|
    ensures InPeriod(source[i], start, observedAt) && InPeriod(source[k], start, observedAt)
            ==> InPeriod(source[j], start, observedAt)
  {
    assert i < j ==> CheckpointBefore(CheckpointOf(source[i]), CheckpointOf(source[j]));
    assert j < k ==> CheckpointBefore(CheckpointOf(source[j]), CheckpointOf(source[k]));
  }

  /** The records of a period are a contiguous slice of the source. */
  lemma {:induction false} PeriodIsSlice(source: seq<Record>, from: nat, to: nat, start: int, observedAt: int)
    returns (low: nat, high: nat)
    requires IsSource(source) && from <= to <= |source|
    ensures from <= low <= high <= to
    ensures forall i :: from <= i < to ==> (InPeriod(source[i], start, observedAt) <==> low <= i < high)
  {
    hide IsSource, InPeriod;
    if from == to {
      low, high := from, to;
    } else {
      low, high := PeriodIsSlice(source, from, to - 1, start, observedAt);
      if InPeriod(source[to - 1], start, observedAt) {
        if low < high {
          PeriodConvex(source, low, if high < to - 1 then high else to - 1, to - 1, start, observedAt);
        } else {
          low := to - 1;
        }
        high := to;
      }
    }
  }

  lemma {:induction false} WithinConcat(a: seq<Record>, b: seq<Record>, start: int, observedAt: int)
    ensures Within(a + b, start, observedAt) == Within(a, start, observedAt) + Within(b, start, observedAt)
  {
    hide InPeriod;
    if b == [] {
      assert a + b == a;
    } else {
      var n := |b| - 1;
      assert (a + b)[..|a| + n] == a + b[..n];
      WithinConcat(a, b[..n], start, observedAt);
    }
  }

  lemma {:induction false} WithinEdges(rs: seq<Record>, start: int, observedAt: int)
    ensures (forall r :: r in rs ==> InPeriod(r, start, observedAt)) ==> Within(rs, start, observedAt) == rs
    ensures (forall r :: r in rs ==> !InPeriod(r, start, observedAt)) ==> Within(rs, start, observedAt) == []
  {
    hide InPeriod;
    if rs != [] {
      var n := |rs| - 1;
      assert rs == rs[..n] + [rs[n]];
      WithinEdges(rs[..n], start, observedAt);
    }
  }

  lemma WithinIsSlice(rs: seq<Record>, low: nat, high: nat, start: int, observedAt: int)
    requires low <= high <= |rs|
    requires forall i :: 0 <= i < |rs| ==> (InPeriod(rs[i], start, observedAt) <==> low <= i < high)
    ensures Within(rs, start, observedAt) == rs[low..high]
  {
    hide InPeriod, Within;
    var front, middle, back := rs[..low], rs[low..high], rs[high..];
    assert rs == (front + middle) + back;
    WithinEdges(front, start, observedAt);
    WithinEdges(middle, start, observedAt);
    WithinEdges(back, start, observedAt);
    WithinConcat(front, middle, start, observedAt);
    WithinConcat(front + middle, back, start, observedAt);
    assert [] + middle + [] == middle;
  }

  lemma WithinShows(rs: seq<Record>, source: seq<Record>, from: nat, to: nat, start: int, observedAt: int)
    returns (low: nat, high: nat)
    requires IsSource(source) && Shows(rs, source, from, to)
    ensures from <= low <= high <= to && Shows(Within(rs, start, observedAt), source, low, high)
  {
    low, high := PeriodIsSlice(source, from, to, start, observedAt);
    hide IsSource;
    forall i | 0 <= i < |rs|
      ensures InPeriod(rs[i], start, observedAt) <==> low - from <= i < high - from
    {
      assert Canonical(rs[i]) == source[from + i];
    }
    WithinIsSlice(rs, low - from, high - from, start, observedAt);
  }

  // ---- No silent gap --------------------------------------------------------------

  /** A fetch result that came out of the provider: a slice of the source that contains
      the checkpoint, if there is one, and moves it to its own last record. */
  ghost predicate FromSource(result: FetchResult, source: seq<Record>, checkpoint: Option<Checkpoint>, from: nat,
                             to: nat) {
    && Shows(result.records, source, from, to)
    && (checkpoint.Some? ==> HasId(result.records, checkpoint.value.recordId))
    && result.candidate == Candidate(result.records, checkpoint)
  }

  /** The provider hands on nothing else: whatever page of the source it is shown, a
      healthy answer with records comes from one slice of it. */
  lemma AnswersComeFromSource(target: Target, checkpoint: Option<Checkpoint>, observedAt: int, page: Response,
                              extras: Extras, source: seq<Record>, from: nat, to: nat)
    returns (low: nat, high: nat)
    requires page.Page? && ValidPage(page) && target.accountId.Some? && IsSource(source)
    requires Lists(NormalizedAll(page.rows, target.accountId.value, observedAt), source, from, to)
    requires PageAnswer(target, checkpoint, observedAt, page, extras).answer.Answered?
    ensures FromSource(PageAnswer(target, checkpoint, observedAt, page, extras).answer.result, source, checkpoint, low,
            high)
    ensures from <= low <= high <= to
    ensures target.start.None? ==> low == from && high == to
  {
    hide Sorted, Lists, IsSource, Within;
    var rs := NormalizedAll(page.rows, target.accountId.value, observedAt);
    SortedPageShows(rs, source, from, to);
    low, high := from, to;
    if target.start.Some? {
      low, high := WithinShows(Sorted(rs), source, from, to, target.start.value, observedAt);
    } else {
      assert from <= to by { assert Shows(Sorted(rs), source, from, to); }
    }
  }

  /** The checkpoint, where there is one, is a record of the source. */
  ghost predicate CheckpointAt(checkpoint: Option<Checkpoint>, source: seq<Record>, last: nat) {
    last < |source| && checkpoint == Some(CheckpointOf(source[last]))
  }

  lemma OverlapReaches(result: FetchResult, source: seq<Record>, checkpoint: Option<Checkpoint>, from: nat, to: nat,
                       last: nat)
    requires IsSource(source) && FromSource(result, source, checkpoint, from, to)
    requires CheckpointAt(checkpoint, source, last)
    ensures from <= last < to
  {
    var i :| 0 <= i < |result.records| && result.records[i].id == checkpoint.value.recordId;
    assert Canonical(result.records[i]) == source[from + i];
    assert from + i == last;
  }

  lemma CandidateIsLast(result: FetchResult, source: seq<Record>, checkpoint: Option<Checkpoint>, from: nat, to: nat)
    requires FromSource(result, source, checkpoint, from, to) && from < to
    ensures CheckpointAt(result.candidate, source, to - 1)
  {
    var n := |result.records| - 1;
    assert Canonical(result.records[n]) == source[from + n];
  }

  /** A fetch that passes the provider's overlap check is never refused by the store for
      moving the checkpoint backwards. */
  lemma OverlapNeverBackwards(result: FetchResult, source: seq<Record>, checkpoint: Option<Checkpoint>,
                              from: nat, to: nat, last: nat, subscription: int, target: Target)
    requires IsSource(source) && FromSource(result, source, checkpoint, from, to)
    requires checkpoint.Some? ==> CheckpointAt(checkpoint, source, last)
    ensures FetchErrorOf(subscription, target, result, checkpoint) != Some(CheckpointBackwards)
    ensures checkpoint.Some? ==> result.candidate.Some? && !CheckpointBefore(result.candidate.value, checkpoint.value)
  {
    NeverBackwardsError(result.records, target);
    if checkpoint.Some? {
      OverlapReaches(result, source, checkpoint, from, to, last);
      CandidateIsLast(result, source, checkpoint, from, to);
    }
  }

  lemma {:induction false} NeverBackwardsError(rs: seq<Record>, target: Target)
    ensures FirstRecordError(rs, target) != Some(CheckpointBackwards)
  {
    if rs != [] { NeverBackwardsError(rs[..|rs| - 1], target); }
  }

  ghost predicate Has(ledger: Ledger, r: Record) {
    RecordKey(r) in ledger && ledger[RecordKey(r)].canon == r
  }

  /** The ledger holds the source records [from, to) with their content. */
  ghost predicate Covers(ledger: Ledger, source: seq<Record>, from: nat, to: nat) {
    to <= |source| && forall i :: from <= i < to ==> Has(ledger, source[i])
  }

  datatype Slice = Slice(from: nat, to: nat)

  /** Every fetch of the run came from the source, given the checkpoint it started from. */
  ghost predicate RunFromSource(t: Tables, target: Target, results: seq<FetchResult>, source: seq<Record>,
                                slices: seq<Slice>)
    requires Shaped(t.ledger)
  {
    && |slices| == |results|
    && (results != [] ==>
          var n := |results| - 1;
          var before := AfterFetches(t, target, results[..n]);
          && before.Some?
          && FromSource(results[n], source, before.value.Checkpoint(), slices[n].from, slices[n].to)
          && RunFromSource(t, target, results[..n], source, slices[..n]))
  }

  lemma FetchCovers(t: Tables, target: Target, result: FetchResult, source: seq<Record>, from: nat, to: nat,
                    first: nat, last: nat)
    requires Shaped(t.ledger) && FetchInto(t, target.subscription, target, result).Accepted?
    requires Shows(result.records, source, from, to)
    requires Covers(t.ledger, source, first, last) && from <= last
    ensures Covers(FetchInto(t, target.subscription, target, result).tables.ledger, source, first, to)
  {
    FetchedLedger(t, target, result);
    LedgerHoldsItself(t.ledger);
    MergeHolds(t.ledger, RecordSet(t.ledger), result.records);
    BoundsOf(result.records, source, from, to);
    var after := FetchInto(t, target.subscription, target, result).tables.ledger;
    hide FetchInto, MergeAll, Agree, Holds, RecordSet, Covers, Shows;
    CoversMore(t.ledger, after, result.records, source, from, to, first, last);
  }

  lemma CoversMore(before: Ledger, after: Ledger, rs: seq<Record>, source: seq<Record>, from: nat, to: nat,
                   first: nat, last: nat)
    requires Shaped(before) && Holds(after, RecordSet(before) + Elements(rs))
    requires Shows(rs, source, from, to) && Covers(before, source, first, last) && from <= last
    ensures Covers(after, source, first, to)
  {
    hide Holds, RecordSet;
    forall i | first <= i < to ensures Has(after, source[i]) {
      if i < last { OldRowKept(before, after, rs, source[i]); }
      else { NewRowHeld(before, after, rs, i - from, source[i]); }
    }
  }

  lemma OldRowKept(before: Ledger, after: Ledger, rs: seq<Record>, r: Record)
    requires Shaped(before) && Holds(after, RecordSet(before) + Elements(rs))
    requires Has(before, r)
    ensures Has(after, r)
  {
    var known := RecordOf(before[RecordKey(r)]);
    assert known in RecordSet(before) + Elements(rs);
    assert RecordKey(known) == RecordKey(r) && Canonical(known) == r;
  }

  lemma NewRowHeld(before: Ledger, after: Ledger, rs: seq<Record>, i: nat, r: Record)
    requires Holds(after, RecordSet(before) + Elements(rs))
    requires i < |rs| && Canonical(rs[i]) == r
    ensures Has(after, r)
  {
    assert rs[i] in RecordSet(before) + Elements(rs);
    assert RecordKey(rs[i]) == RecordKey(r);
  }

  lemma FirstWindowCovers(t: Tables, target: Target, result: FetchResult, source: seq<Record>, from: nat, to: nat)
    requires Shaped(t.ledger) && FetchInto(t, target.subscription, target, result).Accepted?
    requires FromSource(result, source, t.Checkpoint(), from, to) && from < to
    ensures var after := FetchInto(t, target.subscription, target, result).tables;
            Covers(after.ledger, source, from, to) && CheckpointAt(after.Checkpoint(), source, to - 1)
  {
    BoundsOf(result.records, source, from, to);
    NothingCovered(t.ledger, source, from);
    CandidateIsLast(result, source, t.Checkpoint(), from, to);
    FetchedCheckpoint(t, target, result);
    hide FetchInto, Covers, Shows, HasId;
    FetchCovers(t, target, result, source, from, to, from, from);
  }

  lemma NextWindowCovers(t: Tables, target: Target, result: FetchResult, source: seq<Record>, from: nat, to: nat,
                         first: nat, last: nat)
    requires IsSource(source)
    requires Shaped(t.ledger) && FetchInto(t, target.subscription, target, result).Accepted?
    requires FromSource(result, source, t.Checkpoint(), from, to)
    requires 0 < last && Covers(t.ledger, source, first, last) && CheckpointAt(t.Checkpoint(), source, last - 1)
    ensures last <= to
    ensures var after := FetchInto(t, target.subscription, target, result).tables;
            Covers(after.ledger, source, first, to) && CheckpointAt(after.Checkpoint(), source, to - 1)
  {
    BoundsOf(result.records, source, from, to);
    OverlapReaches(result, source, t.Checkpoint(), from, to, last - 1);
    CandidateIsLast(result, source, t.Checkpoint(), from, to);
    FetchedCheckpoint(t, target, result);
    hide FetchInto, Covers, Shows, HasId, IsSource;
    FetchCovers(t, target, result, source, from, to, first, last);
  }

  lemma FirstOfRun(t: Tables, target: Target, results: seq<FetchResult>, source: seq<Record>, slices: seq<Slice>)
    requires Shaped(t.ledger) && results != []
    requires AfterFetches(t, target, results).Some? && RunFromSource(t, target, results, source, slices)
    requires slices[|slices| - 1].from < slices[|slices| - 1].to
    ensures var after, s := AfterFetches(t, target, results).value, slices[|slices| - 1];
            Covers(after.ledger, source, s.from, s.to) && CheckpointAt(after.Checkpoint(), source, s.to - 1)
  {
    hide FetchInto, Covers, CheckpointAt, FromSource;
    var n := |results| - 1;
    FirstWindowCovers(AfterFetches(t, target, results[..n]).value, target, results[n], source, slices[n].from,
      slices[n].to);
  }

  lemma NextOfRun(t: Tables, target: Target, results: seq<FetchResult>, source: seq<Record>, slices: seq<Slice>,
                  first: nat, last: nat)
    requires Shaped(t.ledger) && results != [] && IsSource(source)
    requires AfterFetches(t, target, results).Some? && RunFromSource(t, target, results, source, slices)
    requires AfterFetches(t, target, results[..|results| - 1]).Some?
    requires var before := AfterFetches(t, target, results[..|results| - 1]).value;
             0 < last && Covers(before.ledger, source, first, last)
               && CheckpointAt(before.Checkpoint(), source, last - 1)
    ensures var after, s := AfterFetches(t, target, results).value, slices[|slices| - 1];
            last <= s.to && Covers(after.ledger, source, first, s.to)
              && CheckpointAt(after.Checkpoint(), source, s.to - 1)
  {
    hide FetchInto, Covers, CheckpointAt, FromSource, IsSource;
    var n := |results| - 1;
    NextWindowCovers(AfterFetches(t, target, results[..n]).value, target, results[n], source,
                     slices[n].from, slices[n].to, first, last);
  }

  /** Over any run of accepted fetches of an epoch, the ledger holds every source record
      from any non-empty window on, the first included, to the end of the last one, and the
      checkpoint sits on the last record: no hole goes unnoticed. */
  lemma {:induction false} NoSilentGap(t: Tables, target: Target, results: seq<FetchResult>, source: seq<Record>,
                                       slices: seq<Slice>, m: nat)
    requires Shaped(t.ledger) && IsSource(source)
    requires AfterFetches(t, target, results).Some? && RunFromSource(t, target, results, source, slices)
    requires m < |slices| && slices[m].from < slices[m].to
    ensures var after, last := AfterFetches(t, target, results).value, slices[|slices| - 1].to;
            && slices[m].to <= last
            && Covers(after.ledger, source, slices[m].from, last)
            && CheckpointAt(after.Checkpoint(), source, last - 1)
  {
    hide FetchInto, IsSource, Covers, FromSource, CheckpointAt;
    var n := |results| - 1;
    if n == m {
      FirstOfRun(t, target, results, source, slices);
    } else {
      NoSilentGap(t, target, results[..n], source, slices[..n], m);
      NextOfRun(t, target, results, source, slices, slices[m].from, slices[n - 1].to);
    }
  }

  // ---- A complete answer is complete ----------------------------------------------

  ghost function InPeriodOf(source: seq<Record>, start: int, observedAt: int): set<Record> {
    set r | r in source && InPeriod(r, start, observedAt)
  }

  /** The source answers a request for [start, observedAt]: distinct records of that period,
      as many as fit, and the true number of them. */
  ghost predicate Serves(rs: seq<Record>, total: int, source: seq<Record>, start: int, observedAt: int) {
    && DistinctIds(rs)
    && (forall r :: r in rs ==> Canonical(r) in source && InPeriod(r, start, observedAt))
    && total == |InPeriodOf(source, start, observedAt)|
  }

  lemma {:induction false} DistinctContents(rs: seq<Record>)
    requires DistinctIds(rs)
    ensures |set r | r in rs :: Canonical(r)| == |rs|
  {
    if rs != [] {
      var n := |rs| - 1;
      DistinctContents(rs[..n]);
      LastElement(rs);
      var before := set r | r in rs[..n] :: Canonical(r);
      assert forall r :: r in rs <==> r in rs[..n] || r == rs[n];
      assert (set r | r in rs :: Canonical(r)) == before + {Canonical(rs[n])};
      assert Canonical(rs[n]) !in before;
    }
  }

  lemma SliceMembers(source: seq<Record>, low: nat, high: nat, start: int, observedAt: int)
    requires low <= high <= |source|
    requires forall i :: 0 <= i < |source| ==> (InPeriod(source[i], start, observedAt) <==> low <= i < high)
    ensures Elements(source[low..high]) == InPeriodOf(source, start, observedAt)
  {
    hide InPeriod;
    forall r | r in InPeriodOf(source, start, observedAt) ensures r in source[low..high] {
      var i :| 0 <= i < |source| && source[i] == r;
      assert source[low..high][i - low] == r;
    }
    forall r | r in source[low..high] ensures r in InPeriodOf(source, start, observedAt) {
      var i :| 0 <= i < high - low && source[low..high][i] == r;
      assert source[low + i] == r;
    }
  }

  lemma ServedAll(rs: seq<Record>, total: int, source: seq<Record>, start: int, observedAt: int)
    requires Serves(rs, total, source, start, observedAt) && total <= |rs|
    ensures (set r | r in rs :: Canonical(r)) == InPeriodOf(source, start, observedAt)
  {
    DistinctContents(rs);
    var contents := set r | r in rs :: Canonical(r);
    forall c | c in contents ensures c in InPeriodOf(source, start, observedAt) {
      var r :| r in rs && Canonical(r) == c;
    }
    SubsetSize(contents, InPeriodOf(source, start, observedAt));
    SameSize(contents, InPeriodOf(source, start, observedAt));
  }

  /** With a start time configured, an answer that is no gap holds every record the source
      published from the start time to the poll: the history is complete as claimed. */
  lemma CompleteAnswerHoldsPeriod(target: Target, checkpoint: Option<Checkpoint>, observedAt: int, page: Response,
                                  extras: Extras, source: seq<Record>) returns (low: nat, high: nat)
    requires page.Page? && ValidPage(page) && target.accountId.Some? && target.start.Some? && IsSource(source)
    requires Serves(NormalizedAll(page.rows, target.accountId.value, observedAt), page.total, source,
             target.start.value, observedAt)
    requires PageAnswer(target, checkpoint, observedAt, page, extras).answer.Answered?
    ensures low <= high <= |source|
    ensures forall i :: 0 <= i < |source| ==> (InPeriod(source[i], target.start.value, observedAt) <==> low <= i < high)
    ensures Shows(PageAnswer(target, checkpoint, observedAt, page, extras).answer.result.records, source, low, high)
  {
    var start := target.start.value;
    var rs := NormalizedAll(page.rows, target.accountId.value, observedAt);
    low, high := PeriodIsSlice(source, 0, |source|, start, observedAt);
    assert page.total <= |page.rows|;
    assert Fills(target, observedAt, page) == Within(Sorted(rs), start, observedAt);
    ServedAll(rs, page.total, source, start, observedAt);
    SliceMembers(source, low, high, start, observedAt);
    assert Lists(rs, source, low, high);
    hide Lists, IsSource, Serves, InPeriod, Sorted, Within, ValidPage;
    SortedPageShows(rs, source, low, high);
    AllWithin(Sorted(rs), source, low, high, start, observedAt);
  }

  lemma AllWithin(rs: seq<Record>, source: seq<Record>, low: nat, high: nat, start: int, observedAt: int)
    requires Shows(rs, source, low, high)
    requires forall i :: low <= i < high ==> InPeriod(source[i], start, observedAt)
    ensures Within(rs, start, observedAt) == rs
  {
    forall i | 0 <= i < |rs| ensures InPeriod(rs[i], start, observedAt) {
      assert Canonical(rs[i]) == source[low + i];
    }
    WithinIsSlice(rs, 0, |rs|, start, observedAt);
    assert rs[0..|rs|] == rs;
  }

  /** Once the store accepts it, the ledger holds the whole period. */
  lemma CompleteLedger(t: Tables, target: Target, result: FetchResult, source: seq<Record>, low: nat, high: nat)
    requires Shaped(t.ledger) && Shows(result.records, source, low, high)
    requires FetchInto(t, target.subscription, target, result).Accepted?
    ensures Covers(FetchInto(t, target.subscription, target, result).tables.ledger, source, low, high)
  {
    BoundsOf(result.records, source, low, high);
    NothingCovered(t.ledger, source, low);
    hide FetchInto, Covers, Shows;
    FetchCovers(t, target, result, source, low, high, low, low);
  }

  // ---- One revision per record ----------------------------------------------------

  /** The ledger holds nothing but records of the source. */
  ghost predicate StoredFrom(ledger: Ledger, source: seq<Record>) {
    forall k :: k in ledger ==> ledger[k].canon in source
  }

  lemma SourceHasOneRevision(ledger: Ledger, source: seq<Record>)
    requires Shaped(ledger) && IsSource(source) && StoredFrom(ledger, source)
    ensures OneRevision(ledger)
  {
    forall j, k | j in ledger && k in ledger && j.id == k.id ensures j == k {
      var x :| 0 <= x < |source| && source[x] == ledger[j].canon;
      var y :| 0 <= y < |source| && source[y] == ledger[k].canon;
      assert RecordKey(ledger[j].canon) == j && RecordKey(ledger[k].canon) == k;
    }
  }

  lemma FetchStaysWithin(t: Tables, target: Target, result: FetchResult, source: seq<Record>, from: nat, to: nat)
    requires Shaped(t.ledger) && StoredFrom(t.ledger, source) && Shows(result.records, source, from, to)
    requires FetchInto(t, target.subscription, target, result).Accepted?
    ensures Shaped(FetchInto(t, target.subscription, target, result).tables.ledger)
    ensures StoredFrom(FetchInto(t, target.subscription, target, result).tables.ledger, source)
  {
    FetchedLedger(t, target, result);
    MergeKeepsShape(t.ledger, result.records);
    LedgerHoldsItself(t.ledger);
    MergeHolds(t.ledger, RecordSet(t.ledger), result.records);
    hide FetchInto, MergeAll, Agree, Holds, RecordSet, Shows, StoredFrom;
    HeldFrom(t.ledger, MergeAll(t.ledger, result.records).ledger, result.records, source, from, to);
  }

  lemma HeldFrom(before: Ledger, after: Ledger, rs: seq<Record>, source: seq<Record>, from: nat, to: nat)
    requires StoredFrom(before, source) && Shows(rs, source, from, to)
    requires Shaped(before) && Holds(after, RecordSet(before) + Elements(rs))
    ensures StoredFrom(after, source)
  {
    forall k | k in after ensures after[k].canon in source {
      var r := RecordOf(after[k]);
      assert Canonical(r) == after[k].canon && r in RecordSet(before) + Elements(rs);
      KnownContent(before, rs, source, from, to, r);
    }
  }

  lemma KnownContent(before: Ledger, rs: seq<Record>, source: seq<Record>, from: nat, to: nat, r: Record)
    requires StoredFrom(before, source) && Shows(rs, source, from, to) && Shaped(before)
    requires r in RecordSet(before) + Elements(rs)
    ensures Canonical(r) in source
  {
    if r in RecordSet(before) {
      var k :| k in before && RecordOf(before[k]) == r;
      assert Canonical(r) == before[k].canon;
    } else {
      var i :| 0 <= i < |rs| && rs[i] == r;
      assert Canonical(r) == source[from + i];
    }
  }

  /** Over any run of accepted fetches from the source, the ledger stays of the source. */
  lemma {:induction false} RunStaysStored(t: Tables, target: Target, results: seq<FetchResult>, source: seq<Record>,
                                          slices: seq<Slice>)
    requires Shaped(t.ledger) && StoredFrom(t.ledger, source)
    requires AfterFetches(t, target, results).Some? && RunFromSource(t, target, results, source, slices)
    ensures StoredFrom(AfterFetches(t, target, results).value.ledger, source)
  {
    hide FetchInto, StoredFrom, Shows, HasId;
    if results != [] {
      var n := |results| - 1;
      RunStaysStored(t, target, results[..n], source, slices[..n]);
      FetchStaysWithin(AfterFetches(t, target, results[..n]).value, target, results[n], source,
                       slices[n].from, slices[n].to);
    }
  }

  /** And its table stays an exact view. */
  lemma {:induction false} RunStaysView(t: Tables, target: Target, results: seq<FetchResult>)
    requires IsView(t, Exact) && AfterFetches(t, target, results).Some?
    requires forall r :: r in results ==> r.complete == t.Start().Some?
    ensures IsView(AfterFetches(t, target, results).value, Exact)
    ensures AfterFetches(t, target, results).value.Start() == t.Start()
  {
    hide FetchInto, IsView;
    assert Shaped(t.ledger) by { ViewIsShaped(t); }
    if results != [] {
      var n := |results| - 1;
      assert results == results[..n] + [results[n]];
      RunStaysView(t, target, results[..n]);
      AcceptedFetchRestoresImage(AfterFetches(t, target, results[..n]).value, Exact, target.subscription, target,
        results[n]);
    }
  }

  lemma ViewIsShaped(t: Tables)
    requires IsView(t, Exact)
    ensures Shaped(t.ledger)
  {
  }

  /** So what the provider reads of the source never has a revision to revive: after any run
      of fetches from it, beginning with empty tables, polling known records again posts
      nothing and changes no estimate. */
  lemma PollAgainIsSilent(t: Tables, target: Target, results: seq<FetchResult>, source: seq<Record>,
                          slices: seq<Slice>, again: FetchResult)
    requires t.ledger == map[] && t.positions == map[] && IsSource(source)
    requires AfterFetches(t, target, results).Some? && RunFromSource(t, target, results, source, slices)
    requires forall r :: r in results + [again] ==> r.complete == t.Start().Some?
    requires var u := AfterFetches(t, target, results).value;
             Known(u.ledger, again.records) && FetchInto(u, target.subscription, target, again).Accepted?
    ensures var u := AfterFetches(t, target, results).value;
            var step := FetchInto(u, target.subscription, target, again);
            step.posts == [] && SameEstimates(step.tables.positions, u.positions)
  {
    var u := AfterFetches(t, target, results).value;
    assert again in results + [again];
    assert forall r :: r in results ==> r in results + [again];
    EmptyTablesAreView(t);
    RunStaysStored(t, target, results, source, slices);
    RunStaysView(t, target, results);
    hide FetchInto, IsView, IsSource, RunFromSource, AfterFetches, Known;
    StoredRefetchIsSilent(u, Exact, target, again, source);
  }

  /** The same for any ledger of the source, under any marks: the fetch gives what the
      ledger stood for before. */
  lemma StoredRefetchIsSilent(t: Tables, mark: Mark, target: Target, again: FetchResult, source: seq<Record>)
    requires IsView(t, mark) && again.complete == t.Start().Some?
    requires IsSource(source) && StoredFrom(t.ledger, source) && Known(t.ledger, again.records)
    requires FetchInto(t, target.subscription, target, again).Accepted?
    ensures var step := FetchInto(t, target.subscription, target, again);
            && step.posts == [] && ReadsAs(step.tables.positions, Image(t), Exact)
            && (mark == Exact ==> SameEstimates(step.tables.positions, t.positions))
  {
    SourceHasOneRevision(t.ledger, source);
    SingleRevisionsRefetch(t, mark, target, again);
  }

  // ---- The table is the replay of the source --------------------------------------

  lemma StandingRows(ledger: Ledger, r: Record)
    requires Shaped(ledger) && OneRevision(ledger)
    ensures r in Effective(Rows(ledger)) <==> RecordKey(r) in ledger && r == RecordOf(ledger[RecordKey(r)])
  {
    EffectiveKeys(ledger, r);
    hide Effective, Rows;
    if RecordKey(r) in ledger && r == RecordOf(ledger[RecordKey(r)]) { assert HasRow(ledger, r.id); }
    if HasRow(ledger, r.id) && r == RecordOf(ledger[WinningKey(ledger, r.id)]) {
      assert RecordKey(r) == WinningKey(ledger, r.id);
    }
  }

  lemma StandingAreStored(ledger: Ledger, history: seq<Record>)
    requires Shaped(ledger) && OneRevision(ledger) && StoredFrom(ledger, history)
    ensures forall c :: c in Canonicals(Effective(Rows(ledger))) ==> c in history
  {
    hide Effective, Rows, OneRevision;
    var es := Effective(Rows(ledger));
    forall c | c in Canonicals(es) ensures c in history {
      var i :| 0 <= i < |es| && Canonicals(es)[i] == c;
      StandingRows(ledger, es[i]);
      assert Canonical(es[i]) == ledger[RecordKey(es[i])].canon;
    }
  }

  lemma StoredAreStanding(ledger: Ledger, history: seq<Record>)
    requires Shaped(ledger) && OneRevision(ledger) && Covers(ledger, history, 0, |history|)
    ensures forall h :: h in history ==> h in Canonicals(Effective(Rows(ledger)))
  {
    hide Effective, Rows, OneRevision;
    var es := Effective(Rows(ledger));
    forall h | h in history ensures h in Canonicals(es) {
      var j :| 0 <= j < |history| && history[j] == h;
      assert Has(ledger, history[j]);
      var r := RecordOf(ledger[RecordKey(h)]);
      StandingRows(ledger, r);
      var i :| 0 <= i < |es| && es[i] == r;
      assert Canonicals(es)[i] == h;
    }
  }

  /** A ledger that holds the records of `history` and no others replays that history. */
  lemma HoldsHistory(ledger: Ledger, history: seq<Record>)
    requires Shaped(ledger) && IsSource(history) && StoredFrom(ledger, history) && Covers(ledger, history, 0, |history|)
    ensures Canonicals(Effective(Rows(ledger))) == history
  {
    SourceHasOneRevision(ledger, history);
    StandingAreStored(ledger, history);
    StoredAreStanding(ledger, history);
    SourceAscends(history);
    var es := Effective(Rows(ledger));
    assert Ascending(es, RecordRank);
    CanonicalsAscend(es);
    hide Effective, Rows, IsSource, RecordRank, Canonicals, StoredFrom, OneRevision, Covers, Ascending;
    assert Elements(Canonicals(es)) == Elements(history);
    AscendingUnique(Canonicals(es), history, RecordRank);
  }

  lemma SourceAscends(source: seq<Record>)
    requires IsSource(source)
    ensures Ascending(source, RecordRank)
  {
  }

  lemma SliceIsSource(source: seq<Record>, low: nat, high: nat)
    requires IsSource(source) && low <= high <= |source|
    ensures IsSource(source[low..high])
  {
  }

  lemma ShowsSlice(rs: seq<Record>, source: seq<Record>, low: nat, high: nat)
    requires Shows(rs, source, low, high)
    ensures Shows(rs, source[low..high], 0, high - low)
  {
  }

  /** What earlier polls of the epoch left: records of the source from the period so far. */
  ghost predicate OfPeriod(ledger: Ledger, source: seq<Record>, start: int, observedAt: int) {
    StoredFrom(ledger, source) && forall k :: k in ledger ==> InPeriod(ledger[k].canon, start, observedAt)
  }

  lemma OfPeriodIsStored(ledger: Ledger, source: seq<Record>, start: int, observedAt: int, low: nat, high: nat)
    requires low <= high <= |source|
    requires forall i :: 0 <= i < |source| ==> (InPeriod(source[i], start, observedAt) <==> low <= i < high)
    ensures OfPeriod(ledger, source, start, observedAt) <==> StoredFrom(ledger, source[low..high])
  {
    SliceMembers(source, low, high, start, observedAt);
    hide InPeriod;
    forall r: Record ensures r in source[low..high] <==> r in source && InPeriod(r, start, observedAt) {
      assert r in source[low..high] <==> r in Elements(source[low..high]);
    }
  }

  /** With a start time configured, an accepted answer leaves the table the replay of the
      source's own history from the start time to the poll, whatever marks lay on it; and
      the ledger is as the next poll needs it. */
  lemma TableReplaysSource(t: Tables, mark: Mark, target: Target, checkpoint: Option<Checkpoint>, observedAt: int,
                           page: Response, extras: Extras, source: seq<Record>) returns (low: nat, high: nat)
    requires page.Page? && ValidPage(page) && target.accountId.Some? && target.start.Some? && IsSource(source)
    requires Serves(NormalizedAll(page.rows, target.accountId.value, observedAt), page.total, source,
             target.start.value, observedAt)
    requires PageAnswer(target, checkpoint, observedAt, page, extras).answer.Answered?
    requires IsView(t, mark) && t.Start() == target.start && OfPeriod(t.ledger, source, target.start.value, observedAt)
    requires FetchInto(t, target.subscription, target,
             PageAnswer(target, checkpoint, observedAt, page, extras).answer.result).Accepted?
    ensures low <= high <= |source|
    ensures forall i :: 0 <= i < |source| ==> (InPeriod(source[i], target.start.value, observedAt) <==> low <= i < high)
    ensures var result := PageAnswer(target, checkpoint, observedAt, page, extras).answer.result;
            var after := FetchInto(t, target.subscription, target, result).tables;
            && Shaped(after.ledger) && OfPeriod(after.ledger, source, target.start.value, observedAt)
            && Canonicals(Effective(Rows(after.ledger))) == source[low..high]
            && ReadsAs(after.positions, Replay(source[low..high], true), Exact)
  {
    low, high := CompleteAnswerHoldsPeriod(target, checkpoint, observedAt, page, extras, source);
    var result := PageAnswer(target, checkpoint, observedAt, page, extras).answer.result;
    assert result.complete;
    hide PageAnswer, Serves, ValidPage, InPeriod, IsView, FetchInto, OfPeriod, NormalizedAll;
    OfPeriodIsStored(t.ledger, source, target.start.value, observedAt, low, high);
    SliceFetched(t, mark, target, result, source, low, high);
    OfPeriodIsStored(FetchInto(t, target.subscription, target, result).tables.ledger, source, target.start.value,
      observedAt, low, high);
  }

  lemma SliceFetched(t: Tables, mark: Mark, target: Target, result: FetchResult, source: seq<Record>, low: nat,
                     high: nat)
    requires IsView(t, mark) && t.Start().Some? && result.complete && IsSource(source)
    requires low <= high <= |source| && Shows(result.records, source, low, high)
             && StoredFrom(t.ledger, source[low..high])
    requires FetchInto(t, target.subscription, target, result).Accepted?
    ensures var after := FetchInto(t, target.subscription, target, result).tables;
            && Shaped(after.ledger) && StoredFrom(after.ledger, source[low..high])
            && Canonicals(Effective(Rows(after.ledger))) == source[low..high]
            && ReadsAs(after.positions, Replay(source[low..high], true), Exact)
  {
    var history := source[low..high];
    var after := FetchInto(t, target.subscription, target, result).tables;
    SliceIsSource(source, low, high);
    ShowsSlice(result.records, source, low, high);
    FetchStaysWithin(t, target, result, history, 0, high - low);
    CompleteLedger(t, target, result, history, 0, high - low);
    AcceptedFetchRestoresImage(t, mark, target.subscription, target, result);
    hide FetchInto, IsSource, Shows, StoredFrom, Covers, Effective, Rows, Canonicals, Replay;
    HoldsHistory(after.ledger, history);
    ReplayUndated(Effective(Rows(after.ledger)), true);
  }

  lemma NothingCovered(ledger: Ledger, source: seq<Record>, from: nat)
    requires from <= |source|
    ensures Covers(ledger, source, from, from)
  {
  }

  lemma BoundsOf(rs: seq<Record>, source: seq<Record>, from: nat, to: nat)
    requires Shows(rs, source, from, to)
    ensures from <= to <= |source|
  {
  }

  // ---- What the provider promises -------------------------------------------------

  lemma {:induction false} PlacedKeeps(s: seq<Record>, r: Record)
    requires forall x :: x in s ==> Fill(x)
    requires Fill(r)
    ensures forall x :: x in Placed(s, r) ==> Fill(x)
  {
    hide Fill;
    if s != [] && Below(RecordRank(r), RecordRank(s[|s| - 1])) {
      var n := |s| - 1;
      assert s == s[..n] + [s[n]];
      PlacedKeeps(s[..n], r);
    }
  }

  lemma {:induction false} SortedKeeps(rs: seq<Record>)
    requires forall x :: x in rs ==> Fill(x)
    ensures forall x :: x in Sorted(rs) ==> Fill(x)
  {
    hide Fill;
    if rs != [] {
      var n := |rs| - 1;
      assert rs == rs[..n] + [rs[n]];
      SortedKeeps(rs[..n]);
      PlacedKeeps(Sorted(rs[..n]), rs[n]);
    }
  }

  lemma {:induction false} WithinKeeps(rs: seq<Record>, start: int, observedAt: int)
    ensures forall x :: x in Within(rs, start, observedAt) ==> x in rs && InPeriod(x, start, observedAt)
    ensures |Within(rs, start, observedAt)| <= |rs|
  {
    hide InPeriod;
    if rs != [] {
      assert rs == rs[..|rs| - 1] + [rs[|rs| - 1]];
      WithinKeeps(rs[..|rs| - 1], start, observedAt);
    }
  }

  /** A healthy answer is at most one page of fills, none before the start time, and it is
      complete exactly when a start time is configured. */
  lemma HealthyAnswers(target: Target, checkpoint: Option<Checkpoint>, observedAt: int, response: Response,
                       extras: Extras)
    requires Polled(target, checkpoint, observedAt, response, extras).health == Healthy
    ensures var answer := Polled(target, checkpoint, observedAt, response, extras).answer;
            && answer.Answered?
            && |answer.result.records| <= OVERLAP_RECORDS
            && answer.result.complete == target.start.Some?
            && (forall r :: r in answer.result.records ==>
                  Fill(r) && Sound(r) && (target.start.Some? ==> target.start.value <= r.eventTime <= observedAt))
  {
    if response.Page? && ValidPage(response) && target.accountId.Some? { FillsAreFills(target, observedAt, response); }
    hide Fill, Fills, ValidPage;
  }

  lemma FillsAreFills(target: Target, observedAt: int, page: Response)
    requires page.Page? && ValidPage(page) && target.accountId.Some?
    ensures |Fills(target, observedAt, page)| <= OVERLAP_RECORDS
    ensures forall r :: r in Fills(target, observedAt, page) ==>
              Fill(r) && Sound(r) && (target.start.Some? ==> target.start.value <= r.eventTime <= observedAt)
  {
    var rs := NormalizedAll(page.rows, target.accountId.value, observedAt);
    forall x | x in rs ensures Fill(x) {
      var i :| 0 <= i < |rs| && rs[i] == x;
      assert page.rows[i] in page.rows;
    }
    SortedKeeps(rs);
    hide Sorted, Within;
    if target.start.Some? { WithinKeeps(Sorted(rs), target.start.value, observedAt); }
  }

  /** So the scheduler may rely on what the provider hands it. */
  lemma HealthyAnswersKeepPromise(c: Config, checkpoint: Option<Checkpoint>, observedAt: int, response: Response,
                                  extras: Extras, syncOk: bool)
    requires c.platform == BINANCE_COPY && CollectorApi.ValidAccount(extras.account)
    requires forall s :: s in extras.marks ==> extras.marks[s] > 0.0
    requires Polled(TargetOf(c), checkpoint, observedAt, response, extras).health == Healthy
    ensures var answer := Polled(TargetOf(c), checkpoint, observedAt, response, extras).answer;
            answer.Answered? && Promised(Visit(c, Trades(answer.result), syncOk))
  {
    HealthyAnswers(TargetOf(c), checkpoint, observedAt, response, extras);
    hide Fills, ValidPage;
  }

  /** Buying one unit raises the net exposure by one and selling lowers it, on the long
      side and on the short side alike. */
  lemma DirectionIsExposure(row: Row)
    requires ValidRow(row)
    ensures var held := if OperationOf(row) == Increase then row.quantity else -row.quantity;
            (if row.bucket == Short then -held else held) == if row.trade == Buy then row.quantity else -row.quantity
  {
  }
}
