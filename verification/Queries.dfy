/** What the paginated queries and the statistics return, and that they agree with the record store:
    pages enumerate an address's streams once each, and the statistics count the store exactly when
    no stored id was created twice. */
module Queries {
  import opened Prelude
  import opened Streams
  import opened Storage
  import opened Ledger
  import opened Invariants
  import opened Custody
  import opened Records
  import opened Runs
  import opened Batches

  // ---- pages ----

  /** The slots `start..start + min(limit, 20)` that exist. */
  function Slice(ids: seq<int>, start: nat, limit: nat): seq<int> {
    var end := Min(start + Min(limit, PAGE), |ids|);
    if start < end then ids[start..end] else []
  }

  /** The records of the listed ids, in order, leaving out ids that are not stored. */
  function LoadAll(streams: map<int, Stream>, ids: seq<int>): seq<Stream> {
    if ids == [] then []
    else
      var last := ids[|ids| - 1];
      LoadAll(streams, ids[..|ids| - 1]) + (if last in streams then [streams[last]] else [])
  }

  /** The ids among the listed ones that are stored, in order. */
  function Stored(streams: map<int, Stream>, ids: seq<int>): seq<int> {
    if ids == [] then []
    else
      var last := ids[|ids| - 1];
      Stored(streams, ids[..|ids| - 1]) + (if last in streams then [last] else [])
  }

  function SenderPage(st: State, a: Address, start: nat, limit: nat): seq<Stream> {
    LoadAll(st.streams, Slice(Listed(st.bySender, a), start, limit))
  }

  function RecipientPage(st: State, a: Address, start: nat, limit: nat): seq<Stream> {
    LoadAll(st.streams, Slice(Listed(st.byRecipient, a), start, limit))
  }

  /** One page of `get_all_stream_ids`. */
  function IdPage(st: State, start: nat, limit: nat): seq<int> {
    Stored(st.streams, Slice(st.created, start, limit))
  }

  /** The first `n` pages of twenty, read at 0, 20, 40 and so on, put together. */
  function SenderPages(st: State, a: Address, n: nat): seq<Stream> {
    if n == 0 then [] else SenderPages(st, a, n - 1) + SenderPage(st, a, 20 * (n - 1), 20)
  }

  function RecipientPages(st: State, a: Address, n: nat): seq<Stream> {
    if n == 0 then [] else RecipientPages(st, a, n - 1) + RecipientPage(st, a, 20 * (n - 1), 20)
  }

  function IdPages(st: State, n: nat): seq<int> {
    if n == 0 then [] else IdPages(st, n - 1) + IdPage(st, 20 * (n - 1), 20)
  }

  lemma {:induction false} LoadAllSplits(streams: map<int, Stream>, a: seq<int>, b: seq<int>)
    ensures LoadAll(streams, a + b) == LoadAll(streams, a) + LoadAll(streams, b)
    ensures Stored(streams, a + b) == Stored(streams, a) + Stored(streams, b)
  {
    if b == [] {
      assert a + b == a;
    } else {
      var n := |b| - 1;
      LoadAllSplits(streams, a, b[..n]);
      assert (a + b)[..|a| + n] == a + b[..n];
    }
  }

  /** The ids up to the end of page `n` are those before it and those on it. */
  lemma SliceExtends(ids: seq<int>, n: nat)
    requires 0 < n
    ensures ids[..Min(20 * n, |ids|)] == ids[..Min(20 * (n - 1), |ids|)] + Slice(ids, 20 * (n - 1), 20)
  {
  }

  /** Successive pages are the loaded list up to the end of the last. */
  lemma {:induction false} PagesConcatenate(st: State, a: Address, n: nat)
    ensures var sent, received := Listed(st.bySender, a), Listed(st.byRecipient, a);
            && SenderPages(st, a, n) == LoadAll(st.streams, sent[..Min(20 * n, |sent|)])
            && RecipientPages(st, a, n) == LoadAll(st.streams, received[..Min(20 * n, |received|)])
            && IdPages(st, n) == Stored(st.streams, st.created[..Min(20 * n, |st.created|)])
  {
    hide Slice;
    if n > 0 {
      PagesConcatenate(st, a, n - 1);
      PageAppends(st.streams, Listed(st.bySender, a), n);
      PageAppends(st.streams, Listed(st.byRecipient, a), n);
      PageAppends(st.streams, st.created, n);
    }
  }

  lemma PageAppends(streams: map<int, Stream>, ids: seq<int>, n: nat)
    requires 0 < n
    ensures var before, page := ids[..Min(20 * (n - 1), |ids|)], Slice(ids, 20 * (n - 1), 20);
            var after := ids[..Min(20 * n, |ids|)];
            && LoadAll(streams, after) == LoadAll(streams, before) + LoadAll(streams, page)
            && Stored(streams, after) == Stored(streams, before) + Stored(streams, page)
  {
    SliceExtends(ids, n);
    LoadAllSplits(streams, ids[..Min(20 * (n - 1), |ids|)], Slice(ids, 20 * (n - 1), 20));
  }

  lemma {:induction false} LoadAllStored(streams: map<int, Stream>, ids: seq<int>)
    requires forall id :: id in ids ==> id in streams
    ensures |LoadAll(streams, ids)| == |ids|
    ensures forall i :: 0 <= i < |ids| ==> ids[i] in streams && LoadAll(streams, ids)[i] == streams[ids[i]]
  {
    if ids != [] {
      var n := |ids| - 1;
      assert ids == ids[..n] + [ids[n]];
      LoadAllStored(streams, ids[..n]);
    }
  }

  /** `result` is the stored streams that satisfy the selection, once each. */
  ghost predicate Enumerates(streams: map<int, Stream>, selected: set<int>, result: seq<Stream>) {
    && (forall i, j :: 0 <= i < j < |result| ==> result[i].id != result[j].id)
    && (forall s :: s in result ==> s.id in selected && s.id in streams && streams[s.id] == s)
    && (forall id :: id in selected && id in streams ==> streams[id] in result)
  }

  lemma LoadAllEnumerates(streams: map<int, Stream>, now: int, ids: seq<int>, selected: set<int>)
    requires StreamsSound(streams, now) && NoDuplicates(ids)
    requires forall id :: id in ids <==> id in streams && id in selected
    ensures Enumerates(streams, selected, LoadAll(streams, ids))
  {
    LoadAllStored(streams, ids);
    var r := LoadAll(streams, ids);
    forall id | id in selected && id in streams ensures streams[id] in r {
      assert id in ids;
      var i :| 0 <= i < |ids| && ids[i] == id;
      assert r[i] == streams[id];
    }
    forall s | s in r ensures s.id in selected && s.id in streams && streams[s.id] == s {
      var i :| 0 <= i < |r| && r[i] == s;
      assert ids[i] in ids;
    }
  }

  ghost function SentBy(st: State, a: Address): set<int> {
    set id | id in st.streams && st.streams[id].sender == a
  }

  ghost function ReceivedBy(st: State, a: Address): set<int> {
    set id | id in st.streams && st.streams[id].recipient == a
  }

  ghost function ActiveIds(streams: map<int, Stream>): set<int> {
    set id | id in streams && streams[id].status.Active?
  }

  /** `page` is the slice of `all` from `start` on, of `limit` records but never more than twenty. */
  predicate CutFrom(all: seq<Stream>, start: nat, limit: nat, page: seq<Stream>) {
    page == all[Min(start, |all|)..Min(start + Min(limit, 20), |all|)]
  }

  lemma SliceLoads(streams: map<int, Stream>, ids: seq<int>, start: nat, limit: nat)
    requires forall id :: id in ids ==> id in streams
    ensures CutFrom(LoadAll(streams, ids), start, limit, LoadAll(streams, Slice(ids, start, limit)))
  {
    LoadAllStored(streams, ids);
    LoadAllStored(streams, Slice(ids, start, limit));
  }

  lemma SelectedListed(ids: seq<int>, selected: set<int>)
    requires NoDuplicates(ids) && forall id :: id in ids <==> id in selected
    ensures |ids| == |selected|
  {
    LengthCountsElements(ids);
    assert Elements(ids) == selected;
  }

  /** Reading `get_streams_by_sender` at 0, 20, 40 and so on, with enough pages, returns each stored stream the
      address sends exactly once; a page of any start and limit is a slice of that. */
  lemma PagesEnumerate(st: State, a: Address, n: nat, start: nat, limit: nat)
    requires Inv(st) && |SentBy(st, a)| <= 20 * n
    ensures Enumerates(st.streams, SentBy(st, a), SenderPages(st, a, n)) && |SenderPages(st, a, n)| == |SentBy(st, a)|
    ensures CutFrom(SenderPages(st, a, n), start, limit, SenderPage(st, a, start, limit))
  {
    hide Slice, CutFrom;
    var sent := Listed(st.bySender, a);
    assert NoDuplicates(sent);
    SelectedListed(sent, SentBy(st, a));
    PagesConcatenate(st, a, n);
    assert sent[..Min(20 * n, |sent|)] == sent;
    LoadAllEnumerates(st.streams, st.now, sent, SentBy(st, a));
    LoadAllStored(st.streams, sent);
    SliceLoads(st.streams, sent, start, limit);
  }

  /** The same of `get_streams_by_recipient`. */
  lemma ReceivedPagesEnumerate(st: State, a: Address, n: nat, start: nat, limit: nat)
    requires Inv(st) && |ReceivedBy(st, a)| <= 20 * n
    ensures Enumerates(st.streams, ReceivedBy(st, a), RecipientPages(st, a, n))
            && |RecipientPages(st, a, n)| == |ReceivedBy(st, a)|
    ensures CutFrom(RecipientPages(st, a, n), start, limit, RecipientPage(st, a, start, limit))
  {
    hide Slice, CutFrom;
    var received := Listed(st.byRecipient, a);
    assert NoDuplicates(received);
    SelectedListed(received, ReceivedBy(st, a));
    PagesConcatenate(st, a, n);
    assert received[..Min(20 * n, |received|)] == received;
    LoadAllEnumerates(st.streams, st.now, received, ReceivedBy(st, a));
    LoadAllStored(st.streams, received);
    SliceLoads(st.streams, received, start, limit);
  }

  lemma PageLoads(streams: map<int, Stream>, now: int, ids: seq<int>, start: nat, limit: nat)
    requires StreamsSound(streams, now) && forall id :: id in ids ==> id in streams
    ensures var page := LoadAll(streams, Slice(ids, start, limit));
            && |page| <= Min(limit, 20)
            && forall s :: s in page ==> s.id in ids && s.id in streams && streams[s.id] == s
  {
    hide Stream.Sound;
    var slice := Slice(ids, start, limit);
    assert forall id :: id in slice ==> id in ids;
    LoadAllStored(streams, slice);
    forall s | s in LoadAll(streams, slice) ensures s.id in ids && s.id in streams && streams[s.id] == s {
      var i :| 0 <= i < |slice| && LoadAll(streams, slice)[i] == s;
      assert slice[i] in ids && slice[i] in streams && streams[slice[i]].id == slice[i];
    }
  }

  /** A page holds only stored streams of its address, at most `limit` of them and at most twenty. */
  lemma PageHolds(st: State, a: Address, start: nat, limit: nat)
    requires Inv(st)
    ensures |SenderPage(st, a, start, limit)| <= Min(limit, 20)
            && |RecipientPage(st, a, start, limit)| <= Min(limit, 20)
    ensures forall s :: s in SenderPage(st, a, start, limit) ==>
                          s.id in st.streams && st.streams[s.id] == s && s.sender == a
    ensures forall s :: s in RecipientPage(st, a, start, limit) ==>
                          s.id in st.streams && st.streams[s.id] == s && s.recipient == a
  {
    hide Slice, LoadAll, StreamsSound, Listed, Solvent;
    PageLoads(st.streams, st.now, Listed(st.bySender, a), start, limit);
    PageLoads(st.streams, st.now, Listed(st.byRecipient, a), start, limit);
  }

  lemma IdPageHolds(st: State, start: nat, limit: nat)
    ensures |IdPage(st, start, limit)| <= Min(limit, 20)
    ensures forall id :: id in IdPage(st, start, limit) ==> id in st.streams
  {
    StoredElements(st.streams, Slice(st.created, start, limit));
    StoredNoLonger(st.streams, Slice(st.created, start, limit));
  }

  /** Reading `get_all_stream_ids` page after page returns every stored id and no other, and once each as long
      as no id was drawn twice. */
  lemma IdPagesList(st: State, n: nat)
    requires Inv(st) && |st.created| <= 20 * n
    ensures forall id :: id in IdPages(st, n) <==> id in st.streams
    ensures NoDuplicates(st.created) ==> NoDuplicates(IdPages(st, n))
  {
    hide IdPages, Slice, Funded, NoDuplicates;
    PagesConcatenate(st, Contract, n);
    assert st.created[..Min(20 * n, |st.created|)] == st.created;
    StoredIsStore(st);
    if NoDuplicates(st.created) { StoredKeepsDistinct(st.streams, st.created); }
  }

  lemma {:induction false} StoredNoLonger(streams: map<int, Stream>, ids: seq<int>)
    ensures |Stored(streams, ids)| <= |ids|
  {
    if ids != [] { StoredNoLonger(streams, ids[..|ids| - 1]); }
  }

  // ---- statistics ----

  datatype Stats = Stats(totalStreams: int, activeStreams: int, totalVolume: int)

  /** One pass over the global index, with a saturating sum. */
  function StatsOf(streams: map<int, Stream>, created: seq<int>): Stats {
    if created == [] then Stats(0, 0, 0)
    else
      var last := created[|created| - 1];
      var p := StatsOf(streams, created[..|created| - 1]);
      if last in streams then
        Stats(p.totalStreams + 1,
              if streams[last].status.Active? then p.activeStreams + 1 else p.activeStreams,
              SaturatingI128(p.totalVolume + streams[last].deposit))
      else p
  }

  function SumDeposits(streams: map<int, Stream>, ids: seq<int>): int
    requires forall id :: id in ids ==> id in streams
  {
    if ids == [] then 0
    else
      var last := ids[|ids| - 1];
      assert last in ids;
      SumDeposits(streams, ids[..|ids| - 1]) + streams[last].deposit
  }

  ghost function DepositSum(streams: map<int, Stream>): int {
    if exists id :: id in streams then
      var id :| id in streams;
      streams[id].deposit + DepositSum(streams - {id})
    else
      0
  }

  lemma {:induction false} DepositSumRemove(streams: map<int, Stream>, id: int)
    requires id in streams
    ensures DepositSum(streams) == streams[id].deposit + DepositSum(streams - {id})
    decreases streams
  {
    var first :| first in streams && DepositSum(streams) == streams[first].deposit + DepositSum(streams - {first});
    if first != id {
      DepositSumRemove(streams - {first}, id);
      DepositSumRemove(streams - {id}, first);
      assert streams - {first} - {id} == streams - {id} - {first};
    }
  }

  lemma {:induction false} StoredElements(streams: map<int, Stream>, ids: seq<int>)
    ensures forall x :: x in Stored(streams, ids) <==> x in ids && x in streams
  {
    if ids != [] {
      StoredElements(streams, ids[..|ids| - 1]);
      assert ids == ids[..|ids| - 1] + [ids[|ids| - 1]];
    }
  }

  ghost function Elements(ids: seq<int>): set<int> {
    set x | x in ids
  }

  /** A list is as long as its set of elements exactly when it repeats none. */
  lemma {:induction false} LengthCountsElements(ids: seq<int>)
    ensures |Elements(ids)| <= |ids|
    ensures |Elements(ids)| == |ids| <==> NoDuplicates(ids)
  {
    if ids == [] {
      assert Elements(ids) == {};
    } else {
      var n := |ids| - 1;
      var init, last := ids[..n], ids[n];
      LengthCountsElements(init);
      assert ids == init + [last];
      assert Elements(ids) == Elements(init) + {last};
      if last in init {
        assert Elements(ids) == Elements(init);
        var i :| 0 <= i < n && init[i] == last;
        assert ids[i] == ids[n];
      } else if NoDuplicates(init) {
        assert NoDuplicates(ids);
      } else {
        var i, j :| 0 <= i < j < n && init[i] == init[j];
        assert ids[i] == ids[j];
      }
    }
  }

  /** The pass counts listed stored ids, and its saturating sum is the clipped true sum. */
  lemma {:induction false} StatsCount(streams: map<int, Stream>, now: int, created: seq<int>)
    requires StreamsSound(streams, now)
    ensures forall x :: x in Stored(streams, created) ==> x in streams
    ensures var r := StatsOf(streams, created); var stored := Stored(streams, created);
            && r.totalStreams == |stored| && 0 <= SumDeposits(streams, stored)
            && r.totalVolume == Min(SumDeposits(streams, stored), I128_MAX)
  {
    StoredElements(streams, created);
    if created != [] {
      var init, last := created[..|created| - 1], created[|created| - 1];
      StatsCount(streams, now, init);
      var stored := Stored(streams, created);
      if last in streams {
        ClaimNonNegative(streams[last], now);
        assert stored[..|stored| - 1] == Stored(streams, init) && stored[|stored| - 1] == last;
      } else {
        assert stored == Stored(streams, init);
      }
    }
  }

  lemma {:induction false} SumIsStoreSum(streams: map<int, Stream>, ids: seq<int>)
    requires NoDuplicates(ids) && forall x :: x in ids <==> x in streams
    ensures SumDeposits(streams, ids) == DepositSum(streams)
  {
    if ids == [] {
    } else {
      var n := |ids| - 1;
      var init, last := ids[..n], ids[n];
      assert ids == init + [last];
      DepositSumRemove(streams, last);
      SumFrame(streams, last, init);
      SumIsStoreSum(streams - {last}, init);
    }
  }

  lemma {:induction false} SumFrame(streams: map<int, Stream>, gone: int, ids: seq<int>)
    requires gone !in ids && forall x :: x in ids ==> x in streams
    ensures SumDeposits(streams, ids) == SumDeposits(streams - {gone}, ids)
  {
    if ids != [] {
      var init, last := ids[..|ids| - 1], ids[|ids| - 1];
      assert last in ids && forall x :: x in init ==> x in ids;
      SumFrame(streams, gone, init);
    }
  }

  /** Stored active ids among the listed ones. */
  function ActiveListed(streams: map<int, Stream>, ids: seq<int>): seq<int> {
    if ids == [] then []
    else
      var last := ids[|ids| - 1];
      ActiveListed(streams, ids[..|ids| - 1]) + (if last in streams && streams[last].status.Active? then [last] else [])
  }

  lemma {:induction false} ActiveCount(streams: map<int, Stream>, ids: seq<int>)
    ensures StatsOf(streams, ids).activeStreams == |ActiveListed(streams, ids)|
    ensures forall x :: x in ActiveListed(streams, ids) <==> x in ids && x in streams && streams[x].status.Active?
    ensures NoDuplicates(Stored(streams, ids)) ==> NoDuplicates(ActiveListed(streams, ids))
  {
    StoredElements(streams, ids);
    if ids != [] {
      var init, last := ids[..|ids| - 1], ids[|ids| - 1];
      ActiveCount(streams, init);
      StoredElements(streams, init);
      assert ids == init + [last];
      if NoDuplicates(Stored(streams, ids)) {
        NoDuplicatesInit(Stored(streams, init), if last in streams then [last] else []);
      }
    }
  }

  lemma NoDuplicatesInit(a: seq<int>, b: seq<int>)
    requires NoDuplicates(a + b)
    ensures NoDuplicates(a) && forall x :: x in a ==> x !in b
  {
    forall i, j | 0 <= i < j < |a| ensures a[i] != a[j] {
      assert (a + b)[i] != (a + b)[j];
    }
    forall i, j | 0 <= i < |a| && 0 <= j < |b| ensures a[i] != b[j] {
      assert (a + b)[i] != (a + b)[|a| + j];
    }
  }

  /** `get_stats` counts the stored streams exactly when no stored id occurs twice in the global
      index; then its other two figures are those of the store as well. */
  lemma StatsExactly(st: State)
    requires Inv(st)
    ensures StatsOf(st.streams, st.created).totalStreams == |st.streams|
            <==> NoDuplicates(Stored(st.streams, st.created))
    ensures NoDuplicates(Stored(st.streams, st.created)) ==>
              var r := StatsOf(st.streams, st.created);
              && r.activeStreams == |ActiveIds(st.streams)|
              && r.totalVolume == Min(DepositSum(st.streams), I128_MAX)
    ensures |st.streams| <= StatsOf(st.streams, st.created).totalStreams
  {
    hide Stream.Sound, Solvent, SendersExact, RecipientsExact, SumDeposits, DepositSum;
    var stored := Stored(st.streams, st.created);
    StoredIsStore(st);
    StatsCount(st.streams, st.now, st.created);
    LengthCountsElements(stored);
    if NoDuplicates(stored) {
      SumIsStoreSum(st.streams, stored);
      ActiveCount(st.streams, st.created);
      var active := ActiveListed(st.streams, st.created);
      LengthCountsElements(active);
      assert forall x :: x in Elements(active) <==> x in ActiveIds(st.streams);
      assert Elements(active) == ActiveIds(st.streams);
    }
  }

  lemma StoredIsStore(st: State)
    requires Indexed(st)
    ensures forall x :: x in Stored(st.streams, st.created) <==> x in st.streams
    ensures |Elements(Stored(st.streams, st.created))| == |st.streams|
  {
    StoredElements(st.streams, st.created);
    var elements := Elements(Stored(st.streams, st.created));
    assert forall x :: x in elements <==> x in st.streams.Keys;
    assert elements == st.streams.Keys;
  }

  // ---- fresh ids ----

  /** The ids a creating call is about to use were never used before, not even by deleted streams. */
  ghost predicate NeverUsed(derive: Derive, st: State, call: Call) {
    match call
    case DoCreateStream(sender, recipient, _, _, _, _, nonce, _, _, _) =>
      derive(sender, recipient, st.now, nonce) !in st.created
    case DoPartialCancel(id, _, _) =>
      id in st.streams ==> derive(st.streams[id].sender, st.streams[id].recipient, st.streams[id].Clock(st.now),
                                  id) !in st.created
    case DoBatchCreate(order, _) =>
      forall i :: 0 <= i < |order.recipients| ==> derive(order.sender, order.recipients[i], st.now, i) !in st.created
    case _ => true
  }

  lemma CreateAppends(derive: Derive, st: State, call: Call)
    requires call.DoCreateStream? && ApplyStream(derive, st, call).Ok?
    ensures ApplyStream(derive, st, call).value.created
            == st.created + [derive(call.sender, call.recipient, st.now, call.nonce)]
  {
  }

  lemma PartialAppends(derive: Derive, st: State, call: Call)
    requires call.DoPartialCancel? && ApplyStream(derive, st, call).Ok?
    ensures call.id in st.streams
    ensures var s := st.streams[call.id];
            ApplyStream(derive, st, call).value.created == st.created
              + [derive(s.sender, s.recipient, s.Clock(st.now), call.id)]
  {
  }

  lemma BatchAppends(derive: Derive, st: State, order: BatchOrder, nonce: u64)
    requires BatchCreate(derive, st, order, nonce).Ok?
    ensures var p := BatchCreate(derive, st, order, nonce).value;
            && p.st.created == st.created + p.out && NoDuplicates(p.out) && |p.out| == |order.recipients|
            && forall j :: 0 <= j < |p.out| ==> p.out[j] == derive(order.sender, order.recipients[j], st.now, j)
  {
    BatchCreatePasses(derive, st, order, nonce);
    var start := BatchStart(st, order, nonce);
    var out := BatchCreate(derive, st, order, nonce).value.out;
    BatchCreateLists(start, order, 0, out);
    assert out[0..] == out;
    BatchIdsDerived(derive, start, order, 0, []);
  }

  lemma AppendFresh(a: seq<int>, b: seq<int>)
    requires NoDuplicates(a) && NoDuplicates(b)
    ensures NoDuplicates(a + b) <==> forall x :: x in b ==> x !in a
  {
    if x :| x in b && x in a {
      var i, j :| 0 <= i < |a| && 0 <= j < |b| && a[i] == x && b[j] == x;
      assert (a + b)[i] == (a + b)[|a| + j];
    } else {
      forall i, j | 0 <= i < j < |a + b| ensures (a + b)[i] != (a + b)[j] {
        if i < |a| <= j {
          assert a[i] in a && b[j - |a|] in b;
        }
      }
    }
  }

  /** A successful call keeps the global list free of repetitions exactly when every id it draws was
      never used before. */
  lemma CreatedStaysFresh(derive: Derive, st: State, call: Call)
    requires Funded(st) && NoDuplicates(st.created) && Apply(derive, st, call).Ok?
    ensures NoDuplicates(Apply(derive, st, call).value.created) <==> NeverUsed(derive, st, call)
  {
    if call.DoCreateStream? {
      CreateAppends(derive, st, call);
      AppendFresh(st.created, [derive(call.sender, call.recipient, st.now, call.nonce)]);
    } else if call.DoPartialCancel? {
      PartialAppends(derive, st, call);
      AppendFresh(st.created, [ReplacementId(derive, st, call.id)]);
    } else if call.DoBatchCreate? {
      BatchFreshExactly(derive, st, call);
    } else {
      ApplySafe(derive, st, call);
    }
  }

  lemma BatchFreshExactly(derive: Derive, st: State, call: Call)
    requires call.DoBatchCreate? && NoDuplicates(st.created) && BatchCreate(derive, st, call.order, call.nonce).Ok?
    ensures NoDuplicates(BatchCreate(derive, st, call.order, call.nonce).value.st.created)
            <==> NeverUsed(derive, st, call)
  {
    hide BatchCreate;
    BatchAppends(derive, st, call.order, call.nonce);
    var out := BatchCreate(derive, st, call.order, call.nonce).value.out;
    AppendFresh(st.created, out);
    if NoDuplicates(st.created + out) {
      forall i | 0 <= i < |out| ensures derive(call.order.sender, call.order.recipients[i], st.now, i) !in st.created {
        assert out[i] in out;
      }
    }
  }

  /** Two batch creations of one order at one time draw the same ids, whatever the hash: the nonce is not
      part of what is hashed. */
  lemma BatchesRepeatIds(derive: Derive, st: State, later: State, order: BatchOrder, nonce: u64, laterNonce: u64)
    requires BatchCreate(derive, st, order, nonce).Ok? && BatchCreate(derive, later, order, laterNonce).Ok?
             && later.now == st.now
    ensures BatchCreate(derive, st, order, nonce).value.out == BatchCreate(derive, later, order, laterNonce).value.out
  {
    hide BatchCreate;
    BatchAppends(derive, st, order, nonce);
    BatchAppends(derive, later, order, laterNonce);
  }

  /** Call `k` of the run succeeded and drew an id that was used before. */
  ghost predicate ReusedAt(derive: Derive, st: State, calls: seq<Call>, k: int) {
    && 0 <= k < |calls|
    && var mid := Run(derive, st, calls[..k]);
       Apply(derive, mid, calls[k]).Ok? && !NeverUsed(derive, mid, calls[k])
  }

  /** Over a whole run the global list stays free of repetitions exactly when no successful call drew an
      id that was used before. */
  lemma {:induction false} FreshEveryRun(derive: Derive, st: State, calls: seq<Call>)
    requires Funded(st) && NoDuplicates(st.created)
    ensures NoDuplicates(Run(derive, st, calls).created) <==> forall k :: !ReusedAt(derive, st, calls, k)
  {
    hide Apply, Funded, NeverUsed;
    if calls != [] {
      var n := |calls| - 1;
      var before := calls[..n];
      var mid := Run(derive, st, before);
      FreshEveryRun(derive, st, before);
      CustodyEveryRun(derive, st, before, calls[n]);
      forall k | 0 <= k < n ensures ReusedAt(derive, st, calls, k) <==> ReusedAt(derive, st, before, k) {
        assert before[..k] == calls[..k];
      }
      assert ReusedAt(derive, st, calls, n) <==> Apply(derive, mid, calls[n]).Ok? && !NeverUsed(derive, mid, calls[n]);
      FreshOneMore(derive, mid, calls[n]);
    }
  }

  lemma FreshOneMore(derive: Derive, st: State, call: Call)
    requires Funded(st)
    ensures NoDuplicates(Exec(derive, st, call).created)
            <==> NoDuplicates(st.created) && !(Apply(derive, st, call).Ok? && !NeverUsed(derive, st, call))
  {
    hide Apply, Funded, NeverUsed;
    ApplySafe(derive, st, call);
    if NoDuplicates(st.created) && Apply(derive, st, call).Ok? {
      CreatedStaysFresh(derive, st, call);
    } else if Apply(derive, st, call).Ok? {
      var i, j :| 0 <= i < j < |st.created| && st.created[i] == st.created[j];
      assert Apply(derive, st, call).value.created[i] == Apply(derive, st, call).value.created[j];
    }
  }

  /** A run that reuses no id overwrites no record. */
  lemma {:induction false} FreshKeepsInv(derive: Derive, st: State, calls: seq<Call>)
    requires Inv(st) && forall k :: !ReusedAt(derive, st, calls, k)
    ensures Inv(Run(derive, st, calls))
  {
    hide Apply, Funded;
    if calls != [] {
      var n := |calls| - 1;
      var before := calls[..n];
      var mid := Run(derive, st, before);
      forall k ensures !ReusedAt(derive, st, before, k) {
        if 0 <= k < n { assert before[..k] == calls[..k]; assert !ReusedAt(derive, st, calls, k); }
      }
      FreshKeepsInv(derive, st, before);
      assert !ReusedAt(derive, st, calls, n);
      ApplySafe(derive, mid, calls[n]);
    }
  }

  /** From deployment, as long as no successful creation draws an id that was used before, the statistics
      are those of the store. */
  lemma StatsEveryRun(derive: Derive, st: State, calls: seq<Call>)
    requires Inv(st) && NoDuplicates(st.created)
    requires forall k :: !ReusedAt(derive, st, calls, k)
    ensures Inv(Run(derive, st, calls))
    ensures var last := Run(derive, st, calls);
            StatsOf(last.streams, last.created)
            == Stats(|last.streams|, |ActiveIds(last.streams)|, Min(DepositSum(last.streams), I128_MAX))
  {
    hide Run;
    FreshKeepsInv(derive, st, calls);
    FreshEveryRun(derive, st, calls);
    var last := Run(derive, st, calls);
    StatsExactly(last);
    StoredKeepsDistinct(last.streams, last.created);
  }

  lemma {:induction false} StoredKeepsDistinct(streams: map<int, Stream>, ids: seq<int>)
    requires NoDuplicates(ids)
    ensures NoDuplicates(Stored(streams, ids))
  {
    if ids != [] {
      var init := ids[..|ids| - 1];
      StoredKeepsDistinct(streams, init);
      StoredElements(streams, init);
    }
  }
}
