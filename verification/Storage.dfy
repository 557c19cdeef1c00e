/** The keyed storage structures of contracts/stream/src/storage.rs: counter-and-slot indexes with
    swap-and-pop removal, the append-only global index, and the ring of the last 20 audit entries.
    Each class keeps a ghost value that says what the keys stand for. */
module Storage {
  import opened Prelude

  /** What an index stands for: the listed stream ids of each address, in slot order. */
  type Directory = map<Address, seq<int>>

  function Listed(d: Directory, a: Address): seq<int> {
    if a in d then d[a] else []
  }

  function List(d: Directory, a: Address, id: int): Directory {
    d[a := Listed(d, a) + [id]]
  }

  function IndexOf(ids: seq<int>, id: int): (i: nat)
    ensures i <= |ids|
  {
    if ids == [] || ids[0] == id then 0 else 1 + IndexOf(ids[1..], id)
  }

  /** The last element takes the place of element `i`. */
  function SwapPop(ids: seq<int>, i: nat): seq<int>
    requires i < |ids|
  {
    ids[i := ids[|ids| - 1]][..|ids| - 1]
  }

  function Without(ids: seq<int>, id: int): seq<int> {
    var i := IndexOf(ids, id);
    if i < |ids| then SwapPop(ids, i) else ids
  }

  function Unlist(d: Directory, a: Address, id: int): Directory {
    if id in Listed(d, a) then d[a := Without(d[a], id)] else d
  }

  ghost predicate NoDuplicates(ids: seq<int>) {
    forall i, j :: 0 <= i < j < |ids| ==> ids[i] != ids[j]
  }

  lemma {:induction false} IndexOfFirst(ids: seq<int>, id: int)
    ensures IndexOf(ids, id) < |ids| <==> id in ids
    ensures id in ids ==> ids[IndexOf(ids, id)] == id
    ensures forall j :: 0 <= j < IndexOf(ids, id) ==> ids[j] != id
  {
    if ids != [] && ids[0] != id {
      IndexOfFirst(ids[1..], id);
      assert ids == [ids[0]] + ids[1..];
      forall j | 0 <= j < IndexOf(ids, id) ensures ids[j] != id {
        if j > 0 { assert ids[j] == ids[1..][j - 1]; }
      }
    }
  }

  lemma {:induction false} IndexOfUnique(ids: seq<int>, id: int, i: nat)
    requires i < |ids| && ids[i] == id && forall j :: 0 <= j < i ==> ids[j] != id
    ensures IndexOf(ids, id) == i
  {
    IndexOfFirst(ids, id);
  }

  lemma SwapPopRemovesOne(ids: seq<int>, i: nat)
    requires i < |ids|
    ensures multiset(SwapPop(ids, i)) == multiset(ids) - multiset{ids[i]}
  {
    var last := |ids| - 1;
    var x := ids[last];
    assert ids == ids[..last] + [x];
    if i < last {
      var before, after := ids[..i], ids[i + 1..last];
      assert ids[..last] == before + [ids[i]] + after;
      assert multiset(ids) == multiset(before) + multiset{ids[i]} + multiset(after) + multiset{x};
      assert SwapPop(ids, i) == before + [x] + after;
    } else {
      assert SwapPop(ids, i) == ids[..last];
    }
  }

  /** Swap-and-pop removes exactly one occurrence, whatever the order of the rest. */
  lemma WithoutRemovesOne(ids: seq<int>, id: int)
    ensures multiset(Without(ids, id)) == multiset(ids) - multiset{id}
  {
    IndexOfFirst(ids, id);
    var i := IndexOf(ids, id);
    if i < |ids| {
      SwapPopRemovesOne(ids, i);
    }
  }

  /** On a duplicate-free list the result is duplicate-free and holds every other id. */
  lemma WithoutExact(ids: seq<int>, id: int)
    requires NoDuplicates(ids)
    ensures NoDuplicates(Without(ids, id))
    ensures forall x :: x in Without(ids, id) <==> x in ids && x != id
  {
    IndexOfFirst(ids, id);
    var i := IndexOf(ids, id);
    if i < |ids| {
      var r := Without(ids, id);
      var last := |ids| - 1;
      forall x | x in ids && x != id ensures x in r {
        var j :| 0 <= j < |ids| && ids[j] == x;
        assert r[if j == last then i else j] == x;
      }
    }
  }

  /** Counter and slots of every address hold its list densely, and there are no other slots. */
  ghost predicate Represents(count: map<Address, int>, slots: map<(Address, int), int>, ids: Directory) {
    && count.Keys == ids.Keys
    && (forall a :: a in ids ==> count[a] == |ids[a]| <= U32_MAX)
    && (forall a, i :: (a, i) in slots <==> a in ids && 0 <= i < |ids[a]|)
    && (forall a, i :: a in ids && 0 <= i < |ids[a]| ==> slots[(a, i)] == ids[a][i])
  }

  /** Moving the last slot into the hole and dropping it represents swap-and-pop. */
  lemma PopRepresents(count: map<Address, int>, slots: map<(Address, int), int>, ids: Directory, a: Address, i: nat)
    requires Represents(count, slots, ids) && a in ids && i < |ids[a]|
    requires forall j :: 0 <= j < i ==> ids[a][j] != ids[a][i]
    ensures (a, |ids[a]| - 1) in slots
    ensures var last := |ids[a]| - 1;
            Represents(count[a := last], slots[(a, i) := slots[(a, last)]] - {(a, last)}, Unlist(ids, a, ids[a][i]))
    ensures i == |ids[a]| - 1 ==> slots[(a, i) := slots[(a, i)]] == slots
  {
    var last := |ids[a]| - 1;
    IndexOfUnique(ids[a], ids[a][i], i);
    var left := SwapPop(ids[a], i);
    assert forall j :: 0 <= j < last ==> left[j] == if j == i then ids[a][last] else ids[a][j];
  }

  /** An index from an address to stream ids under counter and slot keys. The contract has two. */
  class SlotIndex {
    var count: map<Address, int>
    var slots: map<(Address, int), int>
    ghost var ids: Directory

    ghost predicate Valid()
      reads this
    {
      Represents(count, slots, ids)
    }

    constructor ()
      ensures Valid() && ids == map[]
    {
      count, slots, ids := map[], map[], map[];
    }

    function Count(a: Address): int
      reads this
    {
      if a in count then count[a] else 0
    }

    /** Appends at the counter; the only failure is a counter that would leave `u32`. */
    method Index(a: Address, id: int) returns (r: Result<()>)
      requires Valid()
      modifies this
      ensures r == if |Listed(old(ids), a)| < U32_MAX then Ok(()) else Err(Panic)
      ensures r.Ok? ==> Valid() && ids == List(old(ids), a, id)
    {
      var idx := Count(a);
      slots := slots[(a, idx) := id];
      :- Need(idx + 1 <= U32_MAX, Panic);
      count := count[a := idx + 1];
      ids := List(ids, a, id);
      return Ok(());
    }

    /** Searches the slots for `id` and fills the hole with the last slot. The default for a
        missing last slot is never taken. */
    method Unindex(a: Address, id: int)
      requires Valid()
      modifies this
      ensures Valid() && ids == Unlist(old(ids), a, id)
    {
      var cnt := Count(a);
      for i := 0 to cnt
        invariant unchanged(this)
        invariant forall j :: 0 <= j < i ==> a in ids && ids[a][j] != id
      {
        if (a, i) in slots && slots[(a, i)] == id {
          var last := cnt - 1;
          PopRepresents(count, slots, ids, a, i);
          if i != last {
            var lastId := if (a, last) in slots then slots[(a, last)] else 0;
            slots := slots[(a, i) := lastId];
          }
          slots := slots - {(a, last)};
          count := count[a := last];
          ids := Unlist(ids, a, id);
          return;
        }
      }
    }

    method Ids(a: Address) returns (r: seq<int>)
      requires Valid()
      ensures r == Listed(ids, a)
    {
      r := [];
      var cnt := Count(a);
      for i := 0 to cnt
        invariant r == Listed(ids, a)[..i]
      {
        if (a, i) in slots {
          r := r + [slots[(a, i)]];
        }
      }
    }

    /** The host puts back the entries as they were before a failed invocation. */
    method Restore(c: map<Address, int>, s: map<(Address, int), int>, ghost d: Directory)
      modifies this
      ensures count == c && slots == s && ids == d
    {
      count, slots, ids := c, s, d;
    }
  }

  /** The counter and the slots below it hold the list. */
  ghost predicate Enumerated(count: int, slots: map<int, int>, ids: seq<int>) {
    && count == |ids| <= U32_MAX
    && (forall i :: i in slots <==> 0 <= i < |ids|)
    && (forall i :: 0 <= i < |ids| ==> slots[i] == ids[i])
  }

  /** Every stream id ever created, in order; nothing is ever removed. */
  class GlobalIndex {
    var count: int
    var slots: map<int, int>
    ghost var ids: seq<int>

    ghost predicate Valid()
      reads this
    {
      Enumerated(count, slots, ids)
    }

    constructor ()
      ensures Valid() && ids == []
    {
      count, slots, ids := 0, map[], [];
    }

    method Index(id: int) returns (r: Result<()>)
      requires Valid()
      modifies this
      ensures r == if |old(ids)| < U32_MAX then Ok(()) else Err(Panic)
      ensures r.Ok? ==> Valid() && ids == old(ids) + [id]
    {
      slots := slots[count := id];
      :- Need(count + 1 <= U32_MAX, Panic);
      count := count + 1;
      ids := ids + [id];
      return Ok(());
    }

    function At(i: int): Option<int>
      reads this
    {
      if i in slots then Some(slots[i]) else None
    }

    method Restore(c: int, s: map<int, int>, ghost i: seq<int>)
      modifies this
      ensures count == c && slots == s && ids == i
    {
      count, slots, ids := c, s, i;
    }
  }

  const AUDIT_CAP := 20

  datatype AuditEntry = AuditEntry(instruction: string, admin: Address, timestamp: int, params: string)

  /** The last `n` entries of a history. */
  function Latest<T>(history: seq<T>, n: nat): seq<T> {
    history[Max(0, |history| - n)..]
  }

  /** Head and length are in range, and the ring holds the last entries of the history. */
  ghost predicate HoldsEnd(head: int, len: int, slots: map<int, AuditEntry>, history: seq<AuditEntry>) {
    && 0 <= head < AUDIT_CAP
    && head == |history| % AUDIT_CAP
    && 0 <= len == Min(|history|, AUDIT_CAP) <= AUDIT_CAP
    && forall i :: Max(0, |history| - AUDIT_CAP) <= i < |history| ==>
         i % AUDIT_CAP in slots && slots[i % AUDIT_CAP] == history[i]
  }

  /** Writing at the head overwrites the oldest entry and no other one still to be read. */
  lemma AppendHoldsEnd(head: int, len: int, slots: map<int, AuditEntry>, history: seq<AuditEntry>, entry: AuditEntry)
    requires HoldsEnd(head, len, slots, history)
    ensures HoldsEnd((head + 1) % AUDIT_CAP, Min(len + 1, AUDIT_CAP), slots[head := entry], history + [entry])
  {
    var n := |history|;
    var after := history + [entry];
    forall i | Max(0, n + 1 - AUDIT_CAP) <= i <= n
      ensures i % AUDIT_CAP in slots[head := entry] && slots[head := entry][i % AUDIT_CAP] == after[i]
    {
      if i < n {
        RemaindersDiffer(i, n);
        assert after[i] == history[i];
      }
    }
  }

  lemma RemaindersDiffer(i: int, n: int)
    requires 0 <= i < n < i + AUDIT_CAP
    ensures i % AUDIT_CAP != n % AUDIT_CAP
  {
  }

  /** A ring of 20 slots. It stands for the whole history of appends and can read back its end. */
  class AuditRing {
    var head: int
    var len: int
    var slots: map<int, AuditEntry>
    ghost var history: seq<AuditEntry>

    ghost predicate Valid()
      reads this
    {
      HoldsEnd(head, len, slots, history)
    }

    constructor ()
      ensures Valid() && history == []
    {
      head, len, slots, history := 0, 0, map[], [];
    }

    method Append(entry: AuditEntry)
      requires Valid()
      modifies this
      ensures Valid() && history == old(history) + [entry]
    {
      AppendHoldsEnd(head, len, slots, history, entry);
      var writeIdx := head % AUDIT_CAP;
      slots := slots[writeIdx := entry];
      head := (head + 1) % AUDIT_CAP;
      len := Min(len + 1, AUDIT_CAP);
      history := history + [entry];
    }

    /** Oldest first; exactly the last min(n, 20) of the n entries ever appended. */
    method Read() returns (r: seq<AuditEntry>)
      requires Valid()
      ensures r == Latest(history, 20)
    {
      r := [];
      for i := 0 to len
        invariant r == Latest(history, AUDIT_CAP)[..i]
      {
        var idx := (head + AUDIT_CAP - len + i) % AUDIT_CAP;
        assert idx == (|history| - len + i) % AUDIT_CAP;
        if idx in slots {
          r := r + [slots[idx]];
        }
      }
    }

    method Restore(h: int, l: int, s: map<int, AuditEntry>, ghost past: seq<AuditEntry>)
      modifies this
      ensures head == h && len == l && slots == s && history == past
    {
      head, len, slots, history := h, l, s, past;
    }
  }
}
