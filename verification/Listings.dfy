/** Index damage is for good: once some address lists an id more often than the record store accounts for,
    no call ever puts that right. */
module Listings {
  import opened Prelude
  import opened VestingMath
  import opened Streams
  import opened TokenBank
  import opened Storage
  import opened Ledger
  import opened Invariants
  import opened Custody
  import opened Records

  /** How often `a` should list `id` among the streams it sends. */
  ghost function Accounted(streams: map<int, Stream>, a: Address, id: int): int {
    if id in streams && streams[id].sender == a then 1 else 0
  }

  ghost predicate Overlists(st: State, a: Address, id: int) {
    multiset(Listed(st.bySender, a))[id] > Accounted(st.streams, a, id)
  }

  /** An exact index overlists nothing. */
  lemma IndexedOverlistsNone(st: State, a: Address, id: int)
    requires Indexed(st)
    ensures !Overlists(st, a, id)
  {
    var ids := Listed(st.bySender, a);
    assert NoDuplicates(ids);
    CountOfDistinct(ids, id);
  }

  lemma {:induction false} CountOfDistinct(ids: seq<int>, id: int)
    requires NoDuplicates(ids)
    ensures multiset(ids)[id] == if id in ids then 1 else 0
  {
    if ids != [] {
      var n := |ids| - 1;
      var init, last := ids[..n], ids[n];
      assert ids == init + [last];
      CountOfDistinct(init, id);
      forall i | 0 <= i < n ensures init[i] != last {
        assert ids[i] != ids[n];
      }
    }
  }

  /** What is overlisted stays overlisted. */
  ghost predicate Persists(st: State, st': State) {
    forall a, id :: Overlists(st, a, id) ==> Overlists(st', a, id)
  }

  // ---- shared steps ----

  lemma SavePersists(st: State, st': State, s: Stream)
    requires s.id in st.streams && st.streams[s.id].sender == s.sender
    requires st'.streams == st.streams[s.id := s] && st'.bySender == st.bySender
    ensures Persists(st, st')
  {
  }

  lemma ErasePersists(st: State, st': State, id: int)
    requires id in st.streams && st'.streams == st.streams - {id}
    requires st'.bySender == Unlist(st.bySender, st.streams[id].sender, id)
    ensures Persists(st, st')
  {
    forall b, x | Overlists(st, b, x) ensures Overlists(st', b, x) {
      UnlistCounts(st.bySender, st.streams[id].sender, id, b, x);
    }
  }

  lemma UnlistCounts(d: Directory, a: Address, id: int, b: Address, x: int)
    ensures multiset(Listed(Unlist(d, a, id), b))[x]
            == if a == b && x == id && id in Listed(d, a) then multiset(Listed(d, b))[x] - 1
              else multiset(Listed(d, b))[x]
  {
    hide Without;
    WithoutRemovesOne(Listed(d, a), id);
  }

  lemma EnrollPersists(st: State, st': State, s: Stream)
    requires st'.streams == st.streams[s.id := s] && st'.bySender == List(st.bySender, s.sender, s.id)
    ensures Persists(st, st')
  {
    forall b, x | Overlists(st, b, x) ensures Overlists(st', b, x) {
      if b == s.sender {
        assert multiset(Listed(st'.bySender, b)) == multiset(Listed(st.bySender, b)) + multiset{s.id};
      } else {
        assert Listed(st'.bySender, b) == Listed(st.bySender, b);
      }
    }
  }

  /** Enrolling a stored id lists it once more than it is accounted for. */
  lemma EnrollOverlists(st: State, st': State, s: Stream)
    requires Indexed(st) && s.id in st.streams
    requires st'.streams == st.streams[s.id := s] && st'.bySender == List(st.bySender, s.sender, s.id)
    ensures Overlists(st', st.streams[s.id].sender, s.id)
  {
    var a := st.streams[s.id].sender;
    assert s.id in Listed(st.bySender, a);
    if a == s.sender {
      assert multiset(Listed(st'.bySender, a)) == multiset(Listed(st.bySender, a)) + multiset{s.id};
    } else {
      assert Listed(st'.bySender, a) == Listed(st.bySender, a);
    }
  }

  lemma PersistsOn(st: State, st1: State, st2: State)
    requires Persists(st, st1) && Persists(st1, st2)
    ensures Persists(st, st2)
  {
  }

  // ---- calls ----

  lemma SettlePersists(st: State, id: int, s: Stream, bank: Bank, signers: set<Address>, strict: bool)
    requires id in st.streams && s.id == id && s.sender == st.streams[id].sender
    requires Settle(st, id, s, bank, signers, strict).Ok?
    ensures Persists(st, Settle(st, id, s, bank, signers, strict).value)
  {
    hide Persists, Settle, SettledAs;
    var st' := Settle(st, id, s, bank, signers, strict).value;
    SettledRecord(st, id, s, bank, signers, strict);
    SettledListing(st, id, s, bank, signers, strict);
    if st.now < s.endTime || s.autoRenew {
      SavePersists(st, st', SettledAs(st, s, bank, strict));
    } else {
      ErasePersists(st, st', id);
    }
  }

  lemma SettledListing(st: State, id: int, s: Stream, bank: Bank, signers: set<Address>, strict: bool)
    requires Settle(st, id, s, bank, signers, strict).Ok?
    ensures Settle(st, id, s, bank, signers, strict).value.bySender
            == if st.now < s.endTime || s.autoRenew then st.bySender else Unlist(st.bySender, s.sender, id)
    ensures SettledAs(st, s, bank, strict).id == s.id && SettledAs(st, s, bank, strict).sender == s.sender
  {
    hide PayOut, Renew, Unlist, Flow, Stream.Dust;
    if Renew(st, s, bank, signers).Ok? {
      RenewedListing(st, s, bank, signers);
    }
  }

  lemma RenewedListing(st: State, s: Stream, bank: Bank, signers: set<Address>)
    requires Renew(st, s, bank, signers).Ok?
    ensures Renew(st, s, bank, signers).value.bySender == st.bySender
  {
    hide Transfer;
  }

  lemma WithdrawPersists(st: State, id: int, recipient: Address, signers: set<Address>)
    requires Funded(st) && Withdraw(st, id, recipient, signers).Ok?
    ensures Persists(st, Withdraw(st, id, recipient, signers).value)
  {
    hide Settle, PayClaim, Flow, Overlists;
    WithdrawSteps(st, id, recipient, signers);
    var g := Opened(st);
    var d := Drawn(g.streams[id], g.now, Due(g.streams[id], g.now));
    SettlePersists(g, id, d, PayClaim(g, g.streams[id], Due(g.streams[id], g.now)).value, signers, false);
    SameListings(st, g);
  }

  lemma SameListings(st: State, st': State)
    requires st'.streams == st.streams && st'.bySender == st.bySender
    ensures Persists(st, st')
  {
  }

  lemma {:induction false} BatchWithdrawPersists(st: State, ids: seq<int>, i: nat, amounts: seq<int>,
                                                 recipient: Address, signers: set<Address>)
    requires Funded(st) && i <= |ids| && BatchWithdrawFrom(st, ids, i, amounts, recipient, signers).Ok?
    ensures Persists(st, BatchWithdrawFrom(st, ids, i, amounts, recipient, signers).value.st)
    decreases |ids| - i
  {
    hide Settle, PayClaim, Flow, Overlists;
    if i < |ids| {
      var p := BatchWithdrawOne(st, ids[i], recipient, signers).value;
      BatchWithdrawOneSafe(st, ids[i], recipient, signers);
      EntryPersists(st, ids[i], recipient, signers);
      BatchWithdrawPersists(p.st, ids, i + 1, amounts + [p.out], recipient, signers);
    }
  }

  lemma EntryPersists(st: State, id: int, recipient: Address, signers: set<Address>)
    requires Funded(st) && BatchWithdrawOne(st, id, recipient, signers).Ok?
    ensures Persists(st, BatchWithdrawOne(st, id, recipient, signers).value.st)
  {
    hide Settle, PayClaim, Flow, Persists;
    var s := st.streams[id];
    ClaimWithinDeposit(s, st.now);
    var gross := Accrued(s, st.now);
    SettlePersists(st, id, Drawn(s, st.now, gross), PayClaim(st, s, gross).value, signers, true);
  }

  lemma {:induction false} BatchCancelPersists(st: State, ids: seq<int>, i: nat, results: seq<Result<()>>,
                                               sender: Address)
    requires i <= |ids| && BatchCancelFrom(st, ids, i, results, sender).Ok?
    ensures Persists(st, BatchCancelFrom(st, ids, i, results, sender).value.st)
    decreases |ids| - i
  {
    hide PayOut, Overlists, Unlist;
    if i < |ids| {
      match BatchCancelOne(st, ids[i], sender)
      case Ok(st') =>
        ErasePersists(st, st', ids[i]);
        BatchCancelPersists(st', ids, i + 1, results + [Ok(())], sender);
      case Err(e) => BatchCancelPersists(st, ids, i + 1, results + [Err(e)], sender);
    }
  }

  lemma {:induction false} BatchCreatePersists(st: State, order: BatchOrder, i: nat, ids: seq<int>)
    requires order.Aligned() && order.duration != 0 && i <= |order.amounts| == |ids|
    requires BatchCreateFrom(st, order, i, ids).Ok?
    ensures Persists(st, BatchCreateFrom(st, order, i, ids).value)
    decreases |ids| - i
  {
    hide Transfer, Overlists;
    if i < |ids| {
      var mid := BatchCreateOne(st, order, i, ids[i]).value;
      EnrollPersists(st, mid, BatchStream(st, order, i, ids[i]));
      BatchCreatePersists(mid, order, i + 1, ids);
    }
  }

  lemma BatchPersists(derive: Derive, st: State, order: BatchOrder, nonce: u64)
    requires BatchCreate(derive, st, order, nonce).Ok?
    ensures Persists(st, BatchCreate(derive, st, order, nonce).value.st)
  {
    hide Overlists, BatchCreate;
    BatchCreatePasses(derive, st, order, nonce);
    var start := BatchStart(st, order, nonce);
    SameListings(st, start);
    BatchCreatePersists(start, order, 0, BatchCreate(derive, st, order, nonce).value.out);
  }

  /** What a partial cancel does to records and senders' lists. */
  lemma PartialListing(derive: Derive, st: State, id: int, caller: Address, amount: i128)
    requires PartialCancel(derive, st, id, caller, amount).Ok?
    ensures id in st.streams
    ensures var s := st.streams[id]; var r := PartialCancel(derive, st, id, caller, amount).value;
            && r.out == ReplacementId(derive, st, id) && r.out in r.st.streams
            && r.st.streams[r.out].id == r.out && r.st.streams[r.out].sender == s.sender
            && r.st.streams == st.streams[s.id := s.(status := Cancelled)][r.out := r.st.streams[r.out]]
            && r.st.bySender == List(st.bySender, s.sender, r.out)
  {
    hide PayOut, Transfer, PartialTerms;
  }

  lemma PartialPersists(derive: Derive, st: State, id: int, caller: Address, amount: i128)
    requires Funded(st) && PartialCancel(derive, st, id, caller, amount).Ok?
    ensures Persists(st, PartialCancel(derive, st, id, caller, amount).value.st)
    ensures Indexed(st) && ReplacementId(derive, st, id) in st.streams ==>
              Overlists(PartialCancel(derive, st, id, caller, amount).value.st,
                        st.streams[ReplacementId(derive, st, id)].sender, ReplacementId(derive, st, id))
  {
    hide PartialCancel, Persists, Overlists, Owed;
    PartialListing(derive, st, id, caller, amount);
    var r := PartialCancel(derive, st, id, caller, amount).value;
    var cancelled := st.streams[id].(status := Cancelled);
    var mid := st.(streams := st.streams[id := cancelled]);
    SavePersists(st, mid, cancelled);
    EnrollPersists(mid, r.st, r.st.streams[r.out]);
    PersistsOn(st, mid, r.st);
    if Indexed(st) && r.out in st.streams {
      SaveIndexed(st, cancelled);
      EnrollOverlists(mid, r.st, r.st.streams[r.out]);
    }
  }

  lemma CreatePersists(derive: Derive, st: State, call: Call)
    requires call.DoCreateStream? && ApplyStream(derive, st, call).Ok?
    ensures Persists(st, ApplyStream(derive, st, call).value)
  {
    hide TakeIn, Overlists;
    GateInv(st);
    var g := Gate(st).value;
    var s := NewStream(derive, g, call.sender, call.recipient, call.token, call.amount, call.duration, call.cliff,
                       call.nonce, call.autoRenew, call.lockUntil, call.allowTermination).value;
    EnrollPersists(st, ApplyStream(derive, st, call).value, s);
  }

  lemma ClosePersists(derive: Derive, st: State, call: Call)
    requires (call.DoCancelStream? || call.DoRecipientTerminate? || call.DoArchive?)
             && ApplyStream(derive, st, call).Ok?
    ensures Persists(st, ApplyStream(derive, st, call).value)
  {
    hide PayOut, Overlists, Unlist, Flow;
    GateInv(st);
    ErasePersists(st, ApplyStream(derive, st, call).value, call.id);
  }

  lemma AdjustPersists(derive: Derive, st: State, call: Call)
    requires call.DoTransferRecipient? || call.DoTopUp? || call.DoPauseStream? || call.DoResumeStream?
             || call.DoCancelAutoRenew? || call.DoSetDelegate?
    requires Funded(st) && ApplyStream(derive, st, call).Ok?
    ensures Persists(st, ApplyStream(derive, st, call).value)
  {
    hide Overlists;
    var st' := ApplyStream(derive, st, call).value;
    AdjustListing(derive, st, call);
    if call.DoSetDelegate? { SameListings(st, st'); } else { SavePersists(st, st', st'.streams[call.id]); }
  }

  lemma AdjustListing(derive: Derive, st: State, call: Call)
    requires call.DoTransferRecipient? || call.DoTopUp? || call.DoPauseStream? || call.DoResumeStream?
             || call.DoCancelAutoRenew? || call.DoSetDelegate?
    requires Funded(st) && ApplyStream(derive, st, call).Ok?
    ensures var st' := ApplyStream(derive, st, call).value;
            && st'.bySender == st.bySender
            && (if call.DoSetDelegate? then st'.streams == st.streams
                else && call.id in st.streams && call.id in st'.streams && st'.streams[call.id].id == call.id
                     && st'.streams[call.id].sender == st.streams[call.id].sender
                     && st'.streams == st.streams[call.id := st'.streams[call.id]])
  {
    hide HandOver, Extend, Flow;
    GateInv(st);
    if call.DoTransferRecipient? {
      HandOverListing(Gate(st).value, call.id, call.next);
    } else if call.DoTopUp? {
      ExtendListing(Gate(st).value, call.id, call.caller, call.amount);
    }
  }

  lemma HandOverListing(st: State, id: int, next: Address)
    requires Funded(st) && id in st.streams && st.streams[id].Live() && HandOver(st, id, st.streams[id], next).Ok?
    ensures var s := st.streams[id]; var st' := HandOver(st, id, s, next).value;
            && st'.bySender == st.bySender && id in st'.streams && st'.streams[id].id == id
               && st'.streams[id].sender == s.sender
            && st'.streams == st.streams[id := st'.streams[id]]
  {
    hide TransferPayout, Flow, HandedOver;
    HandOverRecord(st, id, st.streams[id], next);
    HandedOverKeeps(st.streams[id], st.streams[id].Clock(st.now), next);
  }

  lemma HandedOverKeeps(s: Stream, t: int, next: Address)
    ensures HandedOver(s, t, next).id == s.id && HandedOver(s, t, next).sender == s.sender
  {
    hide DueAtHandOver;
  }

  lemma ExtendListing(st: State, id: int, caller: Address, amount: int)
    requires Funded(st) && id in st.streams && Extend(st, st.streams[id], caller, amount).Ok?
    ensures var s := st.streams[id]; var st' := Extend(st, s, caller, amount).value;
            && st'.bySender == st.bySender && id in st'.streams && st'.streams[id].id == id
               && st'.streams[id].sender == s.sender
            && st'.streams == st.streams[id := st'.streams[id]]
  {
    hide Transfer, Flow;
  }

  /** No successful call ends an overlisting, and one that overwrites a record of an exact index begins one. */
  lemma CallPersists(derive: Derive, st: State, call: Call)
    requires Funded(st) && Apply(derive, st, call).Ok?
    ensures Persists(st, Apply(derive, st, call).value)
    ensures Indexed(st) && Overwrites(derive, st, call) ==>
              exists a, id :: Overlists(Apply(derive, st, call).value, a, id)
  {
    hide Persists, Overlists;
    if call.IsAdmin() {
      AdminListing(st, call);
    } else if call.DoPartialCancel? {
      PartialPersists(derive, st, call.id, call.caller, call.amount);
    } else {
      StreamCallPersists(derive, st, call);
    }
  }

  lemma AdminListing(st: State, call: Call)
    requires call.IsAdmin() && ApplyAdmin(st, call).Ok?
    ensures Persists(st, ApplyAdmin(st, call).value)
  {
    hide Overlists;
    AdminRecord(st, call);
    SameListings(st, ApplyAdmin(st, call).value);
  }

  lemma StreamCallPersists(derive: Derive, st: State, call: Call)
    requires Funded(st) && !call.IsAdmin() && !call.DoPartialCancel? && ApplyStream(derive, st, call).Ok?
    ensures Persists(st, ApplyStream(derive, st, call).value)
  {
    hide Overlists, Funded;
    if call.DoCreateStream? {
      CreatePersists(derive, st, call);
    } else if call.DoCancelStream? || call.DoRecipientTerminate? || call.DoArchive? {
      ClosePersists(derive, st, call);
    } else if call.DoWithdraw? || call.DoBatchWithdraw? || call.DoBatchCancel? || call.DoBatchCreate? {
      PayingPersists(derive, st, call);
    } else {
      AdjustPersists(derive, st, call);
    }
  }

  lemma PayingPersists(derive: Derive, st: State, call: Call)
    requires call.DoWithdraw? || call.DoBatchWithdraw? || call.DoBatchCancel? || call.DoBatchCreate?
    requires Funded(st) && ApplyStream(derive, st, call).Ok?
    ensures Persists(st, ApplyStream(derive, st, call).value)
  {
    hide Overlists, Withdraw, BatchWithdrawFrom, BatchCancelFrom, BatchCreate;
    match call
    case DoWithdraw(id, caller, signers) => WithdrawPersists(st, id, caller, signers);
    case DoBatchWithdraw(ids, caller, signers) =>
      GateInv(st);
      SameListings(st, Gate(st).value);
      BatchWithdrawPersists(Gate(st).value, ids, 0, [], caller, signers);
    case DoBatchCancel(ids, caller) => BatchCancelPersists(st, ids, 0, [], caller);
    case DoBatchCreate(order, nonce) => BatchPersists(derive, st, order, nonce);
  }
}
