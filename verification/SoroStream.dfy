/** The contract itself: an object whose entry points update storage and balances in place, in the
    order of contracts/stream/src/lib.rs. Each is proved to return what its state-machine function
    says and, on success, to leave the state it says. On an error the writes made so far are
    still there; `Invoke` is the host, which puts everything back. */
module SoroStream {
  import opened Prelude
  import opened VestingMath
  import opened Streams
  import opened TokenBank
  import opened Storage
  import opened Ledger
  import opened Invariants
  import opened Records
  import opened Runs
  import opened Queries

  /** A settlement reads balances only where the withdrawal left them. */
  lemma SettleReadsOneBank(st: State, id: int, s: Stream, bank: Bank, signers: set<Address>, strict: bool)
    ensures Settle(st, id, s, bank, signers, strict) == Settle(st.(bank := bank), id, s, bank, signers, strict)
  {
  }

  lemma TakeInIgnoresNonces(st: State, s: Stream, nonces: set<(Address, int)>)
    ensures TakeIn(st.(nonces := nonces), s) == TakeIn(st, s)
  {
  }

  /** Everything the host puts back after a failed call. */
  datatype Snapshot = Snapshot(
    now: int, streams: map<int, Stream>, bank: Bank, nonces: set<(Address, int)>, batchNonces: map<Address, int>,
    delegates: map<int, Address>, paused: bool, pauseExpiry: int, cfg: Config,
    sentCount: map<Address, int>, sentSlots: map<(Address, int), int>,
    receivedCount: map<Address, int>, receivedSlots: map<(Address, int), int>,
    registryCount: int, registrySlots: map<int, int>,
    auditHead: int, auditLen: int, auditSlots: map<int, AuditEntry>)
  {
    /** The copy was taken in a state that stands for `st`. */
    ghost predicate Pictures(st: State) {
      && now == st.now && streams == st.streams && bank == st.bank && nonces == st.nonces
         && batchNonces == st.batchNonces
      && delegates == st.delegates && paused == st.paused && pauseExpiry == st.pauseExpiry && cfg == st.cfg
      && Represents(sentCount, sentSlots, st.bySender) && Represents(receivedCount, receivedSlots, st.byRecipient)
      && Enumerated(registryCount, registrySlots, st.created) && HoldsEnd(auditHead, auditLen, auditSlots, st.audit)
    }
  }

  class StreamContract {
    const derive: Derive
    var now: int
    var streams: map<int, Stream>
    var bank: Bank
    const senders: SlotIndex
    const recipients: SlotIndex
    const registry: GlobalIndex
    var nonces: set<(Address, int)>
    var batchNonces: map<Address, int>
    var delegates: map<int, Address>
    var paused: bool
    var pauseExpiry: int
    const audit: AuditRing
    var cfg: Config

    ghost function Repr(): set<object> {
      {this, senders, recipients, registry, audit}
    }

    ghost predicate Valid()
      reads Repr()
    {
      senders != recipients && senders.Valid() && recipients.Valid() && registry.Valid() && audit.Valid()
    }

    /** What the object stands for. */
    ghost function Abs(): State
      reads Repr()
    {
      State(now, streams, bank, senders.ids, recipients.ids, registry.ids, nonces, batchNonces, delegates,
            paused, pauseExpiry, audit.history, cfg)
    }

    /** The method did what the function says. */
    ghost predicate Did<T>(r: Result<T>, spec: Result<Post<T>>)
      reads Repr()
    {
      match spec
      case Ok(p) => r == Ok(p.out) && Valid() && Abs() == p.st
      case Err(e) => r == Err(e)
    }

    ghost predicate Went(r: Result<()>, spec: Result<State>)
      reads Repr()
    {
      match spec
      case Ok(st) => r == Ok(()) && Valid() && Abs() == st
      case Err(e) => r == Err(e)
    }

    constructor (derive: Derive, bank: Bank, now: u64, cfg: Config)
      ensures Valid() && fresh(Repr()) && this.derive == derive
      ensures Abs() == State(now, map[], bank, map[], map[], [], {}, map[], map[], false, 0, [], cfg)
    {
      this.derive, this.now, this.bank, this.cfg := derive, now, bank, cfg;
      streams, nonces, batchNonces, delegates, paused, pauseExpiry := map[], {}, map[], map[], false, 0;
      senders := new SlotIndex();
      recipients := new SlotIndex();
      registry := new GlobalIndex();
      audit := new AuditRing();
    }

    // ---- storage and token helpers ----

    method IsPausedOrAutoUnpause() returns (p: bool)
      modifies this`paused, this`pauseExpiry
      ensures p <==> Gate(old(Abs())).Err?
      ensures Abs() == if p then old(Abs()) else Gate(old(Abs())).value
    {
      if !paused {
        return false;
      }
      if pauseExpiry > 0 && now >= pauseExpiry {
        paused := false;
        pauseExpiry := 0;
        return false;
      }
      return true;
    }

    method TransferTokens(token: Address, from: Address, to: Address, amount: int) returns (r: Result<()>)
      modifies this`bank
      ensures match Transfer(old(bank), token, from, to, amount)
              case Ok(after) => r == Ok(()) && bank == after
              case Err(e) => r == Err(e) && bank == old(bank)
    {
      var check := Need(0 <= amount <= BalanceOf(bank, token, from), TransferFailed(from));
      :- check;
      bank := Credit(bank, token, from, -amount);
      bank := Credit(bank, token, to, amount);
      return Ok(());
    }

    method PayOutTokens(token: Address, to: Address, amount: int) returns (r: Result<()>)
      modifies this`bank
      ensures match PayOut(old(bank), token, to, amount)
              case Ok(after) => r == Ok(()) && bank == after
              case Err(e) => r == Err(e) && bank == old(bank)
    {
      if amount > 0 {
        r := TransferTokens(token, Contract, to, amount);
      } else {
        r := Ok(());
      }
    }

    /** The fee split of a positive claim. */
    method PayClaimed(s: Stream, gross: int) returns (r: Result<()>)
      modifies this`bank
      ensures match PayClaim(old(Abs()), s, gross)
              case Ok(after) => r == Ok(()) && bank == after
              case Err(e) => r == Err(e)
    {
      if gross <= 0 {
        return Ok(());
      }
      var fee := 0;
      if cfg.feeBps > 0 && s.recipient !in cfg.feeExempt {
        var product :- CheckedI128(gross * cfg.feeBps).OkOr(Overflow);
        fee := product / FEE_DENOMINATOR;
      }
      var net := gross - fee;
      var _ :- PayOutTokens(s.token, s.recipient, net);
      if fee > 0 {
        if cfg.treasury.Some? {
          var _ :- TransferTokens(s.token, Contract, cfg.treasury.value, fee);
        }
      }
      return Ok(());
    }

    method SaveStream(s: Stream)
      modifies this`streams
      ensures streams == old(streams)[s.id := s]
    {
      streams := streams[s.id := s];
    }

    /** Deletes the record and both index entries. */
    method RemoveStream(id: int, s: Stream)
      requires Valid()
      modifies this`streams, senders, recipients
      ensures Valid() && Abs() == Erase(old(Abs()), id, s)
    {
      streams := streams - {id};
      senders.Unindex(s.sender, id);
      recipients.Unindex(s.recipient, id);
    }

    /** Saves a new record and lists it in the three indexes. */
    method StoreNew(s: Stream) returns (r: Result<()>)
      requires Valid()
      modifies this`streams, senders, recipients, registry
      ensures r == if |Listed(old(senders.ids), s.sender)| < U32_MAX
              && |Listed(old(recipients.ids), s.recipient)| < U32_MAX
                      && |old(registry.ids)| < U32_MAX
                   then Ok(()) else Err(Panic)
      ensures r.Ok? ==>
                && Valid() && streams == old(streams)[s.id := s]
                && senders.ids == List(old(senders.ids), s.sender, s.id)
                && recipients.ids == List(old(recipients.ids), s.recipient, s.id)
                && registry.ids == old(registry.ids) + [s.id]
    {
      SaveStream(s);
      var _ :- senders.Index(s.sender, s.id);
      var _ :- recipients.Index(s.recipient, s.id);
      var _ :- registry.Index(s.id);
      return Ok(());
    }

    // ---- creation ----

    method CreateStream(sender: Address, recipient: Address, token: Address, amount: i128, duration: u64, cliff: u64,
                        nonce: u64, autoRenew: bool, lockUntil: u64, allowTermination: bool) returns (r: Result<int>)
      requires Valid()
      modifies Repr()
      ensures Did(r, Ledger.CreateStream(derive, old(Abs()), sender, recipient, token, amount, duration, cliff, nonce,
                                         autoRenew, lockUntil, allowTermination))
    {
      var check := RequireAuth(sender);
      :- check;
      var stopped := IsPausedOrAutoUnpause();
      :- Need(!stopped, ContractPaused);
      var s :- CheckCreation(sender, recipient, token, amount, duration, cliff, nonce, autoRenew, lockUntil,
                             allowTermination);
      var _ :- LockDeposit(s, nonce);
      return Ok(s.id);
    }

    /** Every check of a creation, in order, and the record it would store. */
    method CheckCreation(sender: Address, recipient: Address, token: Address, amount: i128, duration: u64, cliff: u64,
                         nonce: u64, autoRenew: bool, lockUntil: u64,
                           allowTermination: bool) returns (r: Result<Stream>)
      requires Valid()
      ensures r == NewStream(derive, Abs(), sender, recipient, token, amount, duration, cliff, nonce, autoRenew,
                             lockUntil,
                             allowTermination)
    {
      var check := Need((sender, nonce) !in nonces, DuplicateStream);
      :- check;
      :- Need(amount > 0, ZeroAmount);
      :- Need(cliff < duration, InvalidCliff);
      :- Need(!cfg.whitelistEnabled || recipient in cfg.whitelist, RecipientNotWhitelisted);
      :- Need(cfg.minDuration <= duration, StreamDurationTooShort);
      var flowRate := amount / duration;
      :- Need(flowRate != 0, ZeroFlowRate);
      var count := senders.Count(sender);
      :- Need(count < cfg.SenderLimit(sender), SenderStreamLimitExceeded);
      var endTime :- CheckedU64(now + duration).OkOr(Overflow);
      if endTime <= now {
        // InvalidEndTime: dead, because the duration is longer than the cliff.
        assert false;
      }
      var cliffTime :- CheckedU64(now + cliff).OkOr(Overflow);
      var id := derive(sender, recipient, now, nonce);
      :- Need(id !in streams, StreamIdConflict);
      return Ok(Created(id, sender, recipient, token, amount, flowRate, now, cliffTime, lockUntil, endTime, autoRenew,
                        allowTermination));
    }

    method CollectCreationFee(sender: Address) returns (r: Result<()>)
      modifies this`bank
      ensures match CreationFee(old(Abs()), sender)
              case Ok(after) => r == Ok(()) && bank == after
              case Err(e) => r == Err(e)
    {
      if cfg.creationFee > 0 {
        var treasury :- cfg.treasury.OkOr(NotInitialized);
        var xlm :- cfg.xlmToken.OkOr(NotInitialized);
        r := TransferTokens(xlm, sender, treasury, cfg.creationFee);
      } else {
        r := Ok(());
      }
    }

    method TakeDeposit(s: Stream) returns (r: Result<()>)
      modifies this`bank
      ensures match TakeIn(old(Abs()), s)
              case Ok(after) => r == Ok(()) && bank == after
              case Err(e) => r == Err(e)
    {
      var _ :- CollectCreationFee(s.sender);
      r := TransferTokens(s.token, s.sender, Contract, s.deposit);
    }

    /** Takes the nonce, the flat fee and the deposit, and stores the stream. */
    method LockDeposit(s: Stream, nonce: int) returns (r: Result<()>)
      requires Valid()
      modifies Repr()
      ensures Went(r, Lock(old(Abs()), s, nonce))
    {
      hide TakeIn, Represents, Enumerated, HoldsEnd;
      nonces := nonces + {(s.sender, nonce)};
      TakeInIgnoresNonces(old(Abs()), s, nonces);
      var _ :- TakeDeposit(s);
      ghost var paid := Abs();
      r := StoreNew(s);
      assert Went(r, Enroll(paid, s));
    }

    method BatchCreate(order: BatchOrder, nonce: u64) returns (r: Result<seq<int>>)
      requires Valid()
      modifies Repr()
      ensures Did(r, Ledger.BatchCreate(derive, old(Abs()), order, nonce))
    {
      hide BatchFill;
      var stopped := IsPausedOrAutoUnpause();
      :- Need(!stopped, ContractPaused);
      :- RequireAuth(order.sender);
      var expected := if order.sender in batchNonces then batchNonces[order.sender] else 0;
      :- Need(nonce == expected, InvalidNonce);
      :- Need(expected + 1 <= U64_MAX, Panic);
      batchNonces := batchNonces[order.sender := expected + 1];
      :- Need(order.Aligned(), BatchLengthMismatch);
      var endTime :- CheckedU64(now + order.duration).OkOr(Overflow);
      :- Need(now < endTime, InvalidDuration);
      var count := senders.Count(order.sender) + |order.recipients|;
      :- Need(count <= U32_MAX, Panic);
      :- Need(count <= cfg.SenderLimit(order.sender), SenderStreamLimitExceeded);
      r := FillBatch(order);
    }

    method FillBatch(order: BatchOrder) returns (r: Result<seq<int>>)
      requires Valid() && order.Aligned() && order.duration != 0
      modifies Repr()
      ensures Did(r, BatchFill(derive, old(Abs()), order))
    {
      var ids :- BatchPrePass(order);
      var _ :- BatchSecondPass(order, ids);
      return Ok(ids);
    }

    /** Computes every id and rejects stored or repeated ones before anything is written. */
    method BatchPrePass(order: BatchOrder) returns (r: Result<seq<int>>)
      requires Valid() && order.Aligned() && order.duration != 0
      ensures r == BatchIdsFrom(derive, Abs(), order, 0, [])
    {
      var ids := [];
      for i := 0 to |order.amounts|
        invariant |ids| == i
        invariant BatchIdsFrom(derive, Abs(), order, i, ids) == BatchIdsFrom(derive, Abs(), order, 0, [])
      {
        var check := Need(order.amounts[i] > 0, ZeroAmount);
        :- check;
        var flowRate := order.amounts[i] / order.duration;
        :- Need(flowRate != 0, ZeroFlowRate);
        var id := derive(order.sender, order.recipients[i], now, i);
        :- Need(id !in streams, DuplicateStreamId);
        for j := 0 to |ids|
          invariant id !in ids[..j]
        {
          var check := Need(ids[j] != id, DuplicateStreamId);
          :- check;
        }
        ids := ids + [id];
      }
      return Ok(ids);
    }

    method BatchSecondPass(order: BatchOrder, ids: seq<int>) returns (r: Result<()>)
      requires Valid() && order.Aligned() && order.duration != 0 && |ids| == |order.amounts|
      modifies Repr()
      ensures Went(r, BatchCreateFrom(old(Abs()), order, 0, ids))
    {
      hide BatchCreateOne;
      for i := 0 to |ids|
        invariant Valid()
        invariant BatchCreateFrom(Abs(), order, i, ids) == BatchCreateFrom(old(Abs()), order, 0, ids)
      {
        var _ :- CreateEntry(order, i, ids[i]);
      }
      return Ok(());
    }

    method CreateEntry(order: BatchOrder, i: nat, id: int) returns (r: Result<()>)
      requires Valid() && order.Aligned() && order.duration != 0 && i < |order.amounts|
      modifies Repr()
      ensures Went(r, BatchCreateOne(old(Abs()), order, i, id))
    {
      hide Transfer, Represents, Enumerated, HoldsEnd;
      var flowRate := order.amounts[i] / order.duration;
      var _ :- TransferTokens(order.tokens[i], order.sender, Contract, order.amounts[i]);
      var s := Created(id, order.sender, order.recipients[i], order.tokens[i], order.amounts[i], flowRate,
                       now, now, order.lockUntils[i], now + order.duration, order.autoRenew, false);
      assert s == BatchStream(old(Abs()), order, i, id);
      ghost var paid := Abs();
      r := StoreNew(s);
      assert Went(r, Enroll(paid, s));
    }

    // ---- withdrawals ----

    method RenewStream(s: Stream, signers: set<Address>) returns (r: Result<()>)
      requires Valid()
      modifies this`bank, this`streams
      ensures Went(r, Renew(old(Abs()), s, old(bank), signers))
    {
      var duration := s.endTime - s.startTime;
      :- RequireSigned(s.sender, signers);
      var _ :- TransferTokens(s.token, s.sender, Contract, s.deposit);
      var newEnd :- CheckedU64(s.endTime + duration).OkOr(Overflow);
      var renewed := s.(startTime := s.endTime, endTime := newEnd);
      renewed := renewed.(lastWithdrawTime := renewed.startTime, totalWithdrawn := 0);
      SaveStream(renewed);
      return Ok(());
    }

    method Withdraw(id: int, recipient: Address, signers: set<Address>) returns (r: Result<()>)
      requires Valid()
      modifies Repr()
      ensures Went(r, Ledger.Withdraw(old(Abs()), id, recipient, signers))
    {
      var stopped := IsPausedOrAutoUnpause();
      :- Need(!stopped, ContractPaused);
      :- RequireAuth(recipient);
      :- Need(id in streams, StreamNotFound);
      var s := streams[id];
      :- Need(s.recipient == recipient, NotRecipient);
      :- Need(s.status.Active?, StreamNotActive);
      :- Need(s.lockUntil <= now, StreamLocked);
      :- Need(cfg.cooldown <= 0 || SaturatingU64(s.lastWithdrawTime + cfg.cooldown) <= now, WithdrawalCooldownActive);
      var gross :- ComputeClaimable(s.flowRate, now, s.cliffTime, s.endTime, s.lastWithdrawTime).OkOr(Overflow);
      r := DrawStream(id, s, gross, signers, false);
    }

    /** The common rest of both withdrawal entry points. */
    method DrawStream(id: int, loaded: Stream, gross: int, signers: set<Address>, strict: bool) returns (r: Result<()>)
      requires Valid()
      modifies this`bank, this`streams, senders, recipients
      ensures Went(r, Draw(old(Abs()), id, loaded, gross, signers, strict))
    {
      hide Settle;
      var s := loaded;
      var effectiveNow := Min(now, s.endTime);
      if gross > 0 {
        var total :- CheckedI128(s.totalWithdrawn + gross).OkOr(Overflow);
        :- Need(total <= s.deposit, Overflow);
        var _ :- PayClaimed(s, gross);
        s := s.(totalWithdrawn := total);
      }
      s := s.(lastWithdrawTime := effectiveNow);
      SettleReadsOneBank(old(Abs()), id, s, bank, signers, strict);
      r := SettleWithdrawn(id, s, signers, strict);
    }

    /** Keeps, renews, completes or deletes the drawn stream. */
    method SettleWithdrawn(id: int, drawn: Stream, signers: set<Address>, strict: bool) returns (r: Result<()>)
      requires Valid()
      modifies this`bank, this`streams, senders, recipients
      ensures Went(r, Settle(old(Abs()), id, drawn, old(bank), signers, strict))
    {
      hide Renew, Erase;
      var s := drawn;
      if now >= s.endTime {
        var duration := s.endTime - s.startTime;
        var dust := SaturatingI128(s.deposit - SaturatingI128(Flow(s.flowRate, duration)));
        if s.autoRenew {
          if !strict && BalanceOf(bank, s.token, s.sender) < s.deposit {
            var _ :- PayOutTokens(s.token, s.sender, dust);
            s := s.(status := Completed);
            SaveStream(s);
          } else {
            var _ :- RenewStream(s, signers);
          }
        } else {
          var _ :- PayOutTokens(s.token, s.sender, dust);
          RemoveStream(id, s);
        }
      } else {
        SaveStream(s);
      }
      return Ok(());
    }

    method WithdrawEntry(id: int, recipient: Address, signers: set<Address>) returns (r: Result<int>)
      requires Valid()
      modifies this`bank, this`streams, senders, recipients
      ensures Did(r, BatchWithdrawOne(old(Abs()), id, recipient, signers))
    {
      var check := Need(id in streams, StreamNotFound);
      :- check;
      var s := streams[id];
      :- Need(s.recipient == recipient, NotRecipient);
      :- Need(s.status.Active?, StreamNotActive);
      :- Need(s.lockUntil <= now, StreamLocked);
      var gross :- ComputeEarned(s.flowRate, now, s.endTime, s.lastWithdrawTime).OkOr(Overflow);
      var _ :- DrawStream(id, s, gross, signers, true);
      return Ok(gross);
    }

    method BatchWithdraw(ids: seq<int>, recipient: Address, signers: set<Address>) returns (r: Result<seq<int>>)
      requires Valid()
      modifies Repr()
      ensures Did(r, Ledger.BatchWithdraw(old(Abs()), ids, recipient, signers))
    {
      var stopped := IsPausedOrAutoUnpause();
      :- Need(!stopped, ContractPaused);
      :- RequireAuth(recipient);
      ghost var open := Abs();
      var amounts := [];
      for i := 0 to |ids|
        invariant Valid()
        invariant BatchWithdrawFrom(Abs(), ids, i, amounts, recipient, signers)
                  == BatchWithdrawFrom(open, ids, 0, [], recipient, signers)
      {
        var gross :- WithdrawEntry(ids[i], recipient, signers);
        amounts := amounts + [gross];
      }
      return Ok(amounts);
    }

    // ---- closing ----

    /** Pays both parties and deletes the stream. */
    method CloseStream(id: int, s: Stream, toRecipient: int) returns (r: Result<()>)
      requires Valid()
      modifies this`bank, this`streams, senders, recipients
      ensures Went(r, Close(old(Abs()), id, s, toRecipient))
    {
      var refund := SaturatingI128(SaturatingI128(s.deposit - s.totalWithdrawn) - toRecipient);
      var _ :- PayOutTokens(s.token, s.recipient, toRecipient);
      var _ :- PayOutTokens(s.token, s.sender, refund);
      RemoveStream(id, s);
      return Ok(());
    }

    method CancelStream(id: int, caller: Address) returns (r: Result<()>)
      requires Valid()
      modifies Repr()
      ensures Went(r, Ledger.CancelStream(old(Abs()), id, caller))
    {
      var check := RequireAuth(caller);
      :- check;
      :- Need(id in streams, StreamNotFound);
      var s := streams[id];
      var isSender := s.sender == caller;
      var isDelegate := id in delegates && delegates[id] == caller;
      :- Need(isSender || isDelegate, NotAuthorized);
      :- Need(s.status.Active? || s.status.Paused?, StreamNotActive);
      var t := if s.status.Paused? then s.lastPauseTime else now;
      var toRecipient :- ComputeEarned(s.flowRate, t, s.endTime, s.lastWithdrawTime).OkOr(Overflow);
      r := CloseStream(id, s, toRecipient);
    }

    method RecipientTerminate(id: int, recipient: Address) returns (r: Result<()>)
      requires Valid()
      modifies Repr()
      ensures Went(r, Ledger.RecipientTerminate(old(Abs()), id, recipient))
    {
      var stopped := IsPausedOrAutoUnpause();
      :- Need(!stopped, ContractPaused);
      :- RequireAuth(recipient);
      :- Need(id in streams, StreamNotFound);
      var s := streams[id];
      :- Need(s.recipient == recipient, NotRecipient);
      :- Need(s.allowRecipientTermination, NotAuthorized);
      :- Need(s.status.Active? || s.status.Paused?, StreamNotActive);
      var t := if s.status.Paused? then s.lastPauseTime else now;
      var toRecipient :- ComputeClaimable(s.flowRate, t, s.cliffTime, s.endTime, s.lastWithdrawTime).OkOr(Overflow);
      r := CloseStream(id, s, toRecipient);
    }

    method CancelEntry(id: int, sender: Address) returns (r: Result<()>)
      requires Valid()
      modifies this`bank, this`streams, senders, recipients
      ensures Went(r, BatchCancelOne(old(Abs()), id, sender))
      ensures r.Err? && !r.error.IsTrap() ==> Valid() && Abs() == old(Abs())
    {
      var check := Need(id in streams, StreamNotFound);
      :- check;
      var s := streams[id];
      :- Need(s.sender == sender, NotSender);
      :- Need(s.status.Active? || s.status.Paused?, StreamNotActive);
      var toRecipient :- ComputeEarned(s.flowRate, now, s.endTime, s.lastWithdrawTime).OkOr(Overflow);
      r := CloseStream(id, s, toRecipient);
    }

    /** An entry's error is recorded; every check of an entry precedes its first write, so nothing
        has to be undone. */
    method BatchCancel(ids: seq<int>, sender: Address) returns (r: Result<seq<Result<()>>>)
      requires Valid()
      modifies Repr()
      ensures Did(r, Ledger.BatchCancel(old(Abs()), ids, sender))
    {
      var check := RequireAuth(sender);
      :- check;
      :- Need(1 <= |ids| <= 20, BatchLengthMismatch);
      var results: seq<Result<()>> := [];
      for i := 0 to |ids|
        invariant Valid()
        invariant BatchCancelFrom(Abs(), ids, i, results, sender) == BatchCancelFrom(old(Abs()), ids, 0, [], sender)
      {
        var result := CancelEntry(ids[i], sender);
        if result.Err? && result.error.IsTrap() {
          return Err(result.error);
        }
        results := results + [result];
      }
      return Ok(results);
    }

    method ArchiveStream(id: int, caller: Address) returns (r: Result<()>)
      requires Valid()
      modifies Repr()
      ensures Went(r, Ledger.ArchiveStream(old(Abs()), id, caller))
    {
      var check := RequireAuth(caller);
      :- check;
      :- Need(id in streams, StreamNotFound);
      var s := streams[id];
      :- Need(s.sender == caller || s.recipient == caller, NotAuthorized);
      hide Represents, Enumerated, HoldsEnd;
      var dust := SaturatingI128(s.deposit - SaturatingI128(Flow(s.flowRate, s.endTime - s.startTime)));
      :- Need(SaturatingI128(s.totalWithdrawn + dust) >= s.deposit, StreamNotSettled);
      RemoveStream(id, s);
      if id in delegates {
        delegates := delegates - {id};
      }
      assert delegates == old(delegates) - {id};
      return Ok(());
    }

    // ---- adjustments ----

    method TransferRecipient(id: int, current: Address, next: Address) returns (r: Result<()>)
      requires Valid()
      modifies Repr()
      ensures Went(r, Ledger.TransferRecipient(old(Abs()), id, current, next))
    {
      var stopped := IsPausedOrAutoUnpause();
      :- Need(!stopped, ContractPaused);
      :- RequireAuth(current);
      :- Need(id in streams, StreamNotFound);
      var s := streams[id];
      :- Need(s.recipient == current, NotRecipient);
      :- Need(s.status.Active? || s.status.Paused?, StreamNotActive);
      r := HandOverStream(id, s, next);
    }

    method HandOverStream(id: int, loaded: Stream, next: Address) returns (r: Result<()>)
      requires Valid()
      modifies Repr()
      ensures Went(r, HandOver(old(Abs()), id, loaded, next))
    {
      hide TransferPayout, Represents;
      var s :- PayBeforeTransfer(loaded);
      var previous := loaded.recipient;
      s := s.(recipient := next);
      SaveStream(s);
      recipients.Unindex(previous, id);
      r := recipients.Index(next, id);
    }

    /** Pays what is due to the old recipient, unless locked or before the cliff. */
    method PayBeforeTransfer(loaded: Stream) returns (r: Result<Stream>)
      modifies this`bank
      ensures match TransferPayout(old(Abs()), loaded)
              case Ok(p) => r == Ok(p.1) && bank == p.0
              case Err(e) => r == Err(e)
    {
      var s := loaded;
      var t := if s.status.Paused? then s.lastPauseTime else now;
      if t >= s.lockUntil {
        var effectiveNow := Min(t, s.endTime);
        if t >= s.cliffTime {
          var gross :- ComputeClaimable(s.flowRate, t, s.cliffTime, s.endTime, s.lastWithdrawTime).OkOr(Overflow);
          if gross > 0 {
            var _ :- PayClaimed(s, gross);
            var total :- CheckedI128(s.totalWithdrawn + gross).OkOr(Overflow);
            s := s.(totalWithdrawn := total, lastWithdrawTime := effectiveNow);
          }
        }
      }
      return Ok(s);
    }

    method PartialCancel(id: int, caller: Address, amount: i128) returns (r: Result<int>)
      requires Valid()
      modifies Repr()
      ensures Did(r, Ledger.PartialCancel(derive, old(Abs()), id, caller, amount))
    {
      var check := RequireAuth(caller);
      :- check;
      :- Need(id in streams, StreamNotFound);
      var s := streams[id];
      var isSender := s.sender == caller;
      var isDelegate := id in delegates && delegates[id] == caller;
      :- Need(isSender || isDelegate, NotAuthorized);
      :- Need(s.status.Active? || s.status.Paused?, StreamNotActive);
      :- Need(amount > 0, ZeroAmount);
      var t := if s.status.Paused? then s.lastPauseTime else now;
      var terms :- ComputeTerms(s, t, amount);
      var newId := derive(s.sender, s.recipient, t, id);
      var _ :- SplitStream(s, amount, terms, Replacement(s, newId, t, terms.kept, terms.newEnd));
      return Ok(newId);
    }

    method ComputeTerms(s: Stream, t: int, amount: int) returns (r: Result<Terms>)
      ensures r == PartialTerms(s, t, amount)
    {
      var earned :- CheckedI128(Flow(s.flowRate, SaturatingU64(t - s.lastWithdrawTime))).OkOr(Overflow);
      var streamed :- CheckedI128(Flow(s.flowRate, SaturatingU64(t - s.startTime))).OkOr(Overflow);
      var remaining := SaturatingI128(s.deposit - streamed);
      :- Need(!(amount >= remaining || remaining - amount < s.flowRate), InvalidPartialCancel);
      var kept := remaining - amount;
      :- Need(s.flowRate != 0, Panic);
      var seconds :- CheckedU64(kept / s.flowRate).OkOr(Overflow);
      var newEnd :- CheckedU64(t + seconds).OkOr(Overflow);
      return Ok(Terms(earned, kept, newEnd));
    }

    method SplitStream(s: Stream, amount: int, terms: Terms, heir: Stream) returns (r: Result<()>)
      requires Valid()
      modifies Repr()
      ensures Went(r, Split(old(Abs()), s, amount, terms, heir))
    {
      hide Transfer, PayOut, Represents, Enumerated, HoldsEnd;
      var _ :- PayOutTokens(s.token, s.recipient, terms.earned);
      var _ :- TransferTokens(s.token, Contract, s.sender, amount);
      SaveStream(s.(status := Cancelled));
      ghost var paid := Abs();
      r := StoreNew(heir);
      assert Went(r, Enroll(paid, heir));
    }

    method TopUp(id: int, caller: Address, token: Address, amount: i128) returns (r: Result<()>)
      requires Valid()
      modifies Repr()
      ensures Went(r, Ledger.TopUp(old(Abs()), id, caller, token, amount))
    {
      var stopped := IsPausedOrAutoUnpause();
      :- Need(!stopped, ContractPaused);
      :- RequireAuth(caller);
      :- Need(id in streams, StreamNotFound);
      var s := streams[id];
      var isSender := s.sender == caller;
      var isDelegate := id in delegates && delegates[id] == caller;
      :- Need(isSender || isDelegate, NotAuthorized);
      :- Need(s.token == token, TokenMismatch);
      :- Need(s.status.Active? || s.status.Paused?, StreamNotActive);
      :- Need(amount > 0, ZeroAmount);
      r := ExtendStream(s, caller, amount);
    }

    method ExtendStream(loaded: Stream, caller: Address, amount: int) returns (r: Result<()>)
      requires Valid()
      modifies this`bank, this`streams
      ensures Went(r, Extend(old(Abs()), loaded, caller, amount))
    {
      hide Transfer;
      var s := loaded;
      :- Need(s.flowRate != 0, Panic);
      var effective := amount - amount % s.flowRate;
      :- Need(effective > 0, ZeroAmount);
      var _ :- TransferTokens(s.token, caller, Contract, effective);
      var seconds :- CheckedU64(effective / s.flowRate).OkOr(Overflow);
      var endTime :- CheckedU64(s.endTime + seconds).OkOr(Overflow);
      s := s.(endTime := endTime);
      var deposit :- CheckedI128(s.deposit + effective).OkOr(Overflow);
      s := s.(deposit := deposit);
      assert s == ToppedUp(loaded, seconds, effective);
      SaveStream(s);
      return Ok(());
    }

    method PauseStream(id: int, sender: Address) returns (r: Result<()>)
      requires Valid()
      modifies Repr()
      ensures Went(r, Ledger.PauseStream(old(Abs()), id, sender))
    {
      var stopped := IsPausedOrAutoUnpause();
      :- Need(!stopped, ContractPaused);
      :- RequireAuth(sender);
      :- Need(id in streams, StreamNotFound);
      var s := streams[id];
      :- Need(s.sender == sender, NotSender);
      :- Need(s.status.Active?, StreamNotActive);
      s := s.(status := Paused);
      s := s.(lastPauseTime := now);
      SaveStream(s);
      return Ok(());
    }

    method ResumeStream(id: int, sender: Address) returns (r: Result<()>)
      requires Valid()
      modifies Repr()
      ensures Went(r, Ledger.ResumeStream(old(Abs()), id, sender))
    {
      var stopped := IsPausedOrAutoUnpause();
      :- Need(!stopped, ContractPaused);
      :- RequireAuth(sender);
      :- Need(id in streams, StreamNotFound);
      var s := streams[id];
      :- Need(s.sender == sender, NotSender);
      :- Need(s.status.Paused?, StreamNotPaused);
      var d := SaturatingU64(now - s.lastPauseTime);
      s := s.(endTime := SaturatingU64(s.endTime + d));
      s := s.(cliffTime := SaturatingU64(s.cliffTime + d));
      s := s.(startTime := SaturatingU64(s.startTime + d));
      s := s.(lastWithdrawTime := SaturatingU64(s.lastWithdrawTime + d));
      s := s.(lockUntil := SaturatingU64(s.lockUntil + d));
      s := s.(status := Active, lastPauseTime := 0);
      SaveStream(s);
      return Ok(());
    }

    method CancelAutoRenew(id: int, sender: Address) returns (r: Result<()>)
      requires Valid()
      modifies Repr()
      ensures Went(r, Ledger.CancelAutoRenew(old(Abs()), id, sender))
    {
      var check := RequireAuth(sender);
      :- check;
      :- Need(id in streams, StreamNotFound);
      var s := streams[id];
      :- Need(s.sender == sender, NotSender);
      SaveStream(s.(autoRenew := false));
      return Ok(());
    }

    method SetDelegate(id: int, sender: Address, operator: Option<Address>) returns (r: Result<()>)
      requires Valid()
      modifies Repr()
      ensures Went(r, Ledger.SetDelegate(old(Abs()), id, sender, operator))
    {
      var check := RequireAuth(sender);
      :- check;
      :- Need(id in streams, StreamNotFound);
      :- Need(streams[id].sender == sender, NotSender);
      if operator.Some? {
        delegates := delegates[id := operator.value];
      } else {
        delegates := delegates - {id};
      }
      return Ok(());
    }

    // ---- the global pause ----

    method EmergencyPause(caller: Address) returns (r: Result<()>)
      requires Valid()
      modifies Repr()
      ensures Went(r, Ledger.EmergencyPause(old(Abs()), caller))
    {
      var check := CheckAdmin(cfg, caller);
      :- check;
      paused := true;
      pauseExpiry := PauseExpiry(now);
      audit.Append(AuditEntry("emergency_pause", caller, now, ""));
      return Ok(());
    }

    method EmergencyResume(caller: Address) returns (r: Result<()>)
      requires Valid()
      modifies Repr()
      ensures Went(r, Ledger.EmergencyResume(old(Abs()), caller))
    {
      var check := CheckAdmin(cfg, caller);
      :- check;
      paused := false;
      pauseExpiry := 0;
      audit.Append(AuditEntry("emergency_resume", caller, now, ""));
      return Ok(());
    }

    method GuardianPause(guardian: Address) returns (r: Result<()>)
      requires Valid()
      modifies Repr()
      ensures Went(r, Ledger.GuardianPause(old(Abs()), guardian))
    {
      var check := RequireAuth(guardian);
      :- check;
      :- Need(cfg.guardian == Some(guardian), NotAuthorized);
      paused := true;
      pauseExpiry := PauseExpiry(now);
      return Ok(());
    }

    method GovernanceUnpause(governance: Address) returns (r: Result<()>)
      requires Valid()
      modifies Repr()
      ensures Went(r, Ledger.GovernanceUnpause(old(Abs()), governance))
    {
      var check := RequireAuth(governance);
      :- check;
      :- Need(cfg.governance == Some(governance), NotAuthorized);
      paused := false;
      pauseExpiry := 0;
      return Ok(());
    }

    // ---- queries ----

    method GetClaimable(id: int) returns (r: Result<int>)
      requires Valid()
      ensures r == Ledger.GetClaimable(Abs(), id)
    {
      var check := Need(id in streams, StreamNotFound);
      :- check;
      var s := streams[id];
      if !s.status.Active? && !s.status.Paused? {
        return Ok(0);
      }
      var t := if s.status.Paused? then s.lastPauseTime else now;
      if t < s.cliffTime {
        return Ok(0);
      }
      r := ComputeClaimable(s.flowRate, t, s.cliffTime, s.endTime, s.lastWithdrawTime).OkOr(Overflow);
    }

    method GetStreamsBySender(a: Address, start: u32, limit: u32) returns (r: seq<Stream>)
      requires Valid()
      ensures r == SenderPage(Abs(), a, start, limit)
    {
      var ids := senders.Ids(a);
      r := LoadPage(ids, start, limit);
    }

    method GetStreamsByRecipient(a: Address, start: u32, limit: u32) returns (r: seq<Stream>)
      requires Valid()
      ensures r == RecipientPage(Abs(), a, start, limit)
    {
      var ids := recipients.Ids(a);
      r := LoadPage(ids, start, limit);
    }

    method LoadPage(ids: seq<int>, start: u32, limit: u32) returns (r: seq<Stream>)
      ensures r == LoadAll(streams, Slice(ids, start, limit))
    {
      r := [];
      ghost var page := Slice(ids, start, limit);
      var cap := Min(limit, PAGE);
      var end := Min(start + cap, |ids|);
      var i := start;
      while i < end
        invariant 0 <= i - start <= |page|
        invariant r == LoadAll(streams, page[..i - start])
      {
        assert page[..i + 1 - start][..i - start] == page[..i - start];
        if ids[i] in streams {
          r := r + [streams[ids[i]]];
        }
        i := i + 1;
      }
      assert page[..i - start] == page;
    }

    method GetAllStreamIds(start: u32, limit: u32) returns (r: seq<int>)
      requires Valid()
      ensures r == IdPage(Abs(), start, limit)
    {
      r := [];
      ghost var page := Slice(registry.ids, start, limit);
      var end := Min(start + Min(limit, PAGE), registry.count);
      var i := start;
      while i < end
        invariant 0 <= i - start <= |page|
        invariant r == Stored(streams, page[..i - start])
      {
        assert page[..i + 1 - start][..i - start] == page[..i - start];
        var slot := registry.At(i);
        if slot.Some? && slot.value in streams {
          r := r + [slot.value];
        }
        i := i + 1;
      }
      assert page[..i - start] == page;
    }

    method GetStats() returns (r: Stats)
      requires Valid()
      ensures r == StatsOf(streams, registry.ids)
    {
      var totalStreams, activeStreams, totalVolume := 0, 0, 0;
      for i := 0 to registry.count
        invariant Stats(totalStreams, activeStreams, totalVolume) == StatsOf(streams, registry.ids[..i])
      {
        assert registry.ids[..i + 1] == registry.ids[..i] + [registry.ids[i]];
        var slot := registry.At(i);
        if slot.Some? && slot.value in streams {
          var s := streams[slot.value];
          totalStreams := totalStreams + 1;
          totalVolume := SaturatingI128(totalVolume + s.deposit);
          if s.status.Active? {
            activeStreams := activeStreams + 1;
          }
        }
      }
      assert registry.ids[..registry.count] == registry.ids;
      return Stats(totalStreams, activeStreams, totalVolume);
    }

    method GetAdminLog() returns (r: seq<AuditEntry>)
      requires Valid()
      ensures r == Latest(Abs().audit, 20)
    {
      r := audit.Read();
    }

    // ---- the host ----

    method InvokeAdmin(call: Call) returns (r: Result<()>)
      requires Valid() && call.IsAdmin()
      modifies Repr()
      ensures Went(r, ApplyAdmin(old(Abs()), call))
    {
      match call {
        case Tick(seconds) =>
          :- Need(now + seconds <= U64_MAX, Overflow);
          now := now + seconds;
        case TokenMint(token, to, minted) =>
          bank := Credit(bank, token, to, minted);
        case TokenTransfer(token, from, to, moved) =>
          :- RequireAuth(from);
          var _ :- TransferTokens(token, from, to, moved);
        case DoConfigure(next) =>
          :- Need(0 <= next.feeBps <= FEE_DENOMINATOR, InvalidDuration);
          cfg := next;
        case DoEmergencyPause(caller) =>
          var _ :- EmergencyPause(caller);
        case DoEmergencyResume(caller) =>
          var _ :- EmergencyResume(caller);
        case DoGuardianPause(caller) =>
          var _ :- GuardianPause(caller);
        case DoGovernanceUnpause(caller) =>
          var _ :- GovernanceUnpause(caller);
        case DoIsPaused =>
          var p := IsPausedOrAutoUnpause();
      }
      return Ok(());
    }

    method InvokeStream(call: Call) returns (r: Result<()>)
      requires Valid() && !call.IsAdmin()
      modifies Repr()
      ensures Went(r, ApplyStream(derive, old(Abs()), call))
    {
      hide Ledger.CreateStream, Ledger.Withdraw, Ledger.BatchWithdraw, Ledger.CancelStream, Ledger.BatchCancel,
           Ledger.RecipientTerminate, Ledger.TransferRecipient, Ledger.PartialCancel, Ledger.TopUp, Ledger.PauseStream,
           Ledger.ResumeStream, Ledger.CancelAutoRenew, Ledger.SetDelegate, Ledger.BatchCreate, Ledger.ArchiveStream;
      match call {
        case DoCreateStream(sender, recipient, token, amount, duration, cliff, nonce, autoRenew, lockUntil, allow) =>
          var id :- CreateStream(sender, recipient, token, amount, duration, cliff, nonce, autoRenew, lockUntil, allow);
        case DoWithdraw(id, caller, signers) =>
          var _ :- Withdraw(id, caller, signers);
        case DoBatchWithdraw(ids, caller, signers) =>
          var amounts :- BatchWithdraw(ids, caller, signers);
        case DoCancelStream(id, caller) =>
          var _ :- CancelStream(id, caller);
        case DoBatchCancel(ids, caller) =>
          var results :- BatchCancel(ids, caller);
        case DoRecipientTerminate(id, caller) =>
          var _ :- RecipientTerminate(id, caller);
        case DoTransferRecipient(id, caller, next) =>
          var _ :- TransferRecipient(id, caller, next);
        case DoPartialCancel(id, caller, amount) =>
          var newId :- PartialCancel(id, caller, amount);
        case DoTopUp(id, caller, token, amount) =>
          var _ :- TopUp(id, caller, token, amount);
        case DoPauseStream(id, caller) =>
          var _ :- PauseStream(id, caller);
        case DoResumeStream(id, caller) =>
          var _ :- ResumeStream(id, caller);
        case DoCancelAutoRenew(id, caller) =>
          var _ :- CancelAutoRenew(id, caller);
        case DoSetDelegate(id, caller, operator) =>
          var _ :- SetDelegate(id, caller, operator);
        case DoBatchCreate(order, nonce) =>
          var ids :- BatchCreate(order, nonce);
        case DoArchive(id, caller) =>
          var _ :- ArchiveStream(id, caller);
      }
      return Ok(());
    }

    method Dispatch(call: Call) returns (r: Result<()>)
      requires Valid()
      modifies Repr()
      ensures Went(r, Apply(derive, old(Abs()), call))
    {
      if call.IsAdmin() {
        r := InvokeAdmin(call);
      } else {
        r := InvokeStream(call);
      }
    }

    /** A copy of every key and balance. */
    method TakeSnapshot() returns (s: Snapshot)
      requires Valid()
      ensures s.Pictures(Abs())
    {
      s := Snapshot(now, streams, bank, nonces, batchNonces, delegates, paused, pauseExpiry, cfg,
                    senders.count, senders.slots, recipients.count, recipients.slots, registry.count, registry.slots,
                    audit.head, audit.len, audit.slots);
    }

    method PutBack(s: Snapshot, ghost before: State)
      requires senders != recipients && s.Pictures(before)
      modifies Repr()
      ensures Valid() && Abs() == before
    {
      hide Represents, Enumerated, HoldsEnd;
      now, streams, bank, nonces, batchNonces, delegates := s.now, s.streams, s.bank, s.nonces, s.batchNonces,
        s.delegates;
      paused, pauseExpiry, cfg := s.paused, s.pauseExpiry, s.cfg;
      senders.Restore(s.sentCount, s.sentSlots, before.bySender);
      recipients.Restore(s.receivedCount, s.receivedSlots, before.byRecipient);
      registry.Restore(s.registryCount, s.registrySlots, before.created);
      audit.Restore(s.auditHead, s.auditLen, s.auditSlots, before.audit);
    }

    /** Runs one call and, when it fails, puts every key and balance back. */
    method Attempt(call: Call) returns (r: Result<()>)
      requires Valid()
      modifies Repr()
      ensures match Apply(derive, old(Abs()), call)
              case Ok(st) => r == Ok(()) && Valid() && Abs() == st
              case Err(e) => r == Err(e) && Valid() && Abs() == old(Abs())
    {
      hide Apply, Represents, Enumerated, HoldsEnd;
      ghost var before := Abs();
      var snapshot := TakeSnapshot();
      r := Dispatch(call);
      if r.Err? {
        PutBack(snapshot, before);
      }
    }

    /** One invocation as the host makes it: the object moves to the machine's next state, keeps its
        invariants, and no payment fails because the pool is short. */
    method Invoke(call: Call) returns (r: Result<()>)
      requires Valid()
      modifies Repr()
      ensures Valid() && Abs() == Exec(derive, old(Abs()), call)
      ensures r.Ok? <==> Apply(derive, old(Abs()), call).Ok?
      ensures Funded(old(Abs())) ==> Funded(Abs()) && r != Err(TransferFailed(Contract))
      ensures Inv(old(Abs())) && !Overwrites(derive, old(Abs()), call) ==> Inv(Abs())
    {
      hide Apply;
      ghost var before := Abs();
      r := Attempt(call);
      if Funded(before) {
        ExecSafe(derive, before, call);
      }
    }
  }
}
