/** Custody: from every funded state, every entry point, whatever its arguments, either fails or
    leaves a funded state, and no payment out of the pool ever fails for lack of funds. The same
    lemmas carry index exactness along. */
module Custody {
  import opened Prelude
  import opened VestingMath
  import opened Streams
  import opened TokenBank
  import opened Storage
  import opened Ledger
  import opened Invariants

  /** What every entry point is proved to do from a funded state: it keeps the state funded, exact
      indexes stay exact, no global pause begins, no payment out of the pool fails for lack of funds,
      and only a shut gate reports a pause. */
  ghost predicate Safe(st: State, r: Result<State>) {
    && (r.Ok? ==> KeepsAll(st, r.value))
    && r != Err(TransferFailed(Contract)) && (r == Err(ContractPaused) ==> Gate(st).Err?)
  }

  /** The same for a creation. */
  ghost predicate SafelyCreates(st: State, r: Result<State>) {
    && (r.Ok? ==> Keeps(st, r.value))
    && r != Err(TransferFailed(Contract)) && (r == Err(ContractPaused) ==> Gate(st).Err?)
  }

  // ---- payments ----

  lemma FeeWithinGross(gross: int, feeBps: int)
    requires 0 <= gross && 0 <= feeBps <= FEE_DENOMINATOR
    ensures 0 <= gross * feeBps / FEE_DENOMINATOR <= gross
  {
    MulSign(gross, feeBps);
    MulMono(gross, feeBps, FEE_DENOMINATOR);
  }

  /** The fee is charged, and its product with the gross amount leaves `i128`. */
  predicate FeeOverflows(cfg: Config, recipient: Address, gross: int) {
    cfg.feeBps > 0 && recipient !in cfg.feeExempt && gross * cfg.feeBps > I128_MAX
  }

  lemma FeeOnExact(cfg: Config, recipient: Address, gross: int)
    requires 0 <= gross && 0 <= cfg.feeBps <= FEE_DENOMINATOR
    ensures FeeOn(cfg, recipient, gross).Err? <==> FeeOverflows(cfg, recipient, gross)
    ensures FeeOn(cfg, recipient, gross).Err? ==> FeeOn(cfg, recipient, gross).error == Overflow
    ensures FeeOn(cfg, recipient, gross).Ok? ==> 0 <= FeeOn(cfg, recipient, gross).value <= gross
  {
    FeeWithinGross(gross, cfg.feeBps);
    MulSign(gross, cfg.feeBps);
  }

  lemma PayClaimSpends(st: State, s: Stream, gross: int)
    requires 0 <= st.cfg.feeBps <= FEE_DENOMINATOR
    requires 0 <= gross <= BalanceOf(st.bank, s.token, Contract)
    ensures PayClaim(st, s, gross).Err? <==> 0 < gross && FeeOverflows(st.cfg, s.recipient, gross)
    ensures PayClaim(st, s, gross).Err? ==> PayClaim(st, s, gross).error == Overflow
    ensures PayClaim(st, s, gross).Ok? ==> SpendsAtMost(st.bank, PayClaim(st, s, gross).value, s.token, gross)
  {
    FeeOnExact(st.cfg, s.recipient, gross);
    if gross > 0 && FeeOn(st.cfg, s.recipient, gross).Ok? {
      var fee := FeeOn(st.cfg, s.recipient, gross).value;
      PayOutSpends(st.bank, s.token, s.recipient, gross - fee);
      var bank := PayOut(st.bank, s.token, s.recipient, gross - fee).value;
      if st.cfg.treasury.Some? {
        PayOutSpends(bank, s.token, st.cfg.treasury.value, fee);
        SpendsAdd(st.bank, bank, PayOut(bank, s.token, st.cfg.treasury.value, fee).value, s.token, gross - fee, fee);
      }
    }
  }

  /** A drawn stream `s` of `id`, whose draw took `gross` out of the pool, may be settled. */
  ghost predicate Settleable(st: State, id: int, s: Stream, bank: Bank, gross: int) {
    && Funded(st) && id in st.streams && s.Sound(st.now) && s.status.Active?
    && var was := st.streams[id];
       && s.id == id && s.token == was.token && s.sender == was.sender && s.recipient == was.recipient
       && s.Claim() + gross == was.Claim()
       && SpendsAtMost(st.bank, bank, s.token, gross)
  }

  lemma SettleSafe(st: State, id: int, s: Stream, bank: Bank, signers: set<Address>, strict: bool, gross: int)
    requires Settleable(st, id, s, bank, gross)
    ensures Safe(st, Settle(st, id, s, bank, signers, strict))
  {
    hide Flow, Owed, Renew, Erase;
    if st.now < s.endTime {
      SaveInv(st, s, bank, gross);
    } else if s.autoRenew && (strict || s.deposit <= BalanceOf(bank, s.token, s.sender)) {
      RenewSafe(st, id, s, bank, signers, gross);
    } else {
      EndSafe(st, id, s, bank, gross);
    }
  }

  /** The dust is covered, and with it the whole claim is spent. */
  lemma EndSafe(st: State, id: int, s: Stream, bank: Bank, gross: int)
    requires Settleable(st, id, s, bank, gross)
    ensures var paid := PayOut(bank, s.token, s.sender, s.Dust());
            && paid.Ok? && KeepsAll(st, Save(st.(bank := paid.value), s.(status := Completed)))
            && KeepsAll(st, Erase(st.(bank := paid.value), id, s))
  {
    hide Flow, Owed, Erase, KeepsAll;
    PoolCovers(st, id);
    DustExact(s, st.now);
    StatusSound(s, st.now, Completed);
    assert s.Claim() <= BalanceOf(bank, s.token, Contract) by {
      assert BalanceOf(st.bank, s.token, Contract) - gross <= BalanceOf(bank, s.token, Contract);
    }
    PayOutSpends(bank, s.token, s.sender, s.Dust());
    var paid := PayOut(bank, s.token, s.sender, s.Dust()).value;
    SpendsAdd(st.bank, bank, paid, s.token, gross, s.Dust());
    SaveInv(st, s.(status := Completed), paid, gross + s.Dust());
    ClaimNonNegative(s, st.now);
    SpendsLess(st.bank, paid, s.token, gross + s.Dust(), st.streams[id].Claim());
    EraseInv(st, id, s, paid);
  }

  lemma SpendsLess(before: Bank, after: Bank, token: Address, spent: int, more: int)
    requires SpendsAtMost(before, after, token, spent) && spent <= more
    ensures SpendsAtMost(before, after, token, more)
  {
    forall t ensures BalanceOf(before, t, Contract)
      - (if t == token then more else 0) <= BalanceOf(after, t, Contract) {
      assert BalanceOf(before, t, Contract) - (if t == token then spent else 0) <= BalanceOf(after, t, Contract);
    }
  }

  lemma RenewSafe(st: State, id: int, s: Stream, bank: Bank, signers: set<Address>, gross: int)
    requires Settleable(st, id, s, bank, gross) && s.endTime <= st.now
    ensures Safe(st, Renew(st, s, bank, signers))
  {
    hide Flow;
    if Renew(st, s, bank, signers).Ok? {
      ClaimNonNegative(s, st.now);
      PayInGains(bank, s.token, s.sender, Contract, s.deposit);
      var paid := Transfer(bank, s.token, s.sender, Contract, s.deposit).value;
      SpendsAdd(st.bank, bank, paid, s.token, gross, -s.deposit);
      RenewedSound(s, st.now);
      SaveInv(st, Renewed(s, s.endTime + (s.endTime - s.startTime)), paid, gross - s.deposit);
    }
  }

  /** Paying part of the unpaid deposit and refunding the rest empties the stream's claim. */
  lemma CloseSafe(st: State, id: int, s: Stream, toRecipient: int)
    requires Funded(st) && id in st.streams && s == st.streams[id] && s.Live()
    requires 0 <= toRecipient && s.totalWithdrawn + toRecipient <= s.deposit
    ensures RefundOf(s, toRecipient) == s.deposit - s.totalWithdrawn - toRecipient
    ensures Close(st, id, s, toRecipient).Ok? && KeepsAll(st, Close(st, id, s, toRecipient).value)
  {
    ClaimNonNegative(s, st.now);
    PoolCovers(st, id);
    PayOutSpends(st.bank, s.token, s.recipient, toRecipient);
    var bank := PayOut(st.bank, s.token, s.recipient, toRecipient).value;
    var refund := RefundOf(s, toRecipient);
    PayOutSpends(bank, s.token, s.sender, refund);
    SpendsAdd(st.bank, bank, PayOut(bank, s.token, s.sender, refund).value, s.token, toRecipient, refund);
    EraseInv(st, id, s, PayOut(bank, s.token, s.sender, refund).value);
  }

  // ---- one lemma per entry point ----

  lemma NewStreamSound(derive: Derive, st: State, sender: Address, recipient: Address, token: Address, amount: i128,
                       duration: u64, cliff: u64, nonce: u64, autoRenew: bool, lockUntil: u64, allow: bool)
    requires 0 <= st.now <= U64_MAX && sender != Contract
    ensures var r := NewStream(derive, st, sender, recipient, token, amount, duration, cliff, nonce, autoRenew,
                               lockUntil, allow);
            && r != Err(TransferFailed(Contract)) && r != Err(ContractPaused) && r != Err(InvalidEndTime)
            && (r.Ok? ==> && r.value.Sound(st.now) && r.value.id !in st.streams && r.value.sender == sender
                          && r.value.token == token && r.value.Claim() == r.value.deposit == amount && 0 < amount
                          && r.value.Dust() == amount % duration)
  {
    var r := NewStream(derive, st, sender, recipient, token, amount, duration, cliff, nonce, autoRenew, lockUntil,
                       allow);
    if r.Ok? {
      DivFloor(amount, duration);
      CreatedSound(r.value, st.now, duration);
    }
  }

  lemma CreationFeeSpendsNothing(st: State, sender: Address, token: Address)
    requires sender != Contract
    ensures CreationFee(st, sender) != Err(TransferFailed(Contract)) && CreationFee(st, sender) != Err(ContractPaused)
    ensures CreationFee(st, sender).Ok? ==> SpendsAtMost(st.bank, CreationFee(st, sender).value, token, 0)
  {
  }

  lemma LockSafe(st: State, s: Stream, nonce: int)
    requires Funded(st) && s.Sound(st.now) && s.id !in st.streams && s.Claim() == s.deposit
    ensures SafelyCreates(st, Lock(st, s, nonce))
  {
    hide Flow, Owed, CreationFee;
    CreationFeeSpendsNothing(st, s.sender, s.token);
    if Lock(st, s, nonce).Ok? {
      var fee := CreationFee(st, s.sender).value;
      PayInGains(fee, s.token, s.sender, Contract, s.deposit);
      var paid := Transfer(fee, s.token, s.sender, Contract, s.deposit).value;
      SpendsAdd(st.bank, fee, paid, s.token, 0, -s.deposit);
      EnrollInv(st.(nonces := st.nonces + {(s.sender, nonce)}), s, paid);
    }
  }

  lemma CreateStreamSafe(derive: Derive, st: State, sender: Address, recipient: Address, token: Address, amount: i128,
                         duration: u64, cliff: u64, nonce: u64, autoRenew: bool, lockUntil: u64, allow: bool)
    requires Funded(st)
    ensures SafelyCreates(st,
                          StateOf(CreateStream(derive, st, sender, recipient, token, amount, duration, cliff, nonce,
                                               autoRenew, lockUntil, allow)))
  {
    hide Flow, Owed, Lock, NewStream;
    GateInv(st);
    if sender != Contract && Gate(st).Ok? {
      var g := Gate(st).value;
      NewStreamSound(derive, g, sender, recipient, token, amount, duration, cliff, nonce, autoRenew, lockUntil, allow);
      var s := NewStream(derive, g, sender, recipient, token, amount, duration, cliff, nonce, autoRenew, lockUntil,
                         allow);
      if s.Ok? {
        LockSafe(g, s.value, nonce);
      }
    }
  }

  lemma EnrollInv(st: State, s: Stream, bank: Bank)
    requires Funded(st) && s.Sound(st.now) && s.id !in st.streams
    requires SpendsAtMost(st.bank, bank, s.token, -s.Claim())
    requires Enroll(st.(bank := bank), s).Ok?
    ensures Keeps(st, Enroll(st.(bank := bank), s).value)
  {
    EnrollFunded(st, s, bank);
    if Indexed(st) { EnrollIndexed(st.(bank := bank), s); }
  }

  /** A withdrawal got past every check that is not about numbers. */
  predicate Withdrawable(st: State, id: int, recipient: Address) {
    && Gate(st).Ok? && recipient != Contract && id in st.streams
    && var s := st.streams[id];
       s.recipient == recipient && s.status.Active? && s.lockUntil <= st.now
       && (st.cfg.cooldown <= 0 || SaturatingU64(s.lastWithdrawTime + st.cfg.cooldown) <= st.now)
  }

  /** The state behind an open gate. */
  function Opened(st: State): State {
    st.(paused := false, pauseExpiry := if st.paused then 0 else st.pauseExpiry)
  }

  /** A withdrawal past its guards pays what is due and settles; the arithmetic guards in between
      are dead, and only the fee product can stop it. */
  lemma WithdrawSteps(st: State, id: int, recipient: Address, signers: set<Address>)
    requires Funded(st)
    ensures !Withdrawable(st, id, recipient) ==>
              Withdraw(st, id, recipient, signers).Err? && Withdraw(st, id, recipient, signers).error != Overflow
    ensures Withdrawable(st, id, recipient) ==>
              var g := Opened(st); var s := g.streams[id]; var gross := Due(s, g.now);
              && 0 <= gross && s.Sound(g.now) && s.id == id && Drawn(s, g.now, gross).Sound(g.now)
              && (PayClaim(g, s, gross).Err? <==> 0 < gross && FeeOverflows(g.cfg, recipient, gross))
              && Withdraw(st, id, recipient, signers)
                 == match PayClaim(g, s, gross)
                    case Err(_) => Err(Overflow)
                    case Ok(bank) => Settle(g, id, Drawn(s, g.now, gross), bank, signers, false)
  {
    hide Settle, PayClaim, Flow, Owed, FeeOverflows;
    GateInv(st);
    if Withdrawable(st, id, recipient) {
      var g := Opened(st);
      assert Gate(st) == Ok(g);
      var s := g.streams[id];
      ClaimWithinDeposit(s, g.now);
      DrawnSound(s, g.now, Due(s, g.now));
      PoolCovers(g, id);
      PayClaimSpends(g, s, Due(s, g.now));
    }
  }

  /** Drawing what is claimable or earned, paying it and settling. */
  lemma DrawSettles(st: State, id: int, gross: int, signers: set<Address>, strict: bool)
    requires Funded(st) && id in st.streams && st.streams[id].status.Active?
    requires st.streams[id].Claimable(st.now) == Some(gross) || st.streams[id].Earned(st.now) == Some(gross)
    ensures var s := st.streams[id];
            && 0 <= gross && DepositGuard(s, gross).Pass?
            && PayClaim(st, s, gross) != Err(TransferFailed(Contract))
            && (PayClaim(st, s, gross).Ok? ==>
                  Settleable(st, id, Drawn(s, st.now, gross), PayClaim(st, s, gross).value, gross)
                  && Safe(st, Settle(st, id, Drawn(s, st.now, gross), PayClaim(st, s, gross).value, signers, strict)))
  {
    var s := st.streams[id];
    DrawnSound(s, st.now, gross);
    PoolCovers(st, id);
    PayClaimSpends(st, s, gross);
    if PayClaim(st, s, gross).Ok? {
      SettleSafe(st, id, Drawn(s, st.now, gross), PayClaim(st, s, gross).value, signers, strict, gross);
    }
  }

  /** What is safe behind the open gate is safe in front of it. */
  lemma OpenedSafe(st: State, r: Result<State>)
    requires Gate(st).Ok? && Safe(Opened(st), r)
    ensures Safe(st, r)
  {
    hide Owed, Flow;
  }

  lemma WithdrawSafe(st: State, id: int, recipient: Address, signers: set<Address>)
    requires Funded(st)
    ensures Safe(st, Withdraw(st, id, recipient, signers))
  {
    hide Settle, PayClaim, Withdraw, Safe, Flow, Stream.Sound;
    WithdrawSteps(st, id, recipient, signers);
    if Withdrawable(st, id, recipient) {
      var g := Opened(st);
      var s := g.streams[id];
      ClaimWithinDeposit(s, g.now);
      DrawSettles(g, id, Due(s, g.now), signers, false);
      if PayClaim(g, s, Due(s, g.now)).Ok? {
        OpenedSafe(st, Withdraw(st, id, recipient, signers));
      } else {
        FailureSafe(st, Overflow);
      }
    } else {
      RefusedSafe(st, id, recipient, signers);
    }
  }

  lemma FailureSafe(st: State, e: Error)
    requires e != ContractPaused && e != TransferFailed(Contract)
    ensures Safe(st, Err(e))
  {
  }

  lemma RefusedSafe(st: State, id: int, recipient: Address, signers: set<Address>)
    requires !Withdrawable(st, id, recipient)
    ensures Safe(st, Withdraw(st, id, recipient, signers))
  {
    hide Draw;
  }

  lemma BatchWithdrawOneSafe(st: State, id: int, recipient: Address, signers: set<Address>)
    requires Funded(st)
    ensures Safe(st, StateOf(BatchWithdrawOne(st, id, recipient, signers)))
  {
    if id in st.streams && st.streams[id].status.Active? {
      var s := st.streams[id];
      ClaimWithinDeposit(s, st.now);
      DrawSettles(st, id, s.Earned(st.now).value, signers, true);
    }
  }

  lemma {:induction false} BatchWithdrawFromSafe(st: State, ids: seq<int>, i: nat, amounts: seq<int>,
                                                 recipient: Address,
                                                 signers: set<Address>)
    requires Funded(st) && i <= |ids|
    ensures Safe(st, StateOf(BatchWithdrawFrom(st, ids, i, amounts, recipient, signers)))
    decreases |ids| - i
  {
    if i < |ids| {
      BatchWithdrawOneSafe(st, ids[i], recipient, signers);
      var p := BatchWithdrawOne(st, ids[i], recipient, signers);
      if p.Ok? {
        BatchWithdrawFromSafe(p.value.st, ids, i + 1, amounts + [p.value.out], recipient, signers);
      }
    }
  }

  lemma BatchWithdrawSafe(st: State, ids: seq<int>, recipient: Address, signers: set<Address>)
    requires Funded(st)
    ensures Safe(st, StateOf(BatchWithdraw(st, ids, recipient, signers)))
  {
    GateInv(st);
    if Gate(st).Ok? {
      BatchWithdrawFromSafe(Gate(st).value, ids, 0, [], recipient, signers);
    }
  }

  lemma CancelStreamSafe(st: State, id: int, caller: Address)
    requires Funded(st)
    ensures Safe(st, CancelStream(st, id, caller)) && CancelStream(st, id, caller) != Err(ContractPaused)
  {
    if id in st.streams && st.streams[id].Live() {
      var s := st.streams[id];
      ClaimWithinDeposit(s, st.now);
      CloseSafe(st, id, s, s.Earned(s.Clock(st.now)).value);
    }
  }

  lemma RecipientTerminateSafe(st: State, id: int, recipient: Address)
    requires Funded(st)
    ensures Safe(st, RecipientTerminate(st, id, recipient))
  {
    GateInv(st);
    if Gate(st).Ok? && id in st.streams && st.streams[id].Live() {
      var g := Gate(st).value;
      var s := g.streams[id];
      ClaimWithinDeposit(s, g.now);
      CloseSafe(g, id, s, s.Claimable(s.Clock(g.now)).value);
    }
  }

  /** The ledger clock of a paused stream earns no more than the deposit either. */
  lemma EarnedAtLedgerClock(s: Stream, now: int)
    requires s.Sound(now) && s.Live() && now <= U64_MAX
    ensures s.Earned(now) == Some(Accrued(s, now))
    ensures 0 <= s.Earned(now).value && s.totalWithdrawn + s.Earned(now).value <= s.deposit
  {
    var active := s.(status := Active);
    assert active.Sound(now);
    ClaimWithinDeposit(active, now);
  }

  lemma BatchCancelOneSafe(st: State, id: int, sender: Address)
    requires Funded(st)
    ensures Safe(st, BatchCancelOne(st, id, sender))
    ensures BatchCancelOne(st, id, sender).Err? ==> !BatchCancelOne(st, id, sender).error.IsTrap()
  {
    if id in st.streams && st.streams[id].Live() {
      var s := st.streams[id];
      EarnedAtLedgerClock(s, st.now);
      CloseSafe(st, id, s, s.Earned(st.now).value);
    }
  }

  lemma {:induction false} BatchCancelFromSafe(st: State, ids: seq<int>, i: nat, results: seq<Result<()>>,
                                               sender: Address)
    requires Funded(st) && i <= |ids|
    ensures BatchCancelFrom(st, ids, i, results, sender).Ok?
    ensures Safe(st, StateOf(BatchCancelFrom(st, ids, i, results, sender)))
    decreases |ids| - i
  {
    if i < |ids| {
      BatchCancelOneSafe(st, ids[i], sender);
      match BatchCancelOne(st, ids[i], sender)
      case Ok(st') => BatchCancelFromSafe(st', ids, i + 1, results + [Ok(())], sender);
      case Err(e) => BatchCancelFromSafe(st, ids, i + 1, results + [Err(e)], sender);
    }
  }

  lemma ReassignInv(st: State, s: Stream, bank: Bank, spent: int)
    requires Funded(st) && s.id in st.streams && s.Sound(st.now)
    requires s.token == st.streams[s.id].token && s.sender == st.streams[s.id].sender
    requires SpendsAtMost(st.bank, bank, s.token, spent) && s.Claim() + spent <= st.streams[s.id].Claim()
    requires Reassign(st.(bank := bank), s.id, st.streams[s.id].recipient, s).Ok?
    ensures KeepsAll(st, Reassign(st.(bank := bank), s.id, st.streams[s.id].recipient, s).value)
  {
    var from := st.streams[s.id].recipient;
    SaveFunded(st, s, bank, spent);
    if Indexed(st) {
      UnlistRecipient(st.byRecipient, st.streams, s.id);
      ListRecipient(Unlist(st.byRecipient, from, s.id), st.streams - {s.id}, s);
      assert (st.streams - {s.id})[s.id := s] == st.streams[s.id := s];
      assert SendersExact(st.bySender, st.streams[s.id := s]);
    }
  }

  lemma HandOverSafe(st: State, id: int, next: Address)
    requires Funded(st) && id in st.streams && st.streams[id].Live()
    ensures Safe(st, HandOver(st, id, st.streams[id], next))
  {
    hide TransferPayout, Flow, Owed;
    var s := st.streams[id];
    TransferPayoutSafe(st, id);
    if HandOver(st, id, s, next).Ok? {
      var (bank, drawn) := TransferPayout(st, s).value;
      ReassignInv(st, drawn.(recipient := next), bank, drawn.totalWithdrawn - s.totalWithdrawn);
    }
  }

  lemma TransferRecipientSafe(st: State, id: int, current: Address, next: Address)
    requires Funded(st)
    ensures Safe(st, TransferRecipient(st, id, current, next))
  {
    GateInv(st);
    if Gate(st).Ok? && id in st.streams && st.streams[id].Live() {
      HandOverSafe(Gate(st).value, id, next);
    }
  }

  lemma TransferPayoutSafe(st: State, id: int)
    requires Funded(st) && id in st.streams && st.streams[id].Live()
    ensures var r := TransferPayout(st, st.streams[id]); var s := st.streams[id];
            && r != Err(TransferFailed(Contract)) && r != Err(ContractPaused)
            && (r.Ok? ==>
                  var (bank, drawn) := r.value;
                  && drawn.Sound(st.now)
                  && drawn == s.(totalWithdrawn := drawn.totalWithdrawn, lastWithdrawTime := drawn.lastWithdrawTime)
                  && SpendsAtMost(st.bank, bank, s.token, drawn.totalWithdrawn - s.totalWithdrawn))
  {
    var s := st.streams[id];
    var t := s.Clock(st.now);
    ClaimWithinDeposit(s, st.now);
    var gross := s.Claimable(t).value;
    DrawnSound(s, st.now, gross);
    PoolCovers(st, id);
    PayClaimSpends(st, s, gross);
  }

  lemma TopUpSafe(st: State, id: int, caller: Address, token: Address, amount: i128)
    requires Funded(st)
    ensures Safe(st, TopUp(st, id, caller, token, amount))
  {
    hide Flow, Owed, Solvent;
    GateInv(st);
    var r := TopUp(st, id, caller, token, amount);
    if r.Ok? {
      var g := Gate(st).value;
      var s := g.streams[id];
      var eff := amount - amount % s.flowRate;
      ToppedUpSound(s, g.now, amount);
      PayInGains(g.bank, s.token, caller, Contract, eff);
      SaveInv(g, ToppedUp(s, eff / s.flowRate, eff), Transfer(g.bank, s.token, caller, Contract, eff).value, -eff);
    }
  }

  lemma SaveSameClaim(st: State, s: Stream)
    requires Funded(st) && s.id in st.streams && s.Sound(st.now)
    requires var was := st.streams[s.id];
             s.token == was.token && s.sender == was.sender && s.recipient == was.recipient && s.Claim() == was.Claim()
    ensures KeepsAll(st, Save(st, s))
  {
    SaveInv(st, s, st.bank, 0);
    assert st.(bank := st.bank) == st;
  }

  lemma PauseSafe(st: State, id: int, sender: Address)
    requires Funded(st)
    ensures Safe(st, PauseStream(st, id, sender))
  {
    hide Flow, Owed;
    GateInv(st);
    if Gate(st).Ok? && id in st.streams && st.streams[id].status.Active? {
      var g := Gate(st).value;
      PausedSound(g.streams[id], g.now);
      SaveSameClaim(g, PausedAt(g.streams[id], g.now));
    }
  }

  lemma ResumeSafe(st: State, id: int, sender: Address)
    requires Funded(st)
    ensures Safe(st, ResumeStream(st, id, sender))
  {
    hide Flow, Owed;
    GateInv(st);
    if Gate(st).Ok? && id in st.streams && st.streams[id].status.Paused? {
      var g := Gate(st).value;
      ResumedSound(g.streams[id], g.now);
      SaveSameClaim(g, Resumed(g.streams[id], g.now));
    }
  }

  lemma CancelAutoRenewSafe(st: State, id: int, sender: Address)
    requires Funded(st)
    ensures Safe(st, CancelAutoRenew(st, id, sender))
  {
    if id in st.streams {
      SaveSameClaim(st, st.streams[id].(autoRenew := false));
    }
  }

  lemma SetDelegateSafe(st: State, id: int, sender: Address, operator: Option<Address>)
    requires Funded(st)
    ensures Safe(st, SetDelegate(st, id, sender, operator))
  {
  }

  lemma ArchiveSafe(st: State, id: int, caller: Address)
    requires Funded(st)
    ensures Safe(st, ArchiveStream(st, id, caller))
  {
    if id in st.streams {
      var s := st.streams[id];
      ClaimNonNegative(s, st.now);
      EraseInv(st, id, s, st.bank);
      assert st.(bank := st.bank) == st;
    }
  }

  lemma {:induction false} BatchCreateFromSafe(st: State, order: BatchOrder, i: nat, ids: seq<int>)
    requires Funded(st) && order.Aligned() && order.duration != 0 && i <= |order.amounts| == |ids|
    requires order.sender != Contract && st.now + order.duration <= U64_MAX
    requires forall j :: i <= j < |ids| ==> 0 < order.amounts[j] && order.amounts[j] / order.duration != 0
    requires NoDuplicates(ids) && forall j :: i <= j < |ids| ==> ids[j] !in st.streams
    ensures SafelyCreates(st, BatchCreateFrom(st, order, i, ids))
    decreases |ids| - i
  {
    if i < |ids| {
      var s := BatchStream(st, order, i, ids[i]);
      DivFloor(s.deposit, order.duration);
      CreatedSound(s, st.now, order.duration);
      var paid := Transfer(st.bank, order.tokens[i], order.sender, Contract, order.amounts[i]);
      if paid.Ok? && Enroll(st.(bank := paid.value), s).Ok? {
        PayInGains(st.bank, order.tokens[i], order.sender, Contract, order.amounts[i]);
        EnrollInv(st, s, paid.value);
        BatchCreateFromSafe(Enroll(st.(bank := paid.value), s).value, order, i + 1, ids);
      }
    }
  }

  /** What a passed pre-pass has established. */
  lemma {:induction false} BatchIdsFresh(derive: Derive, st: State, order: BatchOrder, i: nat, ids: seq<int>)
    requires order.Aligned() && order.duration != 0 && |ids| == i <= |order.amounts|
    requires NoDuplicates(ids) && forall id :: id in ids ==> id !in st.streams
    requires forall j :: 0 <= j < i ==> 0 < order.amounts[j] && order.amounts[j] / order.duration != 0
    ensures var r := BatchIdsFrom(derive, st, order, i, ids);
            r.Ok? ==> && NoDuplicates(r.value)
                      && (forall id :: id in r.value ==> id !in st.streams)
                      && (forall j :: 0 <= j < |order.amounts| ==>
                          0 < order.amounts[j] && order.amounts[j] / order.duration != 0)
    decreases |order.amounts| - i
  {
    if i < |order.amounts| {
      var id := derive(order.sender, order.recipients[i], st.now, i);
      if BatchIdsFrom(derive, st, order, i, ids).Ok? {
        BatchIdsFresh(derive, st, order, i + 1, ids + [id]);
      }
    }
  }

  /** The state the second pass of a batch creation starts from. */
  function BatchStart(st: State, order: BatchOrder, nonce: u64): State {
    st.(paused := false, pauseExpiry := if st.paused then 0 else st.pauseExpiry,
        batchNonces := st.batchNonces[order.sender := nonce + 1])
  }

  /** A successful batch creation passed every check before writing anything. */
  lemma BatchCreatePasses(derive: Derive, st: State, order: BatchOrder, nonce: u64)
    requires BatchCreate(derive, st, order, nonce).Ok?
    ensures order.Aligned() && 0 < order.duration && st.now + order.duration <= U64_MAX && order.sender != Contract
    ensures Gate(st).Ok? && nonce == NextBatchNonce(st, order.sender)
    ensures var start := BatchStart(st, order, nonce); var ids := BatchIdsFrom(derive, start, order, 0, []);
            && ids.Ok? && NoDuplicates(ids.value) && (forall id :: id in ids.value ==> id !in st.streams)
            && (forall j :: 0 <= j < |order.amounts| ==> 0 < order.amounts[j] && order.amounts[j] / order.duration != 0)
            && BatchCreateFrom(start, order, 0, ids.value)
               == Ok(BatchCreate(derive, st, order, nonce).value.st)
            && BatchCreate(derive, st, order, nonce).value.out == ids.value
  {
    GateInv(st);
    var start := BatchStart(st, order, nonce);
    assert start == Gate(st).value.(batchNonces := st.batchNonces[order.sender := nonce + 1]);
    BatchIdsFresh(derive, start, order, 0, []);
  }

  lemma {:induction false} BatchCreateNeverShort(st: State, order: BatchOrder, i: nat, ids: seq<int>)
    requires order.Aligned() && order.duration != 0 && i <= |order.amounts| == |ids| && order.sender != Contract
    ensures BatchCreateFrom(st, order, i, ids) != Err(TransferFailed(Contract))
    ensures BatchCreateFrom(st, order, i, ids) != Err(ContractPaused)
    decreases |ids| - i
  {
    if i < |ids| {
      var paid := Transfer(st.bank, order.tokens[i], order.sender, Contract, order.amounts[i]);
      if paid.Ok? && Enroll(st.(bank := paid.value), BatchStream(st, order, i, ids[i])).Ok? {
        BatchCreateNeverShort(Enroll(st.(bank := paid.value), BatchStream(st, order, i, ids[i])).value, order, i + 1,
                              ids);
      }
    }
  }

  lemma {:induction false} BatchIdsNeverShort(derive: Derive, st: State, order: BatchOrder, i: nat, ids: seq<int>)
    requires order.Aligned() && order.duration != 0 && |ids| == i <= |order.amounts|
    ensures BatchIdsFrom(derive, st, order, i, ids) != Err(TransferFailed(Contract))
    ensures BatchIdsFrom(derive, st, order, i, ids) != Err(ContractPaused)
    decreases |order.amounts| - i
  {
    if i < |order.amounts| {
      BatchIdsNeverShort(derive, st, order, i + 1, ids + [derive(order.sender, order.recipients[i], st.now, i)]);
    }
  }

  lemma BatchCreatedSafe(derive: Derive, st: State, order: BatchOrder, nonce: u64)
    requires Funded(st) && BatchCreate(derive, st, order, nonce).Ok?
    ensures SafelyCreates(st, Ok(BatchCreate(derive, st, order, nonce).value.st))
  {
    hide BatchCreate, Flow, Owed, Stream.Sound, Solvent;
    BatchCreatePasses(derive, st, order, nonce);
    var start := BatchStart(st, order, nonce);
    BatchCreateFromSafe(start, order, 0, BatchCreate(derive, st, order, nonce).value.out);
    assert BatchNoncesGrow(st, start);
  }

  lemma BatchCreateSafe(derive: Derive, st: State, order: BatchOrder, nonce: u64)
    requires Funded(st)
    ensures SafelyCreates(st, StateOf(BatchCreate(derive, st, order, nonce)))
  {
    hide Flow, Owed;
    GateInv(st);
    var r := BatchCreate(derive, st, order, nonce);
    if r.Ok? {
      BatchCreatedSafe(derive, st, order, nonce);
    } else if Gate(st).Ok? && order.sender != Contract && order.Aligned() && order.duration != 0 {
      var start := Gate(st).value.(batchNonces := st.batchNonces[order.sender := nonce + 1]);
      BatchIdsNeverShort(derive, start, order, 0, []);
      var ids := BatchIdsFrom(derive, start, order, 0, []);
      if ids.Ok? {
        BatchCreateNeverShort(start, order, 0, ids.value);
      }
    }
  }

  /** The terms, when there are any: exact, within the deposit, and at least one second long. */
  lemma TermsExact(s: Stream, now: int, amount: int)
    requires s.Sound(now) && s.Live() && 0 <= now <= U64_MAX && 0 < amount
    ensures var t := s.Clock(now); var r := PartialTerms(s, t, amount);
            && (r.Err? ==> r.error == Overflow || r.error == InvalidPartialCancel)
            && (r.Ok? ==>
                  && r.value.earned == Flow(s.flowRate, t - s.lastWithdrawTime) >= 0
                  && r.value.kept == s.deposit - Flow(s.flowRate, t - s.startTime) - amount
                  && s.totalWithdrawn + r.value.earned + amount + r.value.kept + s.Skipped() == s.deposit
                  && 0 <= s.Skipped() && 0 <= t
                  && s.flowRate <= r.value.kept <= I128_MAX
                  && r.value.newEnd == t + r.value.kept / s.flowRate <= U64_MAX)
  {
    var t := s.Clock(now);
    FlowSign(s.flowRate, t - s.startTime);
    FlowMono(s.flowRate, t - s.lastWithdrawTime, t - s.startTime);
    ClaimNonNegative(s, now);
    if PartialTerms(s, t, amount).Ok? {
      PartialSplit(s, now, amount);
    }
  }

  /** The two payments go through and spend what the stream had and no longer keeps. */
  lemma SplitKeeps(st: State, id: int, amount: int, heir: Stream)
    requires Funded(st) && id in st.streams && st.streams[id].Live() && 0 < amount
    requires PartialTerms(st.streams[id], st.streams[id].Clock(st.now), amount).Ok?
    requires var s := st.streams[id]; var terms := PartialTerms(s, s.Clock(st.now), amount).value;
             heir == Replacement(s, heir.id, s.Clock(st.now), terms.kept, terms.newEnd)
    ensures var r := Split(st, st.streams[id], amount,
                           PartialTerms(st.streams[id], st.streams[id].Clock(st.now), amount).value, heir);
            && r != Err(TransferFailed(Contract)) && r != Err(ContractPaused)
            && (r.Ok? ==>
                  Funded(r.value) && Onward(st, r.value)
                  && (Indexed(st) ==> (Indexed(r.value) <==> heir.id !in st.streams)))
  {
    hide Flow, Owed, PartialTerms, Indexed;
    var s := st.streams[id];
    TermsExact(s, st.now, amount);
    var terms := PartialTerms(s, s.Clock(st.now), amount).value;
    ReplacementSound(s, heir.id, st.now, s.Clock(st.now), terms.kept);
    PoolCovers(st, id);
    PayOutSpends(st.bank, s.token, s.recipient, terms.earned);
    var b1 := PayOut(st.bank, s.token, s.recipient, terms.earned).value;
    PayOutSpends(b1, s.token, s.sender, amount);
    var b2 := Transfer(b1, s.token, Contract, s.sender, amount).value;
    SpendsAdd(st.bank, b1, b2, s.token, terms.earned, amount);
    if Split(st, s, amount, terms, heir).Ok? {
      CancelThenEnroll(st, s, heir, b2, terms.earned + amount);
    }
  }

  /** Without an existence check: custody survives any derived id, the indexes survive exactly a
      fresh one. No payment fails for lack of funds. */
  lemma PartialCancelKeeps(derive: Derive, st: State, id: int, caller: Address, amount: i128)
    requires Funded(st)
    ensures var r := PartialCancel(derive, st, id, caller, amount);
            && r != Err(TransferFailed(Contract)) && r != Err(ContractPaused)
            && (r.Ok? ==>
                  Funded(r.value.st) && Onward(st, r.value.st)
                  && (Indexed(st) ==> (Indexed(r.value.st) <==> r.value.out !in st.streams)))
  {
    if id in st.streams && st.streams[id].Live() && 0 < amount {
      var s := st.streams[id];
      var t := s.Clock(st.now);
      TermsExact(s, st.now, amount);
      var terms := PartialTerms(s, t, amount);
      if terms.Ok? {
        SplitKeeps(st, id, amount,
                   Replacement(s, derive(s.sender, s.recipient, t, id), t, terms.value.kept, terms.value.newEnd));
      }
    }
  }

  lemma CancelThenEnroll(st: State, s: Stream, heir: Stream, bank: Bank, spent: int)
    requires Funded(st) && s.id in st.streams && s == st.streams[s.id] && s.Live()
    requires heir.Sound(st.now) && heir.token == s.token && heir.Claim() + spent <= s.Claim()
    requires SpendsAtMost(st.bank, bank, s.token, spent)
    requires Enroll(Save(st.(bank := bank), s.(status := Cancelled)), heir).Ok?
    ensures var r := Enroll(Save(st.(bank := bank), s.(status := Cancelled)), heir).value;
            Funded(r) && (Indexed(st) ==> (Indexed(r) <==> heir.id !in st.streams))
  {
    var cancelled := s.(status := Cancelled);
    StatusSound(s, st.now, Cancelled);
    var mid := st.streams[s.id := cancelled];
    forall token ensures Owed(mid[heir.id := heir], token) <= BalanceOf(bank, token, Contract) {
      OwedSave(st.streams, cancelled, token);
      OwedSave(mid, heir, token);
      if heir.id in mid { ClaimNonNegative(mid[heir.id], st.now); }
      assert Owed(st.streams, token) <= BalanceOf(st.bank, token, Contract);
      assert BalanceOf(st.bank, token, Contract)
        - (if token == s.token then spent else 0) <= BalanceOf(bank, token, Contract);
    }
    if Indexed(st) {
      SaveIndexed(st.(bank := bank), cancelled);
      if heir.id in st.streams {
        EnrollCollides(Save(st.(bank := bank), cancelled), heir);
      } else {
        EnrollIndexed(Save(st.(bank := bank), cancelled), heir);
      }
    }
  }
}
