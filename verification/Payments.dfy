/** Exactly who is paid what when a stream is closed, completed, split or archived, and exactly when
    these calls succeed, from any funded state. */
module Payments {
  import opened Prelude
  import opened VestingMath
  import opened Streams
  import opened TokenBank
  import opened Storage
  import opened Ledger
  import opened Invariants
  import opened Custody
  import opened Records

  /** Every balance after the contract paid `x` to `a` and `y` to `b`; right under any aliasing. */
  ghost predicate Paid(before: Bank, after: Bank, token: Address, a: Address, x: int, b: Address, y: int) {
    forall t, h :: BalanceOf(after, t, h)
                   == BalanceOf(before, t, h) + Moved(token, Contract, a, x, t, h) + Moved(token, Contract, b, y, t, h)
  }

  /** The stream is gone from the store and from both lists; but for balances nothing else changed. */
  ghost predicate Removed(st: State, st': State, id: int, s: Stream) {
    st' == st.(bank := st'.bank, streams := st.streams - {id}, bySender := Unlist(st.bySender, s.sender, id),
               byRecipient := Unlist(st.byRecipient, s.recipient, id))
  }

  // ---- closing conserves the deposit exactly ----

  lemma CloseConserves(st: State, id: int, s: Stream, toRecipient: int)
    requires Funded(st) && id in st.streams && s == st.streams[id] && s.Live()
    requires 0 <= toRecipient && s.totalWithdrawn + toRecipient <= s.deposit
    ensures Close(st, id, s, toRecipient).Ok?
    ensures var st' := Close(st, id, s, toRecipient).value; var refund := RefundOf(s, toRecipient);
            && s.totalWithdrawn + toRecipient + refund == s.deposit && 0 <= refund
            && Paid(st.bank, st'.bank, s.token, s.recipient, toRecipient, s.sender, refund)
            && Removed(st, st', id, s)
  {
    CloseSafe(st, id, s, toRecipient);
    PoolCovers(st, id);
    ClaimNonNegative(s, st.now);
    PayOutSpends(st.bank, s.token, s.recipient, toRecipient);
    var bank := PayOut(st.bank, s.token, s.recipient, toRecipient).value;
    PayOutSpends(bank, s.token, s.sender, RefundOf(s, toRecipient));
  }

  /** `cancel_stream` succeeds exactly for a manager of a live stream; it never overflows. */
  lemma CancelExactly(st: State, id: int, caller: Address)
    requires Funded(st)
    ensures CancelStream(st, id, caller).Ok?
            <==> caller != Contract && id in st.streams && Manages(st, id, st.streams[id], caller)
                 && st.streams[id].Live()
    ensures CancelStream(st, id, caller) != Err(Overflow)
    ensures CancelStream(st, id, caller).Ok? ==>
              var s := st.streams[id]; var st' := CancelStream(st, id, caller).value;
              var toRecipient := Accrued(s, s.Clock(st.now));
              var refund := s.deposit - s.totalWithdrawn - toRecipient;
              && 0 <= toRecipient && 0 <= refund
              && Paid(st.bank, st'.bank, s.token, s.recipient, toRecipient, s.sender, refund)
              && Removed(st, st', id, s)
  {
    hide Close;
    if id in st.streams && st.streams[id].Live() {
      var s := st.streams[id];
      ClaimWithinDeposit(s, st.now);
      CloseConserves(st, id, s, s.Earned(s.Clock(st.now)).value);
    }
  }

  /** `recipient_terminate` pays only what has passed the cliff. */
  lemma TerminateExactly(st: State, id: int, recipient: Address)
    requires Funded(st)
    ensures RecipientTerminate(st, id, recipient).Ok?
            <==> Gate(st).Ok? && recipient != Contract && id in st.streams && st.streams[id].recipient == recipient
                 && st.streams[id].allowRecipientTermination && st.streams[id].Live()
    ensures RecipientTerminate(st, id, recipient) != Err(Overflow)
    ensures RecipientTerminate(st, id, recipient).Ok? ==>
              var s := st.streams[id]; var st' := RecipientTerminate(st, id, recipient).value; var t := s.Clock(st.now);
              var toRecipient := Due(s, t);
              var refund := s.deposit - s.totalWithdrawn - toRecipient;
              && 0 <= toRecipient && 0 <= refund
              && Paid(st.bank, st'.bank, s.token, recipient, toRecipient, s.sender, refund)
              && Removed(Opened(st), st', id, s)
  {
    hide Close;
    GateInv(st);
    if Gate(st).Ok? && id in st.streams && st.streams[id].Live() {
      var g := Gate(st).value;
      var s := g.streams[id];
      ClaimWithinDeposit(s, g.now);
      CloseConserves(g, id, s, s.Claimable(s.Clock(g.now)).value);
    }
  }

  /** An entry of `batch_cancel_stream` pays by the ledger clock, and conserves as well. */
  lemma BatchCancelExactly(st: State, id: int, sender: Address)
    requires Funded(st)
    ensures BatchCancelOne(st, id, sender).Ok?
            <==> id in st.streams && st.streams[id].sender == sender && st.streams[id].Live()
    ensures BatchCancelOne(st, id, sender) != Err(Overflow)
    ensures BatchCancelOne(st, id, sender).Ok? ==>
              var s := st.streams[id]; var st' := BatchCancelOne(st, id, sender).value;
              var toRecipient := Accrued(s, st.now);
              var refund := s.deposit - s.totalWithdrawn - toRecipient;
              && 0 <= toRecipient && 0 <= refund
              && Paid(st.bank, st'.bank, s.token, s.recipient, toRecipient, s.sender, refund)
              && Removed(st, st', id, s)
  {
    hide Close;
    if id in st.streams && st.streams[id].Live() {
      var s := st.streams[id];
      EarnedAtLedgerClock(s, st.now);
      CloseConserves(st, id, s, s.Earned(st.now).value);
    }
  }

  /** The documented refund, `deposit - flow_rate * (min(now, end) - start)`, is what a cancellation
      pays exactly when no withdrawal before the cliff skipped anything; else the sender gets the
      skipped part on top. */
  lemma RefundMatchesDocumentation(s: Stream, now: int)
    requires s.Sound(now) && s.Live() && 0 <= now <= U64_MAX
    ensures var t := s.Clock(now); var documented := ComputeRefund(s.deposit, s.flowRate, t, s.endTime, s.startTime);
            && documented.Some? && s.Earned(t) == Some(Accrued(s, t))
            && RefundOf(s, Accrued(s, t)) == documented.value + s.Skipped()
            && (RefundOf(s, Accrued(s, t)) == documented.value
                <==> s.totalWithdrawn == Flow(s.flowRate, s.lastWithdrawTime - s.startTime))
  {
    var t := s.Clock(now);
    ClaimWithinDeposit(s, now);
    var e := Min(t, s.endTime);
    FlowSplit(s.flowRate, s.lastWithdrawTime - s.startTime, e - s.lastWithdrawTime);
    FlowSign(s.flowRate, e - s.startTime);
  }

  /** `get_claimable` never overflows, and is what a withdrawal at that moment would pay; a terminal stream has
      nothing to claim, and only a missing one is an error. */
  lemma ClaimableNeverOverflows(st: State, id: int)
    requires Funded(st)
    ensures id !in st.streams ==> GetClaimable(st, id) == Err(StreamNotFound)
    ensures id in st.streams ==> GetClaimable(st, id).Ok? && 0 <= GetClaimable(st, id).value
    ensures id in st.streams && !st.streams[id].Live() ==> GetClaimable(st, id) == Ok(0)
    ensures id in st.streams && st.streams[id].Live() ==>
              && GetClaimable(st, id).value == Due(st.streams[id], st.streams[id].Clock(st.now))
              && st.streams[id].totalWithdrawn + GetClaimable(st, id).value <= st.streams[id].deposit
  {
    if id in st.streams && st.streams[id].Live() {
      ClaimWithinDeposit(st.streams[id], st.now);
    }
  }

  // ---- withdrawals: who is paid ----

  /** The fee on a claim, rounded down. */
  function FeeOf(gross: int, feeBps: int): int {
    gross * feeBps / 10_000
  }

  function FeeCharged(cfg: Config, recipient: Address, gross: int): int {
    if cfg.feeBps > 0 && recipient !in cfg.feeExempt then FeeOf(gross, cfg.feeBps) else 0
  }

  /** The recipient of `s` got `gross` less the fee and the treasury got the fee; without a treasury
      the fee stayed in the pool. */
  ghost predicate ClaimPaid(cfg: Config, before: Bank, after: Bank, s: Stream, gross: int) {
    var fee := FeeCharged(cfg, s.recipient, gross);
    && 0 <= fee <= gross
    && Paid(before, after, s.token, s.recipient, gross - fee, cfg.treasury.UnwrapOr(Contract), fee)
  }

  lemma FeeInRange(cfg: Config, recipient: Address, gross: int)
    requires 0 <= cfg.feeBps <= FEE_DENOMINATOR && 0 <= gross
    ensures 0 <= FeeCharged(cfg, recipient, gross) <= gross
    ensures FeeOn(cfg, recipient, gross).Ok? ==> FeeOn(cfg, recipient, gross).value == FeeCharged(cfg, recipient, gross)
  {
    FeeWithinGross(gross, cfg.feeBps);
  }

  lemma ClaimSplitsExactly(st: State, s: Stream, gross: int)
    requires 0 <= st.cfg.feeBps <= FEE_DENOMINATOR && 0 <= gross <= BalanceOf(st.bank, s.token, Contract)
    requires PayClaim(st, s, gross).Ok?
    ensures ClaimPaid(st.cfg, st.bank, PayClaim(st, s, gross).value, s, gross)
  {
    hide FeeOf;
    FeeInRange(st.cfg, s.recipient, gross);
    var fee := FeeCharged(st.cfg, s.recipient, gross);
    if gross > 0 {
      PayOutSpends(st.bank, s.token, s.recipient, gross - fee);
      var bank := PayOut(st.bank, s.token, s.recipient, gross - fee).value;
      if st.cfg.treasury.Some? {
        PayOutSpends(bank, s.token, st.cfg.treasury.value, fee);
      }
    }
  }

  /** What a settlement gives back to the sender: the dust of a stream that ends, minus the deposit when
      it renews. */
  function SettledBack(st: State, s: Stream, bank: Bank, strict: bool): int {
    if st.now < s.endTime then 0
    else if s.autoRenew && (strict || s.deposit <= BalanceOf(bank, s.token, s.sender)) then -s.deposit
    else s.Dust()
  }

  /** Every balance after a draw: the claim `gross` was paid out and `back` went to the sender. */
  ghost predicate Drew(cfg: Config, before: Bank, after: Bank, s: Stream, gross: int, back: int) {
    var fee := FeeCharged(cfg, s.recipient, gross);
    && 0 <= fee <= gross
    && forall t, h :: BalanceOf(after, t, h)
                      == BalanceOf(before, t, h) + Moved(s.token, Contract, s.recipient, gross - fee, t, h)
                         + Moved(s.token, Contract, cfg.treasury.UnwrapOr(Contract), fee, t, h)
                         + Moved(s.token, Contract, s.sender, back, t, h)
  }

  lemma SettledBank(st: State, id: int, s: Stream, bank: Bank, signers: set<Address>, strict: bool)
    requires Settle(st, id, s, bank, signers, strict).Ok?
    ensures var after := Settle(st, id, s, bank, signers, strict).value.bank;
            if st.now < s.endTime then after == bank
            else if s.autoRenew && (strict || s.deposit <= BalanceOf(bank, s.token, s.sender))
            then Transfer(bank, s.token, s.sender, Contract, s.deposit) == Ok(after)
            else PayOut(bank, s.token, s.sender, s.Dust()) == Ok(after)
  {
    hide Transfer, PayOut, Stream.Dust;
  }

  lemma SettleMoney(st: State, id: int, s: Stream, bank: Bank, signers: set<Address>, strict: bool, t: Address,
                    h: Address)
    requires s.Sound(st.now) && Settle(st, id, s, bank, signers, strict).Ok?
    ensures BalanceOf(Settle(st, id, s, bank, signers, strict).value.bank, t, h)
            == BalanceOf(bank, t, h) + Moved(s.token, Contract, s.sender, SettledBack(st, s, bank, strict), t, h)
  {
    hide Settle, Transfer, Stream.Dust, Stream.Sound;
    SettledBank(st, id, s, bank, signers, strict);
    DustExact(s, st.now);
    TransferMoves(bank, s.token, s.sender, Contract, s.deposit, t, h);
    TransferMoves(bank, s.token, Contract, s.sender, s.Dust(), t, h);
  }

  lemma DrawMoney(st: State, id: int, gross: int, signers: set<Address>, strict: bool)
    requires Funded(st) && id in st.streams && st.streams[id].status.Active?
    requires gross == Due(st.streams[id], st.now) || gross == Accrued(st.streams[id], st.now)
    requires PayClaim(st, st.streams[id], gross).Ok?
    requires var s := st.streams[id]; Settle(st, id, Drawn(s, st.now, gross), PayClaim(st, s, gross).value, signers,
                                             strict).Ok?
    ensures var s := st.streams[id]; var bank := PayClaim(st, s, gross).value; var d := Drawn(s, st.now, gross);
            Drew(st.cfg, st.bank, Settle(st, id, d, bank, signers, strict).value.bank, s, gross,
                 SettledBack(st, d, bank, strict))
  {
    hide Flow, Settle, PayClaim, SettledBack;
    var s := st.streams[id];
    var bank := PayClaim(st, s, gross).value;
    ClaimWithinDeposit(s, st.now);
    DrawnSound(s, st.now, gross);
    PoolCovers(st, id);
    ClaimSplitsExactly(st, s, gross);
    forall t, h { SettleMoney(st, id, Drawn(s, st.now, gross), bank, signers, strict, t, h); }
  }

  /** All the money of a withdrawal. */
  lemma WithdrawMoney(st: State, id: int, recipient: Address, signers: set<Address>)
    requires Funded(st) && Withdraw(st, id, recipient, signers).Ok?
    ensures var s := st.streams[id]; var gross := Due(s, st.now);
            && PayClaim(st, s, gross).Ok?
            && Drew(st.cfg, st.bank, Withdraw(st, id, recipient, signers).value.bank, s, gross,
                    SettledBack(st, Drawn(s, st.now, gross), PayClaim(st, s, gross).value, false))
  {
    hide Flow, Settle, Drew;
    WithdrawSteps(st, id, recipient, signers);
    var g := Opened(st);
    var s := g.streams[id];
    assert PayClaim(g, s, Due(s, g.now)) == PayClaim(st, s, Due(s, g.now));
    DrawMoney(g, id, Due(s, g.now), signers, false);
  }

  /** All the money of a batch entry. */
  lemma EntryMoney(st: State, id: int, recipient: Address, signers: set<Address>)
    requires Funded(st) && BatchWithdrawOne(st, id, recipient, signers).Ok?
    ensures var s := st.streams[id]; var gross := Accrued(s, st.now);
            var p := BatchWithdrawOne(st, id, recipient, signers).value;
            && PayClaim(st, s, gross).Ok? && p.out == gross
            && Drew(st.cfg, st.bank, p.st.bank, s, gross,
                    SettledBack(st, Drawn(s, st.now, gross), PayClaim(st, s, gross).value, true))
  {
    hide Flow, Settle, Drew, PayClaim;
    var s := st.streams[id];
    ClaimWithinDeposit(s, st.now);
    DrawMoney(st, id, Accrued(s, st.now), signers, true);
  }

  /** Before the end a withdrawal pays the claim, moves the record on, and does nothing else. */
  lemma WithdrawPaysExactly(st: State, id: int, recipient: Address, signers: set<Address>)
    requires Funded(st) && Withdraw(st, id, recipient, signers).Ok? && st.now < st.streams[id].endTime
    ensures var s := st.streams[id]; var gross := Due(s, st.now); var st' := Withdraw(st, id, recipient, signers).value;
            && ClaimPaid(st.cfg, st.bank, st'.bank, s, gross)
            && st' == Opened(st).(bank := st'.bank,
                                  streams := st.streams[id := s.(totalWithdrawn := s.totalWithdrawn + gross,
                                                                 lastWithdrawTime := st.now)])
  {
    hide Flow;
    WithdrawSteps(st, id, recipient, signers);
    WithdrawMoney(st, id, recipient, signers);
  }

  /** A transfer pays the old recipient what is due, unless locked or before the cliff, and hands on
      exactly the rest: at any later time the two together have what the old one would have had,
      and nothing that accrued before the cliff is lost. */
  lemma TransferExactly(st: State, id: int, current: Address, next: Address, later: int)
    requires Funded(st) && TransferRecipient(st, id, current, next).Ok?
    requires st.streams[id].Clock(st.now) <= later
    ensures var s := st.streams[id]; var t := s.Clock(st.now);
            var st' := TransferRecipient(st, id, current, next).value;
            var gross := DueAtHandOver(s, t);
            && id in st'.streams
            && st' == Opened(st).(bank := st'.bank, streams := st.streams[id := st'.streams[id]],
                                  byRecipient := List(Unlist(st.byRecipient, current, id), next, id))
            && var s' := st'.streams[id];
               && s' == s.(recipient := next, totalWithdrawn := s.totalWithdrawn + gross,
                           lastWithdrawTime := s'.lastWithdrawTime)
               && ClaimPaid(st.cfg, st.bank, st'.bank, s, gross)
               && gross + Due(s', later) == Due(s, later)
               && s'.Skipped() == s.Skipped()
  {
    hide Flow, TransferPayout, ClaimPaid;
    GateInv(st);
    var g := Gate(st).value;
    var s := g.streams[id];
    HandOverPays(g, id, later);
    assert TransferRecipient(st, id, current, next) == HandOver(g, id, s, next);
  }

  lemma HandOverPays(st: State, id: int, later: int)
    requires Funded(st) && id in st.streams && st.streams[id].Live() && TransferPayout(st, st.streams[id]).Ok?
    requires st.streams[id].Clock(st.now) <= later
    ensures var s := st.streams[id]; var t := s.Clock(st.now); var (bank, s') := TransferPayout(st, s).value;
            var gross := DueAtHandOver(s, t);
            && s'.id == id && s' == s.(totalWithdrawn := s.totalWithdrawn + gross,
                                       lastWithdrawTime := s'.lastWithdrawTime)
            && ClaimPaid(st.cfg, st.bank, bank, s, gross)
            && gross + Due(s', later) == Due(s, later)
            && s'.Skipped() == s.Skipped()
  {
    hide Flow;
    var s := st.streams[id];
    var t := s.Clock(st.now);
    var gross := DueAtHandOver(s, t);
    ClaimWithinDeposit(s, st.now);
    PoolCovers(st, id);
    if gross > 0 {
      ClaimSplitsExactly(st, s, gross);
      DrawnSound(s, st.now, gross);
      var e := Min(t, s.endTime);
      FlowSplit(s.flowRate, e - s.lastWithdrawTime, Min(later, s.endTime) - e);
    } else {
      assert 0 * st.cfg.feeBps == 0;
    }
  }

  /** When a transfer succeeds: for the recipient of a live stream, unless the fee product on what is due
      leaves `i128` or the next recipient's list is full. */
  lemma TransferHappensExactly(st: State, id: int, current: Address, next: Address)
    requires Funded(st)
    ensures TransferRecipient(st, id, current, next).Ok?
            <==> && Gate(st).Ok? && current != Contract && id in st.streams
                 && st.streams[id].recipient == current && st.streams[id].Live()
                 && var s := st.streams[id]; var gross := DueAtHandOver(s, s.Clock(st.now));
                    && !(0 < gross && FeeOverflows(st.cfg, current, gross))
                    && |Listed(Unlist(st.byRecipient, current, id), next)| < U32_MAX
  {
    hide HandOver, Flow, FeeOverflows, Unlist, DueAtHandOver;
    GateInv(st);
    if Gate(st).Ok? && id in st.streams && st.streams[id].Live() {
      HandOverHappens(Gate(st).value, id, next);
    }
  }

  lemma HandOverHappens(st: State, id: int, next: Address)
    requires Funded(st) && id in st.streams && st.streams[id].Live()
    ensures var s := st.streams[id]; var gross := DueAtHandOver(s, s.Clock(st.now));
            HandOver(st, id, s, next).Ok?
            <==> && !(0 < gross && FeeOverflows(st.cfg, s.recipient, gross))
                 && |Listed(Unlist(st.byRecipient, s.recipient, id), next)| < U32_MAX
  {
    hide TransferPayout, Flow, FeeOverflows, Unlist, DueAtHandOver, Owed;
    var s := st.streams[id];
    PayoutHappens(st, id);
    if TransferPayout(st, s).Ok? {
      PayoutRecord(st, s);
    }
  }

  lemma PayoutHappens(st: State, id: int)
    requires Funded(st) && id in st.streams && st.streams[id].Live()
    ensures var s := st.streams[id]; var gross := DueAtHandOver(s, s.Clock(st.now));
            TransferPayout(st, s).Ok? <==> !(0 < gross && FeeOverflows(st.cfg, s.recipient, gross))
  {
    hide PayClaim, Flow, FeeOverflows, Owed;
    var s := st.streams[id];
    ClaimWithinDeposit(s, st.now);
    PoolCovers(st, id);
    PayClaimSpends(st, s, Due(s, s.Clock(st.now)));
  }

  // ---- top-up ----

  /** `s'` is `s` paid up for longer: the largest multiple of the flow rate in `amount` went into the
      deposit and bought exactly the extra seconds; no claim changed, and no dust was added. */
  ghost predicate Extended(s: Stream, s': Stream, amount: int) {
    && s' == s.(deposit := s'.deposit, endTime := s'.endTime)
    && 0 < s'.deposit - s.deposit <= amount < s'.deposit - s.deposit + s.flowRate
    && Flow(s.flowRate, s'.endTime - s.endTime) == s'.deposit - s.deposit
    && s'.Dust() == s.Dust()
    && forall t :: t <= s.endTime ==> Due(s', t) == Due(s, t)
  }

  ghost predicate Received(before: Bank, after: Bank, token: Address, from: Address, to: Address, x: int) {
    forall t, h :: BalanceOf(after, t, h) == BalanceOf(before, t, h) + Moved(token, from, to, x, t, h)
  }

  lemma TopUpExactly(st: State, id: int, caller: Address, token: Address, amount: i128)
    requires Funded(st) && TopUp(st, id, caller, token, amount).Ok?
    ensures var s := st.streams[id]; var st' := TopUp(st, id, caller, token, amount).value;
            && id in st'.streams && st' == Opened(st).(bank := st'.bank, streams := st.streams[id := st'.streams[id]])
            && Extended(s, st'.streams[id], amount)
            && Received(st.bank, st'.bank, token, caller, Contract, st'.streams[id].deposit - s.deposit)
  {
    hide Extended, Received, Extend;
    GateInv(st);
    ExtendExactly(Gate(st).value, id, caller, amount);
  }

  /** When a top-up succeeds: a manager of a live stream offers its token and at least one second of flow,
      can pay what is accepted, and end and deposit stay in range. */
  lemma TopUpHappensExactly(st: State, id: int, caller: Address, token: Address, amount: i128)
    requires Funded(st)
    ensures TopUp(st, id, caller, token, amount).Ok?
            <==> && Gate(st).Ok? && caller != Contract && id in st.streams && Manages(st, id, st.streams[id], caller)
                 && st.streams[id].token == token && st.streams[id].Live()
                 && Extendable(st.bank, st.streams[id], caller, amount)
  {
    hide Extend, Extendable, Flow;
    GateInv(st);
    if Gate(st).Ok? && id in st.streams {
      SoundTimes(st.streams[id], st.now);
      if 0 < amount {
        ExtendHappens(Gate(st).value, st.streams[id], caller, amount);
      } else {
        NothingOffered(st, st.streams[id], caller, amount);
      }
    }
  }

  /** The offer buys at least a second, the caller has the accepted part, and it fits. */
  predicate Extendable(bank: Bank, s: Stream, caller: Address, amount: int) {
    && 0 < s.flowRate <= amount
    && var paid := amount - amount % s.flowRate;
       && paid <= BalanceOf(bank, s.token, caller)
       && s.endTime + paid / s.flowRate <= U64_MAX && s.deposit + paid <= I128_MAX
  }

  lemma NothingOffered(st: State, s: Stream, caller: Address, amount: int)
    requires amount <= 0
    ensures !Extendable(st.bank, s, caller, amount)
  {
  }

  lemma ExtendHappens(st: State, s: Stream, caller: Address, amount: int)
    requires s.Sound(st.now) && 0 < amount
    ensures Extend(st, s, caller, amount).Ok? <==> Extendable(st.bank, s, caller, amount)
  {
    hide Flow;
    SoundTimes(s, st.now);
    ClaimNonNegative(s, st.now);
    EffectiveAmount(s.flowRate, amount);
    SomethingAccepted(s.flowRate, amount);
  }

  lemma SomethingAccepted(rate: int, amount: int)
    requires 0 < rate && 0 < amount
    ensures 0 < amount - amount % rate <==> rate <= amount
  {
    DivFloor(amount, rate);
    var q := amount / rate;
    if q < 1 { MulMono(rate, q, 0); } else { MulMono(rate, 1, q); }
  }

  lemma ExtendExactly(st: State, id: int, caller: Address, amount: int)
    requires Funded(st) && id in st.streams && 0 < amount && Extend(st, st.streams[id], caller, amount).Ok?
    ensures var s := st.streams[id]; var st' := Extend(st, s, caller, amount).value;
            && id in st'.streams && st' == st.(bank := st'.bank, streams := st.streams[id := st'.streams[id]])
            && Extended(s, st'.streams[id], amount)
            && Received(st.bank, st'.bank, s.token, caller, Contract, st'.streams[id].deposit - s.deposit)
  {
    hide Flow;
    var s := st.streams[id];
    EffectiveAmount(s.flowRate, amount);
    ToppedUpSound(s, st.now, amount);
  }

  // ---- creation ----

  /** `s` is a new sound stream from now for `duration` seconds under its derived id, stored next to
      the others; its pair of sender and nonce is used up, and its id comes last in the three indexes. */
  ghost predicate Creates(derive: Derive, st: State, st': State, s: Stream, duration: int, nonce: int) {
    && s.id == derive(s.sender, s.recipient, st.now, nonce) && s.id !in st.streams && (s.sender, nonce) !in st.nonces
    && st' == Opened(st).(bank := st'.bank, streams := st.streams[s.id := s],
                          nonces := st.nonces + {(s.sender, nonce)}, created := st.created + [s.id],
                          bySender := List(st.bySender, s.sender, s.id),
                          byRecipient := List(st.byRecipient, s.recipient, s.id))
    && 0 < duration && s.Sound(st.now) && s.status.Active? && s.Skipped() == 0 && s.Dust() == s.deposit % duration
    && s.startTime == s.lastWithdrawTime == st.now && s.endTime == st.now + duration && s.totalWithdrawn == 0
  }

  /** The sender paid the deposit into the pool and the flat fee, if any, to the treasury. */
  ghost predicate TookIn(cfg: Config, before: Bank, after: Bank, s: Stream) {
    forall t, h :: BalanceOf(after, t, h)
                   == BalanceOf(before, t, h) + Moved(s.token, s.sender, Contract, s.deposit, t, h)
                      + (if cfg.creationFee > 0 && cfg.xlmToken.Some? && cfg.treasury.Some?
                         then Moved(cfg.xlmToken.value, s.sender, cfg.treasury.value, cfg.creationFee, t, h) else 0)
  }

  lemma CreateExactly(derive: Derive, st: State, sender: Address, recipient: Address, token: Address, amount: i128,
                      duration: u64, cliff: u64, nonce: u64, autoRenew: bool, lockUntil: u64, allow: bool)
    requires Funded(st)
    requires CreateStream(derive, st, sender, recipient, token, amount, duration, cliff, nonce, autoRenew, lockUntil,
                          allow).Ok?
    ensures var p := CreateStream(derive, st, sender, recipient, token, amount, duration, cliff, nonce, autoRenew,
                                  lockUntil, allow).value;
            && p.out in p.st.streams
            && var s := p.st.streams[p.out];
               && Creates(derive, st, p.st, s, duration, nonce) && TookIn(st.cfg, st.bank, p.st.bank, s)
               && s.sender == sender && s.recipient == recipient && s.token == token && s.deposit == amount
               && s.flowRate == amount / duration && s.lastPauseTime == 0
               && s.cliffTime == st.now + cliff < s.endTime && s.lockUntil == lockUntil
               && s.autoRenew == autoRenew && s.allowRecipientTermination == allow
  {
    hide Lock, TookIn, Flow, Owed, Solvent, Indexed;
    GateInv(st);
    var g := Gate(st).value;
    NewStreamSound(derive, g, sender, recipient, token, amount, duration, cliff, nonce, autoRenew, lockUntil, allow);
    var s := NewStream(derive, g, sender, recipient, token, amount, duration, cliff, nonce, autoRenew, lockUntil,
                       allow).value;
    FlowSplit(s.flowRate, 0, 0);
    LockPays(g, s, nonce);
  }

  /** The checks of a creation that are not about money or room. */
  predicate Creatable(derive: Derive, st: State, sender: Address, recipient: Address, amount: int, duration: int,
                      cliff: int,
                      nonce: int)
    requires 0 <= nonce <= U64_MAX
  {
    && sender != Contract && Gate(st).Ok? && (sender, nonce) !in st.nonces
    && 0 <= cliff < duration <= amount && st.cfg.minDuration <= duration && st.now + duration <= U64_MAX
    && (st.cfg.whitelistEnabled ==> recipient in st.cfg.whitelist)
    && |Listed(st.bySender, sender)|
       < (if sender in st.cfg.senderLimits then st.cfg.senderLimits[sender] else st.cfg.maxStreams)
    && derive(sender, recipient, st.now, nonce) !in st.streams
  }

  /** The sender can pay the flat fee, if there is one, and then the deposit. */
  predicate CanPay(st: State, sender: Address, token: Address, amount: int) {
    if st.cfg.creationFee <= 0 then amount <= BalanceOf(st.bank, token, sender)
    else
      && st.cfg.treasury.Some? && st.cfg.xlmToken.Some?
      && var (fee, xlm) := (st.cfg.creationFee, st.cfg.xlmToken.value);
         && fee <= BalanceOf(st.bank, xlm, sender)
         && amount <= BalanceOf(st.bank, token, sender) + Moved(xlm, sender, st.cfg.treasury.value, fee, token, sender)
  }

  /** When a creation succeeds. */
  lemma CreateHappensExactly(derive: Derive, st: State, sender: Address, recipient: Address, token: Address,
                             amount: i128,
                             duration: u64, cliff: u64, nonce: u64, autoRenew: bool, lockUntil: u64, allow: bool)
    requires 0 <= st.now <= U64_MAX
    ensures CreateStream(derive, st, sender, recipient, token, amount, duration, cliff, nonce, autoRenew, lockUntil,
                         allow).Ok?
            <==> && Creatable(derive, st, sender, recipient, amount, duration, cliff, nonce)
                 && CanPay(st, sender, token, amount) && HasRoom(st, sender, recipient)
  {
    hide Lock, CanPay, HasRoom, Flow;
    GateInv(st);
    if sender != Contract && Gate(st).Ok? {
      var g := Gate(st).value;
      NewStreamHappens(derive, g, sender, recipient, token, amount, duration, cliff, nonce, autoRenew, lockUntil,
                       allow);
      var r := NewStream(derive, g, sender, recipient, token, amount, duration, cliff, nonce, autoRenew, lockUntil,
                         allow);
      if r.Ok? {
        LockHappens(g, r.value, nonce);
        SameRoom(st, g, sender, recipient, token, amount);
      }
    }
  }

  lemma NewStreamHappens(derive: Derive, st: State, sender: Address, recipient: Address, token: Address, amount: i128,
                         duration: u64, cliff: u64, nonce: u64, autoRenew: bool, lockUntil: u64, allow: bool)
    requires 0 <= st.now && sender != Contract && Gate(st).Ok?
    ensures var r := NewStream(derive, st, sender, recipient, token, amount, duration, cliff, nonce, autoRenew,
                               lockUntil, allow);
            && (r.Ok? <==> Creatable(derive, st, sender, recipient, amount, duration, cliff, nonce))
            && (r.Ok? ==> r.value.sender == sender && r.value.recipient == recipient && r.value.token == token
                          && r.value.deposit == amount && 0 < amount)
  {
    if 0 < duration && 0 < amount {
      DivFloor(amount, duration);
      SomethingAccepted(duration, amount);
    }
  }

  lemma LockHappens(st: State, s: Stream, nonce: int)
    requires 0 < s.deposit
    ensures Lock(st, s, nonce).Ok? <==> CanPay(st, s.sender, s.token, s.deposit) && HasRoom(st, s.sender, s.recipient)
  {
    if CreationFee(st, s.sender).Ok? && 0 < st.cfg.creationFee {
      TransferMoves(st.bank, st.cfg.xlmToken.value, s.sender, st.cfg.treasury.value, st.cfg.creationFee, s.token,
                    s.sender);
    }
  }

  lemma SameRoom(st: State, st': State, sender: Address, recipient: Address, token: Address, amount: int)
    requires st' == Opened(st)
    ensures CanPay(st, sender, token, amount) == CanPay(st', sender, token, amount)
    ensures HasRoom(st, sender, recipient) == HasRoom(st', sender, recipient)
  {
  }

  lemma LockPays(st: State, s: Stream, nonce: int)
    requires Lock(st, s, nonce).Ok?
    ensures var st' := Lock(st, s, nonce).value;
            && st' == st.(bank := st'.bank, streams := st.streams[s.id := s], nonces := st.nonces + {(s.sender, nonce)},
                          bySender := List(st.bySender, s.sender, s.id),
                            byRecipient := List(st.byRecipient, s.recipient, s.id),
                          created := st.created + [s.id])
            && TookIn(st.cfg, st.bank, st'.bank, s)
  {
    hide TakeIn, TookIn;
    TakeInPays(st, s);
  }

  lemma TakeInPays(st: State, s: Stream)
    requires TakeIn(st, s).Ok?
    ensures TookIn(st.cfg, st.bank, TakeIn(st, s).value, s)
  {
    var fee := CreationFee(st, s.sender).value;
    forall t, h
      ensures BalanceOf(TakeIn(st, s).value, t, h) == BalanceOf(fee, t, h)
              + Moved(s.token, s.sender, Contract, s.deposit, t, h)
    {
      TransferMoves(fee, s.token, s.sender, Contract, s.deposit, t, h);
    }
  }

  // ---- withdrawals: which checked operation can fail ----

  /** After paying `gross`, the sender of an overdue renewing stream pays again, and signs. */
  predicate Renews(st: State, s: Stream, gross: int, signers: set<Address>) {
    && s.autoRenew && s.endTime <= st.now && s.sender in signers
    && PayClaim(st, s, gross).Ok? && s.deposit <= BalanceOf(PayClaim(st, s, gross).value, s.token, s.sender)
  }

  /** `withdraw` reports Overflow in two cases only: the fee product leaves `i128`, or a funded
      renewal would end past `u64`. The deposit guard and the vesting product never fail. */
  lemma WithdrawOverflowsExactly(st: State, id: int, recipient: Address, signers: set<Address>)
    requires Funded(st)
    ensures Withdraw(st, id, recipient, signers) == Err(Overflow)
            <==> && Withdrawable(st, id, recipient)
                 && var s := st.streams[id]; var gross := Due(s, st.now);
                    || (0 < gross && FeeOverflows(st.cfg, recipient, gross))
                    || (Renews(st, s, gross, signers) && U64_MAX < s.endTime + (s.endTime - s.startTime))
  {
    WithdrawSteps(st, id, recipient, signers);
    if Withdrawable(st, id, recipient) {
      var g := Opened(st);
      var s := g.streams[id];
      var gross := Due(s, g.now);
      assert PayClaim(g, s, gross) == PayClaim(st, s, gross);
      if PayClaim(g, s, gross).Ok? {
        SettleOverflows(g, id, Drawn(s, g.now, gross), PayClaim(g, s, gross).value, signers);
      }
    }
  }

  /** When a withdrawal succeeds: past its checks, unless the fee product overflows or a funded renewal
      lacks the sender's signature or would end past `u64`. */
  lemma WithdrawHappensExactly(st: State, id: int, recipient: Address, signers: set<Address>)
    requires Funded(st)
    ensures Withdraw(st, id, recipient, signers).Ok?
            <==> && Withdrawable(st, id, recipient)
                 && var s := st.streams[id]; var gross := Due(s, st.now);
                    && !(0 < gross && FeeOverflows(st.cfg, recipient, gross))
                    && (st.now < s.endTime || !s.autoRenew || CannotPayAgain(st, s)
                        || (s.sender in signers && s.endTime + (s.endTime - s.startTime) <= U64_MAX))
  {
    hide Settle, PayClaim, Flow, FeeOverflows, Settleable;
    WithdrawSteps(st, id, recipient, signers);
    if Withdrawable(st, id, recipient) {
      var g := Opened(st);
      var s := g.streams[id];
      var gross := Due(s, g.now);
      PayClaimReads(g, st, s, gross);
      ClaimWithinDeposit(s, g.now);
      DrawSettles(g, id, gross, signers, false);
      if PayClaim(g, s, gross).Ok? {
        SettleHappens(g, id, Drawn(s, g.now, gross), PayClaim(g, s, gross).value, signers, gross);
      }
    }
  }

  lemma SettleHappens(st: State, id: int, s: Stream, bank: Bank, signers: set<Address>, gross: int)
    requires Settleable(st, id, s, bank, gross)
    ensures Settle(st, id, s, bank, signers, false).Ok?
            <==> st.now < s.endTime || !s.autoRenew || BalanceOf(bank, s.token, s.sender) < s.deposit
                 || (s.sender in signers && s.endTime + (s.endTime - s.startTime) <= U64_MAX)
  {
    hide Flow, Owed, KeepsAll, PayOut, Stream.Dust;
    EndSafe(st, id, s, bank, gross);
    SoundTimes(s, st.now);
    ClaimNonNegative(s, st.now);
  }

  lemma SettleOverflows(st: State, id: int, s: Stream, bank: Bank, signers: set<Address>)
    requires s.Sound(st.now)
    ensures Settle(st, id, s, bank, signers, false) == Err(Overflow)
            <==> && s.autoRenew && s.endTime <= st.now && s.deposit <= BalanceOf(bank, s.token, s.sender)
                 && s.sender in signers && U64_MAX < s.endTime + (s.endTime - s.startTime)
  {
    ClaimNonNegative(s, st.now);
  }

  // ---- natural completion ----

  /** The last payment of a stream: the rest of the flow as a claim and the dust to the sender; with
      earlier payments this is the whole deposit, short of exactly what withdrawals before the cliff
      skipped, which is nothing when the cliff is at the start. */
  ghost predicate PaysOut(st: State, st': State, s: Stream) {
    var gross := Flow(s.flowRate, s.endTime - s.lastWithdrawTime);
    && Drew(st.cfg, st.bank, st'.bank, s, gross, s.Dust())
    && s.totalWithdrawn + gross + s.Dust() + s.Skipped() == s.deposit
    && 0 <= gross && 0 <= s.Dust() && 0 <= s.Skipped()
    && (s.cliffTime <= s.startTime ==> s.totalWithdrawn + gross + s.Dust() == s.deposit)
  }

  /** The sender of a stream that would renew cannot pay the deposit again after the payout. */
  predicate CannotPayAgain(st: State, s: Stream) {
    var paid := PayClaim(st, s, Due(s, st.now));
    paid.Ok? && BalanceOf(paid.value, s.token, s.sender) < s.deposit
  }

  /** A withdrawal ends a stream that does not renew, whose record goes, and one whose renewal is
      unfunded, whose record stays as completed; both pay out alike. */
  lemma CompletionAccounts(st: State, id: int, recipient: Address, signers: set<Address>)
    requires Funded(st) && Withdraw(st, id, recipient, signers).Ok? && st.streams[id].endTime <= st.now
    requires !st.streams[id].autoRenew || CannotPayAgain(st, st.streams[id])
    ensures var s := st.streams[id]; var st' := Withdraw(st, id, recipient, signers).value;
            && PaysOut(st, st', s)
            && (if s.autoRenew then
                  st' == Opened(st).(bank := st'.bank,
                                     streams := st.streams[id := s.(totalWithdrawn := s.totalWithdrawn + Due(s, st.now),
                                                                    lastWithdrawTime := s.endTime,
                                                                    status := Completed)])
                else Removed(Opened(st), st', id, s))
  {
    hide Settle, Flow, PayClaim;
    WithdrawSteps(st, id, recipient, signers);
    WithdrawMoney(st, id, recipient, signers);
    var g := Opened(st);
    var s := g.streams[id];
    var d := Drawn(s, g.now, Due(s, g.now));
    assert PayClaim(g, s, Due(s, g.now))
      == PayClaim(st, s, Due(s, g.now)) by { PayClaimReads(g, st, s, Due(s, g.now)); }
    CompletionTiles(s, g.now);
    SameDust(s, d);
    if s.autoRenew {
      SettledRecord(g, id, d, PayClaim(g, s, Due(s, g.now)).value, signers, false);
    } else {
      CompletedRecord(g, id, d, PayClaim(g, s, Due(s, g.now)).value, signers, false);
    }
  }

  lemma PayClaimReads(st: State, st': State, s: Stream, gross: int)
    requires st.bank == st'.bank && st.cfg == st'.cfg
    ensures PayClaim(st, s, gross) == PayClaim(st', s, gross)
  {
  }

  /** A batch entry ends a stream that does not renew in the same way, cooldown or not. */
  lemma BatchCompletionAccounts(st: State, id: int, recipient: Address, signers: set<Address>)
    requires Funded(st) && BatchWithdrawOne(st, id, recipient, signers).Ok?
    requires st.streams[id].endTime <= st.now && !st.streams[id].autoRenew
    ensures var s := st.streams[id]; var st' := BatchWithdrawOne(st, id, recipient, signers).value.st;
            PaysOut(st, st', s) && Removed(st, st', id, s)
  {
    hide Settle, Flow, PayClaim;
    EntryMoney(st, id, recipient, signers);
    var s := st.streams[id];
    ClaimWithinDeposit(s, st.now);
    var d := Drawn(s, st.now, Accrued(s, st.now));
    CompletionTiles(s, st.now);
    SameDust(s, d);
    CompletedRecord(st, id, d, PayClaim(st, s, Accrued(s, st.now)).value, signers, true);
  }

  lemma CompletedRecord(st: State, id: int, s: Stream, bank: Bank, signers: set<Address>, strict: bool)
    requires s.endTime <= st.now && !s.autoRenew && Settle(st, id, s, bank, signers, strict).Ok?
    ensures Removed(st, Settle(st, id, s, bank, signers, strict).value, id, s)
  {
  }

  lemma CompletionTiles(s: Stream, now: int)
    requires s.Sound(now) && s.Live()
    ensures s.totalWithdrawn + Flow(s.flowRate, s.endTime - s.lastWithdrawTime) + s.Dust() + s.Skipped() == s.deposit
    ensures 0 <= s.Skipped() && 0 <= s.Dust()
    ensures s.cliffTime <= s.startTime ==> s.Skipped() == 0
  {
    DustExact(s, now);
    FlowSplit(s.flowRate, s.lastWithdrawTime - s.startTime, s.endTime - s.lastWithdrawTime);
  }

  // ---- partial cancel ----

  /** `heir` continues `s` from `t` on under `id`: active, with the parties, token, rate and flags of `s`, no
      cliff, no lock, nothing withdrawn, and an end as far away as its deposit lasts. */
  predicate Inherits(heir: Stream, s: Stream, id: int, t: int)
    requires s.flowRate != 0
  {
    && heir.id == id && heir.status.Active? && heir.lastPauseTime == 0 && heir.totalWithdrawn == 0
    && heir.sender == s.sender && heir.recipient == s.recipient && heir.token == s.token
    && heir.flowRate == s.flowRate
    && heir.startTime == t && heir.lastWithdrawTime == t && heir.cliffTime == t && heir.lockUntil == t
    && heir.endTime == t + heir.deposit / s.flowRate
    && heir.autoRenew == s.autoRenew && heir.allowRecipientTermination == s.allowRecipientTermination
  }

  /** Everything a partial cancel hands out or keeps adds up to the deposit, short of exactly what
      was skipped before the cliff; the replacement runs for at least a second. */
  lemma PartialCancelConserves(derive: Derive, st: State, id: int, caller: Address, amount: i128)
    requires Funded(st) && PartialCancel(derive, st, id, caller, amount).Ok?
    ensures id in st.streams && 0 < st.streams[id].flowRate
    ensures var s := st.streams[id]; var t := s.Clock(st.now);
            var r := PartialCancel(derive, st, id, caller, amount).value;
            var heir := r.st.streams[r.out];
            var earned := Flow(s.flowRate, t - s.lastWithdrawTime);
            && r.out == derive(s.sender, s.recipient, t, id)
            && r.st == st.(bank := r.st.bank, streams := st.streams[id := s.(status := Cancelled)][r.out := heir],
                           bySender := List(st.bySender, s.sender, r.out),
                           byRecipient := List(st.byRecipient, s.recipient, r.out), created := st.created + [r.out])
            && 0 <= earned && 0 < amount
            && s.totalWithdrawn + earned + amount + heir.deposit <= s.deposit
            && (s.totalWithdrawn + earned + amount + heir.deposit == s.deposit
                <==> s.totalWithdrawn == Flow(s.flowRate, s.lastWithdrawTime - s.startTime))
            && Paid(st.bank, r.st.bank, s.token, s.recipient, earned, s.sender, amount)
            && heir.Sound(st.now) && heir.Dust() == heir.deposit % s.flowRate && heir.startTime + 1 <= heir.endTime
            && Inherits(heir, s, r.out, t)
            && heir.deposit == s.deposit - Flow(s.flowRate, t - s.startTime) - amount
  {
    hide Split, PartialTerms;
    var s := st.streams[id];
    var t := s.Clock(st.now);
    TermsExact(s, st.now, amount);
    var terms := PartialTerms(s, t, amount).value;
    var out := PartialCancel(derive, st, id, caller, amount).value.out;
    ReplacementSound(s, out, st.now, t, terms.kept);
    SplitPays(st, id, amount, terms, Replacement(s, out, t, terms.kept, terms.newEnd));
  }

  /** From then on the new stream flows at the old rate without a gap: at any later time `get_claimable` of
      its id is the flow of the time since the partial cancel, up to the new end. */
  lemma HeirFlows(derive: Derive, st: State, id: int, caller: Address, amount: i128, later: int)
    requires Funded(st) && PartialCancel(derive, st, id, caller, amount).Ok? && st.now <= later <= U64_MAX
    ensures id in st.streams && 0 < st.streams[id].flowRate
    ensures var s := st.streams[id]; var t := s.Clock(st.now);
            var r := PartialCancel(derive, st, id, caller, amount).value;
            var end := t + (s.deposit - Flow(s.flowRate, t - s.startTime) - amount) / s.flowRate;
            GetClaimable(r.st.(now := later), r.out) == Ok(Flow(s.flowRate, Min(later, end) - t))
  {
    hide Flow, PartialCancel, Paid;
    PartialCancelConserves(derive, st, id, caller, amount);
    var r := PartialCancel(derive, st, id, caller, amount).value;
    ClaimWithinDeposit(r.st.streams[r.out], later);
  }

  /** The three indexes can take one more id of these parties. */
  predicate HasRoom(st: State, sender: Address, recipient: Address) {
    |Listed(st.bySender, sender)| < U32_MAX && |Listed(st.byRecipient, recipient)| < U32_MAX && |st.created| < U32_MAX
  }

  /** When a partial cancel succeeds: at least one more second of flow must be left over, counted
      from the start by a clock that does not stop at the end. */
  lemma PartialCancelHappensExactly(derive: Derive, st: State, id: int, caller: Address, amount: i128)
    requires Funded(st)
    ensures PartialCancel(derive, st, id, caller, amount).Ok?
            <==> && caller != Contract && id in st.streams && Manages(st, id, st.streams[id], caller)
                 && st.streams[id].Live()
                 && 0 < amount && HasRoom(st, st.streams[id].sender, st.streams[id].recipient)
                 && var s := st.streams[id]; var t := s.Clock(st.now);
                    var left := s.deposit - Flow(s.flowRate, t - s.startTime) - amount;
                    s.flowRate <= left && t + left / s.flowRate <= U64_MAX
  {
    hide Split, PartialTerms, Flow;
    if id in st.streams && st.streams[id].Live() && 0 < amount {
      var s := st.streams[id];
      var t := s.Clock(st.now);
      TermsHappen(s, st.now, amount);
      if PartialTerms(s, t, amount).Ok? {
        var terms := PartialTerms(s, t, amount).value;
        SplitFails(st, id, amount, Replacement(s, derive(s.sender, s.recipient, t, id), t, terms.kept, terms.newEnd));
      }
    }
  }

  lemma TermsHappen(s: Stream, now: int, amount: int)
    requires s.Sound(now) && s.Live() && 0 <= now <= U64_MAX && 0 < amount
    ensures var t := s.Clock(now); var left := s.deposit - Flow(s.flowRate, t - s.startTime) - amount;
            PartialTerms(s, t, amount).Ok? <==> s.flowRate <= left && t + left / s.flowRate <= U64_MAX
  {
    hide Flow, Stream.Sound;
    var t := s.Clock(now);
    var streamed := Flow(s.flowRate, t - s.startTime);
    TermsRange(s, now);
    var left := s.deposit - streamed - amount;
    if streamed <= I128_MAX && s.flowRate <= left {
      FlowOfQuotient(left, s.flowRate);
    }
  }

  lemma TermsRange(s: Stream, now: int)
    requires s.Sound(now) && s.Live() && 0 <= now <= U64_MAX
    ensures var t := s.Clock(now);
            && 0 < s.flowRate && 0 <= s.deposit <= I128_MAX && 0 <= t
            && SaturatingU64(t - s.lastWithdrawTime) == t - s.lastWithdrawTime
               && SaturatingU64(t - s.startTime) == t - s.startTime
            && 0 <= Flow(s.flowRate, t - s.lastWithdrawTime) <= Flow(s.flowRate, t - s.startTime)
  {
    hide Flow;
    var t := s.Clock(now);
    FlowSign(s.flowRate, t - s.lastWithdrawTime);
    FlowSign(s.flowRate, s.endTime - s.startTime);
    FlowMono(s.flowRate, t - s.lastWithdrawTime, t - s.startTime);
  }

  lemma SplitFails(st: State, id: int, amount: int, heir: Stream)
    requires Funded(st) && id in st.streams && st.streams[id].Live() && 0 < amount
    requires PartialTerms(st.streams[id], st.streams[id].Clock(st.now), amount).Ok?
    requires var s := st.streams[id]; var terms := PartialTerms(s, s.Clock(st.now), amount).value;
             heir == Replacement(s, heir.id, s.Clock(st.now), terms.kept, terms.newEnd)
    ensures Split(st, st.streams[id], amount, PartialTerms(st.streams[id], st.streams[id].Clock(st.now), amount).value,
                  heir).Ok?
            <==> HasRoom(st, st.streams[id].sender, st.streams[id].recipient)
  {
    hide PartialTerms, Flow;
    var terms := PartialTerms(st.streams[id], st.streams[id].Clock(st.now), amount).value;
    SplitKeeps(st, id, amount, heir);
  }

  lemma SplitPays(st: State, id: int, amount: int, terms: Terms, heir: Stream)
    requires Funded(st) && id in st.streams && 0 <= amount && 0 <= terms.earned
    requires Split(st, st.streams[id], amount, terms, heir).Ok?
    ensures var s := st.streams[id]; var st' := Split(st, s, amount, terms, heir).value;
            && Paid(st.bank, st'.bank, s.token, s.recipient, terms.earned, s.sender, amount)
            && st' == st.(bank := st'.bank, streams := st.streams[id := s.(status := Cancelled)][heir.id := heir],
                          bySender := List(st.bySender, heir.sender, heir.id),
                          byRecipient := List(st.byRecipient, heir.recipient, heir.id),
                          created := st.created + [heir.id])
  {
    var s := st.streams[id];
    var b1 := PayOut(st.bank, s.token, s.recipient, terms.earned).value;
    forall t, h
      ensures BalanceOf(Split(st, s, amount, terms, heir).value.bank, t, h)
              == BalanceOf(st.bank, t, h) + Moved(s.token, Contract, s.recipient, terms.earned, t, h)
                 + Moved(s.token, Contract, s.sender, amount, t, h)
    {
      TransferMoves(st.bank, s.token, Contract, s.recipient, terms.earned, t, h);
      TransferMoves(b1, s.token, Contract, s.sender, amount, t, h);
    }
  }

  // ---- archive ----

  /** A stored stream can be archived exactly when every second of it has been paid; then nothing is
      claimable any more, now or later. */
  lemma ArchiveExactly(st: State, id: int, caller: Address)
    requires Funded(st)
    ensures ArchiveStream(st, id, caller).Ok?
            <==> && caller != Contract && id in st.streams
                 && (st.streams[id].sender == caller || st.streams[id].recipient == caller)
                 && st.streams[id].totalWithdrawn
                    == Flow(st.streams[id].flowRate, st.streams[id].endTime - st.streams[id].startTime)
    ensures ArchiveStream(st, id, caller).Ok? ==>
              var s := st.streams[id];
              && s.lastWithdrawTime == s.endTime
              && (forall later :: s.Claimable(later) == Some(0) && s.Earned(later) == Some(0))
              && ArchiveStream(st, id, caller).value.bank == st.bank
              && Removed(st.(delegates := st.delegates - {id}), ArchiveStream(st, id, caller).value, id, s)
  {
    if id in st.streams {
      var s := st.streams[id];
      DustExact(s, st.now);
      ClaimNonNegative(s, st.now);
      if s.lastWithdrawTime < s.endTime {
        FlowStrict(s.flowRate, s.lastWithdrawTime - s.startTime, s.endTime - s.startTime);
      }
    }
  }
}
