/** What the pool holds beyond what it owes, to the unit: which calls add to it, by how much, and that
    none ever takes from it. Solvency says that this surplus is never negative; here it is computed. */
module Surplus {
  import opened Prelude
  import opened VestingMath
  import opened Streams
  import opened TokenBank
  import opened Storage
  import opened Ledger
  import opened Invariants
  import opened Custody
  import opened Records
  import opened Runs
  import opened Payments

  ghost function SurplusOf(st: State, token: Address): int {
    BalanceOf(st.bank, token, Contract) - Owed(st.streams, token)
  }

  // ---- what adds to it ----

  /** The part of a claim that is paid out but does not leave the pool: a fee without a treasury. */
  function Kept(cfg: Config, s: Stream, gross: int): int {
    if cfg.treasury.UnwrapOr(Contract) == Contract then FeeCharged(cfg, s.recipient, gross) else 0
  }

  /** A draw of `gross`: the kept fee, and at the end of a cycle what was skipped; a renewal, which takes
      the whole deposit again, leaves the dust of the old cycle behind as well. */
  function DrawGain(st: State, s: Stream, gross: int, bank: Bank, strict: bool): int {
    var d := Drawn(s, st.now, gross);
    Kept(st.cfg, s, gross)
    + (if st.now < s.endTime then 0
       else if s.autoRenew && (strict || s.deposit <= BalanceOf(bank, s.token, s.sender)) then d.Dust() + d.Skipped()
       else d.Skipped())
  }

  function WithdrawGain(st: State, s: Stream): int {
    match PayClaim(st, s, Due(s, st.now))
    case Ok(bank) => DrawGain(st, s, Due(s, st.now), bank, false)
    case Err(_) => 0
  }

  function EntryGain(st: State, s: Stream): int {
    match PayClaim(st, s, Accrued(s, st.now))
    case Ok(bank) => DrawGain(st, s, Accrued(s, st.now), bank, true)
    case Err(_) => 0
  }

  function EntriesGain(st: State, ids: seq<int>, i: nat, recipient: Address, signers: set<Address>, token: Address): int
    requires i <= |ids|
    decreases |ids| - i
  {
    if i == |ids| || ids[i] !in st.streams then 0
    else
      match BatchWithdrawOne(st, ids[i], recipient, signers)
      case Ok(p) =>
        (if st.streams[ids[i]].token == token then EntryGain(st, st.streams[ids[i]]) else 0)
        + EntriesGain(p.st, ids, i + 1, recipient, signers, token)
      case Err(_) => 0
  }

  /** A closing payment to a recipient that is the contract itself stays. */
  function CloseGain(s: Stream, toRecipient: int, token: Address): int {
    if s.token == token && s.recipient == Contract then toRecipient else 0
  }

  function CancelsGain(st: State, ids: seq<int>, i: nat, sender: Address, token: Address): int
    requires i <= |ids|
    decreases |ids| - i
  {
    if i == |ids| then 0
    else
      match BatchCancelOne(st, ids[i], sender)
      case Ok(st') =>
        (if ids[i] in st.streams then CloseGain(st.streams[ids[i]], Accrued(st.streams[ids[i]], st.now), token) else 0)
        + CancelsGain(st', ids, i + 1, sender, token)
      case Err(_) => CancelsGain(st, ids, i + 1, sender, token)
  }

  /** The claim of the record that a replacement overwrites; nothing for the cancelled one itself. */
  ghost function OverwrittenClaim(st: State, id: int, newId: int, token: Address): int {
    if newId != id && newId in st.streams then ClaimOn(st.streams[newId], token) else 0
  }

  /** By how much a successful call raises the surplus in `token`. */
  ghost function Gain(derive: Derive, st: State, call: Call, token: Address): int {
    match call
    case TokenMint(t, to, minted) => if t == token && to == Contract then minted else 0
    case TokenTransfer(t, _, to, moved) => if t == token && to == Contract then moved else 0
    case DoCreateStream(_, _, _, _, _, _, _, _, _, _) =>
      if st.cfg.creationFee > 0 && st.cfg.treasury == Some(Contract) && st.cfg.xlmToken == Some(token)
        then st.cfg.creationFee else 0
    case DoWithdraw(id, _, _) =>
      if id in st.streams && st.streams[id].token == token then WithdrawGain(st, st.streams[id]) else 0
    case DoBatchWithdraw(ids, caller, signers) => EntriesGain(Opened(st), ids, 0, caller, signers, token)
    case DoCancelStream(id, _) =>
      if id in st.streams then CloseGain(st.streams[id], Accrued(st.streams[id], st.streams[id].Clock(st.now)), token)
        else 0
    case DoBatchCancel(ids, caller) => CancelsGain(st, ids, 0, caller, token)
    case DoTransferRecipient(id, _, _) =>
      if id in st.streams && st.streams[id].token == token
      then Kept(st.cfg, st.streams[id], DueAtHandOver(st.streams[id], st.streams[id].Clock(st.now))) else 0
    case DoPartialCancel(id, _, _) =>
      if id in st.streams then
        var s := st.streams[id];
        CloseGain(s, Flow(s.flowRate, s.Clock(st.now) - s.lastWithdrawTime), token)
        + (if s.token == token then s.Skipped() else 0) + OverwrittenClaim(st, id, ReplacementId(derive, st, id), token)
      else 0
    case DoArchive(id, _) => if id in st.streams then ClaimOn(st.streams[id], token) else 0
    case _ => 0
  }

  // ---- records ----

  /** The surplus after a record is stored or replaced, and after one is deleted. */
  lemma SaveSurplus(st: State, st': State, s: Stream, token: Address)
    requires st'.streams == st.streams[s.id := s]
    ensures SurplusOf(st', token) - SurplusOf(st, token)
            == BalanceOf(st'.bank, token, Contract) - BalanceOf(st.bank, token, Contract)
               - ClaimOn(s, token) + (if s.id in st.streams then ClaimOn(st.streams[s.id], token) else 0)
  {
    OwedSave(st.streams, s, token);
  }

  lemma EraseSurplus(st: State, st': State, id: int, token: Address)
    requires id in st.streams && st'.streams == st.streams - {id}
    ensures SurplusOf(st', token) - SurplusOf(st, token)
            == BalanceOf(st'.bank, token, Contract) - BalanceOf(st.bank, token, Contract)
              + ClaimOn(st.streams[id], token)
  {
    OwedRemove(st.streams, id, token);
  }

  // ---- draws ----

  /** The pool's side of a draw. */
  lemma DrewFromPool(cfg: Config, before: Bank, after: Bank, s: Stream, gross: int, back: int, token: Address)
    requires Drew(cfg, before, after, s, gross, back) && s.recipient != Contract && s.sender != Contract
    ensures BalanceOf(after, token, Contract) - BalanceOf(before, token, Contract)
            == if token == s.token then Kept(cfg, s, gross) - gross - back else 0
    ensures 0 <= Kept(cfg, s, gross)
  {
    hide FeeCharged;
    assert BalanceOf(after, token, Contract)
           == BalanceOf(before, token, Contract)
             + Moved(s.token, Contract, s.recipient, gross - FeeCharged(cfg, s.recipient, gross), token, Contract)
              + Moved(s.token, Contract, cfg.treasury.UnwrapOr(Contract), FeeCharged(cfg, s.recipient, gross), token,
                      Contract)
              + Moved(s.token, Contract, s.sender, back, token, Contract);
  }

  /** What a settlement leaves of the drawn stream's claim, with the money it gives back, is the gain. */
  lemma DrawnClaims(st: State, s: Stream, gross: int, bank: Bank, strict: bool)
    requires s.Sound(st.now) && s.status.Active? && 0 <= st.now <= U64_MAX
             && (gross == Due(s, st.now) || gross == Accrued(s, st.now))
    ensures var d := Drawn(s, st.now, gross); var back := SettledBack(st, d, bank, strict);
            && 0 <= gross && Kept(st.cfg, s, gross) <= DrawGain(st, s, gross, bank, strict)
            && DrawGain(st, s, gross, bank, strict) - Kept(st.cfg, s, gross)
               == (if st.now < s.endTime then 0
                   else if s.autoRenew && (strict || s.deposit <= BalanceOf(bank, s.token, s.sender))
                     then s.Claim() - gross
                   else s.Claim() - gross - back)
  {
    hide Flow;
    ClaimWithinDeposit(s, st.now);
    DrawnSound(s, st.now, gross);
    CompletionTiles(Drawn(s, st.now, gross), st.now);
    FlowSplit(s.flowRate, 0, 0);
  }

  lemma SettleGains(st: State, id: int, gross: int, signers: set<Address>, strict: bool, token: Address)
    requires Funded(st) && id in st.streams && st.streams[id].status.Active? && st.streams[id].recipient != Contract
    requires gross == Due(st.streams[id], st.now) || gross == Accrued(st.streams[id], st.now)
    requires PayClaim(st, st.streams[id], gross).Ok?
    requires var s := st.streams[id]; Settle(st, id, Drawn(s, st.now, gross), PayClaim(st, s, gross).value, signers,
                                             strict).Ok?
    ensures var s := st.streams[id]; var bank := PayClaim(st, s, gross).value;
            var st' := Settle(st, id, Drawn(s, st.now, gross), bank, signers, strict).value;
            && SurplusOf(st', token) == SurplusOf(st, token)
               + (if s.token == token then DrawGain(st, s, gross, bank, strict) else 0)
            && 0 <= DrawGain(st, s, gross, bank, strict)
  {
    hide Flow, Settle, PayClaim, DrawGain, Kept, SurplusOf, Drew, Stream.Sound, Owed;
    var s := st.streams[id];
    var bank := PayClaim(st, s, gross).value;
    var d := Drawn(s, st.now, gross);
    var st' := Settle(st, id, d, bank, signers, strict).value;
    SoundTimes(s, st.now);
    DrawMoney(st, id, gross, signers, strict);
    DrewFromPool(st.cfg, st.bank, st'.bank, s, gross, SettledBack(st, d, bank, strict), token);
    DrawnClaims(st, s, gross, bank, strict);
    SettledRecord(st, id, d, bank, signers, strict);
    if st.now < s.endTime || s.autoRenew {
      SaveSurplus(st, st', SettledAs(st, d, bank, strict), token);
    } else {
      EraseSurplus(st, st', id, token);
    }
  }

  // ---- calls ----

  /** The call raises the surplus in `token` by `gain`, which is not negative. */
  ghost predicate Raises(st: State, st': State, token: Address, gain: int) {
    SurplusOf(st', token) == SurplusOf(st, token) + gain && 0 <= gain
  }

  lemma WithdrawRaises(st: State, id: int, recipient: Address, signers: set<Address>, token: Address)
    requires Funded(st) && Withdraw(st, id, recipient, signers).Ok?
    ensures id in st.streams
    ensures Raises(st, Withdraw(st, id, recipient, signers).value, token,
                   if st.streams[id].token == token then WithdrawGain(st, st.streams[id]) else 0)
  {
    hide Flow, Settle, PayClaim, DrawGain, Stream.Sound, Owed;
    WithdrawSteps(st, id, recipient, signers);
    var g := Opened(st);
    var s := g.streams[id];
    PayClaimReads(g, st, s, Due(s, g.now));
    DrawGainReads(g, st, s, Due(s, g.now), PayClaim(g, s, Due(s, g.now)).value, false);
    SettleGains(g, id, Due(s, g.now), signers, false, token);
  }

  lemma DrawGainReads(st: State, st': State, s: Stream, gross: int, bank: Bank, strict: bool)
    requires st.now == st'.now && st.cfg == st'.cfg
    ensures DrawGain(st, s, gross, bank, strict) == DrawGain(st', s, gross, bank, strict)
  {
  }

  lemma EntryRaises(st: State, id: int, recipient: Address, signers: set<Address>, token: Address)
    requires Funded(st) && BatchWithdrawOne(st, id, recipient, signers).Ok? && recipient != Contract
    ensures id in st.streams
    ensures Raises(st, BatchWithdrawOne(st, id, recipient, signers).value.st, token,
                   if st.streams[id].token == token then EntryGain(st, st.streams[id]) else 0)
  {
    hide Flow, Settle, PayClaim, DrawGain, Stream.Sound, Owed;
    var s := st.streams[id];
    ClaimWithinDeposit(s, st.now);
    SettleGains(st, id, Accrued(s, st.now), signers, true, token);
  }

  lemma {:induction false} EntriesRaise(st: State, ids: seq<int>, i: nat, amounts: seq<int>, recipient: Address,
                                        signers: set<Address>, token: Address)
    requires Funded(st) && i <= |ids| && recipient != Contract
    requires BatchWithdrawFrom(st, ids, i, amounts, recipient, signers).Ok?
    ensures Raises(st, BatchWithdrawFrom(st, ids, i, amounts, recipient, signers).value.st, token,
                   EntriesGain(st, ids, i, recipient, signers, token))
    decreases |ids| - i
  {
    hide BatchWithdrawOne, EntryGain, SurplusOf, Funded;
    if i < |ids| {
      var p := BatchWithdrawOne(st, ids[i], recipient, signers).value;
      BatchWithdrawOneSafe(st, ids[i], recipient, signers);
      EntryRaises(st, ids[i], recipient, signers, token);
      EntriesRaise(p.st, ids, i + 1, amounts + [p.out], recipient, signers, token);
    }
  }

  /** Closing a live stream with both payments. */
  lemma CloseRaises(st: State, st': State, id: int, toRecipient: int, token: Address)
    requires Funded(st) && id in st.streams && st.streams[id].Live() && 0 <= toRecipient
    requires var s := st.streams[id];
             && Paid(st.bank, st'.bank, s.token, s.recipient, toRecipient, s.sender,
                     s.deposit - s.totalWithdrawn - toRecipient)
             && st'.streams == st.streams - {id}
    ensures Raises(st, st', token, CloseGain(st.streams[id], toRecipient, token))
  {
    hide Flow, Owed;
    var s := st.streams[id];
    SoundTimes(s, st.now);
    EraseSurplus(st, st', id, token);
    assert BalanceOf(st'.bank, token, Contract)
           == BalanceOf(st.bank, token, Contract) + Moved(s.token, Contract, s.recipient, toRecipient, token, Contract)
              + Moved(s.token, Contract, s.sender, s.deposit - s.totalWithdrawn - toRecipient, token, Contract);
  }

  lemma CancelRaises(st: State, id: int, caller: Address, token: Address)
    requires Funded(st)
    ensures CancelStream(st, id, caller).Ok? ==>
              id in st.streams
              && Raises(st, CancelStream(st, id, caller).value, token,
                        CloseGain(st.streams[id], Accrued(st.streams[id], st.streams[id].Clock(st.now)), token))
    ensures RecipientTerminate(st, id, caller).Ok? ==> Raises(st, RecipientTerminate(st, id, caller).value, token, 0)
  {
    hide CancelStream, RecipientTerminate, Raises, Paid, Flow;
    CancelExactly(st, id, caller);
    TerminateExactly(st, id, caller);
    if CancelStream(st, id, caller).Ok? {
      CloseRaises(st, CancelStream(st, id, caller).value, id, Accrued(st.streams[id], st.streams[id].Clock(st.now)),
                  token);
    }
    if RecipientTerminate(st, id, caller).Ok? {
      CloseRaises(st, RecipientTerminate(st, id, caller).value, id, Due(st.streams[id], st.streams[id].Clock(st.now)),
                  token);
    }
  }

  lemma {:induction false} CancelsRaise(st: State, ids: seq<int>, i: nat, results: seq<Result<()>>, sender: Address,
                                        token: Address)
    requires Funded(st) && i <= |ids| && BatchCancelFrom(st, ids, i, results, sender).Ok?
    ensures Raises(st, BatchCancelFrom(st, ids, i, results, sender).value.st, token,
                   CancelsGain(st, ids, i, sender, token))
    decreases |ids| - i
  {
    hide BatchCancelOne, SurplusOf, Funded, CloseGain, Paid, Flow;
    if i < |ids| {
      BatchCancelExactly(st, ids[i], sender);
      BatchCancelOneSafe(st, ids[i], sender);
      match BatchCancelOne(st, ids[i], sender)
      case Ok(st') =>
        CloseRaises(st, st', ids[i], Accrued(st.streams[ids[i]], st.now), token);
        CancelsRaise(st', ids, i + 1, results + [Ok(())], sender, token);
      case Err(e) => CancelsRaise(st, ids, i + 1, results + [Err(e)], sender, token);
    }
  }

  lemma TransferRaises(st: State, id: int, current: Address, next: Address, token: Address)
    requires Funded(st) && TransferRecipient(st, id, current, next).Ok?
    ensures id in st.streams
    ensures var s := st.streams[id];
            Raises(st, TransferRecipient(st, id, current, next).value, token,
                   if s.token == token then Kept(st.cfg, s, DueAtHandOver(s, s.Clock(st.now))) else 0)
  {
    hide Flow, Owed, ClaimPaid, FeeCharged, Due;
    var s := st.streams[id];
    TransferAdmits(st, id, current, next);
    TransferExactly(st, id, current, next, s.Clock(st.now));
    var st' := TransferRecipient(st, id, current, next).value;
    hide TransferRecipient;
    ClaimFromPool(st.cfg, st.bank, st'.bank, s, DueAtHandOver(s, s.Clock(st.now)), token);
    SaveSurplus(st, st', st'.streams[id], token);
  }

  lemma TransferAdmits(st: State, id: int, current: Address, next: Address)
    requires Funded(st) && TransferRecipient(st, id, current, next).Ok?
    ensures id in st.streams && st.streams[id].Live() && st.streams[id].recipient != Contract && st.streams[id].id == id
  {
    hide HandOver;
    GateInv(st);
  }

  lemma ClaimFromPool(cfg: Config, before: Bank, after: Bank, s: Stream, gross: int, token: Address)
    requires ClaimPaid(cfg, before, after, s, gross) && s.recipient != Contract
    ensures BalanceOf(after, token, Contract) - BalanceOf(before, token, Contract)
            == if token == s.token then Kept(cfg, s, gross) - gross else 0
    ensures 0 <= Kept(cfg, s, gross)
  {
    hide FeeCharged;
    var fee := FeeCharged(cfg, s.recipient, gross);
    assert BalanceOf(after, token, Contract)
           == BalanceOf(before, token, Contract) + Moved(s.token, Contract, s.recipient, gross - fee, token, Contract)
              + Moved(s.token, Contract, cfg.treasury.UnwrapOr(Contract), fee, token, Contract);
  }

  /** A partial cancel leaves behind what was skipped, and the claim of a record it overwrites. */
  lemma PartialRaises(derive: Derive, st: State, id: int, caller: Address, amount: i128, token: Address)
    requires Funded(st) && PartialCancel(derive, st, id, caller, amount).Ok?
    ensures id in st.streams
    ensures Raises(st, PartialCancel(derive, st, id, caller, amount).value.st, token,
                   Gain(derive, st, DoPartialCancel(id, caller, amount), token))
  {
    hide Flow, Owed, PartialCancel, Paid, Stream.Sound;
    PartialStreams(derive, st, id, caller, amount);
    PartialCancelConserves(derive, st, id, caller, amount);
    var s := st.streams[id];
    var r := PartialCancel(derive, st, id, caller, amount).value;
    SplitRaises(st, r.st, id, Flow(s.flowRate, s.Clock(st.now) - s.lastWithdrawTime), amount, r.st.streams[r.out],
                token);
  }

  lemma PartialStreams(derive: Derive, st: State, id: int, caller: Address, amount: i128)
    requires Funded(st) && PartialCancel(derive, st, id, caller, amount).Ok?
    ensures id in st.streams && st.streams[id].Live()
    ensures var r := PartialCancel(derive, st, id, caller, amount).value;
            && r.out == ReplacementId(derive, st, id) && r.out in r.st.streams && r.st.streams[r.out].id == r.out
            && r.st.streams == st.streams[id := st.streams[id].(status := Cancelled)][r.out := r.st.streams[r.out]]
            && r.st.streams[r.out].status.Active? && r.st.streams[r.out].totalWithdrawn == 0
            && r.st.streams[r.out].token == st.streams[id].token
    ensures var s := st.streams[id]; var r := PartialCancel(derive, st, id, caller, amount).value;
            s.totalWithdrawn + Flow(s.flowRate, s.Clock(st.now) - s.lastWithdrawTime) + amount
              + r.st.streams[r.out].deposit + s.Skipped()
            == s.deposit && 0 <= s.Skipped()
  {
    hide Flow, PayOut, Transfer, PartialTerms;
    TermsExact(st.streams[id], st.now, amount);
  }

  lemma SplitRaises(st: State, st': State, id: int, earned: int, amount: int, heir: Stream, token: Address)
    requires Funded(st) && id in st.streams && 0 <= earned
    requires var s := st.streams[id];
             && s.Live() && st'.streams == st.streams[id := s.(status := Cancelled)][heir.id := heir]
             && heir.status.Active? && heir.totalWithdrawn == 0 && heir.token == s.token && 0 <= s.Skipped()
             && Paid(st.bank, st'.bank, s.token, s.recipient, earned, s.sender, amount)
             && s.totalWithdrawn + earned + amount + heir.deposit + s.Skipped() == s.deposit
    ensures var s := st.streams[id];
            Raises(st, st', token, CloseGain(s, earned, token) + (if s.token == token then s.Skipped() else 0)
                                   + OverwrittenClaim(st, id, heir.id, token))
  {
    hide Flow, Owed, Stream.Skipped;
    var s := st.streams[id];
    SoundTimes(s, st.now);
    var cancelled := s.(status := Cancelled);
    var mid := st.(streams := st.streams[id := cancelled]);
    SaveSurplus(st, mid, cancelled, token);
    SaveSurplus(mid, st', heir, token);
    if heir.id in st.streams { ClaimNonNegative(st.streams[heir.id], st.now); }
    assert BalanceOf(st'.bank, token, Contract)
           == BalanceOf(st.bank, token, Contract) + Moved(s.token, Contract, s.recipient, earned, token, Contract)
              + Moved(s.token, Contract, s.sender, amount, token, Contract);
  }

  lemma TopUpRaises(st: State, id: int, caller: Address, token: Address, amount: i128, t: Address)
    requires Funded(st) && TopUp(st, id, caller, token, amount).Ok?
    ensures Raises(st, TopUp(st, id, caller, token, amount).value, t, 0)
  {
    hide Flow, Owed, Received, Stream.Sound;
    TopUpAdmits(st, id, caller, token, amount);
    TopUpExactly(st, id, caller, token, amount);
    var st' := TopUp(st, id, caller, token, amount).value;
    hide TopUp;
    SaveSurplus(st, st', st'.streams[id], t);
    ReceivedByPool(st.bank, st'.bank, token, caller, st'.streams[id].deposit - st.streams[id].deposit, t);
  }

  lemma TopUpAdmits(st: State, id: int, caller: Address, token: Address, amount: i128)
    requires Funded(st) && TopUp(st, id, caller, token, amount).Ok?
    ensures id in st.streams && st.streams[id].Live() && st.streams[id].token == token && st.streams[id].id == id
            && caller != Contract
  {
    hide Extend;
    GateInv(st);
  }

  lemma ReceivedByPool(before: Bank, after: Bank, token: Address, from: Address, x: int, t: Address)
    requires Received(before, after, token, from, Contract, x) && from != Contract
    ensures BalanceOf(after, t, Contract) == BalanceOf(before, t, Contract) + if t == token then x else 0
  {
    assert BalanceOf(after, t, Contract) == BalanceOf(before, t, Contract)
      + Moved(token, from, Contract, x, t, Contract);
  }

  lemma CreateRaises(derive: Derive, st: State, call: Call, token: Address)
    requires Funded(st) && call.DoCreateStream? && ApplyStream(derive, st, call).Ok?
    ensures Raises(st, ApplyStream(derive, st, call).value, token, Gain(derive, st, call, token))
  {
    hide Flow, Owed, CreateStream, TookIn, List, Stream.Sound, Stream.Dust;
    CreateExactly(derive, st, call.sender, call.recipient, call.token, call.amount, call.duration, call.cliff,
                  call.nonce, call.autoRenew,
                  call.lockUntil, call.allowTermination);
    var p := CreateStream(derive, st, call.sender, call.recipient, call.token, call.amount, call.duration, call.cliff,
                          call.nonce,
                          call.autoRenew, call.lockUntil, call.allowTermination).value;
    var s := p.st.streams[p.out];
    FlowSplit(s.flowRate, 0, 0);
    SoundTimes(s, st.now);
    SaveSurplus(st, p.st, s, token);
    TakenIntoPool(st.cfg, st.bank, p.st.bank, s, token);
  }

  lemma TakenIntoPool(cfg: Config, before: Bank, after: Bank, s: Stream, t: Address)
    requires TookIn(cfg, before, after, s) && s.sender != Contract
    ensures BalanceOf(after, t, Contract)
            == BalanceOf(before, t, Contract) + (if t == s.token then s.deposit else 0)
               + (if cfg.creationFee > 0 && cfg.treasury == Some(Contract) && cfg.xlmToken == Some(t)
                  then cfg.creationFee else 0)
  {
    assert BalanceOf(after, t, Contract) == BalanceOf(after, t, Contract);
  }

  lemma {:induction false} BatchCreateRaises(st: State, order: BatchOrder, i: nat, ids: seq<int>, token: Address)
    requires order.Aligned() && order.duration != 0 && i <= |order.amounts| == |ids| && order.sender != Contract
    requires NoDuplicates(ids) && forall j :: i <= j < |ids| ==> ids[j] !in st.streams
    requires BatchCreateFrom(st, order, i, ids).Ok?
    ensures Raises(st, BatchCreateFrom(st, order, i, ids).value, token, 0)
    decreases |ids| - i
  {
    hide Flow, Owed, Transfer;
    if i < |ids| {
      var mid := BatchCreateOne(st, order, i, ids[i]).value;
      EntryCreateRaises(st, order, i, ids[i], token);
      BatchCreateRaises(mid, order, i + 1, ids, token);
    }
  }

  lemma EntryCreateRaises(st: State, order: BatchOrder, i: nat, id: int, token: Address)
    requires order.Aligned() && order.duration != 0 && i < |order.amounts| && order.sender != Contract
             && id !in st.streams
    requires BatchCreateOne(st, order, i, id).Ok?
    ensures Raises(st, BatchCreateOne(st, order, i, id).value, token, 0)
  {
    hide Flow, Owed;
    var s := BatchStream(st, order, i, id);
    TransferMoves(st.bank, order.tokens[i], order.sender, Contract, order.amounts[i], token, Contract);
    SaveSurplus(st, BatchCreateOne(st, order, i, id).value, s, token);
  }

  lemma BatchRaises(derive: Derive, st: State, order: BatchOrder, nonce: u64, token: Address)
    requires Funded(st) && BatchCreate(derive, st, order, nonce).Ok?
    ensures Raises(st, BatchCreate(derive, st, order, nonce).value.st, token, 0)
  {
    hide BatchCreate, Owed;
    BatchCreatePasses(derive, st, order, nonce);
    BatchCreateRaises(BatchStart(st, order, nonce), order, 0, BatchCreate(derive, st, order, nonce).value.out, token);
  }

  lemma ArchiveRaises(st: State, id: int, caller: Address, token: Address)
    requires Funded(st) && ArchiveStream(st, id, caller).Ok?
    ensures id in st.streams && Raises(st, ArchiveStream(st, id, caller).value, token, ClaimOn(st.streams[id], token))
  {
    hide Flow, Owed, ArchiveStream;
    ArchiveExactly(st, id, caller);
    ClaimNonNegative(st.streams[id], st.now);
    EraseSurplus(st, ArchiveStream(st, id, caller).value, id, token);
  }

  /** Calls that move no money and keep the claim. */
  lemma StillRaises(derive: Derive, st: State, call: Call, token: Address)
    requires Funded(st) && (call.DoPauseStream? || call.DoResumeStream? || call.DoCancelAutoRenew?
                            || call.DoSetDelegate?)
    requires ApplyStream(derive, st, call).Ok?
    ensures Raises(st, ApplyStream(derive, st, call).value, token, 0)
  {
    hide Flow, Owed, Stream.Sound;
    var st' := ApplyStream(derive, st, call).value;
    StillStreams(derive, st, call);
    hide ApplyStream;
    if !call.DoSetDelegate? { SaveSurplus(st, st', st'.streams[call.id], token); }
  }

  lemma StillStreams(derive: Derive, st: State, call: Call)
    requires Funded(st) && (call.DoPauseStream? || call.DoResumeStream? || call.DoCancelAutoRenew?
                            || call.DoSetDelegate?)
    requires ApplyStream(derive, st, call).Ok?
    ensures var st' := ApplyStream(derive, st, call).value;
            && st'.bank == st.bank
            && (if call.DoSetDelegate? then st'.streams == st.streams
                else && call.id in st.streams && call.id in st'.streams && st'.streams[call.id].id == call.id
                     && st'.streams == st.streams[call.id := st'.streams[call.id]]
                     && st'.streams[call.id].Claim() == st.streams[call.id].Claim()
                        && st'.streams[call.id].token == st.streams[call.id].token)
  {
    hide Flow;
    GateInv(st);
  }

  lemma AdminRaises(derive: Derive, st: State, call: Call, token: Address)
    requires call.IsAdmin() && ApplyAdmin(st, call).Ok?
    ensures Raises(st, ApplyAdmin(st, call).value, token, Gain(derive, st, call, token))
  {
    AdminRecord(st, call);
    if call.TokenTransfer? {
      TransferMoves(st.bank, call.token, call.from, call.to, call.moved, token, Contract);
    }
  }

  // ---- whole runs ----

  /** Every successful call raises the surplus by exactly its gain, and no call lowers it. */
  lemma CallRaises(derive: Derive, st: State, call: Call, token: Address)
    requires Funded(st) && Apply(derive, st, call).Ok?
    ensures Raises(st, Apply(derive, st, call).value, token, Gain(derive, st, call, token))
  {
    hide Raises, ApplyStream, ApplyAdmin;
    if call.IsAdmin() {
      AdminRaises(derive, st, call, token);
    } else {
      StreamCallRaises(derive, st, call, token);
    }
  }

  lemma StreamCallRaises(derive: Derive, st: State, call: Call, token: Address)
    requires Funded(st) && !call.IsAdmin() && ApplyStream(derive, st, call).Ok?
    ensures Raises(st, ApplyStream(derive, st, call).value, token, Gain(derive, st, call, token))
  {
    if call.DoCreateStream? {
      CreateRaises(derive, st, call, token);
    } else if call.DoPauseStream? || call.DoResumeStream? || call.DoCancelAutoRenew? || call.DoSetDelegate? {
      StillRaises(derive, st, call, token);
    } else if call.DoBatchWithdraw? || call.DoBatchCancel? || call.DoBatchCreate? {
      BatchCallRaises(derive, st, call, token);
    } else {
      SingleCallRaises(derive, st, call, token);
    }
  }

  lemma BatchCallRaises(derive: Derive, st: State, call: Call, token: Address)
    requires Funded(st) && (call.DoBatchWithdraw? || call.DoBatchCancel? || call.DoBatchCreate?)
             && ApplyStream(derive, st, call).Ok?
    ensures Raises(st, ApplyStream(derive, st, call).value, token, Gain(derive, st, call, token))
  {
    hide Funded, BatchCreate, EntriesGain, CancelsGain, BatchWithdrawFrom, BatchCancelFrom, Owed;
    if call.DoBatchWithdraw? {
      GateInv(st);
      assert Gate(st) == Ok(Opened(st));
      EntriesRaise(Opened(st), call.ids, 0, [], call.caller, call.signers, token);
    } else if call.DoBatchCancel? {
      CancelsRaise(st, call.ids, 0, [], call.caller, token);
    } else {
      BatchRaises(derive, st, call.order, call.nonce, token);
    }
  }

  lemma SingleCallRaises(derive: Derive, st: State, call: Call, token: Address)
    requires Funded(st) && !call.IsAdmin() && ApplyStream(derive, st, call).Ok?
    requires call.DoWithdraw? || call.DoCancelStream? || call.DoRecipientTerminate? || call.DoTransferRecipient?
             || call.DoPartialCancel? || call.DoTopUp? || call.DoArchive?
    ensures Raises(st, ApplyStream(derive, st, call).value, token, Gain(derive, st, call, token))
  {
    hide Funded, Raises, Withdraw, CancelStream, RecipientTerminate, TransferRecipient, PartialCancel, TopUp,
      ArchiveStream;
    match call
    case DoWithdraw(id, caller, signers) => WithdrawRaises(st, id, caller, signers, token);
    case DoCancelStream(id, caller) => CancelRaises(st, id, caller, token);
    case DoRecipientTerminate(id, caller) => CancelRaises(st, id, caller, token);
    case DoTransferRecipient(id, caller, next) => TransferRaises(st, id, caller, next, token);
    case DoPartialCancel(id, caller, amount) => PartialRaises(derive, st, id, caller, amount, token);
    case DoTopUp(id, caller, t, amount) => TopUpRaises(st, id, caller, t, amount, token);
    case DoArchive(id, caller) => ArchiveRaises(st, id, caller, token);
  }

  ghost function TotalGain(derive: Derive, st: State, calls: seq<Call>, token: Address): int {
    if calls == [] then 0
    else
      var mid := Run(derive, st, calls[..|calls| - 1]);
      var call := calls[|calls| - 1];
      TotalGain(derive, st, calls[..|calls| - 1], token)
        + (if Apply(derive, mid, call).Ok? then Gain(derive, mid, call, token) else 0)
  }

  /** After any run the pool holds exactly what it owes and what it has gained: every unit is accounted for. */
  lemma {:induction false} SurplusEveryRun(derive: Derive, st: State, calls: seq<Call>, token: Address)
    requires Funded(st)
    ensures Raises(st, Run(derive, st, calls), token, TotalGain(derive, st, calls, token))
  {
    hide Apply, Funded, Gain, SurplusOf;
    if calls != [] {
      var n := |calls| - 1;
      SurplusEveryRun(derive, st, calls[..n], token);
      CustodyEveryRun(derive, st, calls[..n], calls[n]);
      var mid := Run(derive, st, calls[..n]);
      if Apply(derive, mid, calls[n]).Ok? {
        CallRaises(derive, mid, calls[n], token);
      }
    }
  }

  /** A renewal leaves the dust of the cycle that ended, and what was skipped in it, in the pool for good. */
  lemma RenewalStrandsDust(st: State, id: int, recipient: Address, signers: set<Address>)
    requires Funded(st) && Withdraw(st, id, recipient, signers).Ok? && st.streams[id].endTime <= st.now
    requires var st' := Withdraw(st, id, recipient, signers).value; id in st'.streams && st'.streams[id].status.Active?
    ensures var s := st.streams[id];
            Raises(st, Withdraw(st, id, recipient, signers).value, s.token,
                   s.Dust() + s.Skipped() + Kept(st.cfg, s, Flow(s.flowRate, s.endTime - s.lastWithdrawTime)))
  {
    hide Flow, Settle, PayClaim, SurplusOf, Owed;
    WithdrawSteps(st, id, recipient, signers);
    WithdrawRaises(st, id, recipient, signers, st.streams[id].token);
    var g := Opened(st);
    var s := g.streams[id];
    PayClaimReads(g, st, s, Due(s, g.now));
    DrawnSound(s, g.now, Due(s, g.now));
    SettledActive(g, id, Drawn(s, g.now, Due(s, g.now)), PayClaim(g, s, Due(s, g.now)).value, signers);
    SameDust(s, Drawn(s, g.now, Due(s, g.now)));
  }
}
