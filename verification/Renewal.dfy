/** Auto-renewal: each funded renewal starts exactly where the old cycle ended and lasts as long;
    repeated withdrawals by an overdue recipient catch up with the clock after a computed number of
    renewals, and pay every second once. */
module Renewal {
  import opened Prelude
  import opened VestingMath
  import opened Streams
  import opened TokenBank
  import opened Ledger
  import opened Invariants
  import opened Custody
  import opened Records
  import opened Payments

  /** The sender paid the whole deposit again, after the claim was paid out; dust is not refunded. */
  ghost predicate RenewalPaid(st: State, st': State, s: Stream) {
    Drew(st.cfg, st.bank, st'.bank, s, Flow(s.flowRate, s.endTime - s.lastWithdrawTime), -s.deposit)
  }

  /** `s` once more: from its end, for as long, with nothing withdrawn and all else as it was. */
  function Again(s: Stream): Stream {
    s.(startTime := s.endTime, endTime := s.endTime + (s.endTime - s.startTime), lastWithdrawTime := s.endTime,
       totalWithdrawn := 0)
  }

  /** A withdrawal at or after the end that leaves the stream active has renewed it: next cycle, same
      duration, nothing withdrawn, and the whole deposit paid in again by the sender. */
  lemma RenewalTiles(st: State, id: int, recipient: Address, signers: set<Address>)
    requires Funded(st) && Withdraw(st, id, recipient, signers).Ok? && st.streams[id].endTime <= st.now
    requires var st' := Withdraw(st, id, recipient, signers).value; id in st'.streams && st'.streams[id].status.Active?
    ensures var s := st.streams[id]; var st' := Withdraw(st, id, recipient, signers).value;
            && s.autoRenew
            && st' == Opened(st).(bank := st'.bank, streams := st.streams[id := Again(s)])
            && RenewalPaid(st, st', s)
  {
    hide Flow, PayClaim, Settle;
    WithdrawSteps(st, id, recipient, signers);
    WithdrawMoney(st, id, recipient, signers);
    var g := Opened(st);
    var s := g.streams[id];
    PayClaimReads(g, st, s, Due(s, g.now));
    SettledActive(g, id, Drawn(s, g.now, Due(s, g.now)), PayClaim(g, s, Due(s, g.now)).value, signers);
  }

  /** A batch entry at or after the end that leaves the stream stored has renewed it in the same way. */
  lemma BatchRenewalTiles(st: State, id: int, recipient: Address, signers: set<Address>)
    requires Funded(st) && BatchWithdrawOne(st, id, recipient, signers).Ok? && st.streams[id].endTime <= st.now
    requires id in BatchWithdrawOne(st, id, recipient, signers).value.st.streams
    ensures var s := st.streams[id]; var st' := BatchWithdrawOne(st, id, recipient, signers).value.st;
            && s.autoRenew && st' == st.(bank := st'.bank, streams := st.streams[id := Again(s)])
            && RenewalPaid(st, st', s)
  {
    hide Flow, PayClaim, Settle;
    BatchEntryRecord(st, id, recipient, signers);
    EntryMoney(st, id, recipient, signers);
  }

  lemma RenewExactly(st: State, s: Stream, bank: Bank, signers: set<Address>)
    requires s.Sound(st.now) && s.autoRenew && s.endTime <= st.now && s.status.Active?
    ensures var r := Settle(st, s.id, s, bank, signers, false);
            (r.Ok? && s.id in r.value.streams && r.value.streams[s.id].status.Active?)
            <==> && s.deposit <= BalanceOf(bank, s.token, s.sender) && s.sender in signers
                 && s.endTime + (s.endTime - s.startTime) <= U64_MAX
  {
    ClaimNonNegative(s, st.now);
    if s.deposit <= BalanceOf(bank, s.token, s.sender) {
      assert Settle(st, s.id, s, bank, signers, false) == Renew(st, s, bank, signers);
      RenewOk(st, s, bank, signers);
    } else {
      CompleteNotActive(st, s, bank, signers);
    }
  }

  lemma RenewOk(st: State, s: Stream, bank: Bank, signers: set<Address>)
    requires s.Sound(st.now) && 0 <= s.deposit <= BalanceOf(bank, s.token, s.sender) && s.status.Active?
    ensures Renew(st, s, bank, signers).Ok? <==> s.sender in signers && s.endTime + (s.endTime - s.startTime) <= U64_MAX
    ensures Renew(st, s, bank, signers).Ok? ==>
              s.id in Renew(st, s, bank, signers).value.streams
                && Renew(st, s, bank, signers).value.streams[s.id].status.Active?
  {
  }

  lemma CompleteNotActive(st: State, s: Stream, bank: Bank, signers: set<Address>)
    requires s.autoRenew && s.endTime <= st.now && BalanceOf(bank, s.token, s.sender) < s.deposit
    ensures var r := Settle(st, s.id, s, bank, signers, false);
            r.Ok? ==> s.id in r.value.streams && r.value.streams[s.id].status.Completed?
  {
  }

  /** A permitted withdrawal from an overdue renewing stream renews it exactly when the fee product
      fits, the sender signs and can pay the deposit after the payout, and the new end fits. */
  lemma RenewalHappensExactly(st: State, id: int, recipient: Address, signers: set<Address>)
    requires Funded(st) && Withdrawable(st, id, recipient)
    requires st.streams[id].endTime <= st.now && st.streams[id].autoRenew
    ensures var s := st.streams[id]; var gross := Due(s, st.now); var r := Withdraw(st, id, recipient, signers);
            (r.Ok? && id in r.value.streams && r.value.streams[id].status.Active?)
            <==> && !(0 < gross && FeeOverflows(st.cfg, recipient, gross)) && Renews(st, s, gross, signers)
                 && s.endTime + (s.endTime - s.startTime) <= U64_MAX
  {
    hide Settle;
    WithdrawSteps(st, id, recipient, signers);
    var g := Opened(st);
    var s := g.streams[id];
    var gross := Due(s, g.now);
    assert PayClaim(g, s, gross) == PayClaim(st, s, gross);
    if PayClaim(g, s, gross).Ok? {
      RenewExactly(g, Drawn(s, g.now, gross), PayClaim(g, s, gross).value, signers);
    }
  }

  // ---- catching up ----

  /** The state after `n` withdrawals at the same ledger time. */
  function After(st: State, id: int, recipient: Address, signers: set<Address>, n: nat): Result<State> {
    if n == 0 then Ok(st)
    else
      var st' :- After(st, id, recipient, signers, n - 1);
      Withdraw(st', id, recipient, signers)
  }

  /** Each of the first `n` withdrawals goes through and leaves the stream active. */
  ghost predicate KeepsRenewing(st: State, id: int, recipient: Address, signers: set<Address>, n: nat) {
    forall i: nat :: i <= n ==>
      var r := After(st, id, recipient, signers, i);
      r.Ok? && id in r.value.streams && r.value.streams[id].status.Active?
  }

  /** The stream `n` cycles later. */
  function CycleOf(s: Stream, n: nat): Stream {
    if n == 0 then s else NextCycle(CycleOf(s, n - 1))
  }

  lemma {:induction false} CycleTimes(s: Stream, n: nat)
    requires s.startTime <= s.endTime
    ensures var c := CycleOf(s, n); var d := s.endTime - s.startTime;
            && c.startTime == s.startTime + n * d && c.endTime == c.startTime + d && s.endTime <= c.endTime
            && c.deposit == s.deposit && c.flowRate == s.flowRate && c.cliffTime == s.cliffTime
            && c == s.(startTime := c.startTime, endTime := c.endTime, lastWithdrawTime := c.lastWithdrawTime,
                       totalWithdrawn := c.totalWithdrawn)
            && c.Dust() == s.Dust()
            && (0 < n ==> c.lastWithdrawTime == c.startTime && c.totalWithdrawn == 0)
  {
    var d := s.endTime - s.startTime;
    if n == 0 {
      assert 0 * d == 0;
    } else {
      CycleTimes(s, n - 1);
      assert n * d == (n - 1) * d + d;
    }
  }

  /** The first `n` cycles have ended by `now`. */
  predicate Overdue(s: Stream, n: nat, now: int) {
    n == 0 || (CycleOf(s, n - 1).endTime <= now && s.startTime <= s.endTime)
  }

  lemma OverdueBefore(s: Stream, n: nat, now: int)
    requires Overdue(s, n, now) && 0 < n
    ensures Overdue(s, n - 1, now)
  {
    if n > 1 { CycleTimes(s, n - 2); }
  }

  /** What the first `n` cycles owe when read at `now`. */
  function CyclesOwe(s: Stream, n: nat, now: int): int {
    if n == 0 then 0 else CyclesOwe(s, n - 1, now) + Due(CycleOf(s, n - 1), now)
  }

  /** The fees on the first `n` of these claims. */
  function CyclesFee(cfg: Config, s: Stream, n: nat, now: int): int {
    if n == 0 then 0 else CyclesFee(cfg, s, n - 1, now) + FeeCharged(cfg, s.recipient, Due(CycleOf(s, n - 1), now))
  }

  /** By how much a balance moves when `paidOut` claims are paid and `renewed` deposits taken in. */
  function CyclesMove(cfg: Config, s: Stream, paidOut: nat, renewed: nat, now: int, t: Address, h: Address): int {
    var owed, fee := CyclesOwe(s, paidOut, now), CyclesFee(cfg, s, paidOut, now);
    Moved(s.token, Contract, s.recipient, owed - fee, t, h)
      + Moved(s.token, Contract, cfg.treasury.UnwrapOr(Contract), fee, t, h)
    - Moved(s.token, Contract, s.sender, Flow(s.deposit, renewed), t, h)
  }

  lemma CyclesMoveOnce(cfg: Config, s: Stream, n: nat, now: int, t: Address, h: Address)
    ensures CyclesMove(cfg, s, 0, 0, now, t, h) == 0
    ensures var gross := Due(CycleOf(s, n), now); var fee := FeeCharged(cfg, s.recipient, gross);
            && CyclesMove(cfg, s, n + 1, n, now, t, h)
               == CyclesMove(cfg, s, n, n, now, t, h) + Moved(s.token, Contract, s.recipient, gross - fee, t, h)
                  + Moved(s.token, Contract, cfg.treasury.UnwrapOr(Contract), fee, t, h)
            && CyclesMove(cfg, s, n + 1, n + 1, now, t, h)
               == CyclesMove(cfg, s, n + 1, n, now, t, h) + Moved(s.token, Contract, s.sender, -s.deposit, t, h)
  {
    hide Due, FeeCharged, CycleOf;
    FlowSplit(s.deposit, n, 1);
    FlowIsProduct(s.deposit, 1);
  }

  /** `r` differs from `st` in the balances, the record of `id` and, once called, an expired pause. */
  predicate Moves(st: State, r: State, id: int, c: Stream, n: nat) {
    r == (if n == 0 then st else Opened(st)).(bank := r.bank, streams := st.streams[id := c])
  }

  lemma MovesAgain(st: State, mid: State, r: State, id: int, c: Stream, c': Stream, n: nat)
    requires Moves(st, mid, id, c, n) && r == Opened(mid).(bank := r.bank, streams := mid.streams[id := c'])
    ensures Moves(st, r, id, c', n + 1)
  {
    assert st.streams[id := c][id := c'] == st.streams[id := c'];
  }

  /** Every balance after `n` claims were paid and `n` deposits taken in. */
  ghost predicate Tallied(cfg: Config, s: Stream, n: nat, now: int, start: Bank, last: Bank) {
    forall t, h :: BalanceOf(last, t, h) == BalanceOf(start, t, h) + CyclesMove(cfg, s, n, n, now, t, h)
  }

  /** `r` is `st` with the stream `n` cycles on, the claims paid and `n` deposits taken in. */
  ghost predicate CaughtUp(st: State, r: State, id: int, s: Stream, n: nat) {
    Funded(r) && Moves(st, r, id, CycleOf(s, n), n) && Tallied(st.cfg, s, n, st.now, st.bank, r.bank)
  }

  lemma CaughtUpOneMore(st: State, mid: State, r: State, id: int, s: Stream, n: nat)
    requires Funded(st) && CaughtUp(st, mid, id, s, n) && Funded(r) && RenewalPaid(mid, r, CycleOf(s, n))
    requires CycleOf(s, n).token == s.token && CycleOf(s, n).recipient == s.recipient
             && CycleOf(s, n).sender == s.sender
    requires CycleOf(s, n).deposit == s.deposit
    requires Due(CycleOf(s, n), st.now)
             == Flow(CycleOf(s, n).flowRate, CycleOf(s, n).endTime - CycleOf(s, n).lastWithdrawTime)
    requires r == Opened(mid).(bank := r.bank, streams := mid.streams[id := NextCycle(CycleOf(s, n))])
    ensures CaughtUp(st, r, id, s, n + 1)
  {
    hide Funded, Due, Drew, Tallied;
    MovesOneMore(st.cfg, s, n, st.now, st.bank, mid.bank, r.bank);
    MovesAgain(st, mid, r, id, CycleOf(s, n), NextCycle(CycleOf(s, n)), n);
  }

  lemma MovesOneMore(cfg: Config, s: Stream, n: nat, now: int, start: Bank, mid: Bank, last: Bank)
    requires Tallied(cfg, s, n, now, start, mid)
    requires var c := CycleOf(s, n); c.token == s.token && c.recipient == s.recipient && c.sender == s.sender
    requires Drew(cfg, mid, last, CycleOf(s, n), Due(CycleOf(s, n), now), -s.deposit)
    ensures Tallied(cfg, s, n + 1, now, start, last)
  {
    hide Flow, FeeCharged, Moved, CyclesMove, Due, CycleOf, BalanceOf;
    forall t, h ensures BalanceOf(last, t, h) == BalanceOf(start, t, h) + CyclesMove(cfg, s, n + 1, n + 1, now, t, h) {
      CyclesMoveOnce(cfg, s, n, now, t, h);
      assert BalanceOf(mid, t, h) == BalanceOf(start, t, h) + CyclesMove(cfg, s, n, n, now, t, h);
    }
  }

  /** While cycles have ended before now, each withdrawal advances exactly one cycle, pays what that cycle
      owes and takes the deposit in once more. */
  lemma {:induction false} CatchUpTiles(st: State, id: int, recipient: Address, signers: set<Address>, n: nat)
    requires Funded(st) && id in st.streams && KeepsRenewing(st, id, recipient, signers, n)
    requires Overdue(st.streams[id], n, st.now)
    ensures CaughtUp(st, After(st, id, recipient, signers, n).value, id, st.streams[id], n)
  {
    hide CaughtUp, Flow, Withdraw, Funded;
    var s := st.streams[id];
    if n == 0 {
      NothingToCatchUp(st, id);
    } else {
      OverdueBefore(s, n, st.now);
      CatchUpTiles(st, id, recipient, signers, n - 1);
      CatchUpOnce(st, id, recipient, signers, n - 1);
    }
  }

  lemma NothingToCatchUp(st: State, id: int)
    requires Funded(st) && id in st.streams
    ensures CaughtUp(st, st, id, st.streams[id], 0)
  {
    hide Funded, CyclesMove;
    var s := st.streams[id];
    assert st.streams[id := s] == st.streams;
    forall t, h { CyclesMoveOnce(st.cfg, s, 0, st.now, t, h); }
  }

  lemma CatchUpOnce(st: State, id: int, recipient: Address, signers: set<Address>, n: nat)
    requires Funded(st) && id in st.streams && KeepsRenewing(st, id, recipient, signers, n + 1)
    requires Overdue(st.streams[id], n + 1, st.now)
    requires CaughtUp(st, After(st, id, recipient, signers, n).value, id, st.streams[id], n)
    ensures CaughtUp(st, After(st, id, recipient, signers, n + 1).value, id, st.streams[id], n + 1)
  {
    hide Flow, CyclesMove, RenewalPaid, Withdraw, Stream.Sound;
    var s := st.streams[id];
    var mid := After(st, id, recipient, signers, n).value;
    assert After(st, id, recipient, signers, n + 1) == Withdraw(mid, id, recipient, signers);
    SoundTimes(s, st.now);
    CycleTimes(s, n);
    RenewalTiles(mid, id, recipient, signers);
    WithdrawSafe(mid, id, recipient, signers);
    CaughtUpOneMore(st, mid, Withdraw(mid, id, recipient, signers).value, id, s, n);
  }

  lemma {:induction false} CyclesOweTotal(s: Stream, n: nat, now: int)
    requires Overdue(s, n, now) && s.cliffTime <= s.endTime && s.startTime <= s.endTime
    ensures CyclesOwe(s, n, now) == Flow(s.flowRate, CycleOf(s, n).lastWithdrawTime - s.lastWithdrawTime)
  {
    if n == 0 {
    } else {
      OverdueBefore(s, n, now);
      CyclesOweTotal(s, n - 1, now);
      CycleTimes(s, n - 1);
      var c := CycleOf(s, n - 1);
      FlowSplit(s.flowRate, c.lastWithdrawTime - s.lastWithdrawTime, c.endTime - c.lastWithdrawTime);
    }
  }

  // ---- when all renewals go through ----

  /** Everything a withdrawal checks that no renewal changes. */
  predicate Renewable(st: State, id: int, recipient: Address, signers: set<Address>) {
    && Gate(st).Ok? && recipient != Contract && id in st.streams
    && var s := st.streams[id];
       && s.recipient == recipient && s.status.Active? && s.lockUntil <= st.now
       && s.autoRenew && s.sender in signers
  }

  /** The renewal of cycle `i` goes through, read off the state before the first: the cooldown is over,
      the fee product fits, the sender has the deposit once more after the payouts and deposits so far,
      and the next end fits. */
  predicate CanRenew(st: State, s: Stream, i: nat) {
    var c := CycleOf(s, i);
    var gross := Due(c, st.now);
    && (st.cfg.cooldown <= 0 || SaturatingU64(c.lastWithdrawTime + st.cfg.cooldown) <= st.now)
    && !(0 < gross && FeeOverflows(st.cfg, s.recipient, gross))
    && s.deposit <= BalanceOf(st.bank, s.token, s.sender) + CyclesMove(st.cfg, s, i + 1, i, st.now, s.token, s.sender)
    && c.endTime + (c.endTime - c.startTime) <= U64_MAX
  }

  lemma {:induction false} KeepsRenewingExactly(st: State, id: int, recipient: Address, signers: set<Address>, n: nat)
    requires Funded(st) && Renewable(st, id, recipient, signers) && Overdue(st.streams[id], n, st.now)
    ensures KeepsRenewing(st, id, recipient, signers, n) <==> forall i: nat :: i < n ==> CanRenew(st, st.streams[id], i)
  {
    hide Withdraw, CanRenew, Funded, Flow;
    var s := st.streams[id];
    if n > 0 {
      OverdueBefore(s, n, st.now);
      KeepsRenewingExactly(st, id, recipient, signers, n - 1);
      KeepsOnceMore(st, id, recipient, signers, n - 1);
      if KeepsRenewing(st, id, recipient, signers, n - 1) {
        CatchUpTiles(st, id, recipient, signers, n - 1);
        RenewsOnceMore(st, After(st, id, recipient, signers, n - 1).value, id, recipient, signers, n - 1);
      }
    }
  }

  lemma KeepsOnceMore(st: State, id: int, recipient: Address, signers: set<Address>, n: nat)
    ensures KeepsRenewing(st, id, recipient, signers, n + 1)
            <==> && KeepsRenewing(st, id, recipient, signers, n)
                 && var r := Withdraw(After(st, id, recipient, signers, n).value, id, recipient, signers);
                    r.Ok? && id in r.value.streams && r.value.streams[id].status.Active?
  {
    hide Withdraw;
    if KeepsRenewing(st, id, recipient, signers, n) {
      var r := Withdraw(After(st, id, recipient, signers, n).value, id, recipient, signers);
      assert After(st, id, recipient, signers, n + 1) == r;
    }
  }

  lemma RenewsOnceMore(st: State, mid: State, id: int, recipient: Address, signers: set<Address>, i: nat)
    requires Funded(st) && Renewable(st, id, recipient, signers) && Overdue(st.streams[id], i + 1, st.now)
    requires CaughtUp(st, mid, id, st.streams[id], i)
    ensures var r := Withdraw(mid, id, recipient, signers);
            r.Ok? && id in r.value.streams && r.value.streams[id].status.Active? <==> CanRenew(st, st.streams[id], i)
  {
    hide Withdraw, Flow, CyclesMove, PayClaim, Settle, Due, FeeOverflows;
    var s := st.streams[id];
    var c := CycleOf(s, i);
    SoundTimes(s, st.now);
    CycleTimes(s, i);
    assert mid.streams[id] == c;
    if Withdrawable(mid, id, recipient) {
      RenewalHappensExactly(mid, id, recipient, signers);
      SenderAfterPayout(st, mid, id, s, i);
    } else {
      WithdrawSteps(mid, id, recipient, signers);
    }
  }

  /** What the sender has when the deposit of cycle `i` is due again. */
  lemma SenderAfterPayout(st: State, mid: State, id: int, s: Stream, i: nat)
    requires Funded(mid) && mid.now == st.now && mid.cfg == st.cfg && id in mid.streams
             && mid.streams[id] == CycleOf(s, i)
    requires BalanceOf(mid.bank, s.token, s.sender)
             == BalanceOf(st.bank, s.token, s.sender) + CyclesMove(st.cfg, s, i, i, st.now, s.token, s.sender)
    requires var c := CycleOf(s, i); c.status.Active? && c.token == s.token && c.recipient == s.recipient
    ensures var c := CycleOf(s, i); var paid := PayClaim(mid, c, Due(c, st.now));
            && (paid.Err? <==> 0 < Due(c, st.now) && FeeOverflows(st.cfg, s.recipient, Due(c, st.now)))
            && (paid.Ok? ==> BalanceOf(paid.value, s.token, s.sender)
                             == BalanceOf(st.bank, s.token, s.sender)
                               + CyclesMove(st.cfg, s, i + 1, i, st.now, s.token, s.sender))
  {
    hide Flow, PayClaim, CyclesMove, Moved, FeeCharged, Due, CycleOf, Funded, FeeOverflows;
    var c := CycleOf(s, i);
    CyclesMoveOnce(st.cfg, s, i, st.now, s.token, s.sender);
    PayoutMoves(mid, id, c, s.sender);
  }

  /** What paying out the claim of a stored stream does to one balance. */
  lemma PayoutMoves(st: State, id: int, s: Stream, h: Address)
    requires Funded(st) && id in st.streams && st.streams[id] == s && s.status.Active?
    ensures var gross := Due(s, st.now); var paid := PayClaim(st, s, gross);
            var fee := FeeCharged(st.cfg, s.recipient, gross);
            && (paid.Err? <==> 0 < gross && FeeOverflows(st.cfg, s.recipient, gross))
            && (paid.Ok? ==> BalanceOf(paid.value, s.token, h)
                             == BalanceOf(st.bank, s.token, h)
                               + Moved(s.token, Contract, s.recipient, gross - fee, s.token, h)
                                + Moved(s.token, Contract, st.cfg.treasury.UnwrapOr(Contract), fee, s.token, h))
  {
    hide Flow, PayClaim, Moved, FeeCharged, Due, Funded, FeeOverflows, SpendsAtMost;
    ClaimCovered(st, id, s);
    PayClaimSpends(st, s, Due(s, st.now));
    if PayClaim(st, s, Due(s, st.now)).Ok? {
      ClaimSplitsExactly(st, s, Due(s, st.now));
    }
  }

  lemma ClaimCovered(st: State, id: int, s: Stream)
    requires Funded(st) && id in st.streams && st.streams[id] == s && s.status.Active?
    ensures 0 <= Due(s, st.now) <= BalanceOf(st.bank, s.token, Contract) && 0 <= st.cfg.feeBps <= FEE_DENOMINATOR
  {
    hide Flow, Owed;
    ClaimWithinDeposit(s, st.now);
    PoolCovers(st, id);
  }

  /** The number of cycles that have ended by `now`. */
  function EndedCycles(s: Stream, now: int): int
    requires s.startTime < s.endTime
  {
    (now - s.startTime) / (s.endTime - s.startTime)
  }

  lemma EndedCyclesExact(s: Stream, now: int)
    requires s.startTime < s.endTime <= now
    ensures var k := EndedCycles(s, now);
            && 1 <= k && CycleOf(s, k).startTime <= now < CycleOf(s, k).endTime
            && (forall i: nat :: i <= k ==> Overdue(s, i, now))
  {
    var d := s.endTime - s.startTime;
    var k := EndedCycles(s, now);
    DivFloor(now - s.startTime, d);
    if k < 1 { MulMono(d, k, 0); }
    CycleTimes(s, k);
    forall i: nat | 0 < i <= k ensures Overdue(s, i, now) {
      CycleTimes(s, i - 1);
      MulMono(d, i, k);
      assert i * d == (i - 1) * d + d;
    }
  }

  /** An overdue recipient whose renewals all go through is caught up after exactly
      `(now - start) / duration` of them: before that the current cycle has ended, then it has not. The
      recipient and the treasury have then been paid, and the sender has paid in, all of it by the balances;
      and with the withdrawal that follows, every second since the last withdrawal is paid exactly once. */
  lemma CatchUpTerminates(st: State, id: int, recipient: Address, signers: set<Address>)
    requires Funded(st) && Renewable(st, id, recipient, signers)
    requires st.streams[id].startTime < st.streams[id].endTime <= st.now
    requires forall i: nat :: i < EndedCycles(st.streams[id], st.now) ==> CanRenew(st, st.streams[id], i)
    ensures var s := st.streams[id]; var k := EndedCycles(s, st.now); var c := CycleOf(s, k);
            && 1 <= k && After(st, id, recipient, signers, k).Ok?
            && CaughtUp(st, After(st, id, recipient, signers, k).value, id, s, k)
            && c.startTime <= st.now < c.endTime && (forall i: nat :: i <= k ==> Overdue(s, i, st.now))
            && CyclesOwe(s, k, st.now) + Due(c, st.now) == Flow(s.flowRate, st.now - s.lastWithdrawTime)
  {
    hide CanRenew, CaughtUp, Flow;
    var s := st.streams[id];
    EndedCyclesExact(s, st.now);
    var k := EndedCycles(s, st.now);
    KeepsRenewingExactly(st, id, recipient, signers, k);
    CatchUpTiles(st, id, recipient, signers, k);
    SoundTimes(s, st.now);
    CyclesThenNow(s, k, st.now);
  }

  lemma CyclesThenNow(s: Stream, k: nat, now: int)
    requires s.startTime <= s.endTime <= now && s.cliffTime <= s.endTime && 0 < k
    requires CycleOf(s, k).startTime <= now < CycleOf(s, k).endTime
    requires Overdue(s, k, now)
    ensures CyclesOwe(s, k, now) + Due(CycleOf(s, k), now) == Flow(s.flowRate, now - s.lastWithdrawTime)
  {
    CyclesOweTotal(s, k, now);
    CycleTimes(s, k);
    var c := CycleOf(s, k);
    FlowSplit(s.flowRate, c.lastWithdrawTime - s.lastWithdrawTime, now - c.lastWithdrawTime);
  }
}
