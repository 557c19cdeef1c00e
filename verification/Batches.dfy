/** The batch entry points against the single ones: `batch_withdraw` is the left-to-right fold of
    `withdraw`, and `batch_cancel_stream` of `cancel_stream`, exactly where stated; a batch creation
    stores exactly the ordered streams and takes in exactly their deposits. */
module Batches {
  import opened Prelude
  import opened VestingMath
  import opened Streams
  import opened TokenBank
  import opened Storage
  import opened Ledger
  import opened Invariants
  import opened Custody
  import opened Payments

  // ---- batch_withdraw ----

  /** An entry got past the checks it shares with `withdraw`. */
  predicate EntryAdmitted(st: State, id: int, recipient: Address) {
    && id in st.streams
    && st.streams[id].recipient == recipient && st.streams[id].status.Active? && st.streams[id].lockUntil <= st.now
  }

  predicate CooldownOver(st: State, s: Stream) {
    st.cfg.cooldown <= 0 || SaturatingU64(s.lastWithdrawTime + st.cfg.cooldown) <= st.now
  }

  /** Nothing is held back by the cliff. */
  predicate CliffIrrelevant(st: State, s: Stream) {
    s.cliffTime <= st.now || s.lastWithdrawTime == Min(st.now, s.endTime)
  }

  /** The payout succeeds, the stream is overdue and renewing, and its sender cannot pay again. */
  predicate RenewalUnfunded(st: State, s: Stream, gross: int) {
    && s.autoRenew && s.endTime <= st.now
    && PayClaim(st, s, gross).Ok? && BalanceOf(PayClaim(st, s, gross).value, s.token, s.sender) < s.deposit
  }

  /** A batch entry does what a single withdrawal does. */
  predicate EntryMatches(st: State, id: int, recipient: Address) {
    EntryAdmitted(st, id, recipient) ==>
      var s := st.streams[id];
      CooldownOver(st, s) && CliffIrrelevant(st, s) && !RenewalUnfunded(st, s, Due(s, st.now))
  }

  lemma BatchEntrySteps(st: State, id: int, recipient: Address, signers: set<Address>)
    requires Funded(st)
    ensures !EntryAdmitted(st, id, recipient) ==> BatchWithdrawOne(st, id, recipient, signers).Err?
    ensures EntryAdmitted(st, id, recipient) ==>
              var s := st.streams[id]; var gross := Accrued(s, st.now);
              && 0 <= gross && Drawn(s, st.now, gross).Sound(st.now) && s.id == id
              && (PayClaim(st, s, gross).Err? ==> PayClaim(st, s, gross) == Err(Overflow))
              && BatchWithdrawOne(st, id, recipient, signers)
                 == match PayClaim(st, s, gross)
                    case Err(e) => Err(e)
                    case Ok(bank) =>
                      match Settle(st, id, Drawn(s, st.now, gross), bank, signers, true)
                      case Err(e) => Err(e)
                      case Ok(st') => Ok(Post(st', gross))
  {
    if EntryAdmitted(st, id, recipient) {
      var s := st.streams[id];
      ClaimWithinDeposit(s, st.now);
      var gross := Accrued(s, st.now);
      DrawnSound(s, st.now, gross);
      PoolCovers(st, id);
      PayClaimSpends(st, s, gross);
    }
  }

  lemma SettleAgrees(st: State, s: Stream, bank: Bank, signers: set<Address>)
    requires s.id in st.streams && Settleable(st, s.id, s, bank, st.streams[s.id].Claim() - s.Claim())
    ensures Settle(st, s.id, s, bank, signers, true) == Settle(st, s.id, s, bank, signers, false)
            <==> !(s.autoRenew && s.endTime <= st.now && BalanceOf(bank, s.token, s.sender) < s.deposit)
  {
  }

  /** Same result, same error, same state: exactly under the condition. */
  lemma BatchEntryMatchesExactly(st: State, id: int, recipient: Address, signers: set<Address>)
    requires Funded(st) && !st.paused && recipient != Contract
    ensures StateOf(BatchWithdrawOne(st, id, recipient, signers)) == Withdraw(st, id, recipient, signers)
            <==> EntryMatches(st, id, recipient)
    ensures BatchWithdrawOne(st, id, recipient, signers).Ok? && EntryMatches(st, id, recipient) ==>
              BatchWithdrawOne(st, id, recipient, signers).value.out == Due(st.streams[id], st.now)
  {
    WithdrawSteps(st, id, recipient, signers);
    BatchEntrySteps(st, id, recipient, signers);
    if EntryAdmitted(st, id, recipient) && CooldownOver(st, st.streams[id]) {
      var s := st.streams[id];
      assert Withdrawable(st, id, recipient) && Opened(st) == st;
      if CliffIrrelevant(st, s) {
        SameGross(st, s);
        EntrySettles(st, id, recipient, signers);
      } else {
        CliffSplits(st, id, recipient, signers);
      }
    }
  }

  lemma SameGross(st: State, s: Stream)
    requires s.Sound(st.now) && s.status.Active?
    ensures Due(s, st.now) == Accrued(s, st.now) <==> CliffIrrelevant(st, s)
  {
    if !CliffIrrelevant(st, s) {
      FlowStrict(s.flowRate, 0, Min(st.now, s.endTime) - s.lastWithdrawTime);
    }
  }

  lemma EntrySettles(st: State, id: int, recipient: Address, signers: set<Address>)
    requires Funded(st) && !st.paused && EntryAdmitted(st, id, recipient) && Withdrawable(st, id, recipient)
    requires CliffIrrelevant(st, st.streams[id])
    ensures StateOf(BatchWithdrawOne(st, id, recipient, signers)) == Withdraw(st, id, recipient, signers)
            <==> !RenewalUnfunded(st, st.streams[id], Due(st.streams[id], st.now))
  {
    var s := st.streams[id];
    var gross := Due(s, st.now);
    SameGross(st, s);
    WithdrawSteps(st, id, recipient, signers);
    BatchEntrySteps(st, id, recipient, signers);
    assert Opened(st) == st;
    if PayClaim(st, s, gross).Ok? {
      ClaimWithinDeposit(s, st.now);
      DrawSettles(st, id, gross, signers, true);
      SettleAgrees(st, Drawn(s, st.now, gross), PayClaim(st, s, gross).value, signers);
    }
  }

  /** Before the cliff a batch pays what a withdrawal silently skips. */
  lemma CliffSplits(st: State, id: int, recipient: Address, signers: set<Address>)
    requires Funded(st) && !st.paused && EntryAdmitted(st, id, recipient) && Withdrawable(st, id, recipient)
    requires !CliffIrrelevant(st, st.streams[id])
    ensures StateOf(BatchWithdrawOne(st, id, recipient, signers)) != Withdraw(st, id, recipient, signers)
  {
    var s := st.streams[id];
    WithdrawSteps(st, id, recipient, signers);
    BatchEntrySteps(st, id, recipient, signers);
    assert Opened(st) == st;
    FlowStrict(s.flowRate, 0, Min(st.now, s.endTime) - s.lastWithdrawTime);
    assert Withdraw(st, id, recipient, signers).value.streams[id].totalWithdrawn == s.totalWithdrawn;
    var b := BatchWithdrawOne(st, id, recipient, signers);
    if b.Ok? {
      assert b.value.st.streams[id].totalWithdrawn > s.totalWithdrawn;
    }
  }

  /** The left-to-right fold of `withdraw` from entry `i`, with the amounts it pays. */
  function WithdrawEach(st: State, ids: seq<int>, i: nat, amounts: seq<int>, recipient: Address,
                        signers: set<Address>): Result<Post<seq<int>>>
    requires i <= |ids|
    decreases |ids| - i
  {
    if i == |ids| then Ok(Post(st, amounts))
    else
      var st' :- Withdraw(st, ids[i], recipient, signers);
      var paid := if ids[i] in st.streams then Due(st.streams[ids[i]], st.now) else 0;
      WithdrawEach(st', ids, i + 1, amounts + [paid], recipient, signers)
  }

  /** Every entry matches in the state in which its turn comes. */
  ghost predicate AllEntriesMatch(st: State, ids: seq<int>, i: nat, recipient: Address, signers: set<Address>)
    requires i <= |ids|
    decreases |ids| - i
  {
    i < |ids| ==>
      && EntryMatches(st, ids[i], recipient)
      && (BatchWithdrawOne(st, ids[i], recipient, signers).Ok? ==>
            AllEntriesMatch(BatchWithdrawOne(st, ids[i], recipient, signers).value.st, ids, i + 1, recipient, signers))
  }

  /** Streams, balances, amounts and errors of the batch are those of the fold when all entries match; and
      a batch that succeeds is the fold only then. */
  lemma {:induction false} BatchWithdrawRefinesFold(st: State, ids: seq<int>, i: nat, amounts: seq<int>,
                                                    recipient: Address,
                                                    signers: set<Address>)
    requires Funded(st) && !st.paused && recipient != Contract && i <= |ids|
    ensures AllEntriesMatch(st, ids, i, recipient, signers) ==>
              BatchWithdrawFrom(st, ids, i, amounts, recipient, signers)
                == WithdrawEach(st, ids, i, amounts, recipient, signers)
    ensures BatchWithdrawFrom(st, ids, i, amounts, recipient, signers).Ok?
            && BatchWithdrawFrom(st, ids, i, amounts, recipient, signers)
               == WithdrawEach(st, ids, i, amounts, recipient, signers)
            ==> AllEntriesMatch(st, ids, i, recipient, signers)
    decreases |ids| - i
  {
    hide EntryMatches, BatchWithdrawOne, Withdraw, Funded, Flow;
    if i < |ids| {
      BatchEntryMatchesExactly(st, ids[i], recipient, signers);
      BatchWithdrawOneSafe(st, ids[i], recipient, signers);
      var p := BatchWithdrawOne(st, ids[i], recipient, signers);
      if p.Ok? && EntryMatches(st, ids[i], recipient) {
        assert Withdraw(st, ids[i], recipient, signers) == Ok(p.value.st);
        EntryStored(st, ids[i], recipient, signers);
        BatchWithdrawRefinesFold(p.value.st, ids, i + 1, amounts + [p.value.out], recipient, signers);
      } else if p.Ok? && Withdraw(st, ids[i], recipient, signers).Ok?
                && BatchWithdrawFrom(st, ids, i, amounts, recipient, signers).Ok? {
        MismatchShows(st, ids, i, amounts, recipient, signers);
      } else if p.Err? && EntryMatches(st, ids[i], recipient) {
        assert Withdraw(st, ids[i], recipient, signers) == Err(p.error);
      }
    }
  }

  /** The entry point: every balance, record, amount and error is that of withdrawing from one stream after the
      other when all entries match, and a batch that succeeds is that only then. */
  lemma BatchWithdrawIsFold(st: State, ids: seq<int>, recipient: Address, signers: set<Address>)
    requires Funded(st) && !(st.paused && st.now < st.pauseExpiry) && recipient != Contract
    ensures AllEntriesMatch(Opened(st), ids, 0, recipient, signers) ==>
              BatchWithdraw(st, ids, recipient, signers) == WithdrawEach(Opened(st), ids, 0, [], recipient, signers)
    ensures BatchWithdraw(st, ids, recipient, signers).Ok?
            && BatchWithdraw(st, ids, recipient, signers) == WithdrawEach(Opened(st), ids, 0, [], recipient, signers)
            ==> AllEntriesMatch(Opened(st), ids, 0, recipient, signers)
  {
    GateInv(st);
    BatchWithdrawRefinesFold(Opened(st), ids, 0, [], recipient, signers);
  }

  lemma EntryStored(st: State, id: int, recipient: Address, signers: set<Address>)
    requires Funded(st) && BatchWithdrawOne(st, id, recipient, signers).Ok?
    ensures id in st.streams
            && BatchWithdrawOne(st, id, recipient, signers).value.out == Accrued(st.streams[id], st.now)
    ensures !BatchWithdrawOne(st, id, recipient, signers).value.st.paused || st.paused
  {
    hide Settle, PayClaim, Flow;
    BatchEntrySteps(st, id, recipient, signers);
    BatchWithdrawOneSafe(st, id, recipient, signers);
  }

  /** An entry that does not match, when both it and the withdrawal succeed, reports another amount, and
      the report stays as it is. */
  lemma MismatchShows(st: State, ids: seq<int>, i: nat, amounts: seq<int>, recipient: Address, signers: set<Address>)
    requires Funded(st) && !st.paused && recipient != Contract && i < |ids| && !EntryMatches(st, ids[i], recipient)
    requires BatchWithdrawOne(st, ids[i], recipient, signers).Ok? && Withdraw(st, ids[i], recipient, signers).Ok?
    requires BatchWithdrawFrom(st, ids, i, amounts, recipient, signers).Ok?
    ensures BatchWithdrawFrom(st, ids, i, amounts, recipient, signers) != WithdrawEach(st, ids, i, amounts, recipient,
            signers)
  {
    hide BatchWithdrawOne, Withdraw, Funded, Flow, CliffIrrelevant;
    var p := BatchWithdrawOne(st, ids[i], recipient, signers).value;
    var s := st.streams[ids[i]];
    MismatchIsCliff(st, ids[i], recipient, signers);
    BatchKeepsReports(p.st, ids, i + 1, amounts + [p.out], recipient, signers);
    FoldKeepsReports(Withdraw(st, ids[i], recipient, signers).value, ids, i + 1, amounts + [Due(s, st.now)], recipient,
                     signers);
    assert (amounts + [p.out])[|amounts|] != (amounts + [Due(s, st.now)])[|amounts|];
  }

  lemma MismatchIsCliff(st: State, id: int, recipient: Address, signers: set<Address>)
    requires Funded(st) && !st.paused && recipient != Contract && !EntryMatches(st, id, recipient)
    requires BatchWithdrawOne(st, id, recipient, signers).Ok? && Withdraw(st, id, recipient, signers).Ok?
    ensures id in st.streams && BatchWithdrawOne(st, id, recipient, signers).value.out != Due(st.streams[id], st.now)
  {
    hide PayClaim, Flow, CliffIrrelevant;
    BatchEntrySteps(st, id, recipient, signers);
    WithdrawSteps(st, id, recipient, signers);
    var s := st.streams[id];
    SameGross(st, s);
    if CliffIrrelevant(st, s) {
      EntrySettles(st, id, recipient, signers);
      UnfundedFails(st, id, recipient, signers);
      assert false;
    }
  }

  /** A strict settlement of an unfunded renewal fails. */
  lemma UnfundedFails(st: State, id: int, recipient: Address, signers: set<Address>)
    requires Funded(st) && EntryAdmitted(st, id, recipient)
             && RenewalUnfunded(st, st.streams[id], Accrued(st.streams[id], st.now))
    ensures BatchWithdrawOne(st, id, recipient, signers).Err?
  {
    hide PayClaim, Flow;
    BatchEntrySteps(st, id, recipient, signers);
  }

  lemma {:induction false} BatchKeepsReports(st: State, ids: seq<int>, i: nat, amounts: seq<int>, recipient: Address,
                                             signers: set<Address>)
    requires i <= |ids| && BatchWithdrawFrom(st, ids, i, amounts, recipient, signers).Ok?
    ensures amounts <= BatchWithdrawFrom(st, ids, i, amounts, recipient, signers).value.out
    ensures |BatchWithdrawFrom(st, ids, i, amounts, recipient, signers).value.out| == |amounts| + |ids| - i
    decreases |ids| - i
  {
    hide BatchWithdrawOne;
    if i < |ids| {
      var p := BatchWithdrawOne(st, ids[i], recipient, signers).value;
      BatchKeepsReports(p.st, ids, i + 1, amounts + [p.out], recipient, signers);
    }
  }

  lemma {:induction false} FoldKeepsReports(st: State, ids: seq<int>, i: nat, amounts: seq<int>, recipient: Address,
                                            signers: set<Address>)
    requires i <= |ids|
    ensures WithdrawEach(st, ids, i, amounts, recipient, signers).Ok? ==>
              amounts <= WithdrawEach(st, ids, i, amounts, recipient, signers).value.out
    decreases |ids| - i
  {
    hide Withdraw, Due;
    if i < |ids| && Withdraw(st, ids[i], recipient, signers).Ok? {
      var paid := if ids[i] in st.streams then Due(st.streams[ids[i]], st.now) else 0;
      FoldKeepsReports(Withdraw(st, ids[i], recipient, signers).value, ids, i + 1, amounts + [paid], recipient,
                       signers);
    }
  }

  // ---- batch_cancel_stream ----

  /** The state a sender's `cancel_stream` leaves, unchanged when it fails. */
  function Cancelled(st: State, id: int, sender: Address): State {
    match CancelStream(st, id, sender)
    case Ok(st') => st'
    case Err(_) => st
  }

  /** Both clocks earn the same, or recipient and sender are one; and a stream of another sender is not
      the caller's to cancel either way. */
  predicate CancelMatches(st: State, id: int, sender: Address) {
    id in st.streams && st.streams[id].Live() ==>
      var s := st.streams[id];
      if s.sender == sender then s.recipient == sender || Min(st.now, s.endTime) == Min(s.Clock(st.now), s.endTime)
      else !Manages(st, id, s, sender)
  }

  lemma PausedSecondsPaid(s: Stream, now: int)
    requires s.Sound(now) && s.Live()
    ensures var a, b := Min(s.Clock(now), s.endTime), Min(now, s.endTime);
            && Accrued(s, now) - Accrued(s, s.Clock(now)) == Flow(s.flowRate, b - a) >= 0
            && (Accrued(s, now) == Accrued(s, s.Clock(now)) <==> a == b)
  {
    var a, b := Min(s.Clock(now), s.endTime), Min(now, s.endTime);
    FlowSplit(s.flowRate, a - s.lastWithdrawTime, b - a);
    FlowSign(s.flowRate, b - a);
    if a < b { FlowStrict(s.flowRate, 0, b - a); }
  }

  /** The entry of the caller's own batch is `cancel_stream`, state and all, for every active stream. For a
      paused one it earns the paused seconds before the end on top, and the results are equal exactly when
      there are none or when the recipient is the sender. */
  lemma BatchCancelMatchesExactly(st: State, id: int, sender: Address)
    requires Funded(st) && sender != Contract && id in st.streams && st.streams[id].Live()
             && st.streams[id].sender == sender
    ensures var s := st.streams[id]; var t := s.Clock(st.now);
            && s.Earned(st.now) == Some(Accrued(s, st.now)) && s.Earned(t) == Some(Accrued(s, t))
            && Accrued(s, st.now) - Accrued(s, t) == Flow(s.flowRate, Min(st.now, s.endTime) - Min(t, s.endTime)) >= 0
            && (s.status.Active? ==> CancelMatches(st, id, sender))
    ensures BatchCancelOne(st, id, sender) == CancelStream(st, id, sender) <==> CancelMatches(st, id, sender)
  {
    hide Flow, Close;
    var s := st.streams[id];
    EarnedAtLedgerClock(s, st.now);
    ClaimWithinDeposit(s, st.now);
    PausedSecondsPaid(s, st.now);
    if Accrued(s, st.now) != Accrued(s, s.Clock(st.now)) {
      CloseDiffers(st, id, Accrued(s, s.Clock(st.now)), Accrued(s, st.now));
    }
  }

  /** Two different splits of what is left close a stream alike exactly when both parts go to one party. */
  lemma CloseDiffers(st: State, id: int, x: int, y: int)
    requires Funded(st) && id in st.streams && st.streams[id].Live() && 0 <= x < y
    requires st.streams[id].totalWithdrawn + y <= st.streams[id].deposit
    ensures var s := st.streams[id];
            Close(st, id, s, x) == Close(st, id, s, y) <==> s.recipient == s.sender
  {
    hide Flow, Close, Owed;
    var s := st.streams[id];
    SoundTimes(s, st.now);
    CloseConserves(st, id, s, x);
    CloseConserves(st, id, s, y);
    if s.recipient == s.sender {
      CloseTogether(st, id, x);
      CloseTogether(st, id, y);
    } else {
      assert BalanceOf(Close(st, id, s, x).value.bank, s.token, s.sender)
             == BalanceOf(st.bank, s.token, s.sender) + RefundOf(s, x);
      assert BalanceOf(Close(st, id, s, y).value.bank, s.token, s.sender)
             == BalanceOf(st.bank, s.token, s.sender) + RefundOf(s, y);
    }
  }

  lemma CloseTogether(st: State, id: int, x: int)
    requires Funded(st) && id in st.streams && st.streams[id].Live() && 0 <= x
    requires var s := st.streams[id];
             s.totalWithdrawn + x <= s.deposit && s.recipient == s.sender && s.sender != Contract
    ensures var s := st.streams[id]; var left := s.deposit - s.totalWithdrawn;
            Close(st, id, s, x)
            == Ok(Erase(st.(bank := if left == 0 then st.bank
                                    else Credit(Credit(st.bank, s.token, Contract, -left), s.token, s.sender, left)),
                                      id, s))
  {
    hide Flow, Owed, Erase;
    var s := st.streams[id];
    PoolCovers(st, id);
    ClaimNonNegative(s, st.now);
    var left := s.deposit - s.totalWithdrawn;
    PaidTogether(st.bank, s.token, s.sender, x, left - x);
  }

  /** Two payments to one holder are one. */
  lemma PaidTogether(bank: Bank, token: Address, to: Address, x: int, y: int)
    requires to != Contract && 0 <= x && 0 <= y && x + y <= BalanceOf(bank, token, Contract)
    ensures PayOut(bank, token, to, x).Ok?
    ensures PayOut(PayOut(bank, token, to, x).value, token, to, y)
            == Ok(if x + y == 0 then bank else Credit(Credit(bank, token, Contract, -(x + y)), token, to, x + y))
  {
    if 0 < x && 0 < y {
      var two := PayOut(PayOut(bank, token, to, x).value, token, to, y).value;
      var one := Credit(Credit(bank, token, Contract, -(x + y)), token, to, x + y);
      assert two.Keys == one.Keys;
      assert forall k :: k in one ==> two[k] == one[k];
      assert two == one;
    }
  }

  /** The two report the same and leave the same state. */
  ghost predicate EntryAgrees(st: State, id: int, sender: Address) {
    match BatchCancelOne(st, id, sender)
    case Ok(st') => CancelStream(st, id, sender) == Ok(st')
    case Err(e) => !e.IsTrap() && CancelStream(st, id, sender).Err?
  }

  lemma BatchCancelEntry(st: State, id: int, sender: Address)
    requires Funded(st) && sender != Contract
    ensures EntryAgrees(st, id, sender) <==> CancelMatches(st, id, sender)
  {
    hide BatchCancelOne, CancelStream, Paid, Flow;
    BatchCancelOneSafe(st, id, sender);
    BatchCancelExactly(st, id, sender);
    CancelExactly(st, id, sender);
    if id in st.streams && st.streams[id].Live() && st.streams[id].sender == sender {
      BatchCancelMatchesExactly(st, id, sender);
    }
  }

  /** The left-to-right fold of `cancel_stream`, failing entries leaving the state unchanged. */
  function CancelEach(st: State, ids: seq<int>, i: nat, sender: Address): (State, seq<bool>)
    requires i <= |ids|
    decreases |ids| - i
  {
    if i == |ids| then (st, [])
    else
      var (last, oks) := CancelEach(Cancelled(st, ids[i], sender), ids, i + 1, sender);
      (last, [CancelStream(st, ids[i], sender).Ok?] + oks)
  }

  ghost predicate AllCancelsMatch(st: State, ids: seq<int>, i: nat, sender: Address)
    requires i <= |ids|
    decreases |ids| - i
  {
    i < |ids| ==>
      CancelMatches(st, ids[i], sender) && AllCancelsMatch(Cancelled(st, ids[i], sender), ids, i + 1, sender)
  }

  function Verdicts(results: seq<Result<()>>): seq<bool> {
    seq(|results|, i requires 0 <= i < |results| => results[i].Ok?)
  }

  /** The batch never fails once started, leaves the state of the fold, and reports entry by entry
      which cancellations went through. */
  lemma {:induction false} BatchCancelRefinesFold(st: State, ids: seq<int>, i: nat, results: seq<Result<()>>,
                                                  sender: Address)
    requires Funded(st) && sender != Contract && i <= |ids| && AllCancelsMatch(st, ids, i, sender)
    ensures var r := BatchCancelFrom(st, ids, i, results, sender);
            && r.Ok?
            && r.value.st == CancelEach(st, ids, i, sender).0
            && Verdicts(r.value.out) == Verdicts(results) + CancelEach(st, ids, i, sender).1
    decreases |ids| - i
  {
    hide BatchCancelOne, CancelStream, CancelMatches;
    if i < |ids| {
      BatchCancelEntry(st, ids[i], sender);
      BatchCancelOneSafe(st, ids[i], sender);
      match BatchCancelOne(st, ids[i], sender)
      case Ok(st') =>
        BatchCancelRefinesFold(st', ids, i + 1, results + [Ok(())], sender);
        assert Verdicts(results + [Ok(())]) == Verdicts(results) + [true];
      case Err(e) =>
        BatchCancelRefinesFold(st, ids, i + 1, results + [Err(e)], sender);
        assert Verdicts(results + [Err(e)]) == Verdicts(results) + [false];
    }
  }

  /** A live stream of the sender. */
  predicate Closable(st: State, id: int, sender: Address) {
    id in st.streams && st.streams[id].sender == sender && st.streams[id].Live()
  }

  ghost function ClosedIds(st: State, ids: seq<int>, sender: Address): set<int> {
    set id | id in ids && Closable(st, id, sender)
  }

  /** What entry `j` reports, read off the state before the batch: an id closed by an earlier entry is gone. */
  function Verdict(st: State, ids: seq<int>, j: nat, sender: Address): Result<()>
    requires j < |ids|
  {
    if ids[j] !in st.streams || (Closable(st, ids[j], sender) && ids[j] in ids[..j]) then Err(StreamNotFound)
    else if st.streams[ids[j]].sender != sender then Err(NotSender)
    else if !st.streams[ids[j]].Live() then Err(StreamNotActive)
    else Ok(())
  }

  /** By how much closing moves a balance: the stream pays what has accrued by the ledger clock to its recipient
      and the rest of the deposit to the sender. */
  function ClosingMoves(s: Stream, now: int, t: Address, h: Address): int {
    var gross := Accrued(s, now);
    Moved(s.token, Contract, s.recipient, gross, t, h)
    + Moved(s.token, Contract, s.sender, s.deposit - s.totalWithdrawn - gross, t, h)
  }

  /** By how much the first `i` entries move a balance. */
  function EntriesMove(st: State, ids: seq<int>, i: nat, sender: Address, t: Address, h: Address): int
    requires i <= |ids|
  {
    if i == 0 then 0
    else
      EntriesMove(st, ids, i - 1, sender, t, h)
      + if Verdict(st, ids, i - 1, sender).Ok? then ClosingMoves(st.streams[ids[i - 1]], st.now, t, h) else 0
  }

  /** `cur` is `st` after the first `i` entries: the streams they close are gone, and every balance has moved. */
  ghost predicate ClosedUpTo(st: State, cur: State, ids: seq<int>, i: nat, sender: Address)
    requires i <= |ids|
  {
    && cur.now == st.now
    && (forall id :: id in cur.streams <==> id in st.streams && !(Closable(st, id, sender) && id in ids[..i]))
    && (forall id :: id in cur.streams ==> cur.streams[id] == st.streams[id])
    && forall t, h :: BalanceOf(cur.bank, t, h) == BalanceOf(st.bank, t, h) + EntriesMove(st, ids, i, sender, t, h)
  }

  lemma EntryCloses(st: State, cur: State, ids: seq<int>, i: nat, sender: Address)
    requires Funded(cur) && i < |ids| && ClosedUpTo(st, cur, ids, i, sender)
    ensures var r := BatchCancelOne(cur, ids[i], sender); var v := Verdict(st, ids, i, sender);
            && (r.Ok? <==> v == Ok(())) && (r.Err? ==> v == Err(r.error) && !r.error.IsTrap())
            && ClosedUpTo(st, if r.Ok? then r.value else cur, ids, i + 1, sender)
  {
    hide Flow, Close, Moved, BalanceOf, Owed, Stream.Sound, Paid, EntriesMove;
    var id := ids[i];
    assert ids[..i + 1] == ids[..i] + [id];
    BatchCancelExactly(cur, id, sender);
    BatchCancelOneSafe(cur, id, sender);
    forall t, h
      ensures EntriesMove(st, ids, i + 1, sender, t, h) == EntriesMove(st, ids, i, sender, t, h)
              + (if Verdict(st, ids, i, sender).Ok? then ClosingMoves(st.streams[id], st.now, t, h) else 0)
    {
      EntriesMoveOnce(st, ids, i, sender, t, h);
    }
    if BatchCancelOne(cur, id, sender).Ok? {
      ClosingPaid(cur, BatchCancelOne(cur, id, sender).value, id);
    }
  }

  lemma EntriesMoveOnce(st: State, ids: seq<int>, i: nat, sender: Address, t: Address, h: Address)
    requires i < |ids|
    ensures EntriesMove(st, ids, i + 1, sender, t, h) == EntriesMove(st, ids, i, sender, t, h)
            + if Verdict(st, ids, i, sender).Ok? then ClosingMoves(st.streams[ids[i]], st.now, t, h) else 0
  {
  }

  lemma ClosingPaid(st: State, st': State, id: int)
    requires id in st.streams
    requires var s := st.streams[id]; var gross := Accrued(s, st.now);
             Paid(st.bank, st'.bank, s.token, s.recipient, gross, s.sender, s.deposit - s.totalWithdrawn - gross)
    ensures forall t, h ::
              BalanceOf(st'.bank, t, h) == BalanceOf(st.bank, t, h) + ClosingMoves(st.streams[id], st.now, t, h)
  {
    hide Flow, Moved, BalanceOf;
  }

  lemma {:induction false} VerdictsFrom(st: State, cur: State, ids: seq<int>, i: nat, results: seq<Result<()>>,
                                        sender: Address)
    requires Funded(cur) && i <= |ids| && ClosedUpTo(st, cur, ids, i, sender)
    requires |results| == i && forall j :: 0 <= j < i ==> results[j] == Verdict(st, ids, j, sender)
    ensures var r := BatchCancelFrom(cur, ids, i, results, sender);
            && r.Ok? && ClosedUpTo(st, r.value.st, ids, |ids|, sender) && |r.value.out| == |ids|
            && forall j :: 0 <= j < |ids| ==> r.value.out[j] == Verdict(st, ids, j, sender)
    decreases |ids| - i
  {
    hide BatchCancelOne, ClosedUpTo, Verdict, Funded;
    if i < |ids| {
      EntryCloses(st, cur, ids, i, sender);
      BatchCancelOneSafe(cur, ids[i], sender);
      match BatchCancelOne(cur, ids[i], sender)
      case Ok(st') => VerdictsFrom(st, st', ids, i + 1, results + [Ok(())], sender);
      case Err(e) => VerdictsFrom(st, cur, ids, i + 1, results + [Err(e)], sender);
    }
  }

  /** The whole call: it succeeds for one to twenty entries, whatever they name; reports, removals and every
      balance are read off the state before it. */
  lemma BatchCancelSettles(st: State, ids: seq<int>, sender: Address)
    requires Funded(st)
    ensures BatchCancel(st, ids, sender).Ok? <==> sender != Contract && 1 <= |ids| <= 20
    ensures BatchCancel(st, ids, sender).Ok? ==>
              var p := BatchCancel(st, ids, sender).value;
              && |p.out| == |ids| && (forall j :: 0 <= j < |ids| ==> p.out[j] == Verdict(st, ids, j, sender))
              && p.st.streams == st.streams - ClosedIds(st, ids, sender)
              && forall t, h ::
                   BalanceOf(p.st.bank, t, h) == BalanceOf(st.bank, t, h) + EntriesMove(st, ids, |ids|, sender, t, h)
  {
    hide Verdict, EntriesMove, Funded;
    if sender != Contract && 1 <= |ids| <= 20 {
      NothingClosedYet(st, ids, sender);
      VerdictsFrom(st, st, ids, 0, [], sender);
      AllClosed(st, BatchCancel(st, ids, sender).value.st, ids, sender);
    }
  }

  lemma AllClosed(st: State, last: State, ids: seq<int>, sender: Address)
    requires ClosedUpTo(st, last, ids, |ids|, sender)
    ensures last.streams == st.streams - ClosedIds(st, ids, sender)
  {
    hide Closable, EntriesMove, BalanceOf;
    assert ids[..|ids|] == ids;
    var left := st.streams - ClosedIds(st, ids, sender);
    forall id ensures id in last.streams <==> id in left {
      assert id in ClosedIds(st, ids, sender) <==> id in ids && Closable(st, id, sender);
    }
    assert last.streams.Keys == left.Keys;
    assert forall id :: id in last.streams ==> last.streams[id] == left[id];
  }

  lemma NothingClosedYet(st: State, ids: seq<int>, sender: Address)
    ensures ClosedUpTo(st, st, ids, 0, sender)
  {
  }

  // ---- batch_create_stream ----

  /** What entries `i` and later bring in of `token`. */
  function Incoming(order: BatchOrder, i: nat, token: Address): int
    requires order.Aligned() && i <= |order.amounts|
    decreases |order.amounts| - i
  {
    if i == |order.amounts| then 0
    else (if order.tokens[i] == token then order.amounts[i] else 0) + Incoming(order, i + 1, token)
  }

  /** `s` is the stream that entry `j` orders at `now`. */
  predicate IsOrdered(s: Stream, order: BatchOrder, j: nat, id: int, now: int)
    requires order.Aligned() && order.duration != 0 && j < |order.amounts|
  {
    && s.id == id && s.sender == order.sender && s.recipient == order.recipients[j] && s.token == order.tokens[j]
    && s.deposit == order.amounts[j] && s.flowRate == order.amounts[j] / order.duration
    && s.startTime == now && s.lastWithdrawTime == now && s.cliffTime == now && s.endTime == now + order.duration
    && s.lockUntil == order.lockUntils[j] && s.autoRenew == order.autoRenew && !s.allowRecipientTermination
    && s.status.Active? && s.lastPauseTime == 0 && s.totalWithdrawn == 0
  }

  /** Entries `i` and later of the order are stored under their ids, and nothing else changed. */
  ghost predicate Stores(st: State, st': State, order: BatchOrder, i: nat, ids: seq<int>)
    requires order.Aligned() && order.duration != 0 && i <= |order.amounts| == |ids|
  {
    && (forall j :: i <= j < |ids| ==>
        ids[j] in st'.streams && IsOrdered(st'.streams[ids[j]], order, j, ids[j], st.now))
    && (forall x :: x in st.streams ==> x in st'.streams && st'.streams[x] == st.streams[x])
    && (forall x :: x in st'.streams ==> x in st.streams || x in ids[i..])
  }

  lemma {:induction false} BatchCreateStores(st: State, order: BatchOrder, i: nat, ids: seq<int>)
    requires order.Aligned() && order.duration != 0 && i <= |order.amounts| == |ids|
    requires NoDuplicates(ids) && forall j :: i <= j < |ids| ==> ids[j] !in st.streams
    requires BatchCreateFrom(st, order, i, ids).Ok?
    ensures Stores(st, BatchCreateFrom(st, order, i, ids).value, order, i, ids)
    decreases |ids| - i
  {
    hide Transfer;
    if i < |ids| {
      var mid := BatchCreateOne(st, order, i, ids[i]).value;
      var st' := BatchCreateFrom(mid, order, i + 1, ids).value;
      BatchCreateStores(mid, order, i + 1, ids);
      StoresOne(st, mid, st', order, i, ids);
    }
  }

  lemma StoresOne(st: State, mid: State, st': State, order: BatchOrder, i: nat, ids: seq<int>)
    requires order.Aligned() && order.duration != 0 && i < |order.amounts| == |ids|
    requires ids[i] !in st.streams && BatchCreateOne(st, order, i, ids[i]) == Ok(mid)
    requires Stores(mid, st', order, i + 1, ids)
    ensures Stores(st, st', order, i, ids)
  {
    hide Transfer;
    assert mid.streams.Keys == st.streams.Keys + {ids[i]} && IsOrdered(mid.streams[ids[i]], order, i, ids[i], st.now);
  }

  lemma BatchOneLists(st: State, order: BatchOrder, i: nat, id: int)
    requires order.Aligned() && order.duration != 0 && i < |order.amounts| && BatchCreateOne(st, order, i, id).Ok?
    ensures var st' := BatchCreateOne(st, order, i, id).value;
            && st'.created == st.created + [id] && OnlyEnrolls(st, st')
  {
  }

  /** Records, lists and balances apart, nothing changed. */
  predicate OnlyEnrolls(st: State, st': State) {
    st' == st.(bank := st'.bank, streams := st'.streams, bySender := st'.bySender, byRecipient := st'.byRecipient,
               created := st'.created)
  }

  /** The other keys a batch creation writes: the global index, in order; no nonce. */
  lemma {:induction false} BatchCreateLists(st: State, order: BatchOrder, i: nat, ids: seq<int>)
    requires order.Aligned() && order.duration != 0 && i <= |order.amounts| == |ids|
    requires BatchCreateFrom(st, order, i, ids).Ok?
    ensures var st' := BatchCreateFrom(st, order, i, ids).value;
            st'.created == st.created + ids[i..] && OnlyEnrolls(st, st')
    decreases |ids| - i
  {
    hide BatchCreateOne;
    if i < |ids| {
      var mid := BatchCreateOne(st, order, i, ids[i]).value;
      BatchCreateLists(mid, order, i + 1, ids);
      BatchOneLists(st, order, i, ids[i]);
      assert ids[i..] == [ids[i]] + ids[i + 1..];
    }
  }

  /** Every balance in every token after the second pass: the sender paid what its entries name, into the pool. */
  lemma {:induction false} BatchCreateGains(st: State, order: BatchOrder, i: nat, ids: seq<int>, token: Address,
                                            holder: Address)
    requires order.Aligned() && order.duration != 0 && i <= |order.amounts| == |ids|
    requires BatchCreateFrom(st, order, i, ids).Ok?
    ensures BalanceOf(BatchCreateFrom(st, order, i, ids).value.bank, token, holder)
            == BalanceOf(st.bank, token, holder)
               + Moved(token, order.sender, Contract, Incoming(order, i, token), token, holder)
    decreases |ids| - i
  {
    hide Transfer, BalanceOf;
    if i < |ids| {
      TransferMoves(st.bank, order.tokens[i], order.sender, Contract, order.amounts[i], token, holder);
      BatchCreateGains(BatchCreateOne(st, order, i, ids[i]).value, order, i + 1, ids, token, holder);
    }
  }

  lemma {:induction false} BatchIdsDerived(derive: Derive, st: State, order: BatchOrder, i: nat, ids: seq<int>)
    requires order.Aligned() && order.duration != 0 && |ids| == i <= |order.amounts|
    requires forall j :: 0 <= j < i ==> ids[j] == derive(order.sender, order.recipients[j], st.now, j)
    requires BatchIdsFrom(derive, st, order, i, ids).Ok?
    ensures forall j :: 0 <= j < |order.amounts| ==>
              BatchIdsFrom(derive, st, order, i, ids).value[j] == derive(order.sender, order.recipients[j], st.now, j)
    decreases |order.amounts| - i
  {
    if i < |order.amounts| {
      BatchIdsDerived(derive, st, order, i + 1, ids + [derive(order.sender, order.recipients[i], st.now, i)]);
    }
  }

  /** On success: distinct ids, derived from the parties, the time and the place in the batch, none stored
      before; under each of them the sound stream its entry orders, with its dust; no other record touched; in
      every token the sender pays the sum of its entries into the pool, and no other balance moves; the nonce
      is one higher. */
  lemma BatchCreateExactly(derive: Derive, st: State, order: BatchOrder, nonce: u64, token: Address, holder: Address)
    requires Funded(st) && BatchCreate(derive, st, order, nonce).Ok?
    ensures var p := BatchCreate(derive, st, order, nonce).value; var ids := p.out;
            && order.Aligned() && order.duration != 0 && |ids| == |order.amounts|
            && NoDuplicates(ids) && (forall id :: id in ids ==> id !in st.streams)
            && (forall j :: 0 <= j < |ids| ==> ids[j] == derive(order.sender, order.recipients[j], st.now, j))
            && Stores(st, p.st, order, 0, ids) && p.st.created == st.created + ids
            && (forall j :: 0 <= j < |ids| ==>
                  p.st.streams[ids[j]].Sound(st.now)
                    && p.st.streams[ids[j]].Dust() == order.amounts[j] % order.duration)
            && BalanceOf(p.st.bank, token, holder) == BalanceOf(st.bank, token, holder)
               + (if holder == Contract then Incoming(order, 0, token) else 0)
               - (if holder == order.sender then Incoming(order, 0, token) else 0)
            && nonce == (if order.sender in st.batchNonces then st.batchNonces[order.sender] else 0)
            && OnlyEnrolls(Opened(st).(batchNonces := st.batchNonces[order.sender := nonce + 1]), p.st)
  {
    hide Flow, Owed, BatchCreate, Stores, Stream.Sound, Stream.Dust;
    BatchCreatePasses(derive, st, order, nonce);
    var p := BatchCreate(derive, st, order, nonce).value;
    var start := BatchStart(st, order, nonce);
    BatchRecords(derive, st, order, nonce);
    BatchCreateLists(start, order, 0, p.out);
    assert p.out[0..] == p.out;
    BatchCreateGains(start, order, 0, p.out, token, holder);
  }

  lemma BatchRecords(derive: Derive, st: State, order: BatchOrder, nonce: u64)
    requires Funded(st) && BatchCreate(derive, st, order, nonce).Ok?
    ensures var p := BatchCreate(derive, st, order, nonce).value; var ids := p.out;
            && order.Aligned() && order.duration != 0 && |ids| == |order.amounts|
            && (forall j :: 0 <= j < |ids| ==> ids[j] == derive(order.sender, order.recipients[j], st.now, j))
            && Stores(st, p.st, order, 0, ids)
            && (forall j :: 0 <= j < |ids| ==>
                  ids[j] in p.st.streams && p.st.streams[ids[j]].Sound(st.now)
                    && p.st.streams[ids[j]].Dust() == order.amounts[j] % order.duration)
  {
    hide BatchCreate, BatchCreateFrom, BatchIdsFrom, StreamsSound, Solvent, Stream.Sound, Stream.Dust, IsOrdered;
    BatchCreatePasses(derive, st, order, nonce);
    var p := BatchCreate(derive, st, order, nonce).value;
    var start := BatchStart(st, order, nonce);
    BatchIdsDerived(derive, start, order, 0, []);
    BatchCreateStores(start, order, 0, p.out);
    forall j | 0 <= j < |p.out|
      ensures p.st.streams[p.out[j]].Sound(st.now) && p.st.streams[p.out[j]].Dust() == order.amounts[j] % order.duration
    {
      OrderedSound(p.st.streams[p.out[j]], order, j, p.out[j], st.now);
    }
  }

  lemma OrderedSound(s: Stream, order: BatchOrder, j: nat, id: int, now: u64)
    requires order.Aligned() && order.duration != 0 && j < |order.amounts| && IsOrdered(s, order, j, id, now)
    requires 0 < order.amounts[j] && order.amounts[j] / order.duration != 0
    requires order.sender != Contract && now + order.duration <= U64_MAX
    ensures s.Sound(now) && s.Dust() == order.amounts[j] % order.duration
  {
    DivFloor(order.amounts[j], order.duration);
    CreatedSound(s, now, order.duration);
  }

  // ---- when a batch creation succeeds ----

  /** How many of the entries `i` and later name `a` as recipient. */
  function TimesNamed(order: BatchOrder, i: nat, a: Address): nat
    requires order.Aligned() && i <= |order.amounts|
    decreases |order.amounts| - i
  {
    if i == |order.amounts| then 0
    else (if order.recipients[i] == a then 1 else 0) + TimesNamed(order, i + 1, a)
  }

  /** The sender has what entries `i` and later take of each token. */
  predicate CanPayBatch(bank: Bank, order: BatchOrder, i: nat)
    requires order.Aligned() && i <= |order.amounts|
  {
    forall j :: i <= j < |order.amounts| ==>
      Incoming(order, i, order.tokens[j]) <= BalanceOf(bank, order.tokens[j], order.sender)
  }

  /** The three indexes can take the ids of entries `i` and later. */
  predicate HasRoomFor(st: State, order: BatchOrder, i: nat)
    requires order.Aligned() && i <= |order.amounts|
  {
    i < |order.amounts| ==>
      && |Listed(st.bySender, order.sender)| + |order.amounts| - i <= U32_MAX
      && |st.created| + |order.amounts| - i <= U32_MAX
      && forall j :: i <= j < |order.amounts| ==>
        |Listed(st.byRecipient, order.recipients[j])| + TimesNamed(order, i, order.recipients[j]) <= U32_MAX
  }

  lemma {:induction false} IncomingSign(order: BatchOrder, i: nat, token: Address)
    requires order.Aligned() && i <= |order.amounts| && forall j :: i <= j < |order.amounts| ==> 0 < order.amounts[j]
    ensures 0 <= Incoming(order, i, token)
    decreases |order.amounts| - i
  {
    if i < |order.amounts| { IncomingSign(order, i + 1, token); }
  }

  lemma {:induction false} NothingIncoming(order: BatchOrder, i: nat, token: Address)
    requires order.Aligned() && i <= |order.amounts|
    requires forall j :: i <= j < |order.amounts| ==> order.tokens[j] != token
    ensures Incoming(order, i, token) == 0
    decreases |order.amounts| - i
  {
    if i < |order.amounts| { NothingIncoming(order, i + 1, token); }
  }

  lemma {:induction false} NeverNamed(order: BatchOrder, i: nat, a: Address)
    requires order.Aligned() && i <= |order.amounts|
    requires forall j :: i <= j < |order.amounts| ==> order.recipients[j] != a
    ensures TimesNamed(order, i, a) == 0
    decreases |order.amounts| - i
  {
    if i < |order.amounts| { NeverNamed(order, i + 1, a); }
  }

  /** Paying the first of the remaining entries leaves enough for the rest exactly when there was enough. */
  lemma CanPayStep(bank: Bank, order: BatchOrder, i: nat)
    requires order.Aligned() && i < |order.amounts| && order.sender != Contract
    requires forall j :: i <= j < |order.amounts| ==> 0 < order.amounts[j]
    ensures var paid := Transfer(bank, order.tokens[i], order.sender, Contract, order.amounts[i]);
            CanPayBatch(bank, order, i) <==> paid.Ok? && CanPayBatch(paid.value, order, i + 1)
  {
    hide Transfer, BalanceOf;
    var n, first := |order.amounts|, order.tokens[i];
    var paid := Transfer(bank, first, order.sender, Contract, order.amounts[i]);
    TransferMoves(bank, first, order.sender, Contract, order.amounts[i], first, order.sender);
    IncomingSign(order, i + 1, first);
    if paid.Ok? {
      forall token
        ensures BalanceOf(paid.value, token, order.sender)
                == BalanceOf(bank, token, order.sender) - (if token == first then order.amounts[i] else 0)
      {
        TransferMoves(bank, first, order.sender, Contract, order.amounts[i], token, order.sender);
      }
      if j :| i < j < n && order.tokens[j] == first {
        assert order.tokens[j] == first;
      } else {
        NothingIncoming(order, i + 1, first);
      }
    }
  }

  lemma RoomStep(st: State, order: BatchOrder, i: nat, s: Stream)
    requires order.Aligned() && i < |order.amounts| && s.sender == order.sender && s.recipient == order.recipients[i]
    ensures HasRoomFor(st, order, i) <==> Enroll(st, s).Ok? && HasRoomFor(Enroll(st, s).value, order, i + 1)
  {
    var n, first := |order.amounts|, order.recipients[i];
    if Enroll(st, s).Ok? {
      var st' := Enroll(st, s).value;
      assert forall a :: |Listed(st'.byRecipient, a)| == |Listed(st.byRecipient, a)| + if a == first then 1 else 0;
      if j :| i < j < n && order.recipients[j] == first {
        assert |Listed(st'.byRecipient, order.recipients[j])| + TimesNamed(order, i + 1, order.recipients[j])
               == |Listed(st.byRecipient, first)| + TimesNamed(order, i, first);
      } else {
        NeverNamed(order, i + 1, first);
      }
    }
  }

  /** The second pass fails only for money or room. */
  lemma {:induction false} SecondPassHappens(st: State, order: BatchOrder, i: nat, ids: seq<int>)
    requires order.Aligned() && order.duration != 0 && i <= |order.amounts| == |ids| && order.sender != Contract
    requires forall j :: i <= j < |order.amounts| ==> 0 < order.amounts[j]
    ensures BatchCreateFrom(st, order, i, ids).Ok? <==> CanPayBatch(st.bank, order, i) && HasRoomFor(st, order, i)
    decreases |ids| - i
  {
    hide Transfer, CanPayBatch, HasRoomFor;
    if i == |ids| {
      NothingLeft(st, order);
    } else {
      CanPayStep(st.bank, order, i);
      var paid := Transfer(st.bank, order.tokens[i], order.sender, Contract, order.amounts[i]);
      if paid.Ok? {
        var s := BatchStream(st, order, i, ids[i]);
        RoomStep(st.(bank := paid.value), order, i, s);
        SameRoomFor(st, st.(bank := paid.value), order, i);
        if Enroll(st.(bank := paid.value), s).Ok? {
          SecondPassHappens(Enroll(st.(bank := paid.value), s).value, order, i + 1, ids);
        }
      }
    }
  }

  lemma NothingLeft(st: State, order: BatchOrder)
    requires order.Aligned()
    ensures CanPayBatch(st.bank, order, |order.amounts|) && HasRoomFor(st, order, |order.amounts|)
  {
  }

  lemma SameRoomFor(st: State, st': State, order: BatchOrder, i: nat)
    requires order.Aligned() && i <= |order.amounts|
    requires st'.bySender == st.bySender && st'.byRecipient == st.byRecipient && st'.created == st.created
    ensures HasRoomFor(st', order, i) == HasRoomFor(st, order, i)
  {
  }

  /** The id of entry `j` is neither stored nor that of an earlier entry. */
  predicate DrawsFresh(derive: Derive, st: State, order: BatchOrder, j: nat)
    requires order.Aligned() && j < |order.amounts|
  {
    var id := derive(order.sender, order.recipients[j], st.now, j);
    && id !in st.streams
    && forall k: nat :: k < j ==> derive(order.sender, order.recipients[k], st.now, k) != id
  }

  /** Entry `j` pays at least one unit a second, and its id is fresh. */
  predicate Acceptable(derive: Derive, st: State, order: BatchOrder, j: nat)
    requires order.Aligned() && j < |order.amounts|
  {
    order.duration <= order.amounts[j] && DrawsFresh(derive, st, order, j)
  }

  lemma FreshAtTurn(derive: Derive, st: State, order: BatchOrder, i: nat, ids: seq<int>)
    requires order.Aligned() && |ids| == i < |order.amounts|
    requires forall j :: 0 <= j < i ==> ids[j] == derive(order.sender, order.recipients[j], st.now, j)
    ensures var id := derive(order.sender, order.recipients[i], st.now, i);
            DrawsFresh(derive, st, order, i) <==> id !in st.streams && id !in ids
  {
    var id := derive(order.sender, order.recipients[i], st.now, i);
    if k: nat :| k < i && derive(order.sender, order.recipients[k], st.now, k) == id {
      assert ids[k] == id;
    }
  }

  lemma {:induction false} PrePassHappens(derive: Derive, st: State, order: BatchOrder, i: nat, ids: seq<int>)
    requires order.Aligned() && order.duration != 0 && |ids| == i <= |order.amounts|
    requires forall j :: 0 <= j < i ==> ids[j] == derive(order.sender, order.recipients[j], st.now, j)
    ensures BatchIdsFrom(derive, st, order, i, ids).Ok?
            <==> forall j :: i <= j < |order.amounts| ==> Acceptable(derive, st, order, j)
    decreases |order.amounts| - i
  {
    if i < |order.amounts| {
      var id := derive(order.sender, order.recipients[i], st.now, i);
      RateNotZero(order.amounts[i], order.duration);
      FreshAtTurn(derive, st, order, i, ids);
      assert Acceptable(derive, st, order, i) <==> && 0 < order.amounts[i] && order.amounts[i] / order.duration != 0
                                                   && id !in st.streams && id !in ids;
      PrePassHappens(derive, st, order, i + 1, ids + [id]);
    }
  }

  lemma RateNotZero(amount: int, duration: int)
    requires 0 < duration
    ensures 0 < amount && amount / duration != 0 <==> duration <= amount
  {
    DivFloor(amount, duration);
    var q := amount / duration;
    if q < 1 { MulMono(duration, q, 0); } else { MulMono(duration, 1, q); }
  }

  /** When a batch creation succeeds: the contract is not paused, the sender's batch nonce is the next one, the
      lists are equally long, the end fits, the sender's limit allows it, every entry is acceptable, the sender
      has the sum in each token, and the lists have room. */
  lemma BatchCreateHappensExactly(derive: Derive, st: State, order: BatchOrder, nonce: u64)
    requires Funded(st)
    ensures BatchCreate(derive, st, order, nonce).Ok?
            <==> && !(st.paused && st.now < st.pauseExpiry) && order.sender != Contract
                 && nonce == (if order.sender in st.batchNonces then st.batchNonces[order.sender] else 0) < U64_MAX
                 && order.Aligned() && 0 < order.duration && st.now + order.duration <= U64_MAX
                 && |Listed(st.bySender, order.sender)| + |order.amounts|
                    <= Min(U32_MAX, if order.sender in st.cfg.senderLimits then st.cfg.senderLimits[order.sender]
                                    else st.cfg.maxStreams)
                 && (forall j :: 0 <= j < |order.amounts| ==> Acceptable(derive, st, order, j))
                 && CanPayBatch(st.bank, order, 0) && HasRoomFor(st, order, 0)
  {
    hide BatchFill, Acceptable, CanPayBatch, HasRoomFor, StreamsSound, Solvent;
    GateInv(st);
    if order.Aligned() && 0 < order.duration && order.sender != Contract {
      FillHappens(derive, st, BatchStart(st, order, nonce), order);
    }
  }

  lemma FillHappens(derive: Derive, st: State, start: State, order: BatchOrder)
    requires order.Aligned() && order.duration != 0 && order.sender != Contract
    requires start == st.(paused := start.paused, pauseExpiry := start.pauseExpiry, batchNonces := start.batchNonces)
    ensures BatchFill(derive, start, order).Ok?
            <==> && (forall j :: 0 <= j < |order.amounts| ==> Acceptable(derive, st, order, j))
                 && CanPayBatch(st.bank, order, 0) && HasRoomFor(st, order, 0)
  {
    hide CanPayBatch, HasRoomFor;
    PrePassHappens(derive, start, order, 0, []);
    SameRoomFor(st, start, order, 0);
    forall j | 0 <= j < |order.amounts|
      ensures Acceptable(derive, st, order, j) <==> Acceptable(derive, start, order, j)
    {
    }
    var ids := BatchIdsFrom(derive, start, order, 0, []);
    if ids.Ok? {
      forall j | 0 <= j < |order.amounts| ensures 0 < order.amounts[j] {
        assert Acceptable(derive, start, order, j);
      }
      SecondPassHappens(start, order, 0, ids.value);
    }
  }
}
