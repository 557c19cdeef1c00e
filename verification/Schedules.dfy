/** It does not matter when, how often and through which entry point a recipient is paid: over any run
    the gross total depends on the last withdrawal only, the ending one included, and splitting a payment
    changes the total fee by less than one unit a split. */
module Schedules {
  import opened Prelude
  import opened VestingMath
  import opened Streams
  import opened TokenBank
  import opened Ledger
  import opened Invariants
  import opened Custody
  import opened Records
  import opened Runs
  import opened Payments
  import opened Lifetimes

  // ---- totals ----

  /** Two runs that skip nothing and leave the stream withdrawn up to the same moment of its own time
      have paid the same, however often, when and through whichever entry point they paid. */
  lemma ScheduleIndependence(derive: Derive, st: State, first: seq<Call>, second: seq<Call>, id: int)
    requires Funded(st) && id in st.streams && StaysStored(derive, st, first, id) && StaysStored(derive, st, second, id)
    requires Total(derive, st, first, id, SkippedBy) == 0 == Total(derive, st, second, id, SkippedBy)
    ensures id in Run(derive, st, first).streams && id in Run(derive, st, second).streams
    ensures Run(derive, st, first).streams[id].lastWithdrawTime - Total(derive, st, first, id, ResumedBy)
            == Run(derive, st, second).streams[id].lastWithdrawTime - Total(derive, st, second, id, ResumedBy)
            <==> Total(derive, st, first, id, ClaimedBy) == Total(derive, st, second, id, ClaimedBy)
  {
    hide Run, Total, StaysStored, Flow;
    LivesEveryRun(derive, st, first, id);
    LivesEveryRun(derive, st, second, id);
    var s := st.streams[id];
    var x := Run(derive, st, first).streams[id].lastWithdrawTime - s.lastWithdrawTime
      - Total(derive, st, first, id, ResumedBy);
    var y := Run(derive, st, second).streams[id].lastWithdrawTime - s.lastWithdrawTime
      - Total(derive, st, second, id, ResumedBy);
    if x < y { FlowStrict(s.flowRate, x, y); } else if y < x { FlowStrict(s.flowRate, y, x); }
  }

  /** In one cycle of a stream not withdrawn from before, what was paid and skipped is
      `compute_total_streamed` at the last withdrawal. */
  lemma PaidIsStreamed(derive: Derive, st: State, calls: seq<Call>, id: int)
    requires Funded(st) && id in st.streams && StaysStored(derive, st, calls, id)
    requires st.streams[id].lastWithdrawTime == st.streams[id].startTime
    requires id in Run(derive, st, calls).streams
    requires Run(derive, st, calls).streams[id].startTime == st.streams[id].startTime
             + Total(derive, st, calls, id, ResumedBy)
    ensures var s := Run(derive, st, calls).streams[id];
            ComputeTotalStreamed(s.flowRate, s.lastWithdrawTime, s.endTime, s.startTime)
            == Some(Total(derive, st, calls, id, ClaimedBy) + Total(derive, st, calls, id, SkippedBy))
  {
    hide Run, Total, StaysStored, Flow, Apply;
    LivesEveryRun(derive, st, calls, id);
    CustodyEveryRun(derive, st, calls, DoIsPaused);
    StreamedSoFar(Run(derive, st, calls).streams[id], Run(derive, st, calls).now);
  }

  lemma StreamedSoFar(s: Stream, now: int)
    requires s.Sound(now)
    ensures ComputeTotalStreamed(s.flowRate, s.lastWithdrawTime, s.endTime, s.startTime)
            == Some(Flow(s.flowRate, s.lastWithdrawTime - s.startTime))
  {
    hide Flow;
    FlowSign(s.flowRate, s.lastWithdrawTime - s.startTime);
    FlowMono(s.flowRate, s.lastWithdrawTime - s.startTime, s.endTime - s.startTime);
  }

  /** The withdrawal that ends the stream after a run included: the recipient has been paid, or has
      skipped, every second up to the end once. */
  lemma PaidInFull(derive: Derive, st: State, calls: seq<Call>, id: int, recipient: Address, signers: set<Address>)
    requires Funded(st) && id in st.streams && StaysStored(derive, st, calls, id)
             && id in Run(derive, st, calls).streams
    requires var last := Run(derive, st, calls); var s := last.streams[id];
             && Withdraw(last, id, recipient, signers).Ok? && s.endTime <= last.now
                && (!s.autoRenew || CannotPayAgain(last, s))
    ensures var last := Run(derive, st, calls); var s := last.streams[id];
            && PaysOut(last, Withdraw(last, id, recipient, signers).value, s)
            && Total(derive, st, calls, id, ClaimedBy) + Due(s, last.now) + Total(derive, st, calls, id, SkippedBy)
               == Flow(s.flowRate, s.endTime - st.streams[id].lastWithdrawTime
                       - Total(derive, st, calls, id, ResumedBy))
  {
    hide Run, Total, StaysStored, Flow, Apply, Withdraw, PaysOut, CannotPayAgain;
    var last := Run(derive, st, calls);
    var s := last.streams[id];
    LivesEveryRun(derive, st, calls, id);
    CustodyEveryRun(derive, st, calls, DoIsPaused);
    CompletionAccounts(last, id, recipient, signers);
    DueAtEnd(s, last.now);
    FlowSplit(s.flowRate,
              s.lastWithdrawTime - st.streams[id].lastWithdrawTime - Total(derive, st, calls, id, ResumedBy),
              s.endTime - s.lastWithdrawTime);
  }

  lemma DueAtEnd(s: Stream, now: int)
    requires s.Sound(now) && s.endTime <= now
    ensures Due(s, now) == Flow(s.flowRate, s.endTime - s.lastWithdrawTime)
  {
  }

  // ---- fees ----

  /** The fee rate that payments to the recipient of `s` are charged. */
  function RateFor(cfg: Config, s: Stream): int {
    if cfg.feeBps > 0 && s.recipient !in cfg.feeExempt then cfg.feeBps else 0
  }

  function BatchFees(cfg: Config, ids: seq<int>, i: nat, s: Stream, now: int): int
    requires i <= |ids|
    decreases |ids| - i
  {
    if i == |ids| then 0
    else if ids[i] == s.id
      then FeeCharged(cfg, s.recipient, Accrued(s, now)) + BatchFees(cfg, ids, i + 1, BatchDrawn(s, now), now)
    else BatchFees(cfg, ids, i + 1, s, now)
  }

  /** The fees that a call charges on what it pays from the stream. */
  function FeesBy(st: State, call: Call, s: Stream): int {
    if call.DoBatchWithdraw? then BatchFees(st.cfg, call.ids, 0, s, st.now)
    else FeeCharged(st.cfg, s.recipient, ClaimedBy(st, call, s))
  }

  function BatchPayments(ids: seq<int>, i: nat, s: Stream, now: int): int
    requires i <= |ids|
    decreases |ids| - i
  {
    if i == |ids| then 0
    else if ids[i] == s.id
      then (if Accrued(s, now) > 0 then 1 else 0) + BatchPayments(ids, i + 1, BatchDrawn(s, now), now)
    else BatchPayments(ids, i + 1, s, now)
  }

  /** How many payments of more than nothing a call makes from the stream. */
  function PaymentsBy(st: State, call: Call, s: Stream): int {
    if call.DoBatchWithdraw? then BatchPayments(call.ids, 0, s, st.now)
    else if ClaimedBy(st, call, s) > 0 then 1 else 0
  }

  // ---- what a batch reports and moves ----

  /** The reported amounts of entries `i` and later that name the stream. */
  function Reported(ids: seq<int>, out: seq<int>, i: nat, id: int): int
    requires i <= |ids| == |out|
    decreases |ids| - i
  {
    if i == |ids| then 0 else (if ids[i] == id then out[i] else 0) + Reported(ids, out, i + 1, id)
  }

  /** The fees on these amounts. */
  function FeesOn(cfg: Config, recipient: Address, ids: seq<int>, out: seq<int>, i: nat, id: int): int
    requires i <= |ids| == |out|
    decreases |ids| - i
  {
    if i == |ids| then 0
    else (if ids[i] == id then FeeCharged(cfg, recipient, out[i]) else 0) + FeesOn(cfg, recipient, ids, out, i + 1, id)
  }

  lemma {:induction false} UnvisitedClaims(cfg: Config, ids: seq<int>, i: nat, s: Stream, now: int)
    requires i <= |ids| && s.id !in ids[i..]
    ensures BatchClaimed(ids, i, s, now) == 0 && BatchFees(cfg, ids, i, s, now) == 0
    decreases |ids| - i
  {
    if i < |ids| {
      assert ids[i..] == [ids[i]] + ids[i + 1..];
      UnvisitedClaims(cfg, ids, i + 1, s, now);
    }
  }

  /** For each stream a successful batch reports, entry by entry, exactly what the totals count for it, and
      the fees of those amounts are the fees they count; also when the stream ends midway. */
  lemma {:induction false} BatchReports(st: State, ids: seq<int>, i: nat, amounts: seq<int>, recipient: Address,
                                        signers: set<Address>, id: int)
    requires Funded(st) && |amounts| == i <= |ids| && BatchWithdrawFrom(st, ids, i, amounts, recipient, signers).Ok?
    ensures var out := BatchWithdrawFrom(st, ids, i, amounts, recipient, signers).value.out;
            && |out| == |ids| && amounts <= out
            && (id !in st.streams ==> id !in ids[i..])
            && (id in st.streams ==>
                  var s := st.streams[id];
                  && Reported(ids, out, i, id) == BatchClaimed(ids, i, s, st.now)
                  && FeesOn(st.cfg, s.recipient, ids, out, i, id) == BatchFees(st.cfg, ids, i, s, st.now))
    decreases |ids| - i
  {
    hide BatchWithdrawOne, BatchDrawn, Flow, FeeCharged, Accrued, Solvent, Stream.Sound;
    if i < |ids| {
      var p := BatchWithdrawOne(st, ids[i], recipient, signers).value;
      var more := amounts + [p.out];
      assert ids[i..] == [ids[i]] + ids[i + 1..];
      EntryReport(st, ids[i], recipient, signers);
      BatchReports(p.st, ids, i + 1, more, recipient, signers, id);
      assert more[i] == p.out;
      assert BatchWithdrawFrom(st, ids, i, amounts, recipient, signers).value.out[i] == p.out;
      if id == ids[i] && id !in p.st.streams {
        UnvisitedClaims(st.cfg, ids, i + 1, BatchDrawn(st.streams[id], st.now), st.now);
        UnreportedClaims(st.cfg, recipient, ids, BatchWithdrawFrom(st, ids, i, amounts, recipient, signers).value.out,
                         i + 1, id);
      }
    }
  }

  lemma {:induction false} UnreportedClaims(cfg: Config, recipient: Address, ids: seq<int>, out: seq<int>, i: nat,
                                            id: int)
    requires i <= |ids| == |out| && id !in ids[i..]
    ensures Reported(ids, out, i, id) == 0 && FeesOn(cfg, recipient, ids, out, i, id) == 0
    decreases |ids| - i
  {
    if i < |ids| {
      assert ids[i..] == [ids[i]] + ids[i + 1..];
      UnreportedClaims(cfg, recipient, ids, out, i + 1, id);
    }
  }

  /** One entry: its report, and the record and settings it leaves. */
  lemma EntryReport(st: State, id: int, recipient: Address, signers: set<Address>)
    requires Funded(st) && BatchWithdrawOne(st, id, recipient, signers).Ok?
    ensures var p := BatchWithdrawOne(st, id, recipient, signers).value;
            && Funded(p.st) && p.st.now == st.now && p.st.cfg == st.cfg && id in st.streams && st.streams[id].id == id
            && st.streams[id].recipient == recipient && p.out == Accrued(st.streams[id], st.now)
            && BatchDrawn(st.streams[id], st.now).id == id && BatchDrawn(st.streams[id], st.now).recipient == recipient
            && (p.st.streams == st.streams[id := BatchDrawn(st.streams[id], st.now)]
                || p.st.streams == st.streams - {id})
  {
    hide Settle, PayClaim, Flow, Owed;
    BatchEntryRecord(st, id, recipient, signers);
    BatchWithdrawOneSafe(st, id, recipient, signers);
    EntryMoney(st, id, recipient, signers);
    EntrySettings(st, id, recipient, signers);
  }

  lemma EntrySettings(st: State, id: int, recipient: Address, signers: set<Address>)
    requires BatchWithdrawOne(st, id, recipient, signers).Ok?
    ensures BatchWithdrawOne(st, id, recipient, signers).value.st.cfg == st.cfg && st.streams[id].recipient == recipient
  {
    hide PayClaim, PayOut, Transfer, Flow;
  }

  /** What a batch counts for a stream in the totals is the sum of the amounts it returns for it. */
  lemma ClaimedIsReported(st: State, ids: seq<int>, recipient: Address, signers: set<Address>, id: int)
    requires Funded(st) && BatchWithdraw(st, ids, recipient, signers).Ok? && id in st.streams
    ensures var s := st.streams[id]; var call := DoBatchWithdraw(ids, recipient, signers);
            var out := BatchWithdraw(st, ids, recipient, signers).value.out;
            && |out| == |ids| && Reported(ids, out, 0, id) == ClaimedBy(st, call, s)
            && FeesOn(st.cfg, s.recipient, ids, out, 0, id) == FeesBy(st, call, s)
  {
    hide Funded;
    GateInv(st);
    BatchReports(Gate(st).value, ids, 0, [], recipient, signers, id);
  }

  /** By how much entry `s` with the reported amount `gross` moves a balance: claim, fee, and what its
      settlement gives back to the sender. */
  function EntryMoves(st: State, s: Stream, gross: int, t: Address, h: Address): int {
    var fee := FeeCharged(st.cfg, s.recipient, gross);
    Moved(s.token, Contract, s.recipient, gross - fee, t, h)
      + Moved(s.token, Contract, st.cfg.treasury.UnwrapOr(Contract), fee, t, h)
    + Moved(s.token, Contract, s.sender, SettledBack(st, Drawn(s, st.now, gross), st.bank, true), t, h)
  }

  function EntriesMove(st: State, ids: seq<int>, i: nat, recipient: Address, signers: set<Address>, t: Address,
                       h: Address): int
    requires i <= |ids|
    decreases |ids| - i
  {
    if i == |ids| || ids[i] !in st.streams then 0
    else
      match BatchWithdrawOne(st, ids[i], recipient, signers)
      case Ok(p) => EntryMoves(st, st.streams[ids[i]], p.out, t, h)
        + EntriesMove(p.st, ids, i + 1, recipient, signers, t, h)
      case Err(_) => 0
  }

  /** Every balance after a whole batch: what its entries, each with the amount it reports, have moved. */
  lemma {:induction false} BatchMoney(st: State, ids: seq<int>, i: nat, amounts: seq<int>, recipient: Address,
                                      signers: set<Address>, t: Address, h: Address)
    requires Funded(st) && i <= |ids| && BatchWithdrawFrom(st, ids, i, amounts, recipient, signers).Ok?
    ensures BalanceOf(BatchWithdrawFrom(st, ids, i, amounts, recipient, signers).value.st.bank, t, h)
            == BalanceOf(st.bank, t, h) + EntriesMove(st, ids, i, recipient, signers, t, h)
    decreases |ids| - i
  {
    hide BatchWithdrawOne, EntryMoves, Funded;
    if i < |ids| {
      var p := BatchWithdrawOne(st, ids[i], recipient, signers).value;
      BatchWithdrawOneSafe(st, ids[i], recipient, signers);
      EntryMovesExactly(st, ids[i], recipient, signers, t, h);
      BatchMoney(p.st, ids, i + 1, amounts + [p.out], recipient, signers, t, h);
    }
  }

  lemma EntryMovesExactly(st: State, id: int, recipient: Address, signers: set<Address>, t: Address, h: Address)
    requires Funded(st) && BatchWithdrawOne(st, id, recipient, signers).Ok?
    ensures id in st.streams
    ensures var p := BatchWithdrawOne(st, id, recipient, signers).value;
            BalanceOf(p.st.bank, t, h) == BalanceOf(st.bank, t, h) + EntryMoves(st, st.streams[id], p.out, t, h)
  {
    hide BatchWithdrawOne, FeeCharged, Moved, PayClaim, Funded;
    BatchEntryRecord(st, id, recipient, signers);
    EntryMoney(st, id, recipient, signers);
  }

  // ---- splitting payments ----

  /** `fees` are charged at `bps` on `claimed` paid in `payments` parts: at most the fee of one payment,
      and at least that less one unit for every part but one. */
  ghost predicate FeesSplit(bps: int, claimed: int, fees: int, payments: int) {
    && 0 <= claimed && 0 <= payments && (claimed == 0 <==> payments == 0)
    && fees <= FeeOf(claimed, bps) <= fees + Max(0, payments - 1)
  }

  lemma FeesAdd(x: int, y: int, feeBps: int)
    ensures FeeOf(x, feeBps) + FeeOf(y, feeBps) <= FeeOf(x + y, feeBps) <= FeeOf(x, feeBps) + FeeOf(y, feeBps) + 1
    ensures FeeOf(0, feeBps) == 0
  {
    MulSplit(feeBps, x, y);
    assert 0 * feeBps == 0;
  }

  lemma FeesSplitAdd(bps: int, c1: int, f1: int, p1: int, c2: int, f2: int, p2: int)
    requires FeesSplit(bps, c1, f1, p1) && FeesSplit(bps, c2, f2, p2)
    ensures FeesSplit(bps, c1 + c2, f1 + f2, p1 + p2)
  {
    hide FeeOf;
    FeesAdd(c1, c2, bps);
  }

  lemma OnePayment(cfg: Config, s: Stream, gross: int)
    requires 0 <= gross
    ensures FeesSplit(RateFor(cfg, s), gross, FeeCharged(cfg, s.recipient, gross), if gross > 0 then 1 else 0)
    ensures FeesSplit(RateFor(cfg, s), 0, 0, 0)
  {
    FeesAdd(0, 0, RateFor(cfg, s));
    assert gross * 0 == 0;
  }

  lemma {:induction false} BatchFeesSplit(cfg: Config, ids: seq<int>, i: nat, s: Stream, now: int)
    requires i <= |ids| && 0 < s.flowRate && s.startTime <= s.endTime && s.lastWithdrawTime <= Min(now, s.endTime)
    ensures FeesSplit(RateFor(cfg, s), BatchClaimed(ids, i, s, now), BatchFees(cfg, ids, i, s, now),
                      BatchPayments(ids, i, s, now))
    decreases |ids| - i
  {
    hide FeeOf, FeeCharged, FeesSplit, Flow;
    OnePayment(cfg, s, 0);
    if i < |ids| {
      if ids[i] == s.id {
        var gross := Accrued(s, now);
        var s1 := BatchDrawn(s, now);
        FlowSign(s.flowRate, Min(now, s.endTime) - s.lastWithdrawTime);
        OnePayment(cfg, s, gross);
        BatchFeesSplit(cfg, ids, i + 1, s1, now);
        FeesSplitAdd(RateFor(cfg, s), gross, FeeCharged(cfg, s.recipient, gross), if gross > 0 then 1 else 0,
                     BatchClaimed(ids, i + 1, s1, now), BatchFees(cfg, ids, i + 1, s1, now),
                       BatchPayments(ids, i + 1, s1, now));
      } else {
        BatchFeesSplit(cfg, ids, i + 1, s, now);
      }
    }
  }

  /** The stream is charged at `bps` in every state of the run. */
  ghost predicate ChargedAt(derive: Derive, st: State, calls: seq<Call>, id: int, bps: int) {
    forall k :: 0 <= k < |calls| && id in Run(derive, st, calls[..k]).streams ==>
      RateFor(Run(derive, st, calls[..k]).cfg, Run(derive, st, calls[..k]).streams[id]) == bps
  }

  lemma FeesOfCall(derive: Derive, st: State, call: Call, id: int, bps: int)
    requires Funded(st) && id in st.streams && !Displaces(derive, st, call, id) && id in Exec(derive, st, call).streams
    requires RateFor(st.cfg, st.streams[id]) == bps
    ensures FeesSplit(bps, Of(derive, st, call, id, ClaimedBy), Of(derive, st, call, id, FeesBy),
                      Of(derive, st, call, id, PaymentsBy))
  {
    hide Apply, Flow, FeesSplit, FeeCharged, FeeOf, RateFor;
    var s := st.streams[id];
    OnePayment(st.cfg, s, 0);
    if Apply(derive, st, call).Ok? {
      LivesThroughCall(derive, st, call, id);
      if call.DoBatchWithdraw? {
        StreamThroughCall(derive, st, call, id);
        BatchFeesSplit(st.cfg, call.ids, 0, s, st.now);
      } else {
        OnePayment(st.cfg, s, ClaimedBy(st, call, s));
      }
    }
  }

  /** At a fixed fee rate, the fees on everything a run pays from the stream are at most the fee of one
      payment of the total, and at least that fee less one unit for every payment but one. */
  lemma {:induction false} SplittingFees(derive: Derive, st: State, calls: seq<Call>, id: int, bps: int)
    requires Funded(st) && id in st.streams && StaysStored(derive, st, calls, id)
             && ChargedAt(derive, st, calls, id, bps)
    ensures FeesSplit(bps, Total(derive, st, calls, id, ClaimedBy), Total(derive, st, calls, id, FeesBy),
                      Total(derive, st, calls, id, PaymentsBy))
  {
    hide Apply, Exec, Funded, Flow, FeeOf, RateFor, ClaimedBy, FeesBy, PaymentsBy, FeesSplit;
    if calls == [] {
      FeesAdd(0, 0, bps);
      NoPayment(bps);
    } else {
      StaysStoredBefore(derive, st, calls, id);
      ChargedBefore(derive, st, calls, id, bps);
      SplittingFees(derive, st, calls[..|calls| - 1], id, bps);
      SplittingOneMore(derive, st, calls, id, bps);
    }
  }

  lemma NoPayment(bps: int)
    ensures FeesSplit(bps, 0, 0, 0)
  {
    FeesAdd(0, 0, bps);
  }

  lemma ChargedBefore(derive: Derive, st: State, calls: seq<Call>, id: int, bps: int)
    requires ChargedAt(derive, st, calls, id, bps) && calls != []
    ensures ChargedAt(derive, st, calls[..|calls| - 1], id, bps)
    ensures var mid := Run(derive, st, calls[..|calls| - 1]); id in mid.streams ==>
            RateFor(mid.cfg, mid.streams[id]) == bps
  {
    hide Exec, RateFor;
    var before := calls[..|calls| - 1];
    forall k | 0 <= k < |before| && id in Run(derive, st, before[..k]).streams
      ensures RateFor(Run(derive, st, before[..k]).cfg, Run(derive, st, before[..k]).streams[id]) == bps
    {
      assert before[..k] == calls[..k];
    }
  }

  lemma SplittingOneMore(derive: Derive, st: State, calls: seq<Call>, id: int, bps: int)
    requires Funded(st) && id in st.streams && StaysStored(derive, st, calls, id)
             && ChargedAt(derive, st, calls, id, bps) && calls != []
    requires var before := calls[..|calls| - 1];
             FeesSplit(bps, Total(derive, st, before, id, ClaimedBy), Total(derive, st, before, id, FeesBy),
                       Total(derive, st, before, id, PaymentsBy))
    ensures FeesSplit(bps, Total(derive, st, calls, id, ClaimedBy), Total(derive, st, calls, id, FeesBy),
                      Total(derive, st, calls, id, PaymentsBy))
  {
    hide Apply, Exec, Funded, Run, Total, Of, RateFor, ClaimedBy, FeesBy, PaymentsBy, FeesSplit, StaysStored, ChargedAt;
    var before := calls[..|calls| - 1];
    var last := calls[|calls| - 1];
    var mid := Run(derive, st, before);
    StaysStoredBefore(derive, st, calls, id);
    ChargedBefore(derive, st, calls, id, bps);
    CustodyEveryRun(derive, st, before, last);
    FeesOfCall(derive, mid, last, id, bps);
    TotalOneMore(derive, st, calls, id, ClaimedBy);
    TotalOneMore(derive, st, calls, id, FeesBy);
    TotalOneMore(derive, st, calls, id, PaymentsBy);
    FeesSplitAdd(bps, Total(derive, st, before, id, ClaimedBy), Total(derive, st, before, id, FeesBy),
                 Total(derive, st, before, id, PaymentsBy),
                 Of(derive, mid, last, id, ClaimedBy), Of(derive, mid, last, id, FeesBy),
                   Of(derive, mid, last, id, PaymentsBy));
  }
}
