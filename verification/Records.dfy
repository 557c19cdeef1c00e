/** One record through one call: the exact record that every call leaves of every stream that stays
    stored, and what follows from it for its dust, its cliff and the seconds it has paid. */
module Records {
  import opened Prelude
  import opened VestingMath
  import opened Streams
  import opened TokenBank
  import opened Storage
  import opened Ledger
  import opened Invariants
  import opened Custody

  // ---- the record a call leaves ----

  /** The record a settlement keeps, when it keeps one. */
  function SettledAs(st: State, s: Stream, bank: Bank, strict: bool): Stream {
    if st.now < s.endTime then s
    else if !strict && BalanceOf(bank, s.token, s.sender) < s.deposit then s.(status := Completed)
    else NextCycle(s)
  }

  function Withdrawn(st: State, s: Stream): Stream {
    var gross := Due(s, st.now);
    match PayClaim(st, s, gross)
    case Ok(bank) => SettledAs(st, Drawn(s, st.now, gross), bank, false)
    case Err(_) => s
  }

  function BatchDrawn(s: Stream, now: int): Stream {
    var drawn := Drawn(s, now, Accrued(s, now));
    if now < s.endTime then drawn else NextCycle(drawn)
  }

  /** The entries `i` and later of a batch that name the stream, one after the other. */
  function BatchVisited(ids: seq<int>, i: nat, s: Stream, now: int): Stream
    requires i <= |ids|
    decreases |ids| - i
  {
    if i == |ids| then s
    else BatchVisited(ids, i + 1, if ids[i] == s.id then BatchDrawn(s, now) else s, now)
  }

  /** What is due to the recipient of a stream that is handed on at clock `t`. */
  function DueAtHandOver(s: Stream, t: int): int {
    if s.lockUntil <= t then Due(s, t) else 0
  }

  function HandedOver(s: Stream, t: int, next: Address): Stream {
    var gross := DueAtHandOver(s, t);
    (if gross > 0 then Drawn(s, t, gross) else s).(recipient := next)
  }

  function ToppedUpBy(s: Stream, amount: int): Stream {
    if s.flowRate == 0 then s
    else
      var effective := amount - amount % s.flowRate;
      ToppedUp(s, effective / s.flowRate, effective)
  }

  /** The record that a successful call leaves of the stored stream `s`, unless it deletes it. */
  function Next(st: State, call: Call, s: Stream): Stream {
    match call
    case DoWithdraw(id, _, _) => if id == s.id then Withdrawn(st, s) else s
    case DoBatchWithdraw(ids, _, _) => BatchVisited(ids, 0, s, st.now)
    case DoTransferRecipient(id, _, next) => if id == s.id then HandedOver(s, s.Clock(st.now), next) else s
    case DoPartialCancel(id, _, _) => if id == s.id then s.(status := Cancelled) else s
    case DoTopUp(id, _, _, amount) => if id == s.id then ToppedUpBy(s, amount) else s
    case DoPauseStream(id, _) => if id == s.id then PausedAt(s, st.now) else s
    case DoResumeStream(id, _) => if id == s.id then Resumed(s, st.now) else s
    case DoCancelAutoRenew(id, _) => if id == s.id then s.(autoRenew := false) else s
    case _ => s
  }

  /** What a successful call that names the stream has checked of it. */
  predicate Admits(st: State, call: Call, s: Stream) {
    match call
    case DoWithdraw(id, _, _) => id == s.id ==> s.status.Active? && PayClaim(st, s, Due(s, st.now)).Ok?
    case DoBatchWithdraw(ids, _, _) => s.id in ids ==> s.status.Active?
    case DoCancelStream(id, _) => id == s.id ==> s.Live()
    case DoRecipientTerminate(id, _) => id == s.id ==> s.Live()
    case DoTransferRecipient(id, _, _) => id == s.id ==> s.Live()
    case DoPartialCancel(id, _, _) => id == s.id ==> s.Live()
    case DoTopUp(id, _, _, amount) => id == s.id ==> s.Live() && 0 < amount
    case DoPauseStream(id, _) => id == s.id ==> s.status.Active?
    case DoResumeStream(id, _) => id == s.id ==> s.status.Paused?
    case _ => true
  }

  /** The id that a partial cancel of a stored stream derives for its replacement. */
  function ReplacementId(derive: Derive, st: State, id: int): int
    requires id in st.streams
  {
    var s := st.streams[id];
    derive(s.sender, s.recipient, s.Clock(st.now), id)
  }

  /** The replacement goes under `id`. */
  predicate Replaces(derive: Derive, st: State, call: Call, id: int) {
    call.DoPartialCancel? && call.id in st.streams && ReplacementId(derive, st, call.id) == id
  }

  /** The call succeeds and stores another record under `id`. */
  predicate Displaces(derive: Derive, st: State, call: Call, id: int) {
    Apply(derive, st, call).Ok? && Replaces(derive, st, call, id)
  }

  /** The replacement's id is already stored. The code does not look, and overwrites the record. */
  predicate Overwrites(derive: Derive, st: State, call: Call) {
    call.DoPartialCancel? && call.id in st.streams && ReplacementId(derive, st, call.id) in st.streams
  }

  /** From `st` to `st'` the record of `id` changes as `Next` says, and disappears only when the
      stream was live or is being archived. */
  ghost predicate Follows(st: State, call: Call, st': State, id: int)
    requires id in st.streams
  {
    var s := st.streams[id];
    && Admits(st, call, s)
    && (id in st'.streams ==> st'.streams[id] == Next(st, call, s))
    && (id !in st'.streams ==> s.Live() || (call.DoArchive? && call.id == id))
  }

  /** The calls about one stream that store no other. */
  predicate RewritesOne(call: Call) {
    call.DoWithdraw? || call.DoCancelStream? || call.DoRecipientTerminate? || call.DoTransferRecipient? || call.DoTopUp?
    || call.DoPauseStream? || call.DoResumeStream? || call.DoCancelAutoRenew? || call.DoArchive?
  }

  /** A call about one stream rewrites or deletes that record and no other. */
  ghost predicate OnlyRecord(st: State, call: Call, st': State, id: int) {
    && id in st.streams && st.streams[id].id == id && Follows(st, call, st', id)
    && (st'.streams == st.streams - {id} || st'.streams == st.streams[id := Next(st, call, st.streams[id])])
  }

  lemma SettledRecord(st: State, id: int, s: Stream, bank: Bank, signers: set<Address>, strict: bool)
    requires s.id == id && Settle(st, id, s, bank, signers, strict).Ok?
    ensures var st' := Settle(st, id, s, bank, signers, strict).value;
            && st'.streams == (if st.now < s.endTime || s.autoRenew
                               then st.streams[id := SettledAs(st, s, bank, strict)]
                               else st.streams - {id})
            && (st.now < s.endTime || s.autoRenew ==> st' == st.(bank := st'.bank, streams := st'.streams))
  {
    if s.endTime <= st.now && s.autoRenew && (strict || s.deposit <= BalanceOf(bank, s.token, s.sender)) {
      assert Settle(st, id, s, bank, signers, strict) == Renew(st, s, bank, signers);
      RenewedRecord(st, s, bank, signers);
    }
  }

  lemma RenewedRecord(st: State, s: Stream, bank: Bank, signers: set<Address>)
    requires Renew(st, s, bank, signers).Ok?
    ensures var st' := Renew(st, s, bank, signers).value;
            st' == st.(bank := st'.bank, streams := st.streams[s.id := NextCycle(s)])
  {
  }

  /** A settlement after the end that keeps the stream active is a renewal. */
  lemma SettledActive(st: State, id: int, s: Stream, bank: Bank, signers: set<Address>)
    requires Settle(st, id, s, bank, signers, false).Ok? && s.endTime <= st.now && s.id == id
    requires var st' := Settle(st, id, s, bank, signers, false).value;
             id in st'.streams && st'.streams[id].status.Active?
    ensures s.autoRenew && s.deposit <= BalanceOf(bank, s.token, s.sender)
    ensures var st' := Settle(st, id, s, bank, signers, false).value;
            st' == st.(bank := st'.bank, streams := st.streams[id := NextCycle(s)])
  {
  }

  lemma WithdrawRecord(st: State, call: Call)
    requires Funded(st) && call.DoWithdraw? && Withdraw(st, call.id, call.caller, call.signers).Ok?
    ensures OnlyRecord(st, call, Withdraw(st, call.id, call.caller, call.signers).value, call.id)
  {
    hide Settle, Flow;
    WithdrawSteps(st, call.id, call.caller, call.signers);
    var g := Opened(st);
    var s := g.streams[call.id];
    var gross := Due(s, g.now);
    assert PayClaim(g, s, gross) == PayClaim(st, s, gross);
    SettledRecord(g, call.id, Drawn(s, g.now, gross), PayClaim(g, s, gross).value, call.signers, false);
  }

  lemma BatchEntryRecord(st: State, id: int, recipient: Address, signers: set<Address>)
    requires Funded(st) && BatchWithdrawOne(st, id, recipient, signers).Ok?
    ensures id in st.streams && st.streams[id].status.Active?
    ensures var s := st.streams[id]; var st' := BatchWithdrawOne(st, id, recipient, signers).value.st;
            && st'.streams == (if st.now < s.endTime || s.autoRenew then st.streams[id := BatchDrawn(s, st.now)]
                               else st.streams - {id})
            && (st.now < s.endTime || s.autoRenew ==> st' == st.(bank := st'.bank, streams := st'.streams))
  {
    hide Settle, Flow;
    var s := st.streams[id];
    ClaimWithinDeposit(s, st.now);
    var gross := Accrued(s, st.now);
    SettledRecord(st, id, Drawn(s, st.now, gross), PayClaim(st, s, gross).value, signers, true);
  }

  lemma {:induction false} BatchWithdrawRecord(st: State, ids: seq<int>, i: nat, amounts: seq<int>, recipient: Address,
                                               signers: set<Address>, id: int)
    requires Funded(st) && i <= |ids| && BatchWithdrawFrom(st, ids, i, amounts, recipient, signers).Ok?
    ensures var st' := BatchWithdrawFrom(st, ids, i, amounts, recipient, signers).value.st;
            && st'.streams.Keys <= st.streams.Keys
            && (id in st.streams ==>
                  && (id in ids[i..] ==> st.streams[id].status.Active?)
                  && (id in st'.streams ==> st'.streams[id] == BatchVisited(ids, i, st.streams[id], st.now))
                  && (id !in st'.streams ==> st.streams[id].Live()))
    decreases |ids| - i
  {
    hide Flow, BatchDrawn;
    if i < |ids| {
      assert ids[i..] == [ids[i]] + ids[i + 1..];
      var p := BatchWithdrawOne(st, ids[i], recipient, signers).value;
      BatchWithdrawOneSafe(st, ids[i], recipient, signers);
      BatchEntryRecord(st, ids[i], recipient, signers);
      BatchWithdrawRecord(p.st, ids, i + 1, amounts + [p.out], recipient, signers, id);
      if id in st.streams && id !in p.st.streams { assert id == ids[i]; }
    }
  }

  lemma {:induction false} BatchCancelRecord(st: State, ids: seq<int>, i: nat, results: seq<Result<()>>,
                                             sender: Address, id: int)
    requires i <= |ids| && id in st.streams && BatchCancelFrom(st, ids, i, results, sender).Ok?
    ensures var st' := BatchCancelFrom(st, ids, i, results, sender).value.st;
            && (id in st'.streams ==> st'.streams[id] == st.streams[id])
            && (id !in st'.streams ==> st.streams[id].Live())
    decreases |ids| - i
  {
    hide Close, PayOut;
    if i < |ids| {
      match BatchCancelOne(st, ids[i], sender)
      case Ok(st') =>
        EntryCancels(st, ids[i], sender);
        if id in st'.streams {
          BatchCancelRecord(st', ids, i + 1, results + [Ok(())], sender, id);
        } else {
          CancelledStaysGone(st', ids, i + 1, results + [Ok(())], sender, id);
        }
      case Err(e) => BatchCancelRecord(st, ids, i + 1, results + [Err(e)], sender, id);
    }
  }

  lemma EntryCancels(st: State, id: int, sender: Address)
    requires BatchCancelOne(st, id, sender).Ok?
    ensures id in st.streams && st.streams[id].Live()
    ensures BatchCancelOne(st, id, sender).value.streams == st.streams - {id}
  {
  }

  lemma {:induction false} CancelledStaysGone(st: State, ids: seq<int>, i: nat, results: seq<Result<()>>,
                                              sender: Address, id: int)
    requires i <= |ids| && id !in st.streams && BatchCancelFrom(st, ids, i, results, sender).Ok?
    ensures id !in BatchCancelFrom(st, ids, i, results, sender).value.st.streams
    decreases |ids| - i
  {
    hide Close;
    if i < |ids| {
      match BatchCancelOne(st, ids[i], sender)
      case Ok(st') =>
        EntryCancels(st, ids[i], sender);
        CancelledStaysGone(st', ids, i + 1, results + [Ok(())], sender, id);
      case Err(e) => CancelledStaysGone(st, ids, i + 1, results + [Err(e)], sender, id);
    }
  }

  /** `st'` stores every record of `st`, unchanged. */
  ghost predicate Extends(st: State, st': State) {
    forall id :: id in st.streams ==> id in st'.streams && st'.streams[id] == st.streams[id]
  }

  lemma {:induction false} BatchCreateExtends(st: State, order: BatchOrder, i: nat, ids: seq<int>)
    requires order.Aligned() && order.duration != 0 && i <= |order.amounts| == |ids|
    requires NoDuplicates(ids) && forall j :: i <= j < |ids| ==> ids[j] !in st.streams
    requires BatchCreateFrom(st, order, i, ids).Ok?
    ensures Extends(st, BatchCreateFrom(st, order, i, ids).value)
    decreases |ids| - i
  {
    hide Transfer;
    if i < |ids| {
      BatchCreateExtends(BatchCreateOne(st, order, i, ids[i]).value, order, i + 1, ids);
    }
  }

  lemma CreateExtends(derive: Derive, st: State, call: Call)
    requires call.DoCreateStream? && ApplyStream(derive, st, call).Ok?
    ensures Extends(st, ApplyStream(derive, st, call).value)
  {
    hide Transfer, CreationFee;
    GateInv(st);
  }

  lemma BatchExtends(derive: Derive, st: State, order: BatchOrder, nonce: u64)
    requires BatchCreate(derive, st, order, nonce).Ok?
    ensures Extends(st, BatchCreate(derive, st, order, nonce).value.st)
  {
    BatchCreatePasses(derive, st, order, nonce);
    BatchCreateExtends(BatchStart(st, order, nonce), order, 0, BatchCreate(derive, st, order, nonce).value.out);
  }

  lemma CancelRecord(st: State, call: Call)
    requires Funded(st) && call.DoCancelStream? && CancelStream(st, call.id, call.caller).Ok?
    ensures OnlyRecord(st, call, CancelStream(st, call.id, call.caller).value, call.id)
  {
    hide PayOut, Flow, Unlist;
  }

  lemma TerminateRecord(st: State, call: Call)
    requires Funded(st) && call.DoRecipientTerminate? && RecipientTerminate(st, call.id, call.caller).Ok?
    ensures OnlyRecord(st, call, RecipientTerminate(st, call.id, call.caller).value, call.id)
  {
    hide PayOut, Flow, Unlist;
    GateInv(st);
  }

  lemma TransferRecord(st: State, call: Call)
    requires Funded(st) && call.DoTransferRecipient? && TransferRecipient(st, call.id, call.caller, call.next).Ok?
    ensures OnlyRecord(st, call, TransferRecipient(st, call.id, call.caller, call.next).value, call.id)
  {
    hide HandOver, HandedOver, Flow, Stream.Sound;
    GateInv(st);
    var s := st.streams[call.id];
    assert TransferRecipient(st, call.id, call.caller, call.next) == HandOver(Gate(st).value, call.id, s, call.next);
    HandOverRecord(Gate(st).value, call.id, s, call.next);
  }

  lemma HandOverRecord(st: State, id: int, s: Stream, next: Address)
    requires s.Sound(st.now) && s.Live() && 0 <= st.now <= U64_MAX && s.id == id && HandOver(st, id, s, next).Ok?
    ensures HandOver(st, id, s, next).value.streams == st.streams[id := HandedOver(s, s.Clock(st.now), next)]
  {
    hide TransferPayout, Flow, DueAtHandOver, Stream.Sound;
    PayoutRecord(st, s);
  }

  lemma PayoutRecord(st: State, s: Stream)
    requires s.Sound(st.now) && s.Live() && st.now <= U64_MAX && TransferPayout(st, s).Ok?
    ensures TransferPayout(st, s).value.1.(recipient := s.recipient)
            == if DueAtHandOver(s, s.Clock(st.now)) > 0
              then Drawn(s, s.Clock(st.now), DueAtHandOver(s, s.Clock(st.now))) else s
  {
    hide PayClaim, Flow;
    ClaimWithinDeposit(s, st.now);
  }

  lemma TopUpRecord(st: State, call: Call)
    requires Funded(st) && call.DoTopUp? && TopUp(st, call.id, call.caller, call.token, call.amount).Ok?
    ensures OnlyRecord(st, call, TopUp(st, call.id, call.caller, call.token, call.amount).value, call.id)
  {
    hide Transfer, Flow;
    GateInv(st);
  }

  lemma PauseRecord(st: State, call: Call)
    requires Funded(st)
    ensures call.DoPauseStream? && PauseStream(st, call.id, call.caller).Ok? ==>
              OnlyRecord(st, call, PauseStream(st, call.id, call.caller).value, call.id)
    ensures call.DoResumeStream? && ResumeStream(st, call.id, call.caller).Ok? ==>
              OnlyRecord(st, call, ResumeStream(st, call.id, call.caller).value, call.id)
  {
    hide Flow;
    GateInv(st);
  }

  lemma PartialRecord(derive: Derive, st: State, call: Call, id: int)
    requires Funded(st) && call.DoPartialCancel? && PartialCancel(derive, st, call.id, call.caller, call.amount).Ok?
    requires id in st.streams && !Replaces(derive, st, call, id)
    ensures Follows(st, call, PartialCancel(derive, st, call.id, call.caller, call.amount).value.st, id)
  {
    hide PartialTerms, Transfer, PayOut, Flow;
  }

  /** Through any call that does not put another record in its place, a stored stream either gets
      exactly the record `Next` gives, or is deleted; and a terminal one is deleted by archiving only. */
  lemma RecordThroughCall(derive: Derive, st: State, call: Call, id: int)
    requires Funded(st) && id in st.streams && !Replaces(derive, st, call, id) && Apply(derive, st, call).Ok?
    ensures Follows(st, call, Apply(derive, st, call).value, id)
  {
    if call.IsAdmin() {
      AdminRecord(st, call);
    } else {
      StreamRecord(derive, st, call, id);
    }
  }

  lemma AdminRecord(st: State, call: Call)
    requires call.IsAdmin() && ApplyAdmin(st, call).Ok?
    ensures ApplyAdmin(st, call).value.streams == st.streams
  {
  }

  lemma OthersFollow(st: State, call: Call, st': State, id: int)
    requires Funded(st) && id in st.streams
    requires RewritesOne(call)
    requires OnlyRecord(st, call, st', call.id)
    ensures Follows(st, call, st', id)
  {
  }

  lemma ExtendsFollows(st: State, call: Call, st': State, id: int)
    requires id in st.streams && Extends(st, st')
             && (call.DoCreateStream? || call.DoBatchCreate? || call.DoSetDelegate?)
    ensures Follows(st, call, st', id)
  {
  }

  lemma StreamRecord(derive: Derive, st: State, call: Call, id: int)
    requires Funded(st) && id in st.streams && !call.IsAdmin() && !Replaces(derive, st, call, id)
    requires ApplyStream(derive, st, call).Ok?
    ensures Follows(st, call, ApplyStream(derive, st, call).value, id)
  {
    hide Next, Admits, Follows, OnlyRecord, Extends, Flow;
    var st' := ApplyStream(derive, st, call).value;
    if call.DoCreateStream? || call.DoBatchCreate? || call.DoSetDelegate? {
      CreationRecord(derive, st, call);
      ExtendsFollows(st, call, st', id);
    } else if call.DoBatchWithdraw? || call.DoBatchCancel? {
      BatchRecord(derive, st, call, id);
    } else if call.DoPartialCancel? {
      PartialRecord(derive, st, call, id);
    } else {
      SingleRecord(derive, st, call);
      OthersFollow(st, call, st', id);
    }
  }

  lemma CreationRecord(derive: Derive, st: State, call: Call)
    requires (call.DoCreateStream? || call.DoBatchCreate? || call.DoSetDelegate?) && ApplyStream(derive, st, call).Ok?
    ensures Extends(st, ApplyStream(derive, st, call).value)
  {
    if call.DoCreateStream? {
      CreateExtends(derive, st, call);
    } else if call.DoBatchCreate? {
      BatchExtends(derive, st, call.order, call.nonce);
    }
  }

  lemma BatchRecord(derive: Derive, st: State, call: Call, id: int)
    requires Funded(st) && id in st.streams && (call.DoBatchWithdraw? || call.DoBatchCancel?)
             && ApplyStream(derive, st, call).Ok?
    ensures Follows(st, call, ApplyStream(derive, st, call).value, id)
  {
    hide Flow;
    if call.DoBatchWithdraw? {
      GateInv(st);
      assert call.ids[0..] == call.ids;
      BatchWithdrawRecord(Gate(st).value, call.ids, 0, [], call.caller, call.signers, id);
    } else {
      BatchCancelRecord(st, call.ids, 0, [], call.caller, id);
    }
  }

  lemma SingleRecord(derive: Derive, st: State, call: Call)
    requires Funded(st) && RewritesOne(call) && ApplyStream(derive, st, call).Ok?
    ensures OnlyRecord(st, call, ApplyStream(derive, st, call).value, call.id)
  {
    hide Flow;
    match call
    case DoWithdraw(_, _, _) => WithdrawRecord(st, call);
    case DoCancelStream(_, _) => CancelRecord(st, call);
    case DoRecipientTerminate(_, _) => TerminateRecord(st, call);
    case DoTransferRecipient(_, _, _) => TransferRecord(st, call);
    case DoTopUp(_, _, _, _) => TopUpRecord(st, call);
    case DoPauseStream(_, _) => PauseRecord(st, call);
    case DoResumeStream(_, _) => PauseRecord(st, call);
    case DoCancelAutoRenew(_, _) =>
    case DoArchive(_, _) =>
  }

  // ---- what one step does to a record ----

  /** `s'` is what the call leaves of the sound record `s`. */
  ghost predicate Stepped(st: State, call: Call, s: Stream, s': Stream) {
    && 0 <= st.now <= U64_MAX && s.Sound(st.now) && s'.Sound(st.now)
    && Admits(st, call, s) && s' == Next(st, call, s)
  }

  /** What no call changes of a stream that stays stored: id, sender, token, rate and termination flag; its
      renewal flag is never set again, and a terminal one is frozen up to that flag. */
  ghost predicate Continues(s: Stream, s': Stream) {
    && s'.id == s.id && s'.sender == s.sender && s'.token == s.token && s'.flowRate == s.flowRate
    && s'.allowRecipientTermination == s.allowRecipientTermination && (s'.autoRenew ==> s.autoRenew)
    && (!s.Live() ==> s' == s.(autoRenew := s'.autoRenew))
  }

  lemma {:induction false} VisitsContinue(ids: seq<int>, i: nat, s: Stream, now: int)
    requires i <= |ids|
    ensures var s' := BatchVisited(ids, i, s, now);
            && s'.id == s.id && s'.sender == s.sender && s'.token == s.token && s'.flowRate == s.flowRate
            && s'.deposit == s.deposit && s'.endTime - s'.startTime == s.endTime - s.startTime
            && s'.allowRecipientTermination == s.allowRecipientTermination && s'.autoRenew == s.autoRenew
            && (s.id !in ids[i..] ==> s' == s)
    decreases |ids| - i
  {
    hide Flow;
    if i < |ids| {
      assert ids[i..] == [ids[i]] + ids[i + 1..];
      VisitsContinue(ids, i + 1, if ids[i] == s.id then BatchDrawn(s, now) else s, now);
    }
  }

  lemma StepContinues(st: State, call: Call, s: Stream, s': Stream)
    requires Stepped(st, call, s, s')
    ensures Continues(s, s')
  {
    hide Flow, Stream.Sound;
    if call.DoBatchWithdraw? {
      assert call.ids[0..] == call.ids;
      VisitsContinue(call.ids, 0, s, st.now);
    }
  }

  // ---- dust ----

  /** How far a resumption pushes `end_time` past the end of `u64`. */
  function Stretch(st: State, call: Call, s: Stream): int {
    if call.DoResumeStream? && call.id == s.id
    then Max(0, s.endTime + (st.now - s.lastPauseTime) - U64_MAX)
    else 0
  }

  lemma SameDust(s: Stream, s': Stream)
    requires s'.deposit == s.deposit && s'.flowRate == s.flowRate
    requires s'.endTime - s'.startTime == s.endTime - s.startTime
    ensures s'.Dust() == s.Dust()
  {
  }

  lemma StepDust(st: State, call: Call, s: Stream, s': Stream)
    requires Stepped(st, call, s, s')
    ensures s'.Dust() == s.Dust() + Flow(s.flowRate, Stretch(st, call, s)) && 0 <= Stretch(st, call, s)
  {
    hide Flow, Stream.Dust, Stream.Sound, BatchVisited, Withdrawn, HandedOver, ToppedUpBy, Resumed;
    FlowSplit(s.flowRate, 0, 0);
    if call.DoResumeStream? && call.id == s.id {
      ResumedSound(s, st.now);
    } else if call.DoTopUp? && call.id == s.id {
      TopUpDust(s, call.amount, st.now);
    } else {
      SamePeriod(st, call, s, s');
      SameDust(s, s');
    }
  }

  lemma TopUpDust(s: Stream, amount: int, now: int)
    requires s.Sound(now) && ToppedUpBy(s, amount).Sound(now)
    ensures ToppedUpBy(s, amount).Dust() == s.Dust()
  {
    hide Flow;
    var effective := amount - amount % s.flowRate;
    MultipleOfRate(s.flowRate, amount);
    FlowSplit(s.flowRate, s.endTime - s.startTime, effective / s.flowRate);
    DustExact(s, now);
    DustExact(ToppedUpBy(s, amount), now);
  }

  /** No other call changes the deposit or the length of the current cycle. */
  lemma SamePeriod(st: State, call: Call, s: Stream, s': Stream)
    requires s' == Next(st, call, s) && !(call.DoResumeStream? && call.id == s.id)
             && !(call.DoTopUp? && call.id == s.id)
    ensures s'.deposit == s.deposit && s'.flowRate == s.flowRate && s'.endTime - s'.startTime == s.endTime - s.startTime
  {
    hide Flow, PayClaim, Due;
    if call.DoBatchWithdraw? { VisitsContinue(call.ids, 0, s, st.now); }
  }

  /** Without clipping no call takes a stream away from the documented flow rate: the period never gets
      shorter and the dust stays. */
  lemma StepKeepsRate(st: State, call: Call, s: Stream, s': Stream)
    requires Stepped(st, call, s, s') && Stretch(st, call, s) == 0 && s.Dust() < s.endTime - s.startTime
    ensures s'.Dust() < s'.endTime - s'.startTime
  {
    hide Flow, Stream.Dust, BatchVisited, Withdrawn, HandedOver;
    StepDust(st, call, s, s');
    FlowIsProduct(s.flowRate, 0);
    if call.DoTopUp? && call.id == s.id {
      PeriodGrows(s, call.amount, st.now);
    } else if call.DoResumeStream? && call.id == s.id {
      ResumedSound(s, st.now);
    } else {
      SamePeriod(st, call, s, s');
    }
  }

  lemma PeriodGrows(s: Stream, amount: int, now: int)
    requires s.Sound(now) && 0 < amount
    ensures s.endTime <= ToppedUpBy(s, amount).endTime && ToppedUpBy(s, amount).startTime == s.startTime
  {
    EffectiveAmount(s.flowRate, amount);
  }

  lemma MultipleOfRate(rate: int, amount: int)
    requires 0 < rate
    ensures Flow(rate, (amount - amount % rate) / rate) == amount - amount % rate
  {
    DivFloor(amount, rate);
    DivExact(rate, amount / rate);
    FlowIsProduct(rate, amount / rate);
  }

  // ---- the cliff ----

  /** The start is not past the cliff. */
  predicate Ordered(s: Stream) {
    s.startTime <= s.cliffTime
  }

  /** Some entry of the batch renews the stream when its cliff comes before its end. */
  predicate VisitRenewsPastCliff(ids: seq<int>, i: nat, s: Stream, now: int)
    requires i <= |ids|
    decreases |ids| - i
  {
    i < |ids| &&
    if ids[i] == s.id then
      (s.endTime <= now && s.cliffTime < s.endTime) || VisitRenewsPastCliff(ids, i + 1, BatchDrawn(s, now), now)
    else
      VisitRenewsPastCliff(ids, i + 1, s, now)
  }

  /** The call, if it leaves the stream stored, renews it when its cliff comes before its end: the
      end has come, and after a plain withdrawal the sender can pay the deposit again. */
  predicate RenewsPastCliff(st: State, call: Call, s: Stream) {
    match call
    case DoWithdraw(id, _, _) =>
      && id == s.id && s.endTime <= st.now && s.cliffTime < s.endTime
      && var paid := PayClaim(st, s, Due(s, st.now));
         paid.Ok? && s.deposit <= BalanceOf(paid.value, s.token, s.sender)
    case DoBatchWithdraw(ids, _, _) => VisitRenewsPastCliff(ids, 0, s, st.now)
    case _ => false
  }

  /** One renewal keeps the order exactly when the cliff is at the very end of the cycle. */
  lemma RenewalOrder(s: Stream, now: int)
    requires s.Sound(now)
    ensures Ordered(NextCycle(s)) <==> s.cliffTime == s.endTime
  {
  }

  lemma {:induction false} VisitsOrder(ids: seq<int>, i: nat, s: Stream, now: int)
    requires i <= |ids| && s.startTime <= s.endTime
    ensures Ordered(BatchVisited(ids, i, s, now)) <==> Ordered(s) && !VisitRenewsPastCliff(ids, i, s, now)
    decreases |ids| - i
  {
    hide Flow;
    if i < |ids| {
      VisitsOrder(ids, i + 1, if ids[i] == s.id then BatchDrawn(s, now) else s, now);
    }
  }

  lemma StepOrder(st: State, call: Call, s: Stream, s': Stream)
    requires Stepped(st, call, s, s')
    ensures Ordered(s') <==> Ordered(s) && !RenewsPastCliff(st, call, s)
  {
    hide Flow, PayClaim;
    if call.DoBatchWithdraw? { VisitsOrder(call.ids, 0, s, st.now); }
    if call.DoResumeStream? && call.id == s.id { ResumedSound(s, st.now); }
  }

  // ---- seconds and money ----

  function BatchClaimed(ids: seq<int>, i: nat, s: Stream, now: int): int
    requires i <= |ids|
    decreases |ids| - i
  {
    if i == |ids| then 0
    else if ids[i] == s.id then Accrued(s, now) + BatchClaimed(ids, i + 1, BatchDrawn(s, now), now)
    else BatchClaimed(ids, i + 1, s, now)
  }

  /** What a withdrawal, batch or transfer pays from the stream, before fees. */
  function ClaimedBy(st: State, call: Call, s: Stream): int {
    match call
    case DoWithdraw(id, _, _) => if id == s.id then Due(s, st.now) else 0
    case DoBatchWithdraw(ids, _, _) => BatchClaimed(ids, 0, s, st.now)
    case DoTransferRecipient(id, _, _) => if id == s.id then DueAtHandOver(s, s.Clock(st.now)) else 0
    case _ => 0
  }

  /** What a plain withdrawal before the cliff moves past without paying. */
  function SkippedBy(st: State, call: Call, s: Stream): int {
    if call.DoWithdraw? && call.id == s.id && st.now < s.cliffTime then Accrued(s, st.now) else 0
  }

  /** How far the call moves all times of the stream. */
  function ResumedBy(st: State, call: Call, s: Stream): int {
    if call.DoResumeStream? && call.id == s.id then st.now - s.lastPauseTime else 0
  }

  lemma {:induction false} VisitsClaim(ids: seq<int>, i: nat, s: Stream, now: int)
    requires i <= |ids|
    ensures BatchClaimed(ids, i, s, now)
            == Flow(s.flowRate, BatchVisited(ids, i, s, now).lastWithdrawTime - s.lastWithdrawTime)
    decreases |ids| - i
  {
    hide Flow;
    FlowSplit(s.flowRate, 0, 0);
    if i < |ids| {
      var s1 := if ids[i] == s.id then BatchDrawn(s, now) else s;
      VisitsClaim(ids, i + 1, s1, now);
      FlowSplit(s.flowRate, s1.lastWithdrawTime - s.lastWithdrawTime,
                BatchVisited(ids, i, s, now).lastWithdrawTime - s1.lastWithdrawTime);
    }
  }

  /** Every second that the record moves on by is paid, skipped or a pause. */
  lemma StepPays(st: State, call: Call, s: Stream, s': Stream)
    requires Stepped(st, call, s, s')
    ensures 0 <= ClaimedBy(st, call, s) && 0 <= SkippedBy(st, call, s) && 0 <= ResumedBy(st, call, s)
    ensures ClaimedBy(st, call, s) + SkippedBy(st, call, s)
            == Flow(s.flowRate, s'.lastWithdrawTime - s.lastWithdrawTime - ResumedBy(st, call, s))
  {
    hide Flow, PayClaim, BatchVisited, BatchClaimed, Stream.Sound, Resumed;
    FlowSplit(s.flowRate, 0, 0);
    SoundTimes(s, st.now);
    if call.DoBatchWithdraw? {
      BatchPays(call.ids, s, st.now);
    } else if call.DoResumeStream? && call.id == s.id {
      ResumedSound(s, st.now);
    } else if (call.DoWithdraw? || call.DoTransferRecipient?) && call.id == s.id {
      ClaimWithinDeposit(s, st.now);
    }
  }

  lemma BatchPays(ids: seq<int>, s: Stream, now: int)
    requires s.Sound(now) && (s.id in ids ==> s.status.Active?)
    ensures 0 <= BatchClaimed(ids, 0, s, now)
            == Flow(s.flowRate, BatchVisited(ids, 0, s, now).lastWithdrawTime - s.lastWithdrawTime)
  {
    hide Flow, BatchClaimed;
    assert ids[0..] == ids;
    VisitsClaim(ids, 0, s, now);
    VisitsContinue(ids, 0, s, now);
    if s.id in ids { BatchMovesOn(ids, 0, s, now); }
    FlowSign(s.flowRate, BatchVisited(ids, 0, s, now).lastWithdrawTime - s.lastWithdrawTime);
  }

  lemma {:induction false} BatchMovesOn(ids: seq<int>, i: nat, s: Stream, now: int)
    requires i <= |ids| && s.lastWithdrawTime <= now && s.lastWithdrawTime <= s.endTime && s.startTime <= s.endTime
    ensures s.lastWithdrawTime <= BatchVisited(ids, i, s, now).lastWithdrawTime
    decreases |ids| - i
  {
    hide Flow;
    if i < |ids| {
      BatchMovesOn(ids, i + 1, if ids[i] == s.id then BatchDrawn(s, now) else s, now);
    }
  }
}
