/** The contract as a state machine on values: what its storage, the token balances and the ledger
    clock are worth, and for each entry point the state it leaves or the error it ends with.
    The class in SoroStream.dfy does the same work step by step and is proved to agree. */
module Ledger {
  import opened Prelude
  import opened VestingMath
  import opened Streams
  import opened TokenBank
  import opened Storage

  /** What the setters of the admin, guardian and fee entry points store. */
  datatype Config = Config(
    feeBps: int,
    treasury: Option<Address>,
    feeExempt: set<Address>,
    cooldown: int,
    minDuration: int,
    whitelistEnabled: bool,
    whitelist: set<Address>,
    maxStreams: int,
    senderLimits: map<Address, int>,
    creationFee: int,
    xlmToken: Option<Address>,
    admin: Option<Address>,
    guardian: Option<Address>,
    governance: Option<Address>)
  {
    function SenderLimit(sender: Address): int {
      if sender in senderLimits then senderLimits[sender] else maxStreams
    }
  }

  datatype State = State(
    now: int,
    streams: map<int, Stream>,
    bank: Bank,
    bySender: Directory,
    byRecipient: Directory,
    created: seq<int>,
    nonces: set<(Address, int)>,
    batchNonces: map<Address, int>,
    delegates: map<int, Address>,
    paused: bool,
    pauseExpiry: int,
    audit: seq<AuditEntry>,
    cfg: Config)

  datatype Post<+T> = Post(st: State, out: T)

  /** `derive_stream_id(sender, recipient, start_time, nonce)`: any function at all. */
  type Derive = (Address, Address, int, int) -> u64

  const MAX_PAUSE_DURATION := 72 * 60 * 60
  const FEE_DENOMINATOR := 10_000
  const PAGE := 20

  // ---- shared steps ----

  /** The contract never signs for itself. */
  function RequireAuth(a: Address): Check {
    Need(a != Contract, MissingAuth(a))
  }

  function RequireSigned(a: Address, signers: set<Address>): Check {
    Need(a != Contract && a in signers, MissingAuth(a))
  }

  /** `is_paused_or_auto_unpause`, with the flags it clears on the way. */
  function Gate(st: State): Result<State> {
    if !st.paused then Ok(st)
    else if st.pauseExpiry > 0 && st.now >= st.pauseExpiry then Ok(st.(paused := false, pauseExpiry := 0))
    else Err(ContractPaused)
  }

  function Load(st: State, id: int): Result<Stream> {
    if id in st.streams then Ok(st.streams[id]) else Err(StreamNotFound)
  }

  function Save(st: State, s: Stream): State {
    st.(streams := st.streams[s.id := s])
  }

  function Erase(st: State, id: int, s: Stream): State {
    st.(streams := st.streams - {id},
        bySender := Unlist(st.bySender, s.sender, id),
        byRecipient := Unlist(st.byRecipient, s.recipient, id))
  }

  /** Saves a new record and lists it in the three indexes. */
  function Enroll(st: State, s: Stream): Result<State> {
    var check := Need(|Listed(st.bySender, s.sender)| < U32_MAX, Panic);
    :- check;
    :- Need(|Listed(st.byRecipient, s.recipient)| < U32_MAX, Panic);
    :- Need(|st.created| < U32_MAX, Panic);
    Ok(Save(st, s).(bySender := List(st.bySender, s.sender, s.id),
                    byRecipient := List(st.byRecipient, s.recipient, s.id),
                    created := st.created + [s.id]))
  }

  predicate Manages(st: State, id: int, s: Stream, caller: Address) {
    s.sender == caller || (id in st.delegates && st.delegates[id] == caller)
  }

  function FeeOn(cfg: Config, recipient: Address, gross: int): Result<int> {
    if cfg.feeBps > 0 && recipient !in cfg.feeExempt then
      var product :- CheckedI128(gross * cfg.feeBps).OkOr(Overflow);
      Ok(product / FEE_DENOMINATOR)
    else
      Ok(0)
  }

  /** Splits a positive gross amount between recipient and treasury. Without a treasury the fee
      stays in the pool. */
  function PayClaim(st: State, s: Stream, gross: int): Result<Bank> {
    if gross <= 0 then Ok(st.bank)
    else
      var fee :- FeeOn(st.cfg, s.recipient, gross);
      var bank :- PayOut(st.bank, s.token, s.recipient, gross - fee);
      if st.cfg.treasury.Some? then PayOut(bank, s.token, st.cfg.treasury.value, fee) else Ok(bank)
  }

  /** The guard against paying past the deposit. */
  function DepositGuard(s: Stream, gross: int): Check {
    Need(gross <= 0 || I128_MIN <= s.totalWithdrawn + gross <= Min(s.deposit, I128_MAX), Overflow)
  }

  function Renew(st: State, s: Stream, bank: Bank, signers: set<Address>): Result<State> {
    var check := RequireSigned(s.sender, signers);
    :- check;
    var bank :- Transfer(bank, s.token, s.sender, Contract, s.deposit);
    var newEnd :- CheckedU64(s.endTime + (s.endTime - s.startTime)).OkOr(Overflow);
    Ok(Save(st.(bank := bank), Renewed(s, newEnd)))
  }

  /** What follows a withdrawal: keep, renew, complete in place, or pay the dust and delete.
      A `strict` settlement (the batch) renews without looking at the sender's balance. */
  function Settle(st: State, id: int, s: Stream, bank: Bank, signers: set<Address>, strict: bool): Result<State> {
    if st.now < s.endTime then
      Ok(Save(st.(bank := bank), s))
    else if s.autoRenew then
      if !strict && BalanceOf(bank, s.token, s.sender) < s.deposit then
        var bank :- PayOut(bank, s.token, s.sender, s.Dust());
        Ok(Save(st.(bank := bank), s.(status := Completed)))
      else
        Renew(st, s, bank, signers)
    else
      var bank :- PayOut(bank, s.token, s.sender, s.Dust());
      Ok(Erase(st.(bank := bank), id, s))
  }

  /** Pays out `gross`, moves the stream on and settles it. */
  function Draw(st: State, id: int, s: Stream, gross: int, signers: set<Address>, strict: bool): Result<State> {
    var check := DepositGuard(s, gross);
    :- check;
    var bank :- PayClaim(st, s, gross);
    Settle(st, id, Drawn(s, st.now, gross), bank, signers, strict)
  }

  /** Pays `toRecipient`, refunds the rest of the deposit and deletes the stream. */
  function Close(st: State, id: int, s: Stream, toRecipient: int): Result<State> {
    var bank :- PayOut(st.bank, s.token, s.recipient, toRecipient);
    var bank :- PayOut(bank, s.token, s.sender, RefundOf(s, toRecipient));
    Ok(Erase(st.(bank := bank), id, s))
  }

  function RefundOf(s: Stream, toRecipient: int): int {
    SaturatingI128(SaturatingI128(s.deposit - s.totalWithdrawn) - toRecipient)
  }

  // ---- entry points ----

  function CreationFee(st: State, sender: Address): Result<Bank> {
    if st.cfg.creationFee > 0 then
      var treasury :- st.cfg.treasury.OkOr(NotInitialized);
      var xlm :- st.cfg.xlmToken.OkOr(NotInitialized);
      Transfer(st.bank, xlm, sender, treasury, st.cfg.creationFee)
    else
      Ok(st.bank)
  }

  /** Takes the creation fee and the deposit of `s` from its sender and stores it. */
  function Lock(st: State, s: Stream, nonce: int): Result<State> {
    var bank :- TakeIn(st, s);
    Enroll(st.(bank := bank, nonces := st.nonces + {(s.sender, nonce)}), s)
  }

  function TakeIn(st: State, s: Stream): Result<Bank> {
    var bank :- CreationFee(st, s.sender);
    Transfer(bank, s.token, s.sender, Contract, s.deposit)
  }

  /** The record a creation would store, once every check has passed. */
  function NewStream(derive: Derive, st: State, sender: Address, recipient: Address, token: Address, amount: i128,
                     duration: u64, cliff: u64, nonce: u64, autoRenew: bool, lockUntil: u64,
                     allowTermination: bool): Result<Stream>
  {
    var check := Need((sender, nonce) !in st.nonces, DuplicateStream);
    :- check;
    :- Need(amount > 0, ZeroAmount);
    :- Need(cliff < duration, InvalidCliff);
    :- Need(!st.cfg.whitelistEnabled || recipient in st.cfg.whitelist, RecipientNotWhitelisted);
    :- Need(st.cfg.minDuration <= duration, StreamDurationTooShort);
    var flowRate := amount / duration;
    :- Need(flowRate != 0, ZeroFlowRate);
    :- Need(|Listed(st.bySender, sender)| < st.cfg.SenderLimit(sender), SenderStreamLimitExceeded);
    var endTime :- CheckedU64(st.now + duration).OkOr(Overflow);
    :- Need(st.now < endTime, InvalidEndTime);
    var cliffTime :- CheckedU64(st.now + cliff).OkOr(Overflow);
    var id := derive(sender, recipient, st.now, nonce);
    :- Need(id !in st.streams, StreamIdConflict);
    Ok(Created(id, sender, recipient, token, amount, flowRate, st.now, cliffTime, lockUntil, endTime,
               autoRenew, allowTermination))
  }

  function CreateStream(derive: Derive, st: State, sender: Address, recipient: Address, token: Address, amount: i128,
                        duration: u64, cliff: u64, nonce: u64, autoRenew: bool, lockUntil: u64,
                        allowTermination: bool): Result<Post<int>>
  {
    var check := RequireAuth(sender);
    :- check;
    var st :- Gate(st);
    var s :- NewStream(derive, st, sender, recipient, token, amount, duration, cliff, nonce, autoRenew, lockUntil,
                       allowTermination);
    var st :- Lock(st, s, nonce);
    Ok(Post(st, s.id))
  }

  function Withdraw(st: State, id: int, recipient: Address, signers: set<Address>): Result<State> {
    var st :- Gate(st);
    :- RequireAuth(recipient);
    var s :- Load(st, id);
    :- Need(s.recipient == recipient, NotRecipient);
    :- Need(s.status.Active?, StreamNotActive);
    :- Need(s.lockUntil <= st.now, StreamLocked);
    :- Need(st.cfg.cooldown <= 0 || SaturatingU64(s.lastWithdrawTime + st.cfg.cooldown) <= st.now,
            WithdrawalCooldownActive);
    var gross :- s.Claimable(st.now).OkOr(Overflow);
    Draw(st, id, s, gross, signers, false)
  }

  /** One entry of `batch_withdraw`: no cooldown and no cliff, and a strict settlement. */
  function BatchWithdrawOne(st: State, id: int, recipient: Address, signers: set<Address>): Result<Post<int>> {
    var s :- Load(st, id);
    :- Need(s.recipient == recipient, NotRecipient);
    :- Need(s.status.Active?, StreamNotActive);
    :- Need(s.lockUntil <= st.now, StreamLocked);
    var gross :- s.Earned(st.now).OkOr(Overflow);
    var st :- Draw(st, id, s, gross, signers, true);
    Ok(Post(st, gross))
  }

  /** Entries `i` and later, after the earlier ones paid `amounts`. */
  function BatchWithdrawFrom(st: State, ids: seq<int>, i: nat, amounts: seq<int>, recipient: Address,
                             signers: set<Address>): Result<Post<seq<int>>>
    requires i <= |ids|
    decreases |ids| - i
  {
    if i == |ids| then Ok(Post(st, amounts))
    else
      var p :- BatchWithdrawOne(st, ids[i], recipient, signers);
      BatchWithdrawFrom(p.st, ids, i + 1, amounts + [p.out], recipient, signers)
  }

  function BatchWithdraw(st: State, ids: seq<int>, recipient: Address, signers: set<Address>): Result<Post<seq<int>>> {
    var st :- Gate(st);
    :- RequireAuth(recipient);
    BatchWithdrawFrom(st, ids, 0, [], recipient, signers)
  }

  function CancelStream(st: State, id: int, caller: Address): Result<State> {
    var check := RequireAuth(caller);
    :- check;
    var s :- Load(st, id);
    :- Need(Manages(st, id, s, caller), NotAuthorized);
    :- Need(s.Live(), StreamNotActive);
    var toRecipient :- s.Earned(s.Clock(st.now)).OkOr(Overflow);
    Close(st, id, s, toRecipient)
  }

  function RecipientTerminate(st: State, id: int, recipient: Address): Result<State> {
    var st :- Gate(st);
    :- RequireAuth(recipient);
    var s :- Load(st, id);
    :- Need(s.recipient == recipient, NotRecipient);
    :- Need(s.allowRecipientTermination, NotAuthorized);
    :- Need(s.Live(), StreamNotActive);
    var toRecipient :- s.Claimable(s.Clock(st.now)).OkOr(Overflow);
    Close(st, id, s, toRecipient)
  }

  /** One entry of `batch_cancel_stream`: the ledger clock, for paused streams too. */
  function BatchCancelOne(st: State, id: int, sender: Address): Result<State> {
    var s :- Load(st, id);
    :- Need(s.sender == sender, NotSender);
    :- Need(s.Live(), StreamNotActive);
    var toRecipient :- s.Earned(st.now).OkOr(Overflow);
    Close(st, id, s, toRecipient)
  }

  /** An entry's own error is recorded and the state kept; a trap ends the whole call. */
  function BatchCancelFrom(st: State, ids: seq<int>, i: nat, results: seq<Result<()>>, sender: Address)
    : Result<Post<seq<Result<()>>>>
    requires i <= |ids|
    decreases |ids| - i
  {
    if i == |ids| then Ok(Post(st, results))
    else
      match BatchCancelOne(st, ids[i], sender)
      case Ok(st') => BatchCancelFrom(st', ids, i + 1, results + [Ok(())], sender)
      case Err(e) =>
        if e.IsTrap() then Err(e)
        else BatchCancelFrom(st, ids, i + 1, results + [Err(e)], sender)
  }

  function BatchCancel(st: State, ids: seq<int>, sender: Address): Result<Post<seq<Result<()>>>> {
    var check := RequireAuth(sender);
    :- check;
    :- Need(1 <= |ids| <= 20, BatchLengthMismatch);
    BatchCancelFrom(st, ids, 0, [], sender)
  }

  /** The stream after the payout of a recipient transfer, and the bank. */
  function TransferPayout(st: State, s: Stream): Result<(Bank, Stream)> {
    var t := s.Clock(st.now);
    if t < s.lockUntil || t < s.cliffTime then Ok((st.bank, s))
    else
      var gross :- s.Claimable(t).OkOr(Overflow);
      if gross <= 0 then Ok((st.bank, s))
      else
        var bank :- PayClaim(st, s, gross);
        var total :- CheckedI128(s.totalWithdrawn + gross).OkOr(Overflow);
        Ok((bank, Drawn(s, t, gross)))
  }

  /** Saves `s`, and moves its id from the list of `from` to the list of its recipient. */
  function Reassign(st: State, id: int, from: Address, s: Stream): Result<State> {
    var byRecipient := Unlist(st.byRecipient, from, id);
    :- Need(|Listed(byRecipient, s.recipient)| < U32_MAX, Panic);
    Ok(Save(st, s).(byRecipient := List(byRecipient, s.recipient, id)))
  }

  function TransferRecipient(st: State, id: int, current: Address, next: Address): Result<State> {
    var st :- Gate(st);
    :- RequireAuth(current);
    var s :- Load(st, id);
    :- Need(s.recipient == current, NotRecipient);
    :- Need(s.Live(), StreamNotActive);
    HandOver(st, id, s, next)
  }

  function HandOver(st: State, id: int, s: Stream, next: Address): Result<State> {
    var paid :- TransferPayout(st, s);
    Reassign(st.(bank := paid.0), id, s.recipient, paid.1.(recipient := next))
  }

  datatype Terms = Terms(earned: int, kept: int, newEnd: int)

  /** What a partial cancel at clock `t` pays and keeps, with the clock not capped by the end. */
  function PartialTerms(s: Stream, t: int, amount: int): Result<Terms> {
    var earned :- CheckedI128(Flow(s.flowRate, SaturatingU64(t - s.lastWithdrawTime))).OkOr(Overflow);
    var streamed :- CheckedI128(Flow(s.flowRate, SaturatingU64(t - s.startTime))).OkOr(Overflow);
    var remaining := SaturatingI128(s.deposit - streamed);
    :- Need(amount < remaining && s.flowRate <= remaining - amount, InvalidPartialCancel);
    var kept := remaining - amount;
    :- Need(s.flowRate != 0, Panic);
    var seconds :- CheckedU64(kept / s.flowRate).OkOr(Overflow);
    var newEnd :- CheckedU64(t + seconds).OkOr(Overflow);
    Ok(Terms(earned, kept, newEnd))
  }

  function PartialCancel(derive: Derive, st: State, id: int, caller: Address, amount: i128): Result<Post<int>> {
    var check := RequireAuth(caller);
    :- check;
    var s :- Load(st, id);
    :- Need(Manages(st, id, s, caller), NotAuthorized);
    :- Need(s.Live(), StreamNotActive);
    :- Need(amount > 0, ZeroAmount);
    var t := s.Clock(st.now);
    var terms :- PartialTerms(s, t, amount);
    var newId := derive(s.sender, s.recipient, t, id);
    var st :- Split(st, s, amount, terms, Replacement(s, newId, t, terms.kept, terms.newEnd));
    Ok(Post(st, newId))
  }

  /** Pays both parties, cancels `s` and stores its replacement, whatever the replacement's id. */
  function Split(st: State, s: Stream, amount: int, terms: Terms, heir: Stream): Result<State> {
    var bank :- PayOut(st.bank, s.token, s.recipient, terms.earned);
    var bank :- Transfer(bank, s.token, Contract, s.sender, amount);
    Enroll(Save(st.(bank := bank), s.(status := Cancelled)), heir)
  }

  function TopUp(st: State, id: int, caller: Address, token: Address, amount: i128): Result<State> {
    var st :- Gate(st);
    :- RequireAuth(caller);
    var s :- Load(st, id);
    :- Need(Manages(st, id, s, caller), NotAuthorized);
    :- Need(s.token == token, TokenMismatch);
    :- Need(s.Live(), StreamNotActive);
    :- Need(amount > 0, ZeroAmount);
    Extend(st, s, caller, amount)
  }

  /** Takes the part of `amount` that is a multiple of the flow rate and extends the stream by it. */
  function Extend(st: State, s: Stream, caller: Address, amount: int): Result<State> {
    var check := Need(s.flowRate != 0, Panic);
    :- check;
    var effective := amount - amount % s.flowRate;
    :- Need(effective > 0, ZeroAmount);
    var bank :- Transfer(st.bank, s.token, caller, Contract, effective);
    var seconds :- CheckedU64(effective / s.flowRate).OkOr(Overflow);
    var endTime :- CheckedU64(s.endTime + seconds).OkOr(Overflow);
    var deposit :- CheckedI128(s.deposit + effective).OkOr(Overflow);
    Ok(Save(st.(bank := bank), ToppedUp(s, seconds, effective)))
  }

  function PauseStream(st: State, id: int, sender: Address): Result<State> {
    var st :- Gate(st);
    :- RequireAuth(sender);
    var s :- Load(st, id);
    :- Need(s.sender == sender, NotSender);
    :- Need(s.status.Active?, StreamNotActive);
    Ok(Save(st, PausedAt(s, st.now)))
  }

  function ResumeStream(st: State, id: int, sender: Address): Result<State> {
    var st :- Gate(st);
    :- RequireAuth(sender);
    var s :- Load(st, id);
    :- Need(s.sender == sender, NotSender);
    :- Need(s.status.Paused?, StreamNotPaused);
    Ok(Save(st, Resumed(s, st.now)))
  }

  function CancelAutoRenew(st: State, id: int, sender: Address): Result<State> {
    var check := RequireAuth(sender);
    :- check;
    var s :- Load(st, id);
    :- Need(s.sender == sender, NotSender);
    Ok(Save(st, s.(autoRenew := false)))
  }

  /** `delegate` with an operator, `revoke_delegate` with none. */
  function SetDelegate(st: State, id: int, sender: Address, operator: Option<Address>): Result<State> {
    var check := RequireAuth(sender);
    :- check;
    var s :- Load(st, id);
    :- Need(s.sender == sender, NotSender);
    Ok(st.(delegates := if operator.Some? then st.delegates[id := operator.value] else st.delegates - {id}))
  }

  function ArchiveStream(st: State, id: int, caller: Address): Result<State> {
    var check := RequireAuth(caller);
    :- check;
    var s :- Load(st, id);
    :- Need(s.sender == caller || s.recipient == caller, NotAuthorized);
    :- Need(SaturatingI128(s.totalWithdrawn + s.Dust()) >= s.deposit, StreamNotSettled);
    Ok(Erase(st, id, s).(delegates := st.delegates - {id}))
  }

  function NextBatchNonce(st: State, sender: Address): int {
    if sender in st.batchNonces then st.batchNonces[sender] else 0
  }

  datatype BatchOrder = BatchOrder(sender: Address, recipients: seq<Address>, amounts: seq<i128>, tokens: seq<Address>,
                                   duration: u64, autoRenew: bool, lockUntils: seq<u64>)
  {
    predicate Aligned() {
      |recipients| == |amounts| == |tokens| == |lockUntils|
    }
  }

  /** The pre-pass from entry `i`: every check, and the ids, before anything is written. */
  function BatchIdsFrom(derive: Derive, st: State, order: BatchOrder, i: nat, ids: seq<int>): (r: Result<seq<int>>)
    requires order.Aligned() && order.duration != 0 && |ids| == i <= |order.amounts|
    ensures r.Ok? ==> |r.value| == |order.amounts| && ids <= r.value
    decreases |order.amounts| - i
  {
    if i == |order.amounts| then Ok(ids)
    else
      :- Need(order.amounts[i] > 0, ZeroAmount);
      :- Need(order.amounts[i] / order.duration != 0, ZeroFlowRate);
      var id := derive(order.sender, order.recipients[i], st.now, i);
      :- Need(id !in st.streams, DuplicateStreamId);
      :- Need(id !in ids, DuplicateStreamId);
      BatchIdsFrom(derive, st, order, i + 1, ids + [id])
  }

  function BatchStream(st: State, order: BatchOrder, i: nat, id: int): Stream
    requires order.Aligned() && order.duration != 0 && i < |order.amounts|
  {
    Created(id, order.sender, order.recipients[i], order.tokens[i], order.amounts[i], order.amounts[i] / order.duration,
            st.now, st.now, order.lockUntils[i], st.now + order.duration, order.autoRenew, false)
  }

  /** The second pass from entry `i`. */
  function BatchCreateFrom(st: State, order: BatchOrder, i: nat, ids: seq<int>): Result<State>
    requires order.Aligned() && order.duration != 0 && i <= |order.amounts| == |ids|
    decreases |order.amounts| - i
  {
    if i == |order.amounts| then Ok(st)
    else
      var st :- BatchCreateOne(st, order, i, ids[i]);
      BatchCreateFrom(st, order, i + 1, ids)
  }

  function BatchCreateOne(st: State, order: BatchOrder, i: nat, id: int): Result<State>
    requires order.Aligned() && order.duration != 0 && i < |order.amounts|
  {
    var bank :- Transfer(st.bank, order.tokens[i], order.sender, Contract, order.amounts[i]);
    Enroll(st.(bank := bank), BatchStream(st, order, i, id))
  }

  /** Both passes. */
  function BatchFill(derive: Derive, st: State, order: BatchOrder): Result<Post<seq<int>>>
    requires order.Aligned() && order.duration != 0
  {
    var ids :- BatchIdsFrom(derive, st, order, 0, []);
    var st :- BatchCreateFrom(st, order, 0, ids);
    Ok(Post(st, ids))
  }

  function BatchCreate(derive: Derive, st: State, order: BatchOrder, nonce: u64): Result<Post<seq<int>>> {
    var st :- Gate(st);
    :- RequireAuth(order.sender);
    :- Need(nonce == NextBatchNonce(st, order.sender), InvalidNonce);
    :- Need(nonce + 1 <= U64_MAX, Panic);
    var st := st.(batchNonces := st.batchNonces[order.sender := nonce + 1]);
    :- Need(order.Aligned(), BatchLengthMismatch);
    var endTime :- CheckedU64(st.now + order.duration).OkOr(Overflow);
    :- Need(st.now < endTime, InvalidDuration);
    var count := |Listed(st.bySender, order.sender)| + |order.recipients|;
    :- Need(count <= U32_MAX, Panic);
    :- Need(count <= st.cfg.SenderLimit(order.sender), SenderStreamLimitExceeded);
    BatchFill(derive, st, order)
  }

  // ---- the global pause ----

  /** 72 hours after the pause, or the last moment of `u64` when that does not fit. */
  function PauseExpiry(now: int): int {
    CheckedU64(now + MAX_PAUSE_DURATION).UnwrapOr(U64_MAX)
  }

  function CheckAdmin(cfg: Config, caller: Address): Check {
    if cfg.admin.None? then Fail(Panic)
    else Need(caller == cfg.admin.value && caller != Contract, MissingAuth(cfg.admin.value))
  }

  function EmergencyPause(st: State, caller: Address): Result<State> {
    var check := CheckAdmin(st.cfg, caller);
    :- check;
    Ok(st.(paused := true, pauseExpiry := PauseExpiry(st.now),
           audit := st.audit + [AuditEntry("emergency_pause", caller, st.now, "")]))
  }

  function EmergencyResume(st: State, caller: Address): Result<State> {
    var check := CheckAdmin(st.cfg, caller);
    :- check;
    Ok(st.(paused := false, pauseExpiry := 0,
           audit := st.audit + [AuditEntry("emergency_resume", caller, st.now, "")]))
  }

  function GuardianPause(st: State, guardian: Address): Result<State> {
    var check := RequireAuth(guardian);
    :- check;
    :- Need(st.cfg.guardian == Some(guardian), NotAuthorized);
    Ok(st.(paused := true, pauseExpiry := PauseExpiry(st.now)))
  }

  function GovernanceUnpause(st: State, governance: Address): Result<State> {
    var check := RequireAuth(governance);
    :- check;
    :- Need(st.cfg.governance == Some(governance), NotAuthorized);
    Ok(st.(paused := false, pauseExpiry := 0))
  }

  function IsPaused(st: State): Post<bool> {
    match Gate(st)
    case Ok(st') => Post(st', false)
    case Err(_) => Post(st, true)
  }

  // ---- queries ----

  function GetClaimable(st: State, id: int): Result<int> {
    var s :- Load(st, id);
    var t := s.Clock(st.now);
    if !s.Live() || t < s.cliffTime then Ok(0) else s.Claimable(t).OkOr(Overflow)
  }

  // ---- runs ----

  /** Everything that can happen: the entry points, the clock, and the token contracts moving
      money that is not the stream contract's. */
  datatype Call =
    | Tick(seconds: nat)
    | TokenMint(token: Address, to: Address, minted: nat)
    | TokenTransfer(token: Address, from: Address, to: Address, moved: nat)
    | DoConfigure(cfg: Config)
    | DoEmergencyPause(caller: Address)
    | DoEmergencyResume(caller: Address)
    | DoGuardianPause(caller: Address)
    | DoGovernanceUnpause(caller: Address)
    | DoIsPaused
    | DoCreateStream(sender: Address, recipient: Address, token: Address, amount: i128, duration: u64, cliff: u64,
                     nonce: u64, autoRenew: bool, lockUntil: u64, allowTermination: bool)
    | DoWithdraw(id: int, caller: Address, signers: set<Address>)
    | DoBatchWithdraw(ids: seq<int>, caller: Address, signers: set<Address>)
    | DoCancelStream(id: int, caller: Address)
    | DoBatchCancel(ids: seq<int>, caller: Address)
    | DoRecipientTerminate(id: int, caller: Address)
    | DoTransferRecipient(id: int, caller: Address, next: Address)
    | DoPartialCancel(id: int, caller: Address, amount: i128)
    | DoTopUp(id: int, caller: Address, token: Address, amount: i128)
    | DoPauseStream(id: int, caller: Address)
    | DoResumeStream(id: int, caller: Address)
    | DoCancelAutoRenew(id: int, caller: Address)
    | DoSetDelegate(id: int, caller: Address, operator: Option<Address>)
    | DoBatchCreate(order: BatchOrder, nonce: u64)
    | DoArchive(id: int, caller: Address)

  {
    /** Everything but the stream entry points. */
    predicate IsAdmin() {
      Tick? || TokenMint? || TokenTransfer? || DoConfigure? || DoEmergencyPause? || DoEmergencyResume?
      || DoGuardianPause? || DoGovernanceUnpause? || DoIsPaused?
    }
  }

  function StateOf<T>(r: Result<Post<T>>): Result<State> {
    var p :- r;
    Ok(p.st)
  }

  function ApplyAdmin(st: State, call: Call): Result<State>
    requires call.IsAdmin()
  {
    match call
    case Tick(seconds) =>
      :- Need(st.now + seconds <= U64_MAX, Overflow);
      Ok(st.(now := st.now + seconds))
    case TokenMint(token, to, minted) => Ok(st.(bank := Credit(st.bank, token, to, minted)))
    case TokenTransfer(token, from, to, moved) =>
      :- RequireAuth(from);
      var bank :- Transfer(st.bank, token, from, to, moved);
      Ok(st.(bank := bank))
    case DoConfigure(cfg) =>
      :- Need(0 <= cfg.feeBps <= FEE_DENOMINATOR, InvalidDuration);
      Ok(st.(cfg := cfg))
    case DoEmergencyPause(caller) => EmergencyPause(st, caller)
    case DoEmergencyResume(caller) => EmergencyResume(st, caller)
    case DoGuardianPause(caller) => GuardianPause(st, caller)
    case DoGovernanceUnpause(caller) => GovernanceUnpause(st, caller)
    case DoIsPaused => Ok(IsPaused(st).st)
  }

  function ApplyStream(derive: Derive, st: State, call: Call): Result<State>
    requires !call.IsAdmin()
  {
    match call
    case DoCreateStream(sender, recipient, token, amount, duration, cliff, nonce, autoRenew, lockUntil, allow) =>
      StateOf(CreateStream(derive, st, sender, recipient, token, amount, duration, cliff, nonce, autoRenew, lockUntil,
                           allow))
    case DoWithdraw(id, caller, signers) => Withdraw(st, id, caller, signers)
    case DoBatchWithdraw(ids, caller, signers) => StateOf(BatchWithdraw(st, ids, caller, signers))
    case DoCancelStream(id, caller) => CancelStream(st, id, caller)
    case DoBatchCancel(ids, caller) => StateOf(BatchCancel(st, ids, caller))
    case DoRecipientTerminate(id, caller) => RecipientTerminate(st, id, caller)
    case DoTransferRecipient(id, caller, next) => TransferRecipient(st, id, caller, next)
    case DoPartialCancel(id, caller, amount) => StateOf(PartialCancel(derive, st, id, caller, amount))
    case DoTopUp(id, caller, token, amount) => TopUp(st, id, caller, token, amount)
    case DoPauseStream(id, caller) => PauseStream(st, id, caller)
    case DoResumeStream(id, caller) => ResumeStream(st, id, caller)
    case DoCancelAutoRenew(id, caller) => CancelAutoRenew(st, id, caller)
    case DoSetDelegate(id, caller, operator) => SetDelegate(st, id, caller, operator)
    case DoBatchCreate(order, nonce) => StateOf(BatchCreate(derive, st, order, nonce))
    case DoArchive(id, caller) => ArchiveStream(st, id, caller)
  }

  function Apply(derive: Derive, st: State, call: Call): Result<State> {
    if call.IsAdmin() then ApplyAdmin(st, call) else ApplyStream(derive, st, call)
  }

  /** A failed invocation leaves no trace. */
  function Exec(derive: Derive, st: State, call: Call): State {
    match Apply(derive, st, call)
    case Ok(st') => st'
    case Err(_) => st
  }

  function Run(derive: Derive, st: State, calls: seq<Call>): State {
    if calls == [] then st
    else Exec(derive, Run(derive, st, calls[..|calls| - 1]), calls[|calls| - 1])
  }
}
