/** Who may act, and what a refusal means: every error that a call reports states a fact about the
    state it was made in, for whatever arguments. With the conditions for success in Payments.dfy, Batches.dfy,
    PauseShift.dfy and Runs.dfy this says when calls fail and that they give a true reason. */
module Refusals {
  import opened Prelude
  import opened VestingMath
  import opened Streams
  import opened TokenBank
  import opened Storage
  import opened Ledger
  import opened Invariants
  import opened Custody
  import opened Records
  import opened Runs
  import opened Payments
  import opened Batches

  // ---- delegates and the renewal flag ----

  /** Only the sender appoints or removes the operator of a stream; then, besides the sender, exactly that
      operator may cancel it, and cancels or splits it just as the sender would. Operators of other streams stay. */
  lemma DelegateExactly(derive: Derive, st: State, id: int, sender: Address, operator: Option<Address>, caller: Address,
                        amount: i128)
    requires Funded(st) && caller != Contract
    ensures SetDelegate(st, id, sender, operator).Ok?
            <==> sender != Contract && id in st.streams && st.streams[id].sender == sender
    ensures SetDelegate(st, id, sender, operator).Ok? ==>
              var st' := SetDelegate(st, id, sender, operator).value;
              && st' == st.(delegates := st'.delegates)
              && (forall x :: x != id ==> (x in st'.delegates <==> x in st.delegates))
              && (forall x :: x != id && x in st.delegates ==> st'.delegates[x] == st.delegates[x])
              && (CancelStream(st', id, caller).Ok?
                  <==> st.streams[id].Live() && (caller == sender || operator == Some(caller)))
              && (CancelStream(st', id, caller).Ok? ==>
                    && CancelStream(st', id, caller) == CancelStream(st', id, sender)
                    && PartialCancel(derive, st', id, caller, amount) == PartialCancel(derive, st', id, sender, amount))
  {
    hide Close, Split, PartialTerms, Paid, Owed, Flow;
    if SetDelegate(st, id, sender, operator).Ok? {
      var st' := SetDelegate(st, id, sender, operator).value;
      assert Funded(st');
      CancelExactly(st', id, caller);
    }
  }

  /** Only the sender switches renewal off; the record changes in nothing else and no token moves. Over any run
      the flag is never set again (`Lifetimes.LivesEveryRun`). */
  lemma CancelAutoRenewExactly(st: State, id: int, sender: Address)
    requires Funded(st)
    ensures CancelAutoRenew(st, id, sender).Ok?
            <==> sender != Contract && id in st.streams && st.streams[id].sender == sender
    ensures CancelAutoRenew(st, id, sender).Ok? ==>
              var st' := CancelAutoRenew(st, id, sender).value;
              && id in st'.streams && !st'.streams[id].autoRenew
              && st' == st.(streams := st.streams[id := st.streams[id].(autoRenew := false)])
  {
  }

  /** Settings are accepted exactly with a fee of at most all of a payment, 10,000 basis points, and change
      nothing but themselves. */
  lemma SettingsExactly(derive: Derive, st: State, cfg: Config)
    ensures Apply(derive, st, DoConfigure(cfg)).Ok? <==> 0 <= cfg.feeBps <= 10_000
    ensures Apply(derive, st, DoConfigure(cfg)).Ok? ==> Apply(derive, st, DoConfigure(cfg)).value == st.(cfg := cfg)
    ensures Apply(derive, st, DoConfigure(cfg)).Err? ==> Apply(derive, st, DoConfigure(cfg)).error == InvalidDuration
  {
  }

  // ---- calls that name one stream ----

  /** The calls about one stream. */
  predicate NamesOne(call: Call) {
    RewritesOne(call) || call.DoPartialCancel? || call.DoSetDelegate?
  }

  /** Who has to sign a stream entry point. */
  function CallerOf(call: Call): Address
    requires !call.IsAdmin()
  {
    if call.DoCreateStream? then call.sender
    else if call.DoBatchCreate? then call.order.sender
    else call.caller
  }

  /** What is left of the deposit for the replacement. */
  function LeftOver(s: Stream, now: int, amount: int): int {
    s.deposit - Flow(s.flowRate, s.Clock(now) - s.startTime) - amount
  }

  /** The reason `e` for refusing the call on the stored stream `s` is a true one. */
  predicate TrueOf(st: State, call: Call, s: Stream, e: Error)
    requires NamesOne(call) && 0 < s.flowRate
  {
    match e
    case NotRecipient =>
      (call.DoWithdraw? || call.DoRecipientTerminate? || call.DoTransferRecipient?) && s.recipient != call.caller
    case NotSender =>
      (call.DoPauseStream? || call.DoResumeStream? || call.DoCancelAutoRenew? || call.DoSetDelegate?)
      && s.sender != call.caller
    case NotAuthorized =>
      || ((call.DoCancelStream? || call.DoPartialCancel? || call.DoTopUp?) && !Manages(st, call.id, s, call.caller))
      || (call.DoRecipientTerminate? && !s.allowRecipientTermination)
      || (call.DoArchive? && s.sender != call.caller && s.recipient != call.caller)
    case StreamNotActive =>
      if call.DoWithdraw? || call.DoPauseStream? then !s.status.Active?
      else (call.DoCancelStream? || call.DoRecipientTerminate? || call.DoTransferRecipient? || call.DoPartialCancel?
            || call.DoTopUp?) && !s.Live()
    case StreamNotPaused => call.DoResumeStream? && !s.status.Paused?
    case StreamLocked => call.DoWithdraw? && st.now < s.lockUntil
    case WithdrawalCooldownActive =>
      call.DoWithdraw? && 0 < st.cfg.cooldown && st.now < Min(s.lastWithdrawTime + st.cfg.cooldown, U64_MAX)
    case TokenMismatch => call.DoTopUp? && s.token != call.token
    case ZeroAmount => (call.DoPartialCancel? && call.amount <= 0) || (call.DoTopUp? && call.amount < s.flowRate)
    case InvalidPartialCancel => call.DoPartialCancel? && LeftOver(s, st.now, call.amount) < s.flowRate
    case StreamNotSettled => call.DoArchive? && s.totalWithdrawn != Flow(s.flowRate, s.endTime - s.startTime)
    case Overflow =>
      || (call.DoWithdraw? && 0 < Due(s, st.now) && FeeOverflows(st.cfg, s.recipient, Due(s, st.now)))
      || (call.DoWithdraw? && s.autoRenew && s.endTime <= st.now && U64_MAX < s.endTime + (s.endTime - s.startTime))
      || (call.DoTransferRecipient? && FeeOverflows(st.cfg, s.recipient, Due(s, s.Clock(st.now))))
      || (call.DoTopUp? && U64_MAX < s.endTime + call.amount / s.flowRate)
      || (call.DoTopUp? && I128_MAX < s.deposit + (call.amount - call.amount % s.flowRate))
      || (call.DoPartialCancel? && I128_MAX < Flow(s.flowRate, s.Clock(st.now) - s.startTime))
      || (call.DoPartialCancel? && U64_MAX < s.Clock(st.now) + LeftOver(s, st.now, call.amount) / s.flowRate)
    case TransferFailed(from) =>
      call.DoTopUp? && from == call.caller
      && BalanceOf(st.bank, s.token, from) < call.amount - call.amount % s.flowRate
    case MissingAuth(a) =>
      call.DoWithdraw? && a == s.sender && a !in call.signers && s.autoRenew && s.endTime <= st.now
    case Panic =>
      || (call.DoTransferRecipient? && |Listed(Unlist(st.byRecipient, s.recipient, s.id), call.next)| >= U32_MAX)
      || (call.DoPartialCancel? && !HasRoom(st, s.sender, s.recipient))
    case _ => false
  }

  /** The reason `e` is true in `st`. */
  ghost predicate Justified(st: State, call: Call, e: Error)
    requires Funded(st) && NamesOne(call)
  {
    match e
    case ContractPaused => Stoppable(call) && Stopped(st)
    case StreamNotFound => call.id !in st.streams
    case _ =>
      || (call.caller == Contract && e == MissingAuth(Contract))
      || (call.id in st.streams && TrueOf(st, call, st.streams[call.id], e))
  }

  /** A failed call about one stream gives a true reason. */
  lemma RefusalsAreTrue(derive: Derive, st: State, call: Call)
    requires Funded(st) && NamesOne(call) && ApplyStream(derive, st, call).Err?
    ensures Justified(st, call, ApplyStream(derive, st, call).error)
  {
    match call
    case DoWithdraw(_, _, _) => WithdrawRefusal(derive, st, call);
    case DoTransferRecipient(_, _, _) => TransferRefusal(derive, st, call);
    case DoTopUp(_, _, _, _) => TopUpRefusal(derive, st, call);
    case DoPartialCancel(_, _, _) => PartialRefusal(derive, st, call);
    case DoCancelStream(_, _) => CloseRefusal(derive, st, call);
    case DoRecipientTerminate(_, _) => CloseRefusal(derive, st, call);
    case DoArchive(_, _) => ArchiveRefusal(derive, st, call);
    case _ => PlainRefusal(derive, st, call);
  }

  lemma PlainRefusal(derive: Derive, st: State, call: Call)
    requires call.DoPauseStream? || call.DoResumeStream? || call.DoCancelAutoRenew? || call.DoSetDelegate?
    requires Funded(st) && ApplyStream(derive, st, call).Err?
    ensures Justified(st, call, ApplyStream(derive, st, call).error)
  {
    hide Flow, Owed;
    GateInv(st);
  }

  lemma ArchiveRefusal(derive: Derive, st: State, call: Call)
    requires Funded(st) && call.DoArchive? && ApplyStream(derive, st, call).Err?
    ensures Justified(st, call, ApplyStream(derive, st, call).error)
  {
    hide Flow, Owed, Removed;
    ArchiveExactly(st, call.id, call.caller);
  }

  lemma CloseRefusal(derive: Derive, st: State, call: Call)
    requires Funded(st) && (call.DoCancelStream? || call.DoRecipientTerminate?) && ApplyStream(derive, st, call).Err?
    ensures Justified(st, call, ApplyStream(derive, st, call).error)
  {
    hide Flow, Owed, Close;
    GateInv(st);
    CancelExactly(st, call.id, call.caller);
    TerminateExactly(st, call.id, call.caller);
  }

  lemma WithdrawRefusal(derive: Derive, st: State, call: Call)
    requires Funded(st) && call.DoWithdraw? && ApplyStream(derive, st, call).Err?
    ensures Justified(st, call, ApplyStream(derive, st, call).error)
  {
    hide Flow, Owed, Draw, Settle, PayClaim;
    GateInv(st);
    WithdrawSteps(st, call.id, call.caller, call.signers);
    WithdrawSafe(st, call.id, call.caller, call.signers);
    if Withdrawable(st, call.id, call.caller) {
      var g := Opened(st);
      var s := g.streams[call.id];
      var gross := Due(s, g.now);
      if PayClaim(g, s, gross).Ok? {
        SettleRefusal(g, call.id, Drawn(s, g.now, gross), PayClaim(g, s, gross).value, call.signers, false);
      }
    }
  }

  lemma SettleRefusal(st: State, id: int, s: Stream, bank: Bank, signers: set<Address>, strict: bool)
    requires s.Sound(st.now) && Settle(st, id, s, bank, signers, strict).Err?
    ensures st.now >= s.endTime
    ensures Settle(st, id, s, bank, signers, strict).error == TransferFailed(Contract)
            || (s.autoRenew
                && match Settle(st, id, s, bank, signers, strict).error
                   case MissingAuth(a) => a == s.sender && a !in signers
                   case TransferFailed(from) => strict && from == s.sender && BalanceOf(bank, s.token, from) < s.deposit
                   case Overflow => U64_MAX < s.endTime + (s.endTime - s.startTime)
                   case _ => false)
  {
    hide Flow;
    ClaimNonNegative(s, st.now);
  }

  lemma TransferRefusal(derive: Derive, st: State, call: Call)
    requires Funded(st) && call.DoTransferRecipient? && ApplyStream(derive, st, call).Err?
    ensures Justified(st, call, ApplyStream(derive, st, call).error)
  {
    hide Flow, Owed, HandOver, FeeOverflows, Unlist, DueAtHandOver;
    GateInv(st);
    if Gate(st).Ok? && call.id in st.streams && st.streams[call.id].Live()
       && HandOver(Gate(st).value, call.id, st.streams[call.id], call.next).Err? {
      HandOverRefusal(Gate(st).value, call.id, call.next);
    }
  }

  lemma HandOverRefusal(st: State, id: int, next: Address)
    requires Funded(st) && id in st.streams && st.streams[id].Live() && HandOver(st, id, st.streams[id], next).Err?
    ensures var s := st.streams[id]; var e := HandOver(st, id, s, next).error;
            || (e == Overflow && FeeOverflows(st.cfg, s.recipient, Due(s, s.Clock(st.now))))
            || (e == Panic && |Listed(Unlist(st.byRecipient, s.recipient, id), next)| >= U32_MAX)
  {
    hide Flow, Owed, FeeOverflows, Unlist, PayClaim;
    var s := st.streams[id];
    ClaimWithinDeposit(s, st.now);
    PoolCovers(st, id);
    PayClaimSpends(st, s, Due(s, s.Clock(st.now)));
    if TransferPayout(st, s).Ok? { PayoutRecord(st, s); }
  }

  lemma TopUpRefusal(derive: Derive, st: State, call: Call)
    requires Funded(st) && call.DoTopUp? && ApplyStream(derive, st, call).Err?
    ensures Justified(st, call, ApplyStream(derive, st, call).error)
  {
    hide Flow, Owed, Extend, TrueOf;
    GateInv(st);
    if Gate(st).Ok? && call.caller != Contract && call.id in st.streams {
      var g := Opened(st);
      var s := st.streams[call.id];
      SoundTimes(s, st.now);
      if Manages(st, call.id, s, call.caller) && s.token == call.token && s.Live() && 0 < call.amount {
        assert TopUp(st, call.id, call.caller, call.token, call.amount) == Extend(g, s, call.caller, call.amount);
        ExtendRefusal(g, call, s);
      } else {
        TopUpChecks(st, call, s);
      }
      OpenedTrue(st, call, s, ApplyStream(derive, st, call).error);
    }
  }

  lemma OpenedTrue(st: State, call: Call, s: Stream, e: Error)
    requires NamesOne(call) && 0 < s.flowRate
    ensures TrueOf(Opened(st), call, s, e) <==> TrueOf(st, call, s, e)
    ensures TrueOf(st, call, s, e) ==> e != ContractPaused && e != StreamNotFound
  {
    hide Flow, FeeOverflows;
  }

  lemma TopUpChecks(st: State, call: Call, s: Stream)
    requires Gate(st).Ok? && call.DoTopUp? && call.caller != Contract && 0 < s.flowRate
    requires call.id in st.streams && st.streams[call.id] == s
    requires !(Manages(st, call.id, s, call.caller) && s.token == call.token && s.Live() && 0 < call.amount)
    ensures TopUp(st, call.id, call.caller, call.token, call.amount).Err?
            && TrueOf(st, call, s, TopUp(st, call.id, call.caller, call.token, call.amount).error)
  {
    hide Flow, Extend;
    GateInv(st);
  }

  lemma ExtendRefusal(st: State, call: Call, s: Stream)
    requires call.DoTopUp? && s.Sound(st.now) && 0 < call.amount && Extend(st, s, call.caller, call.amount).Err?
    ensures TrueOf(st, call, s, Extend(st, s, call.caller, call.amount).error)
  {
    hide Flow;
    SoundTimes(s, st.now);
    ClaimNonNegative(s, st.now);
    EffectiveAmount(s.flowRate, call.amount);
    SomethingAccepted(s.flowRate, call.amount);
  }

  lemma PartialRefusal(derive: Derive, st: State, call: Call)
    requires Funded(st) && call.DoPartialCancel? && ApplyStream(derive, st, call).Err?
    ensures Justified(st, call, ApplyStream(derive, st, call).error)
  {
    hide Flow, Owed, PartialTerms, Split;
    if call.id in st.streams && st.streams[call.id].Live() && 0 < call.amount {
      var s := st.streams[call.id];
      var t := s.Clock(st.now);
      TermsRefusal(s, st.now, call.amount);
      if PartialTerms(s, t, call.amount).Ok? {
        var terms := PartialTerms(s, t, call.amount).value;
        SplitRefusal(st, call.id, call.amount,
                     Replacement(s, derive(s.sender, s.recipient, t, call.id), t, terms.kept, terms.newEnd));
      }
    }
  }

  lemma TermsRefusal(s: Stream, now: int, amount: int)
    requires s.Sound(now) && s.Live() && 0 <= now <= U64_MAX && 0 < amount
    ensures var t := s.Clock(now); var left := LeftOver(s, now, amount);
            PartialTerms(s, t, amount).Err? ==>
              match PartialTerms(s, t, amount).error
              case InvalidPartialCancel => left < s.flowRate
              case Overflow => I128_MAX < Flow(s.flowRate, t - s.startTime) || U64_MAX < t + left / s.flowRate
              case _ => false
  {
    hide Flow, Stream.Sound;
    TermsRange(s, now);
    var left := LeftOver(s, now, amount);
    if s.flowRate <= left { FlowOfQuotient(left, s.flowRate); }
  }

  lemma SplitRefusal(st: State, id: int, amount: int, heir: Stream)
    requires Funded(st) && id in st.streams && st.streams[id].Live() && 0 < amount
    requires PartialTerms(st.streams[id], st.streams[id].Clock(st.now), amount).Ok?
    requires var s := st.streams[id]; var terms := PartialTerms(s, s.Clock(st.now), amount).value;
             heir == Replacement(s, heir.id, s.Clock(st.now), terms.kept, terms.newEnd)
    ensures var s := st.streams[id];
            var r := Split(st, s, amount, PartialTerms(s, s.Clock(st.now), amount).value, heir);
            r.Err? ==> r.error == Panic && !HasRoom(st, s.sender, s.recipient)
  {
    hide PartialTerms, Flow, Owed;
    SplitKeeps(st, id, amount, heir);
  }

  // ---- creations and batches ----

  /** The reason `e` for refusing a creation is a true one. */
  predicate CreationTrue(derive: Derive, st: State, call: Call, e: Error)
    requires call.DoCreateStream?
  {
    match e
    case ContractPaused => Stopped(st)
    case MissingAuth(a) => a == Contract == call.sender
    case DuplicateStream => (call.sender, call.nonce) in st.nonces
    case ZeroAmount => call.amount <= 0
    case InvalidCliff => call.duration <= call.cliff
    case RecipientNotWhitelisted => st.cfg.whitelistEnabled && call.recipient !in st.cfg.whitelist
    case StreamDurationTooShort => call.duration < st.cfg.minDuration
    case ZeroFlowRate => call.amount < call.duration
    case SenderStreamLimitExceeded =>
      |Listed(st.bySender, call.sender)|
      >= if call.sender in st.cfg.senderLimits then st.cfg.senderLimits[call.sender] else st.cfg.maxStreams
    case Overflow => U64_MAX < st.now + call.duration
    case StreamIdConflict => derive(call.sender, call.recipient, st.now, call.nonce) in st.streams
    case NotInitialized => 0 < st.cfg.creationFee && (st.cfg.treasury.None? || st.cfg.xlmToken.None?)
    case TransferFailed(from) => from == call.sender && !CanPay(st, call.sender, call.token, call.amount)
    case Panic => !HasRoom(st, call.sender, call.recipient)
    case _ => false
  }

  /** A failed creation gives a true reason. */
  lemma CreationRefusal(derive: Derive, st: State, call: Call)
    requires Funded(st) && call.DoCreateStream? && ApplyStream(derive, st, call).Err?
    ensures CreationTrue(derive, st, call, ApplyStream(derive, st, call).error)
  {
    hide Lock, NewStream, CanPay, HasRoom, Flow, Owed;
    GateInv(st);
    if call.sender != Contract && Gate(st).Ok? {
      var g := Opened(st);
      var r := NewStream(derive, g, call.sender, call.recipient, call.token, call.amount, call.duration, call.cliff,
                         call.nonce, call.autoRenew, call.lockUntil, call.allowTermination);
      CheckRefusal(derive, g, call);
      SameRoom(st, g, call.sender, call.recipient, call.token, call.amount);
      if r.Ok? && Lock(g, r.value, call.nonce).Err? { LockRefusal(g, r.value, call.nonce); }
    }
  }

  lemma CheckRefusal(derive: Derive, st: State, call: Call)
    requires call.DoCreateStream? && 0 <= st.now
    ensures var r := NewStream(derive, st, call.sender, call.recipient, call.token, call.amount, call.duration,
                               call.cliff, call.nonce, call.autoRenew, call.lockUntil, call.allowTermination);
            && (r.Err? ==> CreationTrue(derive, st, call, r.error) && r.error != ContractPaused)
            && (r.Ok? ==> r.value.sender == call.sender && r.value.recipient == call.recipient
                          && r.value.token == call.token && 0 < r.value.deposit == call.amount)
  {
    hide CanPay, HasRoom;
    if 0 < call.duration { RateNotZero(call.amount, call.duration); }
  }

  lemma LockRefusal(st: State, s: Stream, nonce: int)
    requires 0 < s.deposit && Lock(st, s, nonce).Err?
    ensures match Lock(st, s, nonce).error
            case NotInitialized => 0 < st.cfg.creationFee && (st.cfg.treasury.None? || st.cfg.xlmToken.None?)
            case TransferFailed(from) => from == s.sender && !CanPay(st, s.sender, s.token, s.deposit)
            case Panic => !HasRoom(st, s.sender, s.recipient)
            case _ => false
  {
    hide TakeIn, CanPay;
    TakeInRefusal(st, s);
  }

  lemma TakeInRefusal(st: State, s: Stream)
    requires 0 < s.deposit
    ensures TakeIn(st, s).Err? ==>
              match TakeIn(st, s).error
              case NotInitialized => 0 < st.cfg.creationFee && (st.cfg.treasury.None? || st.cfg.xlmToken.None?)
              case TransferFailed(from) => from == s.sender && !CanPay(st, s.sender, s.token, s.deposit)
              case _ => false
  {
    if CreationFee(st, s.sender).Ok? && 0 < st.cfg.creationFee {
      TransferMoves(st.bank, st.cfg.xlmToken.value, s.sender, st.cfg.treasury.value, st.cfg.creationFee, s.token,
                    s.sender);
    }
  }

  /** A failed entry of `batch_withdraw` gives a true reason. */
  lemma EntryRefusal(st: State, id: int, recipient: Address, signers: set<Address>)
    requires Funded(st) && BatchWithdrawOne(st, id, recipient, signers).Err?
    ensures id !in st.streams ==> BatchWithdrawOne(st, id, recipient, signers).error == StreamNotFound
    ensures id in st.streams ==>
              var s := st.streams[id]; var gross := Accrued(s, st.now);
              match BatchWithdrawOne(st, id, recipient, signers).error
              case NotRecipient => s.recipient != recipient
              case StreamNotActive => !s.status.Active?
              case StreamLocked => st.now < s.lockUntil
              case MissingAuth(a) => a == s.sender && a !in signers && s.autoRenew && s.endTime <= st.now
              case TransferFailed(from) =>
                && from == s.sender && s.autoRenew && s.endTime <= st.now && PayClaim(st, s, gross).Ok?
                && BalanceOf(PayClaim(st, s, gross).value, s.token, from) < s.deposit
              case Overflow =>
                || (0 < gross && FeeOverflows(st.cfg, recipient, gross))
                || (s.autoRenew && s.endTime <= st.now && U64_MAX < s.endTime + (s.endTime - s.startTime))
              case _ => false
  {
    hide Flow, Owed, Settle, PayClaim, FeeOverflows;
    if EntryAdmitted(st, id, recipient) {
      var s := st.streams[id];
      var gross := Accrued(s, st.now);
      BatchEntrySteps(st, id, recipient, signers);
      ClaimWithinDeposit(s, st.now);
      PoolCovers(st, id);
      PayClaimSpends(st, s, gross);
      BatchWithdrawOneSafe(st, id, recipient, signers);
      if PayClaim(st, s, gross).Ok? {
        SettleRefusal(st, id, Drawn(s, st.now, gross), PayClaim(st, s, gross).value, signers, true);
      }
    }
  }

  /** The reason `e` found while filling the batch is a true one. */
  predicate EntryTrue(derive: Derive, st: State, order: BatchOrder, e: Error)
    requires order.Aligned()
  {
    var n := |order.amounts|;
    match e
    case ZeroAmount => !(forall j :: 0 <= j < n ==> 0 < order.amounts[j])
    case ZeroFlowRate => !(forall j :: 0 <= j < n ==> order.duration <= order.amounts[j])
    case DuplicateStreamId => !(forall j :: 0 <= j < n ==> DrawsFresh(derive, st, order, j))
    case TransferFailed(from) => from == order.sender && !CanPayBatch(st.bank, order, 0)
    case Panic => !HasRoomFor(st, order, 0)
    case _ => false
  }

  /** The reason `e` for refusing a batch creation is a true one. */
  predicate BatchTrue(derive: Derive, st: State, order: BatchOrder, nonce: int, e: Error) {
    var next := if order.sender in st.batchNonces then st.batchNonces[order.sender] else 0;
    var count := |Listed(st.bySender, order.sender)| + |order.recipients|;
    match e
    case ContractPaused => Stopped(st)
    case MissingAuth(a) => a == Contract == order.sender
    case InvalidNonce => nonce != next
    case BatchLengthMismatch => !order.Aligned()
    case Overflow => U64_MAX < st.now + order.duration
    case InvalidDuration => order.duration == 0
    case SenderStreamLimitExceeded =>
      count > if order.sender in st.cfg.senderLimits then st.cfg.senderLimits[order.sender] else st.cfg.maxStreams
    case Panic => nonce == U64_MAX || count > U32_MAX || (order.Aligned() && EntryTrue(derive, st, order, e))
    case _ => order.Aligned() && EntryTrue(derive, st, order, e)
  }

  /** A failed batch creation gives a true reason. */
  lemma BatchCreationRefusal(derive: Derive, st: State, order: BatchOrder, nonce: u64)
    requires Funded(st) && BatchCreate(derive, st, order, nonce).Err?
    ensures BatchTrue(derive, st, order, nonce, BatchCreate(derive, st, order, nonce).error)
  {
    hide BatchFill, EntryTrue, StreamsSound, Solvent;
    GateInv(st);
    if order.Aligned() && 0 < order.duration && order.sender != Contract {
      FillRefusal(derive, st, BatchStart(st, order, nonce), order);
    }
  }

  lemma FillRefusal(derive: Derive, st: State, start: State, order: BatchOrder)
    requires order.Aligned() && order.duration != 0 && order.sender != Contract
    requires start == st.(paused := start.paused, pauseExpiry := start.pauseExpiry, batchNonces := start.batchNonces)
    ensures BatchFill(derive, start, order).Err? ==>
              var e := BatchFill(derive, start, order).error;
              && EntryTrue(derive, st, order, e)
              && (e.ZeroAmount? || e.ZeroFlowRate? || e.DuplicateStreamId? || e.TransferFailed? || e.Panic?)
  {
    hide CanPayBatch, HasRoomFor;
    PrePassRefusal(derive, start, order, 0, []);
    SameRoomFor(st, start, order, 0);
    forall j | 0 <= j < |order.amounts|
      ensures DrawsFresh(derive, st, order, j) <==> DrawsFresh(derive, start, order, j)
    {
    }
    var ids := BatchIdsFrom(derive, start, order, 0, []);
    if ids.Ok? {
      BatchIdsFresh(derive, start, order, 0, []);
      SecondPassRefusal(start, order, 0, ids.value);
    }
  }

  lemma {:induction false} PrePassRefusal(derive: Derive, st: State, order: BatchOrder, i: nat, ids: seq<int>)
    requires order.Aligned() && order.duration != 0 && |ids| == i <= |order.amounts|
    requires forall j :: 0 <= j < i ==> ids[j] == derive(order.sender, order.recipients[j], st.now, j)
    ensures BatchIdsFrom(derive, st, order, i, ids).Err? ==>
              var n := |order.amounts|;
              match BatchIdsFrom(derive, st, order, i, ids).error
              case ZeroAmount => !(forall j :: i <= j < n ==> 0 < order.amounts[j])
              case ZeroFlowRate => !(forall j :: i <= j < n ==> order.duration <= order.amounts[j])
              case DuplicateStreamId => !(forall j :: i <= j < n ==> DrawsFresh(derive, st, order, j))
              case _ => false
    decreases |order.amounts| - i
  {
    hide DrawsFresh;
    if i < |order.amounts| {
      RateNotZero(order.amounts[i], order.duration);
      FreshAtTurn(derive, st, order, i, ids);
      PrePassRefusal(derive, st, order, i + 1, ids + [derive(order.sender, order.recipients[i], st.now, i)]);
    }
  }

  lemma {:induction false} SecondPassRefusal(st: State, order: BatchOrder, i: nat, ids: seq<int>)
    requires order.Aligned() && order.duration != 0 && i <= |order.amounts| == |ids| && order.sender != Contract
    requires forall j :: i <= j < |order.amounts| ==> 0 < order.amounts[j]
    ensures BatchCreateFrom(st, order, i, ids).Err? ==>
              match BatchCreateFrom(st, order, i, ids).error
              case TransferFailed(from) => from == order.sender && !CanPayBatch(st.bank, order, i)
              case Panic => !HasRoomFor(st, order, i)
              case _ => false
    decreases |ids| - i
  {
    hide CanPayBatch, HasRoomFor;
    if i < |ids| {
      CanPayStep(st.bank, order, i);
      var paid := Transfer(st.bank, order.tokens[i], order.sender, Contract, order.amounts[i]);
      if paid.Ok? {
        var s := BatchStream(st, order, i, ids[i]);
        RoomStep(st.(bank := paid.value), order, i, s);
        SameRoomFor(st, st.(bank := paid.value), order, i);
        if Enroll(st.(bank := paid.value), s).Ok? {
          SecondPassRefusal(Enroll(st.(bank := paid.value), s).value, order, i + 1, ids);
        }
      }
    }
  }

  /** No stream entry point succeeds for the contract itself, which signs nothing. */
  lemma NeverSelfSigned(derive: Derive, st: State, call: Call)
    requires !call.IsAdmin() && CallerOf(call) == Contract
    ensures ApplyStream(derive, st, call).Err?
  {
    hide Flow, Draw, Close, Split, Extend, HandOver, BatchWithdrawFrom, BatchCancelFrom, BatchFill, NewStream, Lock;
  }
}
