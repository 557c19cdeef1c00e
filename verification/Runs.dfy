/** Whole runs: whatever sequence of calls, clock ticks and token movements follows a deployment,
    the pool stays solvent, records stay sound, indexes stay exact, nonces are used once, and a global
    pause has a recent cause. */
module Runs {
  import opened Prelude
  import opened TokenBank
  import opened Storage
  import opened Ledger
  import opened Invariants
  import opened Custody
  import opened Records
  import opened Listings

  // ---- solvency ----

  /** What a call does to the invariants; a partial cancel keeps the indexes exactly when its
      replacement id is free. */
  ghost predicate SafeCall(derive: Derive, st: State, call: Call, r: Result<State>) {
    && r != Err(TransferFailed(Contract)) && (r == Err(ContractPaused) ==> Stopped(st))
    && (r.Ok? && !call.Tick? ==> r.value.now == st.now)
    && (r.Ok? ==>
          && Funded(r.value) && st.now <= r.value.now && st.nonces <= r.value.nonces
          && BatchNoncesGrow(st, r.value) && st.created <= r.value.created
          && PauseMoves(st, call, r.value))
    && (r.Ok? && !IsCreation(call) ==> r.value.created == st.created)
    && (r.Ok? && Indexed(st) ==> (Indexed(r.value) <==> !Overwrites(derive, st, call)))
  }

  predicate IsCreation(call: Call) {
    call.DoCreateStream? || call.DoBatchCreate? || call.DoPartialCancel?
  }

  predicate IsPause(call: Call) {
    call.DoEmergencyPause? || call.DoGuardianPause?
  }

  predicate IsUnpause(call: Call) {
    call.DoEmergencyResume? || call.DoGovernanceUnpause?
  }

  /** What a successful call does to the global pause: a pause sets it for 72 hours, or up to the last moment
      of `u64`; an unpause ends it; any other call neither begins one nor ends it before its time. */
  predicate PauseMoves(st: State, call: Call, st': State) {
    if IsPause(call) then st'.paused && st'.pauseExpiry == Min(st.now + 72 * 60 * 60, U64_MAX)
    else if IsUnpause(call) then !st'.paused
    else
      && (st'.paused ==> st.paused && st'.pauseExpiry == st.pauseExpiry)
      && (st.paused && st'.now < st.pauseExpiry ==> st'.paused && st'.pauseExpiry == st.pauseExpiry)
  }

  lemma BankSafe(derive: Derive, st: State, call: Call, bank: Bank)
    requires Funded(st) && (call.TokenMint? || call.TokenTransfer?) && SpendsAtMost(st.bank, bank, Contract, 0)
    ensures SafeCall(derive, st, call, Ok(st.(bank := bank)))
  {
    forall token ensures Owed(st.streams, token) <= BalanceOf(bank, token, Contract) {
      assert BalanceOf(st.bank, token, Contract) <= BalanceOf(bank, token, Contract);
    }
  }

  lemma PauseCallSafe(derive: Derive, st: State, call: Call)
    requires Funded(st) && (IsPause(call) || IsUnpause(call))
    ensures SafeCall(derive, st, call, ApplyAdmin(st, call))
  {
    hide Owed;
  }

  lemma AdminSafe(derive: Derive, st: State, call: Call)
    requires Funded(st) && call.IsAdmin()
    ensures SafeCall(derive, st, call, ApplyAdmin(st, call))
  {
    hide Owed, EmergencyPause, EmergencyResume, GuardianPause, GovernanceUnpause;
    match call
    case Tick(seconds) =>
    case TokenMint(token, to, minted) => BankSafe(derive, st, call, Credit(st.bank, token, to, minted));
    case TokenTransfer(token, from, to, moved) =>
      if from != Contract && Transfer(st.bank, token, from, to, moved).Ok? {
        PayInGains(st.bank, token, from, to, moved);
        BankSafe(derive, st, call, Transfer(st.bank, token, from, to, moved).value);
      }
    case DoConfigure(cfg) =>
    case DoIsPaused => GateInv(st);
    case _ => PauseCallSafe(derive, st, call);
  }

  lemma StreamCallSafe(derive: Derive, st: State, call: Call)
    requires Funded(st) && !call.IsAdmin()
    ensures !IsCreation(call) ==> Safe(st, ApplyStream(derive, st, call))
    ensures !call.DoPartialCancel? ==> SafelyCreates(st, ApplyStream(derive, st, call))
  {
    match call
    case DoCreateStream(sender, recipient, token, amount, duration, cliff, nonce, autoRenew, lockUntil, allow) =>
      CreateStreamSafe(derive, st, sender, recipient, token, amount, duration, cliff, nonce, autoRenew, lockUntil,
                       allow);
    case DoWithdraw(id, caller, signers) => WithdrawSafe(st, id, caller, signers);
    case DoBatchWithdraw(ids, caller, signers) => BatchWithdrawSafe(st, ids, caller, signers);
    case DoCancelStream(id, caller) => CancelStreamSafe(st, id, caller);
    case DoBatchCancel(ids, caller) => BatchCancelFromSafe(st, ids, 0, [], caller);
    case DoRecipientTerminate(id, caller) => RecipientTerminateSafe(st, id, caller);
    case DoTransferRecipient(id, caller, next) => TransferRecipientSafe(st, id, caller, next);
    case DoPartialCancel(id, caller, amount) =>
    case DoTopUp(id, caller, token, amount) => TopUpSafe(st, id, caller, token, amount);
    case DoPauseStream(id, caller) => PauseSafe(st, id, caller);
    case DoResumeStream(id, caller) => ResumeSafe(st, id, caller);
    case DoCancelAutoRenew(id, caller) => CancelAutoRenewSafe(st, id, caller);
    case DoSetDelegate(id, caller, operator) => SetDelegateSafe(st, id, caller, operator);
    case DoBatchCreate(order, nonce) => BatchCreateSafe(derive, st, order, nonce);
    case DoArchive(id, caller) => ArchiveSafe(st, id, caller);
  }

  lemma PartialSafe(derive: Derive, st: State, call: Call)
    requires Funded(st) && call.DoPartialCancel?
    ensures SafeCall(derive, st, call, StateOf(PartialCancel(derive, st, call.id, call.caller, call.amount)))
  {
    PartialCancelKeeps(derive, st, call.id, call.caller, call.amount);
  }

  lemma ApplySafe(derive: Derive, st: State, call: Call)
    requires Funded(st)
    ensures SafeCall(derive, st, call, Apply(derive, st, call))
  {
    if call.IsAdmin() {
      AdminSafe(derive, st, call);
    } else if call.DoPartialCancel? {
      PartialSafe(derive, st, call);
    } else {
      StreamCallSafe(derive, st, call);
    }
  }

  /** The same of the state an invocation leaves, failed or not. */
  lemma ExecSafe(derive: Derive, st: State, call: Call)
    requires Funded(st)
    ensures Apply(derive, st, call) != Err(TransferFailed(Contract))
    ensures Funded(Exec(derive, st, call))
    ensures Indexed(st) && !Overwrites(derive, st, call) ==> Indexed(Exec(derive, st, call))
  {
    ApplySafe(derive, st, call);
  }

  /** Solvency and soundness in every reachable state, colliding ids included; and from there no
      call at all can fail because the pool is short. */
  lemma {:induction false} CustodyEveryRun(derive: Derive, st: State, calls: seq<Call>, next: Call)
    requires Funded(st)
    ensures Funded(Run(derive, st, calls))
    ensures Apply(derive, Run(derive, st, calls), next) != Err(TransferFailed(Contract))
  {
    hide Apply;
    if calls != [] {
      CustodyEveryRun(derive, st, calls[..|calls| - 1], calls[|calls| - 1]);
      ApplySafe(derive, Run(derive, st, calls[..|calls| - 1]), calls[|calls| - 1]);
    }
    ApplySafe(derive, Run(derive, st, calls), next);
  }

  /** Call `k` of the run succeeded and overwrote a stored record. */
  ghost predicate OverwrittenAt(derive: Derive, st: State, calls: seq<Call>, k: int) {
    && 0 <= k < |calls|
    && var mid := Run(derive, st, calls[..k]);
       Apply(derive, mid, calls[k]).Ok? && Overwrites(derive, mid, calls[k])
  }

  /** From an exact state on, the indexes mirror the record store exactly until the first overwrite: none
      so far, or some address lists an id too often, and always will. */
  lemma {:induction false} IndexesEveryRun(derive: Derive, st: State, calls: seq<Call>)
    requires Inv(st)
    ensures Indexed(Run(derive, st, calls)) <==> forall k :: !OverwrittenAt(derive, st, calls, k)
    ensures !Indexed(Run(derive, st, calls)) ==> exists a, id :: Overlists(Run(derive, st, calls), a, id)
  {
    hide Apply, Funded, Indexed, Overlists, Overwrites;
    if calls != [] {
      var n := |calls| - 1;
      var before := calls[..n];
      var mid := Run(derive, st, before);
      IndexesEveryRun(derive, st, before);
      CustodyEveryRun(derive, st, before, calls[n]);
      forall k | 0 <= k < n ensures OverwrittenAt(derive, st, calls, k) <==> OverwrittenAt(derive, st, before, k) {
        assert before[..k] == calls[..k];
      }
      assert OverwrittenAt(derive, st, calls, n)
             <==> Apply(derive, mid, calls[n]).Ok? && Overwrites(derive, mid, calls[n]);
      IndexedOneMore(derive, mid, calls[n]);
    }
  }

  /** One more call: exact indexes stay exact unless it overwrites; overlisted ones stay overlisted. */
  lemma IndexedOneMore(derive: Derive, st: State, call: Call)
    requires Funded(st) && (!Indexed(st) ==> exists a, id :: Overlists(st, a, id))
    ensures var st' := Exec(derive, st, call);
            && (Indexed(st') <==> Indexed(st) && !(Apply(derive, st, call).Ok? && Overwrites(derive, st, call)))
            && (!Indexed(st') ==> exists a, id :: Overlists(st', a, id))
  {
    hide Apply, Funded, Indexed, Overlists, Overwrites;
    if Apply(derive, st, call).Ok? {
      ApplySafe(derive, st, call);
      CallPersists(derive, st, call);
      var st' := Apply(derive, st, call).value;
      if !Indexed(st) {
        var a, id :| Overlists(st, a, id);
        assert Overlists(st', a, id);
        OverlistedNotIndexed(st', a, id);
      }
    }
  }

  lemma OverlistedNotIndexed(st: State, a: Address, id: int)
    requires Overlists(st, a, id)
    ensures !Indexed(st)
  {
    if Indexed(st) { IndexedOverlistsNone(st, a, id); }
  }

  /** The clock, the used nonces, the batch nonces and the global index only ever grow. */
  lemma {:induction false} RunsGrow(derive: Derive, st: State, calls: seq<Call>, k: nat)
    requires Funded(st) && k <= |calls|
    ensures var a := Run(derive, st, calls[..k]); var b := Run(derive, st, calls);
            a.now <= b.now && a.nonces <= b.nonces && BatchNoncesGrow(a, b) && a.created <= b.created
  {
    hide Apply, Funded;
    assert calls[..|calls|] == calls;
    if k < |calls| {
      var n := |calls| - 1;
      assert calls[..n][..k] == calls[..k];
      RunsGrow(derive, st, calls[..n], k);
      CustodyEveryRun(derive, st, calls[..n], calls[n]);
      ApplySafe(derive, Run(derive, st, calls[..n]), calls[n]);
    }
  }

  /** Each (sender, nonce) pair creates at most one stream in a whole run. */
  lemma NonceUsedOnce(derive: Derive, st: State, calls: seq<Call>, i: nat, j: nat)
    requires Funded(st) && i < j < |calls|
    requires calls[i].DoCreateStream? && calls[j].DoCreateStream?
    requires calls[i].sender == calls[j].sender && calls[i].nonce == calls[j].nonce
    requires Apply(derive, Run(derive, st, calls[..i]), calls[i]).Ok?
    ensures Apply(derive, Run(derive, st, calls[..j]), calls[j]).Err?
  {
    hide ApplyStream, ApplyAdmin, Funded, Run;
    CreateMarksNonce(derive, Run(derive, st, calls[..i]), calls[i]);
    GrowsAfter(derive, st, calls, i, j);
    CreateMarksNonce(derive, Run(derive, st, calls[..j]), calls[j]);
  }

  /** What successful call `i` used up is still used up before call `j`. */
  lemma GrowsAfter(derive: Derive, st: State, calls: seq<Call>, i: nat, j: nat)
    requires Funded(st) && i < j < |calls| && Apply(derive, Run(derive, st, calls[..i]), calls[i]).Ok?
    ensures var after := Apply(derive, Run(derive, st, calls[..i]), calls[i]).value;
            var b := Run(derive, st, calls[..j]);
            after.nonces <= b.nonces && BatchNoncesGrow(after, b)
  {
    hide Apply, Funded;
    assert calls[..i + 1][..i] == calls[..i];
    assert calls[..j][..i + 1] == calls[..i + 1];
    RunsGrow(derive, st, calls[..j], i + 1);
  }

  lemma CreateMarksNonce(derive: Derive, st: State, call: Call)
    requires call.DoCreateStream?
    ensures ApplyStream(derive, st, call).Ok? ==>
              (call.sender, call.nonce) !in st.nonces
                && (call.sender, call.nonce) in ApplyStream(derive, st, call).value.nonces
  {
    hide TakeIn, Gate;
    GateInv(st);
  }

  /** Each batch nonce of a sender serves at most one batch creation in a whole run. */
  lemma BatchNonceUsedOnce(derive: Derive, st: State, calls: seq<Call>, i: nat, j: nat)
    requires Funded(st) && i < j < |calls|
    requires calls[i].DoBatchCreate? && calls[j].DoBatchCreate?
    requires calls[i].order.sender == calls[j].order.sender && calls[i].nonce == calls[j].nonce
    requires Apply(derive, Run(derive, st, calls[..i]), calls[i]).Ok?
    ensures Apply(derive, Run(derive, st, calls[..j]), calls[j]).Err?
  {
    hide ApplyStream, ApplyAdmin, Funded, Run;
    BatchMarksNonce(derive, Run(derive, st, calls[..i]), calls[i]);
    GrowsAfter(derive, st, calls, i, j);
    BatchMarksNonce(derive, Run(derive, st, calls[..j]), calls[j]);
  }

  lemma BatchMarksNonce(derive: Derive, st: State, call: Call)
    requires call.DoBatchCreate?
    ensures ApplyStream(derive, st, call).Ok? ==>
              && call.nonce == (if call.order.sender in st.batchNonces then st.batchNonces[call.order.sender] else 0)
              && ApplyStream(derive, st, call).value.batchNonces
                 == st.batchNonces[call.order.sender := call.nonce + 1]
  {
    hide BatchCreate;
    if BatchCreate(derive, st, call.order, call.nonce).Ok? {
      BatchTakesNonce(derive, st, call.order, call.nonce);
    }
  }

  /** The first batch of a sender carries nonce 0, and each later one the nonce after the last. */
  lemma BatchTakesNonce(derive: Derive, st: State, order: BatchOrder, nonce: u64)
    requires BatchCreate(derive, st, order, nonce).Ok?
    ensures nonce == if order.sender in st.batchNonces then st.batchNonces[order.sender] else 0
    ensures BatchCreate(derive, st, order, nonce).value.st.batchNonces == st.batchNonces[order.sender := nonce + 1]
  {
    hide BatchCreate;
    BatchCreatePasses(derive, st, order, nonce);
    BatchKeepsNonces(BatchStart(st, order, nonce), order, 0, BatchCreate(derive, st, order, nonce).value.out);
  }

  lemma {:induction false} BatchKeepsNonces(st: State, order: BatchOrder, i: nat, ids: seq<int>)
    requires order.Aligned() && order.duration != 0 && i <= |order.amounts| == |ids|
    requires BatchCreateFrom(st, order, i, ids).Ok?
    ensures BatchCreateFrom(st, order, i, ids).value.batchNonces == st.batchNonces
    decreases |ids| - i
  {
    hide Transfer;
    if i < |ids| {
      BatchKeepsNonces(BatchCreateOne(st, order, i, ids[i]).value, order, i + 1, ids);
    }
  }

  // ---- the global pause ----

  /** Who may call the four. */
  predicate MayPause(cfg: Config, call: Call) {
    match call
    case DoEmergencyPause(caller) => caller != Contract && cfg.admin == Some(caller)
    case DoEmergencyResume(caller) => caller != Contract && cfg.admin == Some(caller)
    case DoGuardianPause(caller) => caller != Contract && cfg.guardian == Some(caller)
    case DoGovernanceUnpause(caller) => caller != Contract && cfg.governance == Some(caller)
    case _ => false
  }

  /** The admin may pause and resume, the guardian pause, governance unpause, and nobody else; flag and expiry
      are set or cleared together, the admin's calls are recorded last in the audit history, and nothing
      else changes. */
  lemma PauseCallsExactly(derive: Derive, st: State, call: Call)
    requires 0 <= st.now <= U64_MAX && (IsPause(call) || IsUnpause(call))
    ensures Apply(derive, st, call).Ok? <==> MayPause(st.cfg, call)
    ensures Apply(derive, st, call).Ok? ==>
              var st' := Apply(derive, st, call).value;
              && st' == st.(paused := IsPause(call), audit := st'.audit,
                            pauseExpiry := if IsPause(call) then Min(st.now + 72 * 60 * 60, U64_MAX) else 0)
              && (if call.DoGuardianPause? || call.DoGovernanceUnpause? then st'.audit == st.audit
                  else st'.audit == st.audit + [AuditEntry(if IsPause(call) then "emergency_pause"
                                                           else "emergency_resume", call.caller, st.now, "")])
  {
  }

  /** Call `k` of the run is a pause that succeeds. */
  ghost predicate PausesAt(derive: Derive, st: State, calls: seq<Call>, k: int) {
    0 <= k < |calls| && IsPause(calls[k]) && Apply(derive, Run(derive, st, calls[..k]), calls[k]).Ok?
  }

  /** Call `k` of the run is an unpause that succeeds. */
  ghost predicate UnpausesAt(derive: Derive, st: State, calls: seq<Call>, k: int) {
    0 <= k < |calls| && IsUnpause(calls[k]) && Apply(derive, Run(derive, st, calls[..k]), calls[k]).Ok?
  }

  /** Call `k` of the run paused the contract, and no unpause succeeded since. */
  ghost predicate LastPausedAt(derive: Derive, st: State, calls: seq<Call>, k: int) {
    && 0 <= k < |calls| && PausesAt(derive, st, calls, k)
    && forall j :: k < j < |calls| ==> !UnpausesAt(derive, st, calls, j)
  }

  /** When a pause begun by call `k` of the run is over. */
  ghost function PauseEnd(derive: Derive, st: State, calls: seq<Call>, k: int): int
    requires 0 <= k < |calls|
  {
    Min(Run(derive, st, calls[..k]).now + 72 * 60 * 60, U64_MAX)
  }

  lemma PausesBefore(derive: Derive, st: State, calls: seq<Call>, k: int)
    requires calls != [] && 0 <= k < |calls| - 1
    ensures var before := calls[..|calls| - 1];
            && (PausesAt(derive, st, calls, k) <==> PausesAt(derive, st, before, k))
            && (UnpausesAt(derive, st, calls, k) <==> UnpausesAt(derive, st, before, k))
            && PauseEnd(derive, st, calls, k) == PauseEnd(derive, st, before, k)
  {
    hide Apply, Run;
    assert calls[..|calls| - 1][..k] == calls[..k];
  }

  lemma LastPausedBefore(derive: Derive, st: State, calls: seq<Call>, k: int)
    requires calls != [] && 0 <= k < |calls| - 1
    ensures var n := |calls| - 1;
            LastPausedAt(derive, st, calls, k)
            <==> LastPausedAt(derive, st, calls[..n], k) && !UnpausesAt(derive, st, calls, n)
  {
    hide UnpausesAt, PausesAt;
    var n := |calls| - 1;
    PausesBefore(derive, st, calls, k);
    forall j | k < j < n ensures UnpausesAt(derive, st, calls, j) <==> UnpausesAt(derive, st, calls[..n], j) {
      PausesBefore(derive, st, calls, j);
    }
    if LastPausedAt(derive, st, calls[..n], k) && !UnpausesAt(derive, st, calls, n) {
      forall j | k < j < |calls| ensures !UnpausesAt(derive, st, calls, j) {
      }
    }
  }

  /** The last step of a run, as it is seen by the pause. */
  lemma PauseStep(derive: Derive, st: State, calls: seq<Call>)
    requires Funded(st) && calls != []
    ensures var n := |calls| - 1; var mid := Run(derive, st, calls[..n]); var last := Run(derive, st, calls);
            && Funded(mid) && mid.now <= last.now
            && (PausesAt(derive, st, calls, n) ==> last.paused && last.now == mid.now
                                                   && last.pauseExpiry == PauseEnd(derive, st, calls, n))
            && (UnpausesAt(derive, st, calls, n) ==> !last.paused)
            && (!PausesAt(derive, st, calls, n) && !UnpausesAt(derive, st, calls, n) ==>
                  && (last.paused ==> mid.paused && last.pauseExpiry == mid.pauseExpiry)
                  && (mid.paused && last.now < mid.pauseExpiry ==> last.paused && last.pauseExpiry == mid.pauseExpiry))
  {
    hide Apply, Funded;
    var n := |calls| - 1;
    CustodyEveryRun(derive, st, calls[..n], calls[n]);
    ApplySafe(derive, Run(derive, st, calls[..n]), calls[n]);
  }

  /** A pause lasts: until its end a paused contract stays paused, and later pauses only move the expiry on. */
  lemma {:induction false} PauseLasts(derive: Derive, st: State, calls: seq<Call>, k: int)
    requires Funded(st) && LastPausedAt(derive, st, calls, k)
    requires Run(derive, st, calls).now < PauseEnd(derive, st, calls, k)
    ensures Run(derive, st, calls).paused && PauseEnd(derive, st, calls, k) <= Run(derive, st, calls).pauseExpiry
  {
    hide Apply, Funded, Run, UnpausesAt, PausesAt;
    var n := |calls| - 1;
    PauseStep(derive, st, calls);
    if k < n {
      PausesBefore(derive, st, calls, k);
      LastPausedBefore(derive, st, calls, k);
      PauseLasts(derive, st, calls[..n], k);
      if PausesAt(derive, st, calls, n) {
        RunsGrow(derive, st, calls[..n], k);
        assert calls[..n][..k] == calls[..k];
      }
    }
  }

  /** A paused contract was paused by a call of the run, which no unpause has undone, and whose end is the
      stored expiry. */
  lemma {:induction false} PausedHasCause(derive: Derive, st: State, calls: seq<Call>)
    requires Funded(st) && !st.paused
    ensures Run(derive, st, calls).paused ==>
              exists k :: LastPausedAt(derive, st, calls, k)
                          && Run(derive, st, calls).pauseExpiry == PauseEnd(derive, st, calls, k)
  {
    hide Apply, Funded, UnpausesAt, PausesAt;
    if calls != [] && Run(derive, st, calls).paused {
      var n := |calls| - 1;
      PauseStep(derive, st, calls);
      if PausesAt(derive, st, calls, n) {
        assert LastPausedAt(derive, st, calls, n);
      } else {
        PausedHasCause(derive, st, calls[..n]);
        var k :| LastPausedAt(derive, st, calls[..n], k)
          && Run(derive, st, calls[..n]).pauseExpiry == PauseEnd(derive, st, calls[..n], k);
        PausesBefore(derive, st, calls, k);
        LastPausedBefore(derive, st, calls, k);
        assert LastPausedAt(derive, st, calls, k);
      }
    }
  }

  /** The calls that a global pause stops. */
  predicate Gated(call: Call) {
    call.DoCreateStream? || call.DoBatchCreate? || call.DoWithdraw? || call.DoBatchWithdraw? ||
    call.DoRecipientTerminate?
    || call.DoTransferRecipient? || call.DoTopUp? || call.DoPauseStream? || call.DoResumeStream?
  }

  /** A pause stops this call; only a creation checks its sender first. */
  predicate Stoppable(call: Call) {
    Gated(call) && !(call.DoCreateStream? && call.sender == Contract)
  }

  /** A call reports a pause exactly when it is gated and the contract is paused with its expiry ahead;
      `is_paused` then says so. */
  lemma PausedExactly(derive: Derive, st: State, call: Call)
    requires Funded(st)
    ensures Apply(derive, st, call) == Err(ContractPaused)
            <==> Stoppable(call) && st.paused && st.now < st.pauseExpiry
    ensures IsPaused(st).out <==> st.paused && st.now < st.pauseExpiry
  {
    GateInv(st);
    if Gated(call) {
      ApplySafe(derive, st, call);
      if Gate(st).Err? { GatedRefused(derive, st, call); }
    } else {
      UngatedPasses(derive, st, call);
    }
  }

  lemma GatedRefused(derive: Derive, st: State, call: Call)
    requires Gated(call) && Gate(st).Err?
    ensures ApplyStream(derive, st, call)
            == if call.DoCreateStream? && call.sender == Contract then Err(MissingAuth(Contract))
              else Err(ContractPaused)
  {
  }

  lemma UngatedPasses(derive: Derive, st: State, call: Call)
    requires Funded(st) && !Gated(call)
    ensures Apply(derive, st, call) != Err(ContractPaused)
  {
    if call.DoCancelStream? {
      CancelStreamSafe(st, call.id, call.caller);
    } else if call.DoBatchCancel? {
      BatchCancelFromSafe(st, call.ids, 0, [], call.caller);
    } else if call.DoPartialCancel? {
      PartialCancelKeeps(derive, st, call.id, call.caller, call.amount);
    }
  }

  /** From a contract that is not paused, over any run: a gated call with an authorised caller is refused for
      a pause exactly while some successful pause of the run, which no successful unpause has followed, is
      less than 72 hours old, or, near the end of `u64`, before its last moment. */
  lemma PauseEveryRun(derive: Derive, st: State, calls: seq<Call>, call: Call)
    requires Funded(st) && !st.paused
    ensures Apply(derive, Run(derive, st, calls), call) == Err(ContractPaused)
            <==> Stoppable(call) && exists k :: LastPausedAt(derive, st, calls, k)
                                                && Run(derive, st, calls).now < PauseEnd(derive, st, calls, k)
  {
    hide Apply, Run, UnpausesAt, PausesAt;
    var last := Run(derive, st, calls);
    CustodyEveryRun(derive, st, calls, call);
    PausedExactly(derive, last, call);
    if last.paused && last.now < last.pauseExpiry {
      PausedHasCause(derive, st, calls);
    }
    if k :| LastPausedAt(derive, st, calls, k) && last.now < PauseEnd(derive, st, calls, k) {
      PauseLasts(derive, st, calls, k);
    }
  }

  /** A call is refused for a pause only while some earlier pause is less than 72 hours old; near the end
      of `u64`, only before its last moment. */
  lemma PauseIsBounded(derive: Derive, st: State, calls: seq<Call>, call: Call)
    requires Funded(st) && !st.paused
    requires Apply(derive, Run(derive, st, calls), call) == Err(ContractPaused)
    ensures exists k :: && LastPausedAt(derive, st, calls, k)
                        && Run(derive, st, calls[..k]).now <= Run(derive, st, calls).now
                             < Min(Run(derive, st, calls[..k]).now + 72 * 60 * 60, U64_MAX)
  {
    hide Apply, Run, UnpausesAt, PausesAt;
    PauseEveryRun(derive, st, calls, call);
    var k :| LastPausedAt(derive, st, calls, k) && Run(derive, st, calls).now < PauseEnd(derive, st, calls, k);
    RunsGrow(derive, st, calls, k);
  }
}
