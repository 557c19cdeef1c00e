/** Concrete inputs for the properties that the code does not have without a condition. The exact
    conditions are proved where the operations are. */
module Witnesses {
  import opened Prelude
  import opened VestingMath
  import opened Streams
  import opened TokenBank
  import opened Storage
  import opened Ledger
  import opened Invariants
  import opened Custody
  import opened Records
  import opened Runs
  import opened Payments
  import opened Renewal
  import opened Batches
  import opened Queries
  import opened Surplus

  const PAYER := Account(1)
  const PAYEE := Account(2)
  const COIN := Account(3)

  const PLAIN := Config(0, None, {}, 0, 0, false, {}, 1000, map[], 0, None, None, None, None)

  /** 100 units over 100 seconds from time 0, with the cliff at 50. */
  function Sample(id: int): Stream {
    Stream(id, PAYER, PAYEE, COIN, 100, 1, 0, 50, 0, 100, 0, Active, false, false, 0, 0)
  }

  function Holding(s: Stream, now: int): State {
    State(now, map[s.id := s], map[(COIN, Contract) := s.deposit], map[PAYER := [s.id]], map[PAYEE := [s.id]], [s.id],
          {}, map[], map[], false, 0, [], PLAIN)
  }

  lemma OneASecond(a: int, b: int, c: int)
    ensures Flow(1, a) == a && Flow(1, b) == b && Flow(1, c) == c
  {
    FlowIsProduct(1, a);
    FlowIsProduct(1, b);
    FlowIsProduct(1, c);
  }

  lemma OwedOne(s: Stream, token: Address)
    ensures Owed(map[s.id := s], token) == ClaimOn(s, token)
  {
    OwedRemove(map[s.id := s], s.id, token);
    assert map[s.id := s] - {s.id} == map[];
  }

  lemma HoldingInv(s: Stream, now: int)
    requires s.Sound(now) && 0 <= now <= U64_MAX && s.sender == PAYER && s.recipient == PAYEE && s.token == COIN
    ensures Inv(Holding(s, now))
  {
    var st := Holding(s, now);
    ClaimNonNegative(s, now);
    forall token ensures Owed(st.streams, token) <= BalanceOf(st.bank, token, Contract) {
      OwedOne(s, token);
    }
  }

  lemma SampleInv()
    ensures Inv(Holding(Sample(7), 10))
  {
    hide Flow;
    OneASecond(0, 10, 100);
    HoldingInv(Sample(7), 10);
  }

  // ---- a derived id that is taken ----

  /** Whatever the hash: a creation may use as its nonce the id of a live stream between the same parties,
      and a partial cancel of that stream in the same second (the second of the pause, for a paused one)
      derives the id of the stream just created. It puts the replacement in its place; the index is no
      longer exact, and the whole claim of the created stream stays in the pool with no owner. */
  lemma NonceOfAStreamCollides(derive: Derive, st: State, id: u64, token: Address, amount: i128, duration: u64,
                               cliff: u64,
                               autoRenew: bool, lockUntil: u64, allow: bool, caller: Address, cut: i128)
    requires Inv(st) && id in st.streams && st.streams[id].Live() && st.streams[id].Clock(st.now) == st.now
    requires CreateStream(derive, st, st.streams[id].sender, st.streams[id].recipient, token, amount, duration, cliff,
                          id, autoRenew,
                          lockUntil, allow).Ok?
    ensures var s := st.streams[id];
            var p := CreateStream(derive, st, s.sender, s.recipient, token, amount, duration, cliff, id, autoRenew,
                                  lockUntil, allow).value;
            var r := PartialCancel(derive, p.st, id, caller, cut);
            && p.out in p.st.streams && ClaimOn(p.st.streams[p.out], token) == amount
               && Overwrites(derive, p.st, DoPartialCancel(id, caller, cut))
            && (r.Ok? ==>
                  && r.value.out == p.out && Funded(r.value.st) && !Indexed(r.value.st)
                  && Raises(p.st, r.value.st, token,
                            amount + (if s.token == token then s.Skipped() else 0)
                            + CloseGain(s, Flow(s.flowRate, st.now - s.lastWithdrawTime), token)))
  {
    hide Flow, CreateStream, PartialCancel, Owed, Raises, Stream.Sound, Creates, Funded, Indexed, Gain;
    var s := st.streams[id];
    TwinCreated(derive, st, id, token, amount, duration, cliff, autoRenew, lockUntil, allow);
    var p := CreateStream(derive, st, s.sender, s.recipient, token, amount, duration, cliff, id, autoRenew, lockUntil,
                          allow).value;
    if PartialCancel(derive, p.st, id, caller, cut).Ok? {
      PartialCancelKeeps(derive, p.st, id, caller, cut);
      PartialStreams(derive, p.st, id, caller, cut);
      PartialRaises(derive, p.st, id, caller, cut, token);
      TwinGain(derive, p.st, id, p.out, caller, cut, token, amount);
    }
  }

  /** The created stream is stored next to the other, under the id the other's replacement will take. */
  lemma TwinCreated(derive: Derive, st: State, id: u64, token: Address, amount: i128, duration: u64, cliff: u64,
                    autoRenew: bool, lockUntil: u64, allow: bool)
    requires Inv(st) && id in st.streams && st.streams[id].Live() && st.streams[id].Clock(st.now) == st.now
    requires CreateStream(derive, st, st.streams[id].sender, st.streams[id].recipient, token, amount, duration, cliff,
                          id, autoRenew,
                          lockUntil, allow).Ok?
    ensures var s := st.streams[id];
            var p := CreateStream(derive, st, s.sender, s.recipient, token, amount, duration, cliff, id, autoRenew,
                                  lockUntil, allow).value;
            && Funded(p.st) && Indexed(p.st) && p.st.now == st.now && p.out != id && id in p.st.streams
               && p.st.streams[id] == s
            && p.out == derive(s.sender, s.recipient, st.now, id) && p.out in p.st.streams
            && ClaimOn(p.st.streams[p.out], token) == amount && p.st.streams[p.out].token == token
  {
    hide Flow, CreateStream, Owed, TookIn, Stream.Sound;
    var s := st.streams[id];
    CreateExactly(derive, st, s.sender, s.recipient, token, amount, duration, cliff, id, autoRenew, lockUntil, allow);
    CreateStreamSafe(derive, st, s.sender, s.recipient, token, amount, duration, cliff, id, autoRenew, lockUntil,
                     allow);
  }

  lemma TwinGain(derive: Derive, st: State, id: int, newId: int, caller: Address, cut: i128, token: Address,
                 amount: int)
    requires id in st.streams && newId in st.streams && newId != id && newId == ReplacementId(derive, st, id)
    requires ClaimOn(st.streams[newId], token) == amount
    ensures Gain(derive, st, DoPartialCancel(id, caller, cut), token)
            == var s := st.streams[id];
               amount + (if s.token == token then s.Skipped() else 0)
               + CloseGain(s, Flow(s.flowRate, s.Clock(st.now) - s.lastWithdrawTime), token)
  {
  }

  /** A second stream between the parties, with the first one's id as its nonce. */
  function Twin(id: u64): Call {
    DoCreateStream(PAYER, PAYEE, COIN, 100, 100, 0, id, false, 0, false)
  }

  /** A run for every hash whatever: from deployment, within one second, creating a stream, creating another
      with the first one's id as nonce and partially cancelling the first leaves an inexact index, solvent
      as the contract stays. */
  lemma EveryHashCollides(derive: Derive)
    ensures var id := FirstId(derive);
            var last := Run(derive, Deployed(200), [DoBatchCreate(ORDER, 0), Twin(id), DoPartialCancel(id, PAYER, 20)]);
            Genesis(Deployed(200)) && Funded(last) && !Indexed(last)
  {
    hide Exec, Run, Funded, Indexed;
    var id := FirstId(derive);
    var st := Deployed(200);
    GenesisInv(st);
    OrderCreates(derive, st, [], 0, 200, 0);
    ExecSafe(derive, st, DoBatchCreate(ORDER, 0));
    var one := Exec(derive, st, DoBatchCreate(ORDER, 0));
    TwinStored(derive, one, id);
    var two := Exec(derive, one, Twin(id));
    SplitWorks(derive, two, id);
    PartialCancelKeeps(derive, two, id, PAYER, 20);
    RunThree(derive, st, DoBatchCreate(ORDER, 0), Twin(id), DoPartialCancel(id, PAYER, 20));
  }

  /** After the second creation, or its failure, the id the partial cancel derives is stored. */
  lemma TwinStored(derive: Derive, st: State, id: u64)
    requires Inv(st) && Looks(st, map[id := FirstStream(id)], [id], [id], 1, 100, 100) && |st.nonces| == 0
    ensures var two := Exec(derive, st, Twin(id));
            && Inv(two) && two.now == 0 && id in two.streams && two.streams[id] == FirstStream(id)
            && derive(PAYER, PAYEE, 0, id) in two.streams
            && |Listed(two.bySender, PAYER)| <= 2 && |Listed(two.byRecipient, PAYEE)| <= 2 && |two.created| <= 2
  {
    hide Flow, Funded, Indexed;
    assert st.nonces == {};
    CreateStreamSafe(derive, st, PAYER, PAYEE, COIN, 100, 100, 0, id, false, 0, false);
  }

  lemma SplitWorks(derive: Derive, st: State, id: u64)
    requires Funded(st) && st.now == 0 && id in st.streams && st.streams[id] == FirstStream(id)
    requires |Listed(st.bySender, PAYER)| <= 2 && |Listed(st.byRecipient, PAYEE)| <= 2 && |st.created| <= 2
    ensures PartialCancel(derive, st, id, PAYER, 20).Ok?
    ensures PartialCancel(derive, st, id, PAYER, 20).value.out == derive(PAYER, PAYEE, 0, id)
    ensures Exec(derive, st, DoPartialCancel(id, PAYER, 20)) == PartialCancel(derive, st, id, PAYER, 20).value.st
  {
    hide Flow, Split, PartialTerms;
    OneASecond(0, 100, 0);
    PartialCancelHappensExactly(derive, st, id, PAYER, 20);
  }

  lemma RunTwo(derive: Derive, st: State, a: Call, b: Call)
    ensures Run(derive, st, [a, b]) == Exec(derive, Exec(derive, st, a), b)
  {
    assert [a, b][..1] == [a] && [a][..0] == [];
    assert Run(derive, st, [a]) == Exec(derive, st, a);
  }

  /** A batch entry before the cliff pays; a withdrawal at the same moment pays nothing. */
  lemma BatchLooksPastTheCliff()
    ensures var st := Holding(Sample(7), 10);
            && BatchWithdrawOne(st, 7, PAYEE, {}).Ok? && BatchWithdrawOne(st, 7, PAYEE, {}).value.out == 10
            && Withdraw(st, 7, PAYEE, {}).Ok? && Withdraw(st, 7, PAYEE, {}).value.bank == st.bank
            && !EntryMatches(st, 7, PAYEE)
  {
  }

  /** Cancelling the one stored stream pays `x` and the rest. */
  lemma CancelPays(derive: Derive, st: State, x: int)
    requires Funded(st) && 7 in st.streams && st.streams[7].Live()
             && Accrued(st.streams[7], st.streams[7].Clock(st.now)) == x
    requires st.streams[7].sender == PAYER && st.streams[7].recipient == PAYEE && st.streams[7].token == COIN
    requires BalanceOf(st.bank, COIN, PAYER) == 0 == BalanceOf(st.bank, COIN, PAYEE)
    ensures var last := Exec(derive, st, DoCancelStream(7, PAYER));
            && CancelStream(st, 7, PAYER) == Ok(last) && 7 !in last.streams
            && BalanceOf(last.bank, COIN, PAYEE) == x
            && BalanceOf(last.bank, COIN, PAYER) == st.streams[7].deposit - st.streams[7].totalWithdrawn - x
  {
    hide CancelStream, Flow;
    CancelExactly(st, 7, PAYER);
    assert Apply(derive, st, DoCancelStream(7, PAYER)) == CancelStream(st, 7, PAYER);
  }

  /** A withdrawal before the cliff pays nothing and moves the record on. */
  lemma EarlyWithdrawal(derive: Derive)
    ensures var st := Holding(Sample(7), 10);
            && Inv(st) && Withdraw(st, 7, PAYEE, {}) == Ok(st.(streams := map[7 := Drawn(Sample(7), 10, 0)]))
            && Exec(derive, st, DoWithdraw(7, PAYEE, {})) == st.(streams := map[7 := Drawn(Sample(7), 10, 0)])
  {
    hide Flow, PayClaim, Settle;
    OneASecond(0, 10, 100);
    SampleInv();
    var st := Holding(Sample(7), 10);
    WithdrawSteps(st, 7, PAYEE, {});
    NoClaim(st, Sample(7));
    SettledAtOnce(st, Drawn(Sample(7), 10, 0));
    assert Apply(derive, st, DoWithdraw(7, PAYEE, {})) == Withdraw(st, 7, PAYEE, {});
  }

  lemma NoClaim(st: State, s: Stream)
    ensures PayClaim(st, s, 0) == Ok(st.bank)
  {
  }

  lemma SettledAtOnce(st: State, s: Stream)
    requires st.now < s.endTime && s.id == 7 && st.streams.Keys == {7}
    ensures Settle(st, 7, s, st.bank, {}, false) == Ok(st.(streams := map[7 := s]))
  {
    assert st.streams[7 := s] == map[7 := s];
    assert st.(bank := st.bank) == st;
  }

  /** A withdrawal at 10, before the cliff at 50, pays nothing; a cancellation at 60 then pays 50 and
      refunds 50. Without the withdrawal it pays 60 and refunds the documented 40. */
  lemma EarlyWithdrawalIsRefunded(derive: Derive)
    ensures var st := Holding(Sample(7), 10);
            var early := Run(derive, st, [DoWithdraw(7, PAYEE, {}), Tick(50), DoCancelStream(7, PAYER)]);
            var late := Run(derive, st, [Tick(50), DoCancelStream(7, PAYER)]);
            && Inv(st) && Withdraw(st, 7, PAYEE, {}).Ok? && Withdraw(st, 7, PAYEE, {}).value.bank == st.bank
            && BalanceOf(early.bank, COIN, PAYEE) == 50 && BalanceOf(early.bank, COIN, PAYER) == 50
            && BalanceOf(late.bank, COIN, PAYEE) == 60 && BalanceOf(late.bank, COIN, PAYER) == 40
            && ComputeRefund(100, 1, 60, 100, 0) == Some(40)
  {
    hide Flow, Exec, Run, Funded, Indexed, Withdraw;
    OneASecond(50, 60, 0);
    var st := Holding(Sample(7), 10);
    EarlyWithdrawal(derive);
    var drawn := st.(streams := map[7 := Drawn(Sample(7), 10, 0)]);
    ExecSafe(derive, st, DoWithdraw(7, PAYEE, {}));
    Ticks(derive, drawn, 50);
    Ticks(derive, st, 50);
    CancelPays(derive, drawn.(now := 60), 50);
    CancelPays(derive, st.(now := 60), 60);
    RunThree(derive, st, DoWithdraw(7, PAYEE, {}), Tick(50), DoCancelStream(7, PAYER));
    RunTwo(derive, st, Tick(50), DoCancelStream(7, PAYER));
  }

  lemma Ticks(derive: Derive, st: State, seconds: nat)
    requires Funded(st) && st.now + seconds <= U64_MAX
    ensures Exec(derive, st, Tick(seconds)) == st.(now := st.now + seconds) && Funded(st.(now := st.now + seconds))
  {
    hide Funded;
    ExecSafe(derive, st, Tick(seconds));
  }

  /** A stream paused at 60 and cancelled at 90: by `cancel_stream` the recipient gets 60, by a batch, which
      goes by the running clock, 90. */
  lemma BatchPaysPausedSeconds(derive: Derive)
    ensures var st := Holding(PausedAt(Sample(7), 60), 90);
            var single, batch := Exec(derive, st, DoCancelStream(7, PAYER)),
              Exec(derive, st, DoBatchCancel([7], PAYER));
            && Inv(st) && CancelStream(st, 7, PAYER).Ok? && BatchCancel(st, [7], PAYER).Ok?
            && BatchCancel(st, [7], PAYER).value.out == [Ok(())]
            && BalanceOf(single.bank, COIN, PAYEE) == 60 && BalanceOf(single.bank, COIN, PAYER) == 40
            && BalanceOf(batch.bank, COIN, PAYEE) == 90 && BalanceOf(batch.bank, COIN, PAYER) == 10
  {
    hide Flow, BatchCancelOne, CancelStream, BatchCancel, Inv, Exec, Stream.Sound;
    PausedRecord();
    var st := Holding(PausedAt(Sample(7), 60), 90);
    HoldingInv(PausedAt(Sample(7), 60), 90);
    CancelPays(derive, st, 60);
    BatchCancelExactly(st, 7, PAYER);
    OneCancelled(derive, st);
  }

  lemma PausedRecord()
    ensures var s := PausedAt(Sample(7), 60); s.Sound(90) && Accrued(s, 60) == 60 && Accrued(s, 90) == 90
  {
    hide Flow;
    OneASecond(0, 60, 90);
    OneASecond(0, 60, 100);
  }

  /** A batch of one. */
  lemma OneCancelled(derive: Derive, st: State)
    requires BatchCancelOne(st, 7, PAYER).Ok?
    ensures BatchCancel(st, [7], PAYER) == Ok(Post(BatchCancelOne(st, 7, PAYER).value, [Ok(())]))
    ensures Exec(derive, st, DoBatchCancel([7], PAYER)) == BatchCancelOne(st, 7, PAYER).value
  {
    hide BatchCancelOne;
    var st' := BatchCancelOne(st, 7, PAYER).value;
    var one: seq<Result<()>> := [Ok(())];
    assert [] + one == one;
    assert BatchCancelFrom(st', [7], 1, one, PAYER) == Ok(Post(st', one));
    assert BatchCancelFrom(st, [7], 0, [], PAYER) == Ok(Post(st', one));
    assert Apply(derive, st, DoBatchCancel([7], PAYER)) == Ok(st');
  }

  /** A stream paused at 10, before its cliff at 50: nothing is claimable; resumed at the last moment of
      `u64`, 10 is. */
  lemma LastMomentFreesTheCliff()
    ensures var st := Holding(PausedAt(Sample(7), 10), U64_MAX); var r := ResumeStream(st, 7, PAYER);
            && Inv(st) && GetClaimable(st, 7) == Ok(0)
            && r.Ok? && GetClaimable(r.value, 7) == Ok(10)
  {
    hide Flow, Inv, GetClaimable, ResumeStream, Stream.Sound;
    LastMomentRecord();
    var s := PausedAt(Sample(7), 10);
    var st := Holding(s, U64_MAX);
    HoldingInv(s, U64_MAX);
    ResumesSample(st, s);
    ClaimableNeverOverflows(st, 7);
    ClaimableNeverOverflows(ResumeStream(st, 7, PAYER).value, 7);
  }

  lemma LastMomentRecord()
    ensures var s := PausedAt(Sample(7), 10);
            s.Sound(U64_MAX) && Due(s, s.lastPauseTime) == 0 && Due(Resumed(s, U64_MAX), U64_MAX) == 10
  {
    hide Flow;
    OneASecond(0, 10, 100);
  }

  lemma ResumesSample(st: State, s: Stream)
    requires Inv(st) && st == Holding(s, U64_MAX) && s == PausedAt(Sample(7), 10)
    ensures var r := ResumeStream(st, 7, PAYER);
            r.Ok? && Funded(r.value) && r.value.now == U64_MAX && 7 in r.value.streams
              && r.value.streams[7] == Resumed(s, U64_MAX)
  {
    hide Flow, Funded;
    ResumeSafe(st, 7, PAYER);
  }

  /** 1000 units over 100 seconds. */
  function Tenfold(): Stream {
    Stream(7, PAYER, PAYEE, COIN, 1000, 10, 0, 0, 0, 100, 0, Active, false, false, 0, 0)
  }

  lemma TenfoldInv()
    ensures Inv(Holding(Tenfold(), 0))
  {
    hide Flow;
    FlowIsProduct(10, 0);
    FlowIsProduct(10, 100);
    HoldingInv(Tenfold(), 0);
  }

  /** A partial cancel that keeps 19 at a rate of 10 leaves a stream of one second: its deposit over its
      period is 19. */
  lemma PartialCancelBreaksRate(derive: Derive)
    ensures var st := Holding(Tenfold(), 0); var r := PartialCancel(derive, st, 7, PAYER, 981);
            && Inv(st) && r.Ok? && r.value.out in r.value.st.streams
            && var heir := r.value.st.streams[r.value.out];
               heir.flowRate == 10 && heir.deposit == 19 && heir.endTime - heir.startTime == 1
  {
    hide Flow, PartialCancel, Indexed, Owed, Paid;
    TenfoldInv();
    var st := Holding(Tenfold(), 0);
    FlowIsProduct(10, 0);
    PartialCancelHappensExactly(derive, st, 7, PAYER, 981);
    PartialCancelConserves(derive, st, 7, PAYER, 981);
    var r := PartialCancel(derive, st, 7, PAYER, 981).value;
    var heir := r.st.streams[r.out];
    FlowIsProduct(10, heir.endTime - heir.startTime);
  }

  /** The sample stream at its end, set to renew, and its sender with the deposit once more. */
  function Renewing(): State {
    Holding(Sample(7).(autoRenew := true), 100).(bank := map[(COIN, Contract) := 100, (COIN, PAYER) := 100])
  }

  /** A withdrawal that renews it leaves the start, 100, past the cliff, 50. */
  lemma RenewalPassesTheCliff()
    ensures var st := Renewing(); var r := Withdraw(st, 7, PAYEE, {PAYER});
            && Inv(st) && Ordered(st.streams[7]) && r.Ok? && 7 in r.value.streams
            && r.value.streams[7].startTime == 100 && r.value.streams[7].cliffTime == 50
            && RenewsPastCliff(st, DoWithdraw(7, PAYEE, {PAYER}), st.streams[7])
  {
    hide Flow, Indexed, Withdraw, PayClaim, Stream.Sound, Owed;
    RenewingInv();
    RenewingPays();
    RenewalHappensExactly(Renewing(), 7, PAYEE, {PAYER});
    RenewalTiles(Renewing(), 7, PAYEE, {PAYER});
  }

  lemma RenewingPays()
    ensures var st := Renewing(); var s := st.streams[7]; var paid := PayClaim(st, s, 100);
            Due(s, 100) == 100 && paid.Ok? && BalanceOf(paid.value, COIN, PAYER) == 100
  {
    hide Flow;
    OneASecond(0, 100, 100);
  }

  lemma RenewingInv()
    ensures Inv(Renewing())
  {
    hide Flow;
    OneASecond(0, 100, 100);
    var was := Holding(Sample(7).(autoRenew := true), 100);
    HoldingInv(was.streams[7], 100);
    forall token ensures Owed(was.streams, token) <= BalanceOf(Renewing().bank, token, Contract) {
      assert Owed(was.streams, token) <= BalanceOf(was.bank, token, Contract);
    }
  }

  /** The largest deposit, streamed in one second. */
  function Largest(): Stream {
    Stream(7, PAYER, PAYEE, COIN, I128_MAX, I128_MAX, 0, 0, 0, 1, 0, Active, false, false, 0, 0)
  }

  function TwoBasisPoints(): State {
    Holding(Largest(), 1).(cfg := PLAIN.(feeBps := 2))
  }

  lemma LargestSound()
    ensures Largest().Sound(1)
    ensures Largest().Claimable(1) == Some(I128_MAX)
  {
    hide Flow;
    FlowIsProduct(I128_MAX, 0);
    FlowIsProduct(I128_MAX, 1);
  }

  lemma ReconfiguredInv(st: State, cfg: Config)
    requires Inv(st) && 0 <= cfg.feeBps <= FEE_DENOMINATOR
    ensures Inv(st.(cfg := cfg))
  {
  }

  /** At a fee of two basis points the largest claim can be read but not withdrawn: the fee product
      overflows although the fee itself would fit. */
  lemma FeeProductOverflows()
    ensures var st := TwoBasisPoints();
            Inv(st) && Withdraw(st, 7, PAYEE, {}) == Err(Overflow) && GetClaimable(st, 7) == Ok(I128_MAX)
  {
    hide Inv, Settle, Flow, ComputeClaimable, Stream.Sound;
    LargestSound();
    HoldingInv(Largest(), 1);
    ReconfiguredInv(Holding(Largest(), 1), PLAIN.(feeBps := 2));
  }

  // ---- a reissued id ----

  const ORDER := BatchOrder(PAYER, [PAYEE], [100], [COIN], 100, false, [0])

  /** A contract just deployed, and a sender with funds. */
  function Deployed(funds: int): State {
    State(0, map[], map[(COIN, PAYER) := funds], map[], map[], [], {}, map[], map[], false, 0, [], PLAIN)
  }

  /** The id of the ordered stream at time 0. */
  function FirstId(derive: Derive): u64 {
    derive(PAYER, PAYEE, 0, 0)
  }

  /** The stream the order creates. */
  function FirstStream(id: int): Stream {
    Created(id, PAYER, PAYEE, COIN, 100, 1, 0, 0, 0, 100, false, false)
  }

  /** What the witness runs look at: time, pause, settings, the indexes of the two parties, the money. */
  ghost predicate Looks(st: State, streams: map<int, Stream>, ids: seq<int>, created: seq<int>, nonce: int, funds: int,
                        pool: int) {
    && st.now == 0 && !st.paused && st.cfg == PLAIN && st.streams == streams && st.created == created
    && Listed(st.bySender, PAYER) == ids && Listed(st.byRecipient, PAYEE) == ids
    && NextBatchNonce(st, PAYER) == nonce
    && BalanceOf(st.bank, COIN, PAYER) == funds && BalanceOf(st.bank, COIN, Contract) == pool
  }

  lemma OrderCreates(derive: Derive, st: State, created: seq<int>, nonce: u64, funds: int, pool: int)
    requires Looks(st, map[], [], created, nonce, funds, pool) && |created| <= 10 && nonce <= 10 && 100 <= funds
    ensures var id := FirstId(derive); var st' := Exec(derive, st, DoBatchCreate(ORDER, nonce));
            && Looks(st', map[id := FirstStream(id)], [id], created + [id], nonce + 1, funds - 100, pool + 100)
            && st'.nonces == st.nonces
  {
    hide BatchFill;
    var start := st.(batchNonces := st.batchNonces[PAYER := nonce + 1]);
    OrderFills(derive, start, created, nonce + 1, funds, pool);
    assert BatchCreate(derive, st, ORDER, nonce) == BatchFill(derive, start, ORDER);
  }

  lemma OrderFills(derive: Derive, st: State, created: seq<int>, nonce: int, funds: int, pool: int)
    requires Looks(st, map[], [], created, nonce, funds, pool) && |created| <= 10 && 100 <= funds
    ensures var r := BatchFill(derive, st, ORDER); var id := FirstId(derive);
            && r.Ok? && Looks(r.value.st, map[id := FirstStream(id)], [id], created + [id], nonce, funds - 100,
                              pool + 100)
            && r.value.st.nonces == st.nonces
  {
    var id := FirstId(derive);
    assert BatchIdsFrom(derive, st, ORDER, 1, [id]) == Ok([id]);
    assert BatchIdsFrom(derive, st, ORDER, 0, []) == Ok([id]) by {
      assert ORDER.amounts[0] / ORDER.duration == 1 && derive(PAYER, PAYEE, st.now, 0) == id;
      assert [] + [id] == [id];
    }
    assert BatchStream(st, ORDER, 0, id) == FirstStream(id);
    var one := BatchCreateOne(st, ORDER, 0, id).value;
    assert BatchCreateFrom(one, ORDER, 1, [id]) == Ok(one);
    assert BatchCreateFrom(st, ORDER, 0, [id]) == Ok(one);
  }

  lemma CancelEmpties(derive: Derive, st: State, id: int)
    requires Looks(st, map[id := FirstStream(id)], [id], [id], 1, 0, 100)
    ensures Looks(Exec(derive, st, DoCancelStream(id, PAYER)), map[], [], [id], 1, 100, 0)
  {
    var s := FirstStream(id);
    assert s.Earned(0) == Some(0) && RefundOf(s, 0) == 100;
    assert IndexOf([id], id) == 0 && Without([id], id) == [];
    assert st.streams - {id} == map[];
  }

  /** Whatever the hash: create, cancel and create again by batch within one second, and the id comes
      back; the global list repeats it, and the statistics count one stored stream twice. */
  lemma ReissuedIdIsCountedTwice(derive: Derive)
    ensures var id := FirstId(derive);
            var calls := [DoBatchCreate(ORDER, 0), DoCancelStream(id, PAYER), DoBatchCreate(ORDER, 1)];
            var last := Run(derive, Deployed(100), calls);
            Genesis(Deployed(100)) && last.created == [id, id] && |last.streams| == 1
            && StatsOf(last.streams, last.created).totalStreams == 2
  {
    hide Exec, Run;
    var id := FirstId(derive);
    var st := Deployed(100);
    OrderCreates(derive, st, [], 0, 100, 0);
    var st1 := Exec(derive, st, DoBatchCreate(ORDER, 0));
    CancelEmpties(derive, st1, id);
    var st2 := Exec(derive, st1, DoCancelStream(id, PAYER));
    OrderCreates(derive, st2, [id], 1, 100, 0);
    RunThree(derive, st, DoBatchCreate(ORDER, 0), DoCancelStream(id, PAYER), DoBatchCreate(ORDER, 1));
    assert [id] + [id] == [id, id];
    CountedTwice(map[id := FirstStream(id)], id);
  }

  lemma RunThree(derive: Derive, st: State, a: Call, b: Call, c: Call)
    ensures Run(derive, st, [a, b, c]) == Exec(derive, Exec(derive, Exec(derive, st, a), b), c)
  {
    assert [a, b, c][..2] == [a, b];
    RunTwo(derive, st, a, b);
  }

  lemma CountedTwice(streams: map<int, Stream>, id: int)
    requires id in streams
    ensures StatsOf(streams, [id, id]).totalStreams == 2
  {
    assert [id, id][..1] == [id] && [id][..0] == [];
    assert StatsOf(streams, [id]).totalStreams == 1;
  }
}
