/** One payment stream: its record, the transitions the entry points apply to it, and the invariant
    every stored record satisfies in every reachable state. */
module Streams {
  import opened Prelude
  import opened VestingMath

  datatype Status = Active | Cancelled | Completed | Paused

  datatype Stream = Stream(
    id: int,
    sender: Address,
    recipient: Address,
    token: Address,
    deposit: int,
    flowRate: int,
    startTime: int,
    cliffTime: int,
    lockUntil: int,
    endTime: int,
    lastWithdrawTime: int,
    status: Status,
    autoRenew: bool,
    allowRecipientTermination: bool,
    lastPauseTime: int,
    totalWithdrawn: int)
  {
    predicate Live() {
      status.Active? || status.Paused?
    }

    /** A paused stream reads the clock at its pause. */
    function Clock(now: int): int {
      if status.Paused? then lastPauseTime else now
    }

    /** What the pool still holds for this stream. */
    function Claim(): int {
      if Live() then deposit - totalWithdrawn else 0
    }

    function Claimable(now: int): Option<int> {
      ComputeClaimable(flowRate, now, cliffTime, endTime, lastWithdrawTime)
    }

    function Earned(now: int): Option<int> {
      ComputeEarned(flowRate, now, endTime, lastWithdrawTime)
    }

    /** The part of the deposit that no second of the stream pays out. */
    function Dust(): int {
      SaturatingI128(deposit - SaturatingI128(Flow(flowRate, endTime - startTime)))
    }

    /** Tokens that withdrawals before the cliff moved past without paying. */
    function Skipped(): int {
      Flow(flowRate, lastWithdrawTime - startTime) - totalWithdrawn
    }

    /** The reachable-stream invariant. */
    ghost predicate Sound(now: int) {
      && sender != Contract
      && 0 < flowRate
      && 0 <= startTime <= lastWithdrawTime <= endTime <= U64_MAX
      && 0 <= cliffTime <= endTime
      && 0 <= lockUntil <= U64_MAX
      && 0 <= totalWithdrawn <= Flow(flowRate, lastWithdrawTime - startTime)
      && Flow(flowRate, endTime - startTime) <= deposit <= I128_MAX
      && lastWithdrawTime <= Clock(now)
      && (status.Paused? ==> lastPauseTime <= now)
      && Skipped() <= Flow(flowRate, Max(0, Min(lastWithdrawTime, cliffTime) - startTime))
    }
  }

  /** What has accrued since the last withdrawal when the clock reads `t`. */
  function Accrued(s: Stream, t: int): int {
    Flow(s.flowRate, Min(t, s.endTime) - s.lastWithdrawTime)
  }

  /** The claimable amount of a live stream as a plain number. */
  function Due(s: Stream, t: int): int {
    if t < s.cliffTime then 0 else Accrued(s, t)
  }

  // ---- transitions ----

  function Created(id: int, sender: Address, recipient: Address, token: Address, amount: int, flowRate: int,
                   now: int, cliffTime: int, lockUntil: int, endTime: int, autoRenew: bool, allowTermination: bool):
                   Stream
  {
    Stream(id, sender, recipient, token, amount, flowRate, now, cliffTime, lockUntil, endTime, now,
           Active, autoRenew, allowTermination, 0, 0)
  }

  /** A withdrawal of `gross` at `now`, before any settlement. */
  function Drawn(s: Stream, now: int, gross: int): Stream {
    s.(totalWithdrawn := if gross > 0 then s.totalWithdrawn + gross else s.totalWithdrawn,
       lastWithdrawTime := Min(now, s.endTime))
  }

  function Renewed(s: Stream, newEnd: int): Stream {
    s.(startTime := s.endTime, endTime := newEnd, lastWithdrawTime := s.endTime, totalWithdrawn := 0)
  }

  /** The next cycle: it starts at the end and lasts as long. */
  function NextCycle(s: Stream): Stream {
    Renewed(s, s.endTime + (s.endTime - s.startTime))
  }

  function PausedAt(s: Stream, now: int): Stream {
    s.(status := Paused, lastPauseTime := now)
  }

  /** Every time field moves by the length of the pause and stops at the end of `u64`. */
  function Resumed(s: Stream, now: int): Stream {
    var d := SaturatingU64(now - s.lastPauseTime);
    s.(endTime := SaturatingU64(s.endTime + d),
       cliffTime := SaturatingU64(s.cliffTime + d),
       startTime := SaturatingU64(s.startTime + d),
       lastWithdrawTime := SaturatingU64(s.lastWithdrawTime + d),
       lockUntil := SaturatingU64(s.lockUntil + d),
       status := Active,
       lastPauseTime := 0)
  }

  function ToppedUp(s: Stream, seconds: int, effective: int): Stream {
    s.(endTime := s.endTime + seconds, deposit := s.deposit + effective)
  }

  /** The stream that continues after a partial cancel at clock `now`. */
  function Replacement(s: Stream, id: int, now: int, deposit: int, endTime: int): Stream {
    Stream(id, s.sender, s.recipient, s.token, deposit, s.flowRate, now, now, now, endTime, now,
           Active, s.autoRenew, s.allowRecipientTermination, 0, 0)
  }

  // ---- what the invariant gives ----

  /** Everything the money paths compute on a live stream stays in range and within the deposit. */
  lemma ClaimWithinDeposit(s: Stream, now: int)
    requires s.Sound(now) && s.Live() && now <= U64_MAX
    ensures var t := s.Clock(now);
            && s.Earned(t) == Some(Accrued(s, t))
            && s.Claimable(t) == Some(Due(s, t))
            && 0 <= s.Claimable(t).value <= s.Earned(t).value
            && s.totalWithdrawn + s.Earned(t).value
               <= Flow(s.flowRate, Min(t, s.endTime) - s.startTime) <= Flow(s.flowRate,
                 s.endTime - s.startTime) <= s.deposit
            && 0 <= s.totalWithdrawn
  {
    var t := s.Clock(now);
    var e := Min(t, s.endTime);
    FlowSign(s.flowRate, e - s.lastWithdrawTime);
    FlowSign(s.flowRate, s.lastWithdrawTime - s.startTime);
    FlowSplit(s.flowRate, s.lastWithdrawTime - s.startTime, e - s.lastWithdrawTime);
    FlowMono(s.flowRate, e - s.startTime, s.endTime - s.startTime);
  }

  /** The claim a stream has on the pool covers its dust as well, and dust is computed exactly. */
  lemma DustExact(s: Stream, now: int)
    requires s.Sound(now)
    ensures s.Dust() == s.deposit - Flow(s.flowRate, s.endTime - s.startTime)
    ensures 0 <= s.Dust()
    ensures s.totalWithdrawn + s.Dust() <= s.deposit
  {
    FlowSign(s.flowRate, s.endTime - s.startTime);
    FlowMono(s.flowRate, s.lastWithdrawTime - s.startTime, s.endTime - s.startTime);
  }

  lemma ClaimNonNegative(s: Stream, now: int)
    requires s.Sound(now)
    ensures 0 <= s.Claim() <= I128_MAX
    ensures 0 <= s.totalWithdrawn <= s.deposit
  {
    DustExact(s, now);
  }

  /** The documented flow rate, deposit over period, holds of a sound stream exactly while its dust is less
      than one unit a second. */
  lemma RateIsDepositOverPeriod(s: Stream, now: int)
    requires s.Sound(now) && s.startTime < s.endTime
    ensures s.deposit / (s.endTime - s.startTime) == s.flowRate <==> s.Dust() < s.endTime - s.startTime
  {
    var d := s.endTime - s.startTime;
    DustExact(s, now);
    FlowIsProduct(s.flowRate, d);
    QuotientIs(s.deposit, d, s.flowRate);
  }

  lemma QuotientIs(x: int, d: int, q: int)
    requires 0 < d
    ensures x / d == q <==> 0 <= x - q * d < d
  {
    DivFloor(x, d);
    var p := x / d;
    assert d * p - q * d == d * (p - q) by { MulSplit(d, p, -q); }
    if p < q { MulMono(d, p - q, -1); }
    if q < p { MulMono(d, 1, p - q); }
  }

  /** The invariant's plain facts. */
  lemma SoundTimes(s: Stream, now: int)
    requires s.Sound(now)
    ensures s.startTime <= s.lastWithdrawTime <= s.endTime && s.cliffTime <= s.endTime && s.endTime <= U64_MAX
    ensures 0 <= s.lockUntil <= U64_MAX && 0 < s.flowRate && s.sender != Contract
  {
  }

  // ---- the transitions keep it ----

  lemma CreatedSound(s: Stream, now: u64, duration: int)
    requires s.sender != Contract && s.status.Active?
    requires 0 < s.deposit <= I128_MAX && 0 < duration && s.flowRate == s.deposit / duration && 0 < s.flowRate
    requires s.startTime == s.lastWithdrawTime == now && s.endTime == now + duration <= U64_MAX
    requires now <= s.cliffTime <= s.endTime && 0 <= s.lockUntil <= U64_MAX && s.totalWithdrawn == 0
    ensures s.Sound(now)
    ensures s.Dust() == s.deposit % duration
  {
    FlowOfQuotient(s.deposit, duration);
  }

  /** A draw of the claimable amount, or of the earned amount whether or not the cliff has passed. */
  lemma DrawnSound(s: Stream, now: int, gross: int)
    requires s.Sound(now) && s.Live() && now <= U64_MAX
    requires var t := s.Clock(now); s.Earned(t) == Some(gross) || s.Claimable(t) == Some(gross)
    ensures var t := s.Clock(now); var s' := Drawn(s, t, gross);
            && s'.Sound(now) && 0 <= gross && s'.totalWithdrawn == s.totalWithdrawn + gross <= s.deposit
            && s'.Skipped() == s.Skipped() + Accrued(s, t) - gross
  {
    ClaimWithinDeposit(s, now);
    var t := s.Clock(now);
    var e := Min(t, s.endTime);
    var m := Min(s.lastWithdrawTime, s.cliffTime) - s.startTime;
    var m' := Min(e, s.cliffTime) - s.startTime;
    FlowSplit(s.flowRate, s.lastWithdrawTime - s.startTime, e - s.lastWithdrawTime);
    FlowMono(s.flowRate, Max(0, m), Max(0, m'));
    if gross != s.Earned(t).value {
      assert t < s.cliffTime;
      FlowSplit(s.flowRate, s.lastWithdrawTime - s.startTime, e - s.lastWithdrawTime);
      assert m' == e - s.startTime;
    }
  }

  lemma RenewedSound(s: Stream, now: int)
    requires s.Sound(now) && s.status.Active? && s.endTime <= now
    requires s.endTime + (s.endTime - s.startTime) <= U64_MAX
    ensures Renewed(s, s.endTime + (s.endTime - s.startTime)).Sound(now)
    ensures Renewed(s, s.endTime + (s.endTime - s.startTime)).Dust() == s.Dust()
  {
    FlowSign(s.flowRate, s.endTime - s.startTime);
    var s' := Renewed(s, s.endTime + (s.endTime - s.startTime));
    assert s'.endTime - s'.startTime == s.endTime - s.startTime;
    assert s'.Skipped() == 0;
    FlowSign(s.flowRate, Max(0, Min(s'.lastWithdrawTime, s'.cliffTime) - s'.startTime));
  }

  lemma StatusSound(s: Stream, now: int, status: Status)
    requires s.Sound(now) && (status.Cancelled? || status.Completed?)
    ensures s.(status := status).Sound(now)
  {
  }

  lemma PausedSound(s: Stream, now: int)
    requires s.Sound(now) && s.status.Active?
    ensures PausedAt(s, now).Sound(now)
    ensures PausedAt(s, now).Dust() == s.Dust()
  {
  }

  /** Start and last withdrawal never reach the end of `u64`; the end and the cliff may. */
  lemma ResumedSound(s: Stream, now: u64)
    requires s.Sound(now) && s.status.Paused?
    ensures var d := now - s.lastPauseTime; var s' := Resumed(s, now);
            && 0 <= d && s'.Sound(now) && s'.status.Active? && s'.lastPauseTime == 0
            && s'.startTime == s.startTime + d <= now
            && s'.lastWithdrawTime == s.lastWithdrawTime + d <= now
            && s'.endTime == Min(s.endTime + d, U64_MAX)
            && s'.cliffTime == Min(s.cliffTime + d, U64_MAX)
            && s'.lockUntil == Min(s.lockUntil + d, U64_MAX)
            && s'.Skipped() == s.Skipped()
            && s'.Dust() == s.Dust() + Flow(s.flowRate, s.endTime + d - s'.endTime)
  {
    hide Flow;
    var d := now - s.lastPauseTime;
    var s' := Resumed(s, now);
    assert s'.lastWithdrawTime - s'.startTime == s.lastWithdrawTime - s.startTime;
    FlowMono(s.flowRate, s'.endTime - s'.startTime, s.endTime - s.startTime);
    FlowSign(s.flowRate, s'.endTime - s'.startTime);
    FlowMono(s.flowRate, Max(0, Min(s.lastWithdrawTime, s.cliffTime) - s.startTime),
            Max(0, Min(s'.lastWithdrawTime, s'.cliffTime) - s'.startTime));
    FlowSplit(s.flowRate, s'.endTime - s'.startTime, s.endTime + d - s'.endTime);
    DustExact(s, now);
  }

  lemma ToppedUpSound(s: Stream, now: int, amount: int)
    requires s.Sound(now) && 0 < amount
    requires var eff := amount - amount % s.flowRate;
             s.endTime + eff / s.flowRate <= U64_MAX && s.deposit + eff <= I128_MAX
    ensures var eff := amount - amount % s.flowRate;
            && 0 <= eff <= amount && 0 <= eff / s.flowRate
            && Flow(s.flowRate, eff / s.flowRate) == eff
            && ToppedUp(s, eff / s.flowRate, eff).Sound(now)
            && ToppedUp(s, eff / s.flowRate, eff).Dust() == s.Dust()
  {
    var eff := amount - amount % s.flowRate;
    EffectiveAmount(s.flowRate, amount);
    var n := eff / s.flowRate;
    FlowSplit(s.flowRate, s.endTime - s.startTime, n);
    DustExact(s, now);
    var s' := ToppedUp(s, n, eff);
    assert s'.endTime - s'.startTime == s.endTime - s.startTime + n;
    assert s'.Sound(now);
    DustExact(s', now);
  }

  /** The accepted part of a top-up is the largest multiple of the flow rate in the offer. */
  lemma EffectiveAmount(rate: int, amount: int)
    requires 0 < rate && 0 < amount
    ensures var eff := amount - amount % rate;
            0 <= eff <= amount < eff + rate && eff == Flow(rate, amount / rate) && eff / rate == amount / rate
              && 0 <= amount / rate
  {
    FlowOfQuotient(amount, rate);
    FlowIsProduct(rate, amount / rate);
    DivExact(rate, amount / rate);
    MulSign(rate, amount / rate);
  }

  lemma DivExact(rate: int, n: int)
    requires 0 < rate
    ensures rate * n / rate == n
  {
    var q := rate * n / rate;
    DivFloor(rate * n, rate);
    MulSplit(rate, q, n - q);
    if q < n {
      MulMono(rate, 1, n - q);
    } else if n < q {
      MulMono(rate, n - q, -1);
    }
  }

  /** Partial cancel at clock `t` of a live stream, for any clock, past the end too. */
  lemma PartialSplit(s: Stream, now: int, cancel: int)
    requires s.Sound(now) && s.Live() && now <= U64_MAX && 0 < cancel
    requires var t := s.Clock(now); Flow(s.flowRate, t - s.startTime) <= I128_MAX
    requires var t := s.Clock(now); cancel < s.deposit - Flow(s.flowRate, t - s.startTime)
    ensures var t := s.Clock(now);
            var earned := Flow(s.flowRate, t - s.lastWithdrawTime);
            var kept := s.deposit - Flow(s.flowRate, t - s.startTime) - cancel;
            && 0 <= earned && 0 <= t - s.lastWithdrawTime && 0 <= t - s.startTime
            && s.totalWithdrawn + earned + cancel + kept + s.Skipped() == s.deposit
            && 0 <= s.Skipped()
  {
    var t := s.Clock(now);
    FlowSplit(s.flowRate, s.lastWithdrawTime - s.startTime, t - s.lastWithdrawTime);
    FlowSign(s.flowRate, t - s.lastWithdrawTime);
  }

  lemma ReplacementSound(s: Stream, id: int, now: int, t: int, kept: int)
    requires s.Sound(now) && 0 <= t <= now && s.flowRate <= kept <= I128_MAX && t + kept / s.flowRate <= U64_MAX
    ensures 1 <= kept / s.flowRate
    ensures var heir := Replacement(s, id, t, kept, t + kept / s.flowRate);
            && heir.Sound(now) && heir.Dust() == kept % s.flowRate && heir.Skipped() == 0
            && heir.status.Active? && heir.lastPauseTime == 0 && heir.totalWithdrawn == 0
            && heir.startTime == heir.lastWithdrawTime == heir.cliffTime == heir.lockUntil == t
            && heir.endTime == t + kept / s.flowRate && heir.deposit == kept && heir.flowRate == s.flowRate
  {
    FlowOfQuotient(kept, s.flowRate);
    if kept / s.flowRate < 1 {
      FlowMono(s.flowRate, kept / s.flowRate, 0);
    }
  }
}
