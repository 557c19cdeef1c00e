/** The vesting arithmetic of contracts/stream/src/vesting_math.rs over full-width `i128` and `u64`
    inputs, and the laws the repository checks on bounded ranges only. */
module VestingMath {
  import opened Prelude

  /** What `seconds` seconds pay at `rate`: the product `rate * seconds`, spelled out second by second
      so that proofs need no non-linear arithmetic. */
  function Flow(rate: int, seconds: int): int
    decreases Max(seconds, -seconds)
  {
    if seconds == 0 then 0
    else if seconds > 0 then Flow(rate, seconds - 1) + rate
    else Flow(rate, seconds + 1) - rate
  }

  lemma {:induction false} FlowIsProduct(rate: int, seconds: int)
    ensures Flow(rate, seconds) == rate * seconds
    decreases Max(seconds, -seconds)
  {
    if seconds > 0 {
      FlowIsProduct(rate, seconds - 1);
    } else if seconds < 0 {
      FlowIsProduct(rate, seconds + 1);
    }
  }

  lemma FlowSplit(rate: int, x: int, y: int)
    ensures Flow(rate, x + y) == Flow(rate, x) + Flow(rate, y)
  {
    FlowIsProduct(rate, x);
    FlowIsProduct(rate, y);
    FlowIsProduct(rate, x + y);
  }

  lemma FlowSign(rate: int, x: int)
    requires 0 <= rate && 0 <= x
    ensures 0 <= Flow(rate, x)
  {
    FlowIsProduct(rate, x);
    MulSign(rate, x);
  }

  lemma FlowMono(rate: int, x: int, y: int)
    requires 0 <= rate && x <= y
    ensures Flow(rate, x) <= Flow(rate, y)
  {
    FlowSplit(rate, x, y - x);
    FlowSign(rate, y - x);
  }

  lemma FlowStrict(rate: int, x: int, y: int)
    requires 0 < rate && x < y
    ensures Flow(rate, x) < Flow(rate, y)
  {
    FlowMono(rate, x + 1, y);
  }

  lemma FlowOfNegative(rate: int, seconds: int)
    ensures Flow(-rate, seconds) == -Flow(rate, seconds)
  {
    FlowIsProduct(rate, seconds);
    FlowIsProduct(-rate, seconds);
    assert -rate * seconds == -(rate * seconds);
  }

  /** A floored rate over its duration, and a whole number of seconds at a rate, both stop short of
      the amount by the remainder. */
  lemma FlowOfQuotient(amount: int, divisor: int)
    requires 0 < divisor && 0 <= amount
    ensures Flow(amount / divisor, divisor) == amount - amount % divisor
    ensures Flow(divisor, amount / divisor) == amount - amount % divisor
    ensures 0 <= amount / divisor && 0 <= amount % divisor < divisor
  {
    DivFloor(amount, divisor);
    FlowIsProduct(amount / divisor, divisor);
    FlowIsProduct(divisor, amount / divisor);
  }

  /** `end_time` caps the clock; a clock behind the last withdrawal earns nothing. */
  function Elapsed(now: int, endTime: int, since: int): int {
    SaturatingU64((if now < endTime then now else endTime) - since)
  }

  function ComputeClaimable(flowRate: int, now: int, cliffTime: int, endTime: int, lastWithdrawTime: int): Option<int> {
    if now < cliffTime then
      Some(0)
    else
      CheckedI128(Flow(flowRate, Elapsed(now, endTime, lastWithdrawTime)))
  }

  function ComputeEarned(flowRate: int, now: int, endTime: int, lastWithdrawTime: int): Option<int> {
    CheckedI128(Flow(flowRate, Elapsed(now, endTime, lastWithdrawTime)))
  }

  function ComputeTotalStreamed(flowRate: int, now: int, endTime: int, startTime: int): Option<int> {
    CheckedI128(Flow(flowRate, Elapsed(now, endTime, startTime)))
  }

  function ComputeRefund(deposit: int, flowRate: int, now: int, endTime: int, startTime: int): Option<int> {
    match ComputeTotalStreamed(flowRate, now, endTime, startTime)
    case None => None
    case Some(streamed) => Some(SaturatingI128(deposit - streamed))
  }

  /** Division that truncates toward zero, and traps on a duration of zero. */
  function ComputeFlowRate(deposit: int, durationSeconds: int): Option<int>
    requires 0 <= durationSeconds
  {
    if durationSeconds == 0 then None
    else if 0 <= deposit then Some(deposit / durationSeconds)
    else Some(-(-deposit / durationSeconds))
  }

  /** An independent reference: seconds are counted one at a time, so neither a cap nor a saturation
      appears in it. */
  ghost function SecondsPaid(from: int, now: int, endTime: int, lastWithdrawTime: int): (n: int)
    requires from <= now
    decreases now - from
  {
    if from == now then 0
    else (if lastWithdrawTime <= from < endTime then 1 else 0) + SecondsPaid(from + 1, now, endTime, lastWithdrawTime)
  }

  lemma {:induction false} SecondsPaidClosed(from: int, now: int, endTime: int, lastWithdrawTime: int)
    requires from <= now
    ensures SecondsPaid(from, now, endTime, lastWithdrawTime) == Max(0, Min(now, endTime) - Max(from, lastWithdrawTime))
    decreases now - from
  {
    if from < now {
      SecondsPaidClosed(from + 1, now, endTime, lastWithdrawTime);
    }
  }

  /** What a recipient may claim is the flow rate times the number of elapsed seconds `t` with
      `last_withdraw_time <= t < end_time`, and `None` exactly when that leaves `i128`. */
  lemma ClaimableCountsSeconds(flowRate: i128, now: u64, cliffTime: u64, endTime: u64, lastWithdrawTime: u64)
    ensures now < cliffTime ==> ComputeClaimable(flowRate, now, cliffTime, endTime, lastWithdrawTime) == Some(0)
    ensures cliffTime <= now ==>
              var exact := Flow(flowRate, SecondsPaid(0, now, endTime, lastWithdrawTime));
              ComputeClaimable(flowRate, now, cliffTime, endTime, lastWithdrawTime)
              == (if I128_MIN <= exact <= I128_MAX then Some(exact) else None)
  {
    SecondsPaidClosed(0, now, endTime, lastWithdrawTime);
    assert Elapsed(now, endTime, lastWithdrawTime) == SecondsPaid(0, now, endTime, lastWithdrawTime);
  }

  /** The claim never shrinks as time passes. */
  lemma ClaimableMonotone(flowRate: i128, t1: u64, t2: u64, cliffTime: u64, endTime: u64, lastWithdrawTime: u64)
    requires 0 < flowRate && t1 <= t2
    requires ComputeClaimable(flowRate, t2, cliffTime, endTime, lastWithdrawTime).Some?
    ensures ComputeClaimable(flowRate, t1, cliffTime, endTime, lastWithdrawTime).Some?
    ensures 0 <= ComputeClaimable(flowRate, t1, cliffTime, endTime, lastWithdrawTime).value
              <= ComputeClaimable(flowRate, t2, cliffTime, endTime, lastWithdrawTime).value
  {
    FlowMono(flowRate, Elapsed(t1, endTime, lastWithdrawTime), Elapsed(t2, endTime, lastWithdrawTime));
    FlowSign(flowRate, Elapsed(t1, endTime, lastWithdrawTime));
  }

  /** For every deposit and duration: there is a rate unless the duration is zero, and the duration's flow
      misses the deposit by less than one unit a second, on the side of zero. */
  lemma FlowRateFloors(deposit: int, duration: int)
    requires 0 <= duration
    ensures ComputeFlowRate(deposit, duration).None? <==> duration == 0
    ensures ComputeFlowRate(deposit, duration).Some? ==>
              var missed := deposit - Flow(ComputeFlowRate(deposit, duration).value, duration);
              && -duration < missed < duration
              && (0 <= deposit ==> missed == deposit % duration)
              && (deposit < 0 ==> missed == -(-deposit % duration))
  {
    if duration != 0 && 0 <= deposit {
      FlowOfQuotient(deposit, duration);
    } else if duration != 0 {
      FlowOfQuotient(-deposit, duration);
      FlowOfNegative(-deposit / duration, duration);
    }
  }

  /** On the full range: a stream of floored rate over `duration` seconds never owes more than its
      deposit, none of the four computations overflows, and refund and streamed total add up. */
  lemma DepositCoversEverything(deposit: i128, duration: u64, startTime: u64, cliffTime: u64, now: u64,
                                lastWithdrawTime: u64)
    requires 0 < deposit && 0 < duration && startTime + duration <= U64_MAX
    requires startTime <= lastWithdrawTime
    ensures var rate := ComputeFlowRate(deposit, duration).value;
            var end := startTime + duration;
            && ComputeClaimable(rate, now, cliffTime, end, lastWithdrawTime).Some?
            && ComputeEarned(rate, now, end, lastWithdrawTime).Some?
            && ComputeTotalStreamed(rate, now, end, startTime).Some?
            && ComputeRefund(deposit, rate, now, end, startTime).Some?
            && 0 <= ComputeClaimable(rate, now, cliffTime, end, lastWithdrawTime).value
                 <= ComputeEarned(rate, now, end, lastWithdrawTime).value
                 <= ComputeTotalStreamed(rate, now, end, startTime).value <= deposit
            && 0 <= ComputeRefund(deposit, rate, now, end, startTime).value
            && ComputeTotalStreamed(rate, now, end, startTime).value
               + ComputeRefund(deposit, rate, now, end, startTime).value == deposit
  {
    var rate := ComputeFlowRate(deposit, duration).value;
    var end := startTime + duration;
    FlowOfQuotient(deposit, duration);
    FlowSign(rate, Elapsed(now, end, lastWithdrawTime));
    FlowMono(rate, Elapsed(now, end, lastWithdrawTime), Elapsed(now, end, startTime));
    FlowMono(rate, Elapsed(now, end, startTime), duration);
  }

  /** Splitting a period at any moment changes nothing: what is earned up to `t1` and what is
      earned from there to `t2` is what is earned in one go. */
  lemma EarnedAdds(flowRate: int, t1: u64, t2: u64, endTime: u64, lastWithdrawTime: u64)
    requires 0 < flowRate && lastWithdrawTime <= Min(t1, endTime) && t1 <= t2
    requires ComputeEarned(flowRate, t2, endTime, lastWithdrawTime).Some?
    ensures ComputeEarned(flowRate, t1, endTime, lastWithdrawTime).Some?
    ensures ComputeEarned(flowRate, t2, endTime, Min(t1, endTime)).Some?
    ensures ComputeEarned(flowRate, t1, endTime, lastWithdrawTime).value
            + ComputeEarned(flowRate, t2, endTime, Min(t1, endTime)).value
            == ComputeEarned(flowRate, t2, endTime, lastWithdrawTime).value
  {
    var x := Elapsed(t1, endTime, lastWithdrawTime);
    var y := Elapsed(t2, endTime, Min(t1, endTime));
    FlowSplit(flowRate, x, y);
    FlowSign(flowRate, x);
    FlowSign(flowRate, y);
    assert Elapsed(t2, endTime, lastWithdrawTime) == x + y;
  }
}
