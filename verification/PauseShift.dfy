/** Pausing a stream is a shift in time: nothing accrues while it is paused, resuming gives back
    exactly what was claimable, and after any number of pauses the stream is the one never paused,
    read at the wall clock minus the time it spent paused. */
module PauseShift {
  import opened Prelude
  import opened VestingMath
  import opened Streams
  import opened Ledger
  import opened Invariants
  import opened Custody
  import opened Runs
  import opened Payments

  // ---- the two calls ----

  /** Only the sender pauses, and only an active stream, while the contract is not paused itself. The record
      remembers the moment; nothing else about it changes and no token moves. */
  lemma PauseExactly(st: State, id: int, sender: Address)
    requires Funded(st)
    ensures PauseStream(st, id, sender).Ok?
            <==> && !(st.paused && st.now < st.pauseExpiry) && sender != Contract
                 && id in st.streams && st.streams[id].sender == sender && st.streams[id].status.Active?
    ensures PauseStream(st, id, sender).Ok? ==>
              var s := st.streams[id]; var st' := PauseStream(st, id, sender).value;
              && st'.streams == st.streams[id := s.(status := Paused, lastPauseTime := st.now)]
              && st' == Opened(st).(streams := st'.streams)
  {
    GateInv(st);
  }

  /** Only the sender resumes, and only a paused stream. The record is active again; its times have moved by
      the length of the pause, the end, the cliff and the lock no further than the end of `u64`; nothing else
      about it changes and no token moves. */
  lemma ResumeExactly(st: State, id: int, sender: Address)
    requires Funded(st)
    ensures ResumeStream(st, id, sender).Ok?
            <==> && !(st.paused && st.now < st.pauseExpiry) && sender != Contract
                 && id in st.streams && st.streams[id].sender == sender && st.streams[id].status.Paused?
    ensures ResumeStream(st, id, sender).Ok? ==>
              var s := st.streams[id]; var st' := ResumeStream(st, id, sender).value;
              var d := st.now - s.lastPauseTime;
              && 0 <= d
              && st'.streams == st.streams[id := s.(status := Active, lastPauseTime := 0,
                                                    startTime := s.startTime + d,
                                                    lastWithdrawTime := s.lastWithdrawTime + d,
                                                    endTime := Min(s.endTime + d, U64_MAX),
                                                    cliffTime := Min(s.cliffTime + d, U64_MAX),
                                                    lockUntil := Min(s.lockUntil + d, U64_MAX))]
              && st' == Opened(st).(streams := st'.streams)
  {
    hide Flow, Owed;
    GateInv(st);
    if id in st.streams && st.streams[id].status.Paused? {
      ResumedSound(st.streams[id], st.now);
    }
  }

  /** `d` seconds after a resumption `get_claimable` is the flow of the time between the last withdrawal and the
      pause plus `d`, capped by the end and nothing before the cliff; at the very last moment of `u64` a
      cliff no longer holds anything back. */
  lemma ResumedStreamFlows(st: State, id: int, sender: Address, d: nat)
    requires Funded(st) && ResumeStream(st, id, sender).Ok? && st.now + d <= U64_MAX
    ensures var s := st.streams[id]; var t := s.lastPauseTime + d;
            GetClaimable(ResumeStream(st, id, sender).value.(now := st.now + d), id)
            == Ok(if t < s.cliffTime && st.now + d < U64_MAX then 0
                  else Flow(s.flowRate, Min(t, s.endTime) - s.lastWithdrawTime))
  {
    hide Flow, Owed;
    ResumeExactly(st, id, sender);
    ResumeSafe(st, id, sender);
    var later := ResumeStream(st, id, sender).value.(now := st.now + d);
    ClaimWithinDeposit(later.streams[id], later.now);
  }

  /** Pausing for any time and resuming only delays: both calls succeed, and from then on `get_claimable`
      is what it would be without them, seen `wait` seconds earlier. */
  lemma PauseAndResume(st: State, id: int, sender: Address, wait: nat, d: nat)
    requires Funded(st) && PauseStream(st, id, sender).Ok? && st.now + wait + d < U64_MAX
    ensures var mid := PauseStream(st, id, sender).value.(now := st.now + wait);
            && ResumeStream(mid, id, sender).Ok?
            && GetClaimable(ResumeStream(mid, id, sender).value.(now := st.now + wait + d), id)
               == GetClaimable(st.(now := st.now + d), id)
  {
    hide Flow, Owed;
    PauseExactly(st, id, sender);
    PauseSafe(st, id, sender);
    var mid := PauseStream(st, id, sender).value.(now := st.now + wait);
    assert Funded(mid);
    ResumeExactly(mid, id, sender);
    ResumedStreamFlows(mid, id, sender, d);
    ClaimWithinDeposit(st.streams[id], st.now + d);
  }

  // ---- the claimable amount ----

  /** `get_claimable` of a paused stream does not depend on the ledger clock. */
  lemma FrozenWhilePaused(st: State, id: int, later: int)
    requires Funded(st) && id in st.streams && st.streams[id].status.Paused? && st.now <= later <= U64_MAX
    ensures GetClaimable(st.(now := later), id) == GetClaimable(st, id)
    ensures GetClaimable(st, id) == Ok(Due(st.streams[id], st.streams[id].lastPauseTime))
  {
    ClaimWithinDeposit(st.streams[id], st.now);
  }

  /** Resuming at `now` keeps the claimable amount, clipped times or not, in every case but one: at
      the very last moment of `u64`, where a clipped cliff has come and the accrued part is freed. */
  lemma ResumeKeepsClaimable(s: Stream, now: u64)
    requires s.Sound(now) && s.status.Paused?
    ensures Due(Resumed(s, now), now) == Due(s, s.lastPauseTime)
            <==> !(now == U64_MAX && s.lastPauseTime < s.cliffTime
                   && s.lastWithdrawTime < Min(s.lastPauseTime, s.endTime))
  {
    ResumedSound(s, now);
    var s' := Resumed(s, now);
    assert Min(now, s'.endTime) - s'.lastWithdrawTime == Min(s.lastPauseTime, s.endTime) - s.lastWithdrawTime;
    if s.lastPauseTime < s.cliffTime && s.lastWithdrawTime < Min(s.lastPauseTime, s.endTime) {
      FlowStrict(s.flowRate, 0, Min(s.lastPauseTime, s.endTime) - s.lastWithdrawTime);
    }
  }

  /** The entry point: a resumption before the last moment of `u64` leaves `get_claimable` as it was. */
  lemma ResumeCallKeepsClaimable(st: State, id: int, sender: Address)
    requires Funded(st) && ResumeStream(st, id, sender).Ok? && st.now < U64_MAX
    ensures GetClaimable(ResumeStream(st, id, sender).value, id) == GetClaimable(st, id)
  {
    GateInv(st);
    var s := st.streams[id];
    var st' := ResumeStream(st, id, sender).value;
    assert st'.streams[id] == Resumed(s, st.now);
    ResumedSound(s, st.now);
    ResumeKeepsClaimable(s, st.now);
    ClaimWithinDeposit(s, st.now);
    ClaimWithinDeposit(Resumed(s, st.now), st.now);
  }

  // ---- any number of pauses ----

  /** Seconds of the run during which stream `id` was paused. */
  ghost function PausedTime(derive: Derive, st: State, calls: seq<Call>, id: int): int {
    if calls == [] then 0
    else
      var before := calls[..|calls| - 1];
      var mid := Run(derive, st, before);
      PausedTime(derive, st, before, id)
      + (if id in mid.streams && mid.streams[id].status.Paused? then Run(derive, st, calls).now - mid.now else 0)
  }

  /** Call `k` of the run leaves the record of `id` alone, or pauses or resumes it. */
  ghost predicate OnlyPauses(derive: Derive, st: State, calls: seq<Call>, id: int, k: int)
    requires 0 <= k < |calls|
  {
    var a := Run(derive, st, calls[..k]);
    var b := Exec(derive, a, calls[k]);
    && id in a.streams && id in b.streams
    && (b.streams[id] == a.streams[id]
        || ((calls[k].DoPauseStream? || calls[k].DoResumeStream?) && calls[k].id == id))
  }

  /** An active stream that the run only pauses and resumes, without clipping its end. */
  ghost predicate PausesOnly(derive: Derive, st: State, calls: seq<Call>, id: int) {
    && id in st.streams && st.streams[id].status.Active?
    && (forall k :: 0 <= k < |calls| ==> OnlyPauses(derive, st, calls, id, k))
    && st.streams[id].endTime + PausedTime(derive, st, calls, id) <= U64_MAX
  }

  /** `s` is `origin` moved `shift` seconds later; a lock set beyond the end may stop at the end of `u64`. */
  ghost predicate ShiftedBy(origin: Stream, s: Stream, shift: int) {
    && s.flowRate == origin.flowRate && s.deposit == origin.deposit && s.totalWithdrawn == origin.totalWithdrawn
    && s.startTime == origin.startTime + shift && s.endTime == origin.endTime + shift
    && s.cliffTime == origin.cliffTime + shift && s.lastWithdrawTime == origin.lastWithdrawTime + shift
    && s.lockUntil == Min(origin.lockUntil + shift, U64_MAX)
  }

  /** The shift already in the record of a stream that has been paused for `paused` seconds so far. */
  function ShiftSoFar(s: Stream, now: int, paused: int): int {
    if s.status.Paused? then paused - (now - s.lastPauseTime) else paused
  }

  /** In `st` stream `id` is live and is `origin` moved by the `paused` seconds so far. */
  ghost predicate IsShifted(st: State, id: int, origin: Stream, paused: int) {
    && Funded(st) && id in st.streams && st.streams[id].Live()
    && ShiftedBy(origin, st.streams[id], ShiftSoFar(st.streams[id], st.now, paused))
  }

  lemma PauseStepShifts(st: State, st': State, call: Call, derive: Derive, id: int, origin: Stream, paused: int)
    requires IsShifted(st, id, origin, paused) && (call.DoPauseStream? || call.DoResumeStream?) && call.id == id
    requires st' == Exec(derive, st, call) && Funded(st') && id in st'.streams
    requires origin.endTime + paused <= U64_MAX && origin.cliffTime <= origin.endTime
    ensures st'.now == st.now && IsShifted(st', id, origin, paused)
  {
    hide Flow;
    hide ApplyAdmin;
    GateInv(st);
    var s := st.streams[id];
    if call.DoResumeStream? && ResumeStream(st, id, call.caller).Ok? {
      ResumedSound(s, st.now);
      assert st'.streams[id] == Resumed(s, st.now);
    }
    if call.DoPauseStream? && PauseStream(st, id, call.caller).Ok? {
      assert st'.streams[id] == PausedAt(s, st.now);
    }
  }

  lemma {:induction false} PausesAreShifts(derive: Derive, st: State, calls: seq<Call>, id: int)
    requires Funded(st) && PausesOnly(derive, st, calls, id)
    ensures 0 <= PausedTime(derive, st, calls, id)
    ensures IsShifted(Run(derive, st, calls), id, st.streams[id], PausedTime(derive, st, calls, id))
  {
    hide Apply, Exec, Flow, Stream.Sound, Solvent;
    SoundTimes(st.streams[id], st.now);
    if calls != [] {
      var n := |calls| - 1;
      var before := calls[..n];
      var mid := Run(derive, st, before);
      CustodyEveryRun(derive, st, before, calls[n]);
      CustodyEveryRun(derive, st, calls, DoIsPaused);
      RunsGrow(derive, st, calls, n);
      assert OnlyPauses(derive, st, calls, id, n);
      assert PausedTime(derive, st, before, id) <= PausedTime(derive, st, calls, id);
      forall k | 0 <= k < n ensures OnlyPauses(derive, st, before, id, k) {
        assert before[..k] == calls[..k];
        assert OnlyPauses(derive, st, calls, id, k);
      }
      PausesAreShifts(derive, st, before, id);
      var last := Run(derive, st, calls);
      if last.streams[id] == mid.streams[id] {
        TimeStepShifts(mid, last, id, st.streams[id], PausedTime(derive, st, before, id));
      } else {
        PauseStepShifts(mid, last, calls[n], derive, id, st.streams[id], PausedTime(derive, st, before, id));
      }
    }
  }

  /** Time that passes without touching the record moves a paused stream and no other. */
  lemma TimeStepShifts(st: State, st': State, id: int, origin: Stream, paused: int)
    requires IsShifted(st, id, origin, paused) && Funded(st') && id in st'.streams && st'.streams[id] == st.streams[id]
    ensures IsShifted(st', id, origin, paused + if st.streams[id].status.Paused? then st'.now - st.now else 0)
  {
  }

  /** `get_claimable` of stream `id` now is what `origin` owed at `t`. */
  ghost predicate ReadsAs(st: State, id: int, origin: Stream, t: int) {
    GetClaimable(st, id) == Ok(Due(origin, t))
  }

  /** After any run whose only effect on the stream are pauses and resumptions, in any number and at
      any times, and clipped nowhere, the claimable amount is the one the stream never paused has at
      the wall clock minus the total paused time. */
  lemma ClaimableAfterPauses(derive: Derive, st: State, calls: seq<Call>, id: int)
    requires Funded(st) && PausesOnly(derive, st, calls, id)
    ensures ReadsAs(Run(derive, st, calls), id, st.streams[id],
                    Run(derive, st, calls).now - PausedTime(derive, st, calls, id))
  {
    hide Run, PausedTime, OnlyPauses, IsShifted, ReadsAs, Funded;
    PausesAreShifts(derive, st, calls, id);
    ClaimableOfShifted(Run(derive, st, calls), id, st.streams[id], PausedTime(derive, st, calls, id));
  }

  lemma ClaimableOfShifted(st: State, id: int, origin: Stream, paused: int)
    requires IsShifted(st, id, origin, paused)
    ensures ReadsAs(st, id, origin, st.now - paused)
  {
    var s := st.streams[id];
    ClaimableNeverOverflows(st, id);
    ShiftReads(origin, s, ShiftSoFar(s, st.now, paused), s.Clock(st.now));
  }

  lemma ShiftReads(origin: Stream, s: Stream, shift: int, t: int)
    requires ShiftedBy(origin, s, shift)
    ensures Due(s, t) == Due(origin, t - shift)
  {
  }
}
