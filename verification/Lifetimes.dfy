/** One stream over a whole run: what every call leaves of it, for as long as it stays stored. Its dust
    changes by clipping only, its start passes its cliff only when it renews too early, and every second
    it moves on by is paid once, skipped once or a pause. */
module Lifetimes {
  import opened Prelude
  import opened VestingMath
  import opened Streams
  import opened Ledger
  import opened Invariants
  import opened Records
  import opened Runs

  // ---- one call ----

  /** What a call does to the stream under `id` if it stays stored. */
  ghost predicate Preserved(derive: Derive, st: State, call: Call, id: int)
    requires id in st.streams
  {
    Apply(derive, st, call).Ok? ==>
      var s := st.streams[id]; var st' := Apply(derive, st, call).value;
      && (id in st'.streams ==> Stepped(st, call, s, st'.streams[id]) && Continues(s, st'.streams[id]))
      && (id !in st'.streams ==> s.Live() || (call.DoArchive? && call.id == id))
  }

  /** Through any call a stored stream gets the record `Next` gives: its id, sender, token and rate stay,
      and a terminal one changes nothing but its renewal flag and leaves the store by archiving only. */
  lemma StreamThroughCall(derive: Derive, st: State, call: Call, id: int)
    requires Funded(st) && id in st.streams && !Displaces(derive, st, call, id)
    ensures Preserved(derive, st, call, id)
  {
    hide ApplyStream, ApplyAdmin, Flow;
    if Apply(derive, st, call).Ok? {
      var st' := Apply(derive, st, call).value;
      RecordThroughCall(derive, st, call, id);
      ApplySafe(derive, st, call);
      if id in st'.streams {
        SoundBefore(derive, st, call, id);
        StepContinues(st, call, st.streams[id], st'.streams[id]);
      }
    }
  }

  /** The record a call leaves is sound at the time the call was made. */
  lemma SoundBefore(derive: Derive, st: State, call: Call, id: int)
    requires Funded(st) && id in st.streams && Apply(derive, st, call).Ok?
             && id in Apply(derive, st, call).value.streams
    ensures Apply(derive, st, call).value.streams[id].Sound(st.now)
  {
    hide ApplyStream, Flow;
    ApplySafe(derive, st, call);
    if call.Tick? { AdminRecord(st, call); }
  }

  // ---- whole runs ----

  /** Stream `id` is stored all through the run, and nothing is stored in its place. */
  ghost predicate StaysStored(derive: Derive, st: State, calls: seq<Call>, id: int) {
    && (forall k :: 0 <= k <= |calls| ==> id in Run(derive, st, calls[..k]).streams)
    && (forall k :: 0 <= k < |calls| ==> !Displaces(derive, Run(derive, st, calls[..k]), calls[k], id))
  }

  lemma StaysStoredBefore(derive: Derive, st: State, calls: seq<Call>, id: int)
    requires StaysStored(derive, st, calls, id) && calls != []
    ensures var n := |calls| - 1; var mid := Run(derive, st, calls[..n]);
            && StaysStored(derive, st, calls[..n], id) && id in mid.streams && !Displaces(derive, mid, calls[n], id)
            && Run(derive, st, calls) == Exec(derive, mid, calls[n]) && id in Exec(derive, mid, calls[n]).streams
  {
    hide Apply, Exec, ReplacementId;
    var n := |calls| - 1;
    assert forall k :: 0 <= k <= n ==> calls[..n][..k] == calls[..k];
    assert calls[..|calls|] == calls;
    forall k | 0 <= k < n ensures !Displaces(derive, Run(derive, st, calls[..n][..k]), calls[..n][k], id) {
      assert calls[..n][k] == calls[k];
    }
  }

  /** `measure` of one invocation, nothing when it fails. */
  ghost function Of(derive: Derive, st: State, call: Call, id: int, measure: (State, Call, Stream) -> int): int {
    if id in st.streams && Apply(derive, st, call).Ok? then measure(st, call, st.streams[id]) else 0
  }

  /** The sum of `measure` over a run. */
  ghost function Total(derive: Derive, st: State, calls: seq<Call>, id: int,
                       measure: (State, Call, Stream) -> int): int {
    if calls == [] then 0
    else
      var before := calls[..|calls| - 1];
      Total(derive, st, before, id, measure) + Of(derive, Run(derive, st, before), calls[|calls| - 1], id, measure)
  }

  /** `s` is what became of `origin` after runs that clipped, paid, skipped and paused as much. */
  ghost predicate Lived(origin: Stream, s: Stream, clipped: int, claimed: int, skipped: int, resumed: int) {
    && s.id == origin.id && s.sender == origin.sender && s.token == origin.token && s.flowRate == origin.flowRate
    && s.allowRecipientTermination == origin.allowRecipientTermination && (s.autoRenew ==> origin.autoRenew)
    && 0 <= clipped && s.Dust() == origin.Dust() + Flow(origin.flowRate, clipped)
    && 0 <= claimed && 0 <= skipped && 0 <= resumed
    && claimed + skipped == Flow(origin.flowRate, s.lastWithdrawTime - origin.lastWithdrawTime - resumed)
  }

  /** One more invocation adds its own measures. */
  lemma LivesThroughCall(derive: Derive, st: State, call: Call, id: int)
    requires Funded(st) && id in st.streams && !Displaces(derive, st, call, id) && id in Exec(derive, st, call).streams
    ensures Lived(st.streams[id], Exec(derive, st, call).streams[id], Of(derive, st, call, id, Stretch),
                  Of(derive, st, call, id, ClaimedBy), Of(derive, st, call, id, SkippedBy),
                    Of(derive, st, call, id, ResumedBy))
  {
    hide Apply, Flow, Stepped;
    var s := st.streams[id];
    StreamThroughCall(derive, st, call, id);
    FlowSplit(s.flowRate, 0, 0);
    if Apply(derive, st, call).Ok? {
      var s' := Apply(derive, st, call).value.streams[id];
      StepDust(st, call, s, s');
      StepPays(st, call, s, s');
    }
  }

  lemma LivesOn(origin: Stream, mid: Stream, s: Stream, c1: int, p1: int, k1: int, r1: int, c2: int, p2: int, k2: int,
                r2: int)
    requires Lived(origin, mid, c1, p1, k1, r1) && Lived(mid, s, c2, p2, k2, r2)
    ensures Lived(origin, s, c1 + c2, p1 + p2, k1 + k2, r1 + r2)
  {
    hide Flow;
    FlowSplit(origin.flowRate, c1, c2);
    FlowSplit(origin.flowRate, mid.lastWithdrawTime - origin.lastWithdrawTime - r1,
              s.lastWithdrawTime - mid.lastWithdrawTime - r2);
  }

  /** Over any run in which the stream stays stored, renewals included: its dust changes by the flow of
      the clipped seconds and by nothing else; and what withdrawals, batches and transfers paid, with what
      withdrawals before the cliff skipped, is the flow of the time by which its last withdrawal moved on,
      pauses left out. */
  lemma {:induction false} LivesEveryRun(derive: Derive, st: State, calls: seq<Call>, id: int)
    requires Funded(st) && id in st.streams && StaysStored(derive, st, calls, id)
    ensures id in Run(derive, st, calls).streams
    ensures Lived(st.streams[id], Run(derive, st, calls).streams[id], Total(derive, st, calls, id, Stretch),
                  Total(derive, st, calls, id, ClaimedBy), Total(derive, st, calls, id, SkippedBy),
                  Total(derive, st, calls, id, ResumedBy))
  {
    hide Apply, Exec, Funded, Flow;
    if calls == [] {
      FlowSplit(st.streams[id].flowRate, 0, 0);
    } else {
      StaysStoredBefore(derive, st, calls, id);
      LivesEveryRun(derive, st, calls[..|calls| - 1], id);
      LivesOneMore(derive, st, calls, id);
    }
  }

  lemma LivesOneMore(derive: Derive, st: State, calls: seq<Call>, id: int)
    requires Funded(st) && id in st.streams && StaysStored(derive, st, calls, id) && calls != []
    requires var before := calls[..|calls| - 1];
             && id in Run(derive, st, before).streams
             && Lived(st.streams[id], Run(derive, st, before).streams[id], Total(derive, st, before, id, Stretch),
                      Total(derive, st, before, id, ClaimedBy), Total(derive, st, before, id, SkippedBy),
                      Total(derive, st, before, id, ResumedBy))
    ensures id in Run(derive, st, calls).streams
    ensures Lived(st.streams[id], Run(derive, st, calls).streams[id], Total(derive, st, calls, id, Stretch),
                  Total(derive, st, calls, id, ClaimedBy), Total(derive, st, calls, id, SkippedBy),
                  Total(derive, st, calls, id, ResumedBy))
  {
    hide Apply, Exec, Funded, Flow, Run, Total, Of, Lived, Stretch, ClaimedBy, SkippedBy, ResumedBy, StaysStored;
    var before := calls[..|calls| - 1];
    var last := calls[|calls| - 1];
    var mid := Run(derive, st, before);
    StaysStoredBefore(derive, st, calls, id);
    CustodyEveryRun(derive, st, before, last);
    LivesThroughCall(derive, mid, last, id);
    TotalOneMore(derive, st, calls, id, Stretch);
    TotalOneMore(derive, st, calls, id, ClaimedBy);
    TotalOneMore(derive, st, calls, id, SkippedBy);
    TotalOneMore(derive, st, calls, id, ResumedBy);
    LivesOn(st.streams[id], mid.streams[id], Exec(derive, mid, last).streams[id],
            Total(derive, st, before, id, Stretch), Total(derive, st, before, id, ClaimedBy),
            Total(derive, st, before, id, SkippedBy), Total(derive, st, before, id, ResumedBy),
            Of(derive, mid, last, id, Stretch), Of(derive, mid, last, id, ClaimedBy),
            Of(derive, mid, last, id, SkippedBy), Of(derive, mid, last, id, ResumedBy));
  }

  lemma TotalOneMore(derive: Derive, st: State, calls: seq<Call>, id: int, measure: (State, Call, Stream) -> int)
    requires calls != []
    ensures Total(derive, st, calls, id, measure)
            == Total(derive, st, calls[..|calls| - 1], id, measure)
               + Of(derive, Run(derive, st, calls[..|calls| - 1]), calls[|calls| - 1], id, measure)
  {
  }

  // ---- the cliff ----

  /** Call `k` of the run renews the stream while its cliff comes before its end. */
  ghost predicate RenewedPastCliffAt(derive: Derive, st: State, calls: seq<Call>, id: int, k: int) {
    && 0 <= k < |calls|
    && var mid := Run(derive, st, calls[..k]);
       id in mid.streams && Apply(derive, mid, calls[k]).Ok? && RenewsPastCliff(mid, calls[k], mid.streams[id])
  }

  lemma OrderThroughCall(derive: Derive, st: State, call: Call, id: int)
    requires Funded(st) && id in st.streams && !Displaces(derive, st, call, id) && id in Exec(derive, st, call).streams
    ensures Ordered(Exec(derive, st, call).streams[id])
            <==> Ordered(st.streams[id]) && !(Apply(derive, st, call).Ok? && RenewsPastCliff(st, call, st.streams[id]))
  {
    hide Apply, Flow, Stepped, RenewsPastCliff;
    StreamThroughCall(derive, st, call, id);
    if Apply(derive, st, call).Ok? {
      StepOrder(st, call, st.streams[id], Apply(derive, st, call).value.streams[id]);
    }
  }

  /** The documented order of start and cliff holds of a stored stream after a run exactly when it held
      before and no call of the run renewed the stream while its cliff came before its end. */
  lemma {:induction false} OrderEveryRun(derive: Derive, st: State, calls: seq<Call>, id: int)
    requires Funded(st) && id in st.streams && StaysStored(derive, st, calls, id)
    ensures id in Run(derive, st, calls).streams
    ensures Ordered(Run(derive, st, calls).streams[id])
            <==> Ordered(st.streams[id]) && forall k :: !RenewedPastCliffAt(derive, st, calls, id, k)
  {
    hide Apply, Exec, Funded, Flow, RenewsPastCliff, Displaces, Ordered;
    if calls != [] {
      var n := |calls| - 1;
      var before := calls[..n];
      StaysStoredBefore(derive, st, calls, id);
      OrderEveryRun(derive, st, before, id);
      CustodyEveryRun(derive, st, before, calls[n]);
      OrderThroughCall(derive, Run(derive, st, before), calls[n], id);
      forall k | 0 <= k < n
        ensures RenewedPastCliffAt(derive, st, calls, id, k) <==> RenewedPastCliffAt(derive, st, before, id, k)
      {
        assert before[..k] == calls[..k];
      }
      assert RenewedPastCliffAt(derive, st, calls, id, n)
             <==> Apply(derive, Run(derive, st, before), calls[n]).Ok?
                  && RenewsPastCliff(Run(derive, st, before), calls[n], Run(derive, st, before).streams[id]);
    }
  }

  // ---- terminal streams ----

  /** A call about one stream that succeeds on a terminal one is one of three, and moves no money. */
  lemma TerminalMovesNoFunds(derive: Derive, st: State, call: Call)
    requires !call.IsAdmin() && ApplyStream(derive, st, call).Ok?
    requires RewritesOne(call) || call.DoPartialCancel? || call.DoSetDelegate?
    requires call.id in st.streams && !st.streams[call.id].Live()
    ensures call.DoCancelAutoRenew? || call.DoSetDelegate? || call.DoArchive?
    ensures ApplyStream(derive, st, call).value.bank == st.bank
  {
    hide Flow;
  }

  /** A batch withdrawal that lists a terminal stream fails as a whole; a batch cancellation reports an
      error for it. */
  lemma TerminalInBatch(st: State, id: int, ids: seq<int>, caller: Address, signers: set<Address>)
    requires Funded(st) && id in st.streams && !st.streams[id].Live() && id in ids
    ensures BatchWithdraw(st, ids, caller, signers).Err?
    ensures BatchCancel(st, ids, caller).Ok? ==>
              var results := BatchCancel(st, ids, caller).value.out;
              |results| == |ids| && forall j :: 0 <= j < |ids| && ids[j] == id ==> results[j].Err?
  {
    GateInv(st);
    assert ids[0..] == ids;
    if BatchWithdraw(st, ids, caller, signers).Ok? {
      BatchWithdrawRecord(Gate(st).value, ids, 0, [], caller, signers, id);
    }
    if BatchCancel(st, ids, caller).Ok? {
      TerminalEntryFails(st, id, ids, 0, [], caller);
    }
  }

  lemma {:induction false} TerminalEntryFails(st: State, id: int, ids: seq<int>, i: nat, results: seq<Result<()>>,
                                              sender: Address)
    requires id in st.streams && !st.streams[id].Live() && i <= |ids| && |results| == i
    requires BatchCancelFrom(st, ids, i, results, sender).Ok?
    ensures var out := BatchCancelFrom(st, ids, i, results, sender).value.out;
            && |out| == |ids| && results <= out
            && forall j :: i <= j < |ids| && ids[j] == id ==> out[j].Err?
    decreases |ids| - i
  {
    hide Close;
    if i < |ids| {
      match BatchCancelOne(st, ids[i], sender)
      case Ok(st') =>
        EntryCancels(st, ids[i], sender);
        TerminalEntryFails(st', id, ids, i + 1, results + [Ok(())], sender);
      case Err(e) =>
        var more := results + [Err(e)];
        TerminalEntryFails(st, id, ids, i + 1, more, sender);
        assert more[i] == Err(e);
    }
  }
}
