// Exactly when a retry can finish an outcome.

module OutcomeRetry {
  import opened Options
  import opened OutcomeStore
  import opened OutcomeProtocol
  import opened OutcomeInvariant
  import opened OutcomeSafety
  import opened OutcomeTheorems
  import opened OutcomeRecovery

  // The run from s to s' committed the outcome and delivered one more answer.
  predicate Answered(s: System, s': System, r: Revision) {
    && r in s.slots && r in s'.slots
    && var before, after := s.slots[r].history.answers, s'.slots[r].history;
    && s'.slots[r].row.phase == Committed && after.buffered.Some?
    && after.answers == before + [AnswerOf(Frozen(after.buffered.value), r + 1)]
    && r < s'.conversation.revision
  }

  // The actions of a crash-free request whose calls succeed, from reservation to answer.
  function RequestRun(s: System, pid: Pid, r: Revision, response: Response, snapshot: int, content: int): seq<Action>
    requires r in s.slots
  {
    match s.slots[r].row.phase
    case Intent => Opening(pid) + (([ReserveMain(pid)] + MainRun(pid, response, snapshot)) + SummaryToAnswer(pid, content))
    case MainSettled => Opening(pid) + SummaryToAnswer(pid, content)
    case SettledPendingCommit =>
      if s.conversation.revision == r then [Confirm(pid)] + Opening(pid) + ([Swap(pid, Acknowledged)] + FinishRun(pid))
      else [Confirm(pid)] + FinishRun(pid)
    case _ => []
  }

  // Taking the lease and reading the revision under it.
  function Opening(pid: Pid): seq<Action> {
    [Begin(pid), Load(pid)]
  }

  function Opened(pid: Pid, v: View): View {
    Act(pid, Load(pid), Act(pid, Begin(pid), v))
  }

  lemma SoloOpening(pid: Pid, rest: seq<Action>, v: View)
    ensures Solo(pid, Opening(pid) + rest, v) == Solo(pid, rest, Opened(pid, v))
  {
    hide Act;
    assert Opening(pid) + rest == [Begin(pid)] + ([Load(pid)] + rest);
    SoloStep(pid, Begin(pid), [Load(pid)] + rest, v);
    SoloStep(pid, Load(pid), rest, Act(pid, Begin(pid), v));
  }

  lemma BeginStage(pid: Pid, v0: View)
    requires ViewOk(pid, v0) && v0.process.pc == Beginning && !v0.slot.row.timedOut && v0.process.copy == v0.slot.row
    requires v0.conversation.lease.None? && v0.conversation.revision == v0.process.revision
    ensures var v := Opened(pid, v0);
            && LeasedTo(pid, v) && v.process.copy == v0.process.copy
            && v.slot == v0.slot && FactsOf(v) == FactsOf(v0)
            && (v0.slot.row.phase == Intent ==> Stage(pid, v0, v, MainPreparing, Intent))
            && (v0.slot.row.phase == MainSettled ==> Stage(pid, v0, v, SummaryPreparing, MainSettled))
            && (v0.slot.row.phase == SettledPendingCommit ==> Stage(pid, v0, v, Swapping(false), SettledPendingCommit))
  {
    hide SafeContentType, Frozen, Storable;
    ActKeepsView(pid, Begin(pid), v0);
    ActKeepsView(pid, Load(pid), Act(pid, Begin(pid), v0));
  }

  lemma ConfirmStage(pid: Pid, v0: View)
    requires ViewOk(pid, v0) && v0.process.pc == Confirming && !v0.slot.row.timedOut && v0.process.copy == v0.slot.row
    ensures var v := Act(pid, Confirm(pid), v0);
            && (v0.conversation.revision == v0.process.revision ==> v == Goto(v0, Beginning) && ViewOk(pid, v))
            && (v0.conversation.revision == v0.process.revision + 1 ==> Stage(pid, v0, v, Marking, SettledPendingCommit) && v.conversation == v0.conversation)
            && FactsOf(v) == FactsOf(v0)
  {
    hide SafeContentType, Frozen, Storable;
    ActKeepsView(pid, Confirm(pid), v0);
  }

  lemma DeliveredAfterConfirm(v0: View, v1: View, v: View)
    requires Delivered(v1, v) && v1.slot == v0.slot && v1.process.revision == v0.process.revision
    ensures Delivered(v0, v)
  {
    hide SafeContentType, Frozen, Storable;
  }

  lemma EnteredPc(s: System, pid: Pid, r: Revision)
    requires FreshRetry(s, pid, r)
    ensures var v0 := Entered(s, pid, r);
            v0.process.copy == v0.slot.row == s.slots[r].row && v0.conversation == s.conversation && v0.process.revision == r
            && v0.process.pc == EntryPc(s.slots[r].row) && v0.slot == s.slots[r]
  {
    hide SafeContentType, Frozen, Storable;
  }

  // What a request that runs to its end adds to the facts, from the phase it finds on.
  function Brought(f: Facts, phase: Phase, r: Revision, response: Response, snapshot: int, content: int): Facts {
    var main := if phase == Intent then WithMain(f, response, snapshot) else f;
    WithStored(if phase == SettledPendingCommit then main else WithSummary(main, r, content))
  }

  // Nothing refunded and nobody else in the way: the request delivers.
  lemma RequestDelivers(s: System, pid: Pid, r: Revision, response: Response, snapshot: int, content: int)
    requires FreshRetry(s, pid, r) && Storable(response)
    requires s.slots[r].row.phase == Intent || s.slots[r].row.phase == MainSettled || s.slots[r].row.phase == SettledPendingCommit
    requires Idle(s, r) && s.slots[r].mainBill != Refunded && s.slots[r].summaryBill != Refunded
    ensures var v0 := Entered(s, pid, r); var v := Solo(pid, RequestRun(s, pid, r, response, snapshot, content), v0);
            Delivered(v0, v) && FactsOf(v) == Brought(FactsOf(v0), s.slots[r].row.phase, r, response, snapshot, content)
  {
    hide Act, Stage, Solo, Delivered, LeasedTo, Inv, ViewOk, FactsOf;
    var v0 := Entered(s, pid, r);
    StartEnters(s, pid, r);
    EnteredPc(s, pid, r);
    var rest := [Swap(pid, Acknowledged)] + FinishRun(pid);
    match s.slots[r].row.phase
    case Intent =>
      BeginStage(pid, v0);
      var v1 := Opened(pid, v0);
      var run := [ReserveMain(pid)] + MainRun(pid, response, snapshot);
      MainSettles(pid, v0, v1, response, snapshot);
      SummaryDelivers(pid, v0, Solo(pid, run, v1), content);
      SoloConcat(pid, run, SummaryToAnswer(pid, content), v1);
      SoloOpening(pid, run + SummaryToAnswer(pid, content), v0);
    case MainSettled =>
      BeginStage(pid, v0);
      var v1 := Opened(pid, v0);
      SummaryDelivers(pid, v0, v1, content);
      SoloOpening(pid, SummaryToAnswer(pid, content), v0);
    case SettledPendingCommit =>
      ConfirmStage(pid, v0);
      var v1 := Act(pid, Confirm(pid), v0);
      BeginStage(pid, v1);
      var v2 := Opened(pid, v1);
      SwapDelivers(pid, v1, v2);
      SoloOpening(pid, rest, v1);
      SoloStep(pid, Confirm(pid), Opening(pid) + rest, v0);
      assert ([Confirm(pid)] + Opening(pid)) + rest == [Confirm(pid)] + (Opening(pid) + rest);
      DeliveredAfterConfirm(v0, v1, Solo(pid, rest, v2));
  }

  // A crash between the stored revision and the committed mark is healed without a second advance.
  lemma CrashAfterSwapHeals(s: System, pid: Pid, r: Revision)
    requires FreshRetry(s, pid, r) && s.slots[r].row.phase == SettledPendingCommit && s.conversation.revision == r + 1
    ensures var v0 := Entered(s, pid, r);
            var v := Solo(pid, [Confirm(pid)] + FinishRun(pid), v0);
            Delivered(v0, v) && v.conversation == s.conversation
  {
    hide Act, Stage, Solo, Delivered, Inv, ViewOk;
    var v0 := Entered(s, pid, r);
    StartEnters(s, pid, r);
    EnteredPc(s, pid, r);
    ConfirmStage(pid, v0);
    FinishDelivers(pid, v0, Act(pid, Confirm(pid), v0));
    SoloStep(pid, Confirm(pid), FinishRun(pid), v0);
  }

  // A committed outcome is replayed to whoever asks again, and nothing but the answer is added.
  lemma CommittedReplays(s: System, pid: Pid, r: Revision)
    requires FreshRetry(s, pid, r) && s.slots[r].row.phase == Committed
    ensures var t := Exec(s, [Start(pid, r, s.slots[r].row.key)] + [WriteAnswer(pid)]);
            && Answered(s, t, r) && t.conversation == s.conversation
            && t.slots == s.slots[r := s.slots[r].(history := t.slots[r].history)]
            && t.slots[r].history.buffered == s.slots[r].history.buffered
  {
    hide Act, Solo, Inv, Exec, Delivered, Stage, ViewOk;
    var v0 := Entered(s, pid, r);
    StartEnters(s, pid, r);
    EnteredPc(s, pid, r);
    EnteredAnswering(s, pid, r);
    AnswerStage(pid, v0, v0);
    SoloStep(pid, WriteAnswer(pid), [], v0);
    SoloEmpty(pid, Act(pid, WriteAnswer(pid), v0));
    assert [WriteAnswer(pid)] + [] == [WriteAnswer(pid)];
    DeliveryAnswers(s, pid, r, [WriteAnswer(pid)]);
    RetryRun(s, pid, r, [WriteAnswer(pid)]);
    OnlyHistory(pid, v0);
  }

  lemma EnteredAnswering(s: System, pid: Pid, r: Revision)
    requires FreshRetry(s, pid, r) && s.slots[r].row.phase == Committed
    ensures Stage(pid, Entered(s, pid, r), Entered(s, pid, r), Answering, Committed)
  {
    StartEnters(s, pid, r);
  }

  lemma OnlyHistory(pid: Pid, v: View)
    ensures var v' := Act(pid, WriteAnswer(pid), v);
            v'.slot == v.slot.(history := v'.slot.history) && v'.slot.history.buffered == v.slot.history.buffered
  {
    hide SafeContentType, Frozen, Storable;
  }

  predicate AllOwn(pid: Pid, actions: seq<Action>) {
    forall a :: a in actions ==> Own(pid, a)
  }

  lemma OwnConcat(pid: Pid, first: seq<Action>, second: seq<Action>)
    requires AllOwn(pid, first) && AllOwn(pid, second)
    ensures AllOwn(pid, first + second)
  {}

  lemma SummaryToAnswerIsOwn(pid: Pid, content: int)
    ensures AllOwn(pid, FinishRun(pid)) && AllOwn(pid, [Swap(pid, Acknowledged)] + FinishRun(pid)) && AllOwn(pid, SummaryToAnswer(pid, content))
  {
    OwnConcat(pid, [Swap(pid, Acknowledged)], FinishRun(pid));
    OwnConcat(pid, SummaryRun(pid, content), [Swap(pid, Acknowledged)] + FinishRun(pid));
  }

  lemma RequestRunIsOwn(s: System, pid: Pid, r: Revision, response: Response, snapshot: int, content: int)
    requires r in s.slots
    ensures forall a :: a in RequestRun(s, pid, r, response, snapshot, content) ==> Own(pid, a)
  {
    var answer, swap := SummaryToAnswer(pid, content), [Swap(pid, Acknowledged)] + FinishRun(pid);
    var main := [ReserveMain(pid)] + MainRun(pid, response, snapshot);
    SummaryToAnswerIsOwn(pid, content);
    assert AllOwn(pid, MainRun(pid, response, snapshot)) && AllOwn(pid, [ReserveMain(pid)]);
    assert AllOwn(pid, Opening(pid)) && AllOwn(pid, [Confirm(pid)] + Opening(pid)) && AllOwn(pid, [Confirm(pid)]);
    hide Own, SummaryToAnswer, FinishRun, MainRun;
    OwnConcat(pid, [ReserveMain(pid)], MainRun(pid, response, snapshot));
    OwnConcat(pid, main, answer);
    OwnConcat(pid, Opening(pid), main + answer);
    OwnConcat(pid, Opening(pid), answer);
    OwnConcat(pid, [Confirm(pid)] + Opening(pid), swap);
    OwnConcat(pid, [Confirm(pid)], FinishRun(pid));
  }

  lemma CommittedIsStored(s: System, r: Revision)
    requires Inv(s) && r in s.slots && s.slots[r].history.everCommitted
    ensures r < s.conversation.revision
  {
    hide ProcessOk;
    assert SlotOk(r, s.slots[r], s.conversation);
  }

  // A delivered answer is the buffered response, and the revision it names is stored.
  lemma DeliveryAnswers(s: System, pid: Pid, r: Revision, own: seq<Action>)
    requires FreshRetry(s, pid, r) && (forall a :: a in own ==> Own(pid, a))
    requires Delivered(Entered(s, pid, r), Solo(pid, own, Entered(s, pid, r)))
    ensures Answered(s, Exec(s, [Start(pid, r, s.slots[r].row.key)] + own), r)
  {
    hide Act, Solo, Inv, Exec;
    var all := [Start(pid, r, s.slots[r].row.key)] + own;
    RetryRun(s, pid, r, own);
    ExecKeepsInv(s, all);
    CommittedIsStored(Exec(s, all), r);
  }

  lemma RefundedNeverCommits(s: System, r: Revision, actions: seq<Action>)
    requires Inv(s) && r in s.slots && (s.slots[r].mainBill == Refunded || s.slots[r].summaryBill == Refunded)
    ensures var t := Exec(s, actions); r in t.slots && !t.slots[r].history.everCommitted && t.slots[r].history.answers == []
  {
    PhasesMoveForward(s, actions, r);
    ExecKeepsInv(s, actions);
    var t := Exec(s, actions);
    assert SlotOk(r, t.slots[r], t.conversation);
  }

  lemma LeaseExpiryFrees(s: System, pid: Pid, r: Revision)
    requires FreshRetry(s, pid, r)
    ensures var s' := Step(s, LeaseExpires);
            && FreshRetry(s', pid, r) && s'.conversation.lease.None? && s'.conversation.revision == s.conversation.revision
            && s'.slots == s.slots
  {
    hide Inv;
    StepKeepsInv(s, LeaseExpires);
  }

  lemma ExecAfter(s: System, a: Action, actions: seq<Action>)
    ensures Exec(s, [a] + actions) == Exec(Step(s, a), actions)
  {
    hide Step;
    assert ([a] + actions)[1..] == actions;
  }

  // With the conversation at the expected revision, whoever may hold its lease, an outcome that is not
  // in a dispatched phase can still be committed exactly when neither operation was refunded.
  lemma CompletionIff(s: System, pid: Pid, r: Revision)
    requires FreshRetry(s, pid, r) && s.conversation.revision == r
    requires s.slots[r].row.phase == Intent || s.slots[r].row.phase == MainSettled || s.slots[r].row.phase == SettledPendingCommit
    ensures (exists actions :: r in Exec(s, actions).slots && Exec(s, actions).slots[r].history.everCommitted)
            <==> s.slots[r].mainBill != Refunded && s.slots[r].summaryBill != Refunded
  {
    hide Act, Solo, Inv, Step, Exec;
    if s.slots[r].mainBill == Refunded || s.slots[r].summaryBill == Refunded {
      forall actions ensures !(r in Exec(s, actions).slots && Exec(s, actions).slots[r].history.everCommitted) {
        RefundedNeverCommits(s, r, actions);
      }
    } else {
      LeaseExpiryFrees(s, pid, r);
      var free := Step(s, LeaseExpires);
      var response := Response(200, "", "");
      var own := RequestRun(free, pid, r, response, 0, 0);
      RequestDelivers(free, pid, r, response, 0, 0);
      RequestRunIsOwn(free, pid, r, response, 0, 0);
      RetryRun(free, pid, r, own);
      var run := [Start(pid, r, free.slots[r].row.key)] + own;
      ExecAfter(s, LeaseExpires, run);
      assert r in Exec(s, [LeaseExpires] + run).slots && Exec(s, [LeaseExpires] + run).slots[r].history.everCommitted;
    }
  }

  // A request that has nothing to give back and no way to go on.
  predicate Stuck(pid: Pid, v: View) {
    && (v.process.pc == Failed || v.process.pc == Crashed ||
        (v.process.pc == Confirming && v.conversation.revision != v.process.revision && v.conversation.revision != v.process.revision + 1))
    && !v.process.holdsMain && !v.process.holdsSummary
    && v.process.fence == 0 && (v.conversation.lease.Some? ==> v.conversation.lease.value.fence > 0)
  }

  lemma StuckActs(pid: Pid, a: Action, v: View)
    requires Stuck(pid, v)
    ensures var v' := Act(pid, a, v); Stuck(pid, v') && v'.slot == v.slot && v'.conversation == v.conversation
  {
    hide SafeContentType, Frozen, Storable;
  }

  lemma {:induction false} StuckForever(pid: Pid, own: seq<Action>, v: View)
    requires Stuck(pid, v)
    ensures var v' := Solo(pid, own, v); v'.slot == v.slot && v'.conversation == v.conversation && v'.process.pc != Finished
    decreases |own|
  {
    hide Act;
    if own != [] {
      StuckActs(pid, own[0], v);
      StuckForever(pid, own[1..], Act(pid, own[0], v));
    }
  }

  // A retry that finds a dispatched phase fails, whatever it does, and leaves the store as it was.
  lemma DispatchedIsRefused(s: System, pid: Pid, r: Revision, own: seq<Action>)
    requires FreshRetry(s, pid, r) && (forall a :: a in own ==> Own(pid, a))
    requires s.slots[r].row.phase == MainDispatched || s.slots[r].row.phase == SummaryDispatched
    ensures var t := Exec(s, [Start(pid, r, s.slots[r].row.key)] + own);
            t.slots == s.slots && t.conversation == s.conversation && pid in t.processes && t.processes[pid].pc != Finished
  {
    hide Act, Solo, SlotOk, ProcessOk;
    RetryRun(s, pid, r, own);
    StuckForever(pid, own, Entered(s, pid, r));
  }

  // Once the conversation holds the next state, a retry answers exactly when no later revision was stored since.
  lemma HealIff(s: System, pid: Pid, r: Revision)
    requires FreshRetry(s, pid, r) && s.slots[r].row.phase == SettledPendingCommit && s.conversation.revision > r
    ensures (exists own :: (forall a :: a in own ==> Own(pid, a))
                           && Answered(s, Exec(s, [Start(pid, r, s.slots[r].row.key)] + own), r))
            <==> s.conversation.revision == r + 1
  {
    hide Act, Solo, SlotOk, ProcessOk;
    if s.conversation.revision == r + 1 {
      var own := [Confirm(pid)] + FinishRun(pid);
      CrashAfterSwapHeals(s, pid, r);
      DeliveryAnswers(s, pid, r, own);
      assert Answered(s, Exec(s, [Start(pid, r, s.slots[r].row.key)] + own), r);
    } else {
      forall own | (forall a :: a in own ==> Own(pid, a))
        ensures !Answered(s, Exec(s, [Start(pid, r, s.slots[r].row.key)] + own), r)
      {
        RetryRun(s, pid, r, own);
        StuckForever(pid, own, Entered(s, pid, r));
      }
    }
  }

  // What the run from s to s' has stored: the response and the snapshot of a fresh outcome, the summary of
  // one that had none, and in any case the checkpointed state as the next revision, the only one added.
  predicate Brings(s: System, s': System, r: Revision, response: Response, snapshot: int, content: int) {
    && r in s.slots && r in s'.slots
    && var row, row' := s.slots[r].row, s'.slots[r].row;
    && (if row.phase == Intent
        then s'.slots[r].history.buffered == Some(response) && row'.responsePayload == Some(response) && row'.snapshot == Some(snapshot)
        else s'.slots[r].history.buffered == s.slots[r].history.buffered
             && row'.responsePayload == row.responsePayload && row'.snapshot == row.snapshot)
    && row'.nextState == (if row.phase == SettledPendingCommit then row.nextState else Some(NextState(r + 1, content)))
    && row'.nextState.Some? && s'.conversation.log == s.conversation.log + [row'.nextState.value]
  }

  lemma BroughtBrings(s: System, pid: Pid, r: Revision, v: View, response: Response, snapshot: int, content: int)
    requires FreshRetry(s, pid, r)
    requires FactsOf(v) == Brought(FactsOf(Entered(s, pid, r)), s.slots[r].row.phase, r, response, snapshot, content)
    ensures Brings(s, Lift(s, pid, r, v), r, response, snapshot, content)
  {
    hide ProcessIn, Stored, HistoryOk, BillsOk, AnswersOk, HoldsAnswer;
    assert SlotOk(r, s.slots[r], s.conversation);
  }

  // A request that nobody disturbs and whose calls succeed commits and delivers one answer, and stores what
  // its calls returned.
  lemma UndisturbedRequestAnswers(s: System, pid: Pid, r: Revision, response: Response, snapshot: int, content: int)
    requires FreshRetry(s, pid, r) && Storable(response)
    requires s.slots[r].row.phase == Intent || s.slots[r].row.phase == MainSettled || s.slots[r].row.phase == SettledPendingCommit
    requires Idle(s, r) && s.slots[r].mainBill != Refunded && s.slots[r].summaryBill != Refunded
    ensures var t := Exec(s, [Start(pid, r, s.slots[r].row.key)] + RequestRun(s, pid, r, response, snapshot, content));
            && Answered(s, t, r)
            && Brings(s, t, r, response, snapshot, content)
  {
    hide Act, Solo, Inv, Exec, Delivered, RequestRun;
    var run := RequestRun(s, pid, r, response, snapshot, content);
    RequestDelivers(s, pid, r, response, snapshot, content);
    RequestRunIsOwn(s, pid, r, response, snapshot, content);
    DeliveryAnswers(s, pid, r, run);
    RetryRun(s, pid, r, run);
    BroughtBrings(s, pid, r, Solo(pid, run, Entered(s, pid, r)), response, snapshot, content);
  }

  // The summary operation is reserved, persisting its dispatch fails, and the failing child refunds it.
  function TrapRun(pid: Pid): seq<Action> {
    [ReserveSummary(pid), Fail(pid), RefundSummary(pid), ReleaseLease(pid)]
  }

  predicate Trapped(slot: Slot) {
    slot.row.phase == MainSettled && !slot.row.timedOut && slot.summaryBill == Refunded && slot.mainBill == Settled
  }

  predicate TrapStage(pid: Pid, v: View, pc: Pc, bill: Bill) {
    && LeasedTo(pid, v) && v.process.pc == pc && v.process.holdsSummary
    && v.slot.row.phase == MainSettled && !v.slot.row.timedOut
    && v.slot.mainBill == Settled && v.slot.summaryBill == bill
  }

  lemma TrapReserves(pid: Pid, v0: View, v: View)
    requires Stage(pid, v0, v, SummaryPreparing, MainSettled) && LeasedTo(pid, v) && v.slot.summaryBill != Refunded
    ensures var v' := Act(pid, ReserveSummary(pid), v);
            TrapStage(pid, v', SummaryMarking, Reserved) && v'.process.revision == v.process.revision
  {
    hide SafeContentType, Frozen, Storable;
  }

  lemma TrapRefunds(pid: Pid, v: View)
    requires TrapStage(pid, v, SummaryMarking, Reserved)
    ensures var v' := Act(pid, ReleaseLease(pid), Act(pid, RefundSummary(pid), Act(pid, Fail(pid), v)));
            Trapped(v'.slot) && v'.conversation.lease.None? && v'.conversation.revision == v.process.revision
  {
    var v1 := Act(pid, Fail(pid), v);
    assert v1 == Goto(v, Failed);
    var v2 := Act(pid, RefundSummary(pid), v1);
    assert v2 == v1.(slot := v1.slot.(summaryBill := Refunded));
  }

  lemma TrapLeads(pid: Pid, v0: View, v: View)
    requires Stage(pid, v0, v, SummaryPreparing, MainSettled) && LeasedTo(pid, v) && v.slot.summaryBill != Refunded
    ensures var v' := Solo(pid, TrapRun(pid), v);
            Trapped(v'.slot) && v'.conversation.lease.None? && v'.conversation.revision == v.process.revision
  {
    hide Act, Solo, TrapStage, Stage, LeasedTo;
    var run := TrapRun(pid);
    TrapReserves(pid, v0, v);
    var v1 := Act(pid, run[0], v);
    TrapRefunds(pid, v1);
    var v2 := Act(pid, run[1], v1);
    var v3 := Act(pid, run[2], v2);
    SoloSplit(pid, run, v);
    assert run[1..][1..] == run[2..] && run[2..][1..] == run[3..] && run[3..][1..] == [];
    SoloSplit(pid, run[1..], v1);
    SoloSplit(pid, run[2..], v2);
    SoloSplit(pid, run[3..], v3);
    SoloEmpty(pid, Act(pid, run[3], v3));
  }

  // One failed write is enough: from every idle intent some run charges the main call, refunds
  // the undispatched summary and so leaves an outcome that no later run can ever commit.
  lemma RefundTrapsOutcome(s: System, pid: Pid, r: Revision)
    requires FreshRetry(s, pid, r) && Idle(s, r) && s.slots[r].row.phase == Intent && s.slots[r].mainBill != Refunded
    ensures exists own :: (forall a :: a in own ==> Own(pid, a))
              && var t := Exec(s, [Start(pid, r, s.slots[r].row.key)] + own);
                 && r in t.slots && Trapped(t.slots[r]) && Idle(t, r)
                 && (forall later :: r in Exec(t, later).slots && !Exec(t, later).slots[r].history.everCommitted)
  {
    hide Act, Stage, Solo, LeasedTo, Inv, ViewOk;
    var v0 := Entered(s, pid, r);
    StartEnters(s, pid, r);
    EnteredPc(s, pid, r);
    BeginStage(pid, v0);
    var v1 := Opened(pid, v0);
    var run := [ReserveMain(pid)] + MainRun(pid, Response(200, "", ""), 0);
    MainSettles(pid, v0, v1, Response(200, "", ""), 0);
    var v2 := Solo(pid, run, v1);
    TrapLeads(pid, v0, v2);
    StageRevision(pid, v0, v2);
    SoloConcat(pid, run, TrapRun(pid), v1);
    SoloOpening(pid, run + TrapRun(pid), v0);
    var own := Opening(pid) + (run + TrapRun(pid));
    RetryRun(s, pid, r, own);
    var t := Exec(s, [Start(pid, r, s.slots[r].row.key)] + own);
    ExecKeepsInv(s, [Start(pid, r, s.slots[r].row.key)] + own);
    forall later ensures r in Exec(t, later).slots && !Exec(t, later).slots[r].history.everCommitted {
      RefundedNeverCommits(t, r, later);
    }
  }

  lemma StageRevision(pid: Pid, v0: View, v: View)
    requires Stage(pid, v0, v, SummaryPreparing, MainSettled)
    ensures v.process.revision == v0.process.revision
  {
    hide SafeContentType, Frozen, Storable;
  }

  /** The process that dispatched the main call is gone before settling it. */
  predicate Abandoned(s: System, r: Revision, owner: Pid) {
    && Inv(s) && r in s.slots && owner in s.processes
    && s.slots[r].history.mainOwner == Some(owner) && s.slots[r].mainBill != Settled
    && (s.processes[owner].pc == Failed || s.processes[owner].pc == Crashed)
  }

  lemma ActKeepsAbandoned(pid: Pid, owner: Pid, a: Action, v: View)
    requires ViewOk(pid, v) && v.slot.history.mainOwner == Some(owner) && v.slot.mainBill != Settled
    requires pid == owner ==> v.process.pc == Failed || v.process.pc == Crashed
    ensures var v' := Act(pid, a, v);
            && v'.slot.history.mainOwner == Some(owner) && v'.slot.mainBill != Settled
            && (pid == owner ==> v'.process.pc == Failed || v'.process.pc == Crashed)
  {
    hide SafeContentType, Frozen, Storable, AnswersOk, BillsOk, HistoryOk, HoldsAnswer, Stored, ConversationOk;
  }

  lemma OwnStepKeepsAbandoned(s: System, a: Action, r: Revision, owner: Pid)
    requires Abandoned(s, r, owner) && Inv(Step(s, a)) && !(a.Start? || a.LeaseExpires? || a.TimeOut? || a.Scrub?)
    requires a.pid in s.processes && s.processes[a.pid].revision in s.slots
    ensures Abandoned(Step(s, a), r, owner)
  {
    hide Act, SlotOk, ProcessOk, Inv, ViewOk;
    var q := s.processes[a.pid];
    var v := View(q, s.slots[q.revision], s.conversation);
    ViewOfProcess(s, a.pid);
    if q.revision == r {
      ActKeepsAbandoned(a.pid, owner, a, v);
    }
    if a.pid == owner {
      StoppedStays(a.pid, a, v);
    }
  }

  lemma StepKeepsAbandoned(s: System, a: Action, r: Revision, owner: Pid)
    requires Abandoned(s, r, owner)
    ensures Abandoned(Step(s, a), r, owner)
  {
    hide Act, SlotOk, ProcessOk, Inv;
    StepKeepsInv(s, a);
    if !(a.Start? || a.LeaseExpires? || a.TimeOut? || a.Scrub?) {
      if a.pid in s.processes && s.processes[a.pid].revision in s.slots {
        OwnStepKeepsAbandoned(s, a, r, owner);
      }
    }
  }

  lemma StoppedStays(pid: Pid, a: Action, v: View)
    requires v.process.pc == Failed || v.process.pc == Crashed
    ensures Act(pid, a, v).process.pc == Failed || Act(pid, a, v).process.pc == Crashed
  {
    hide SafeContentType, Frozen, Storable;
  }

  lemma ViewOfProcess(s: System, pid: Pid)
    requires Inv(s) && pid in s.processes && s.processes[pid].revision in s.slots
    ensures ViewOk(pid, View(s.processes[pid], s.slots[s.processes[pid].revision], s.conversation))
  {
    hide SlotOk, ProcessOk;
    assert ProcessIn(s, pid);
  }

  // At most once has its price: a main call whose process died before settling is never
  // charged, never stored and never answered, in any run, by anyone.
  lemma {:induction false} AbandonedStaysUnanswered(s: System, r: Revision, owner: Pid, actions: seq<Action>)
    requires Abandoned(s, r, owner)
    ensures var t := Exec(s, actions);
            && r in t.slots && t.slots[r].history.mainCharges == 0
            && t.slots[r].row.responsePayload.None? && t.slots[r].history.answers == []
    decreases |actions|
  {
    hide Step, Abandoned;
    AbandonedNow(s, r, owner);
    if actions != [] {
      StepKeepsAbandoned(s, actions[0], r, owner);
      AbandonedStaysUnanswered(Step(s, actions[0]), r, owner, actions[1..]);
    }
  }

  lemma AbandonedNow(s: System, r: Revision, owner: Pid)
    requires Abandoned(s, r, owner)
    ensures r in s.slots && s.slots[r].history.mainCharges == 0
            && s.slots[r].row.responsePayload.None? && s.slots[r].history.answers == []
  {
    hide HoldsAnswer, Stored, ProcessIn, ConversationOk, DistinctKeys;
    assert SlotOk(r, s.slots[r], s.conversation);
  }

  /** The summary call is spent: settled without a checkpoint, or its process stopped before settling it. */
  predicate SummarySpent(s: System, r: Revision, owner: Pid) {
    && Inv(s) && r in s.slots && owner in s.processes
    && s.slots[r].history.summaryOwner == Some(owner) && s.slots[r].history.nextState.None?
    && (s.slots[r].summaryBill == Settled || s.processes[owner].pc == Failed || s.processes[owner].pc == Crashed)
  }

  predicate SpentView(pid: Pid, owner: Pid, v: View) {
    && v.slot.history.summaryOwner == Some(owner) && v.slot.history.nextState.None?
    && (v.slot.summaryBill == Settled || (pid == owner ==> v.process.pc == Failed || v.process.pc == Crashed))
  }

  lemma ActKeepsSpent(pid: Pid, owner: Pid, a: Action, v: View)
    requires ViewOk(pid, v) && SpentView(pid, owner, v)
    ensures SpentView(pid, owner, Act(pid, a, v))
    ensures v.slot.summaryBill == Settled ==> Act(pid, a, v).slot.summaryBill == Settled
  {
    hide SafeContentType, Frozen, Storable, AnswersOk, HistoryOk, HoldsAnswer, Stored, ConversationOk;
  }

  lemma OwnStepKeepsSpent(s: System, a: Action, r: Revision, owner: Pid)
    requires SummarySpent(s, r, owner) && Inv(Step(s, a)) && !(a.Start? || a.LeaseExpires? || a.TimeOut? || a.Scrub?)
    requires a.pid in s.processes && s.processes[a.pid].revision in s.slots
    ensures SummarySpent(Step(s, a), r, owner)
  {
    hide Act, SlotOk, ProcessOk, Inv, ViewOk;
    var q := s.processes[a.pid];
    var v := View(q, s.slots[q.revision], s.conversation);
    ViewOfProcess(s, a.pid);
    if q.revision == r {
      ActKeepsSpent(a.pid, owner, a, v);
    }
    if a.pid == owner && (q.pc == Failed || q.pc == Crashed) {
      StoppedStays(a.pid, a, v);
    }
  }

  lemma StepKeepsSpent(s: System, a: Action, r: Revision, owner: Pid)
    requires SummarySpent(s, r, owner)
    ensures SummarySpent(Step(s, a), r, owner)
  {
    hide Act, SlotOk, ProcessOk, Inv;
    StepKeepsInv(s, a);
    if !(a.Start? || a.LeaseExpires? || a.TimeOut? || a.Scrub?) {
      if a.pid in s.processes && s.processes[a.pid].revision in s.slots {
        OwnStepKeepsSpent(s, a, r, owner);
      }
    }
  }

  // The same for the summary: once its one call was charged for a summary that is not valid, or its process
  // stopped before settling it, no run commits the outcome or answers.
  lemma {:induction false} SpentStaysUncommitted(s: System, r: Revision, owner: Pid, actions: seq<Action>)
    requires SummarySpent(s, r, owner)
    ensures var t := Exec(s, actions);
            r in t.slots && t.slots[r].history.nextState.None? && !t.slots[r].history.everCommitted && t.slots[r].history.answers == []
    decreases |actions|
  {
    hide Step, SummarySpent;
    SpentNow(s, r, owner);
    if actions != [] {
      StepKeepsSpent(s, actions[0], r, owner);
      SpentStaysUncommitted(Step(s, actions[0]), r, owner, actions[1..]);
    }
  }

  lemma SpentNow(s: System, r: Revision, owner: Pid)
    requires SummarySpent(s, r, owner)
    ensures r in s.slots && s.slots[r].history.nextState.None? && !s.slots[r].history.everCommitted && s.slots[r].history.answers == []
  {
    hide HoldsAnswer, ProcessIn, ConversationOk, DistinctKeys;
    assert SlotOk(r, s.slots[r], s.conversation);
  }
}
