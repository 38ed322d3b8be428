// What a retry can and cannot do after a crash.

module OutcomeRecovery {
  import opened Options
  import opened OutcomeStore
  import opened OutcomeProtocol
  import opened OutcomeInvariant
  import opened OutcomeSafety
  import opened OutcomeTheorems

  // An action of the process `pid` after its start.
  predicate Own(pid: Pid, a: Action) {
    !a.Start? && !a.LeaseExpires? && !a.TimeOut? && !a.Scrub? && a.pid == pid
  }

  function Solo(pid: Pid, actions: seq<Action>, v: View): View
    decreases |actions|
  {
    if actions == [] then v else Solo(pid, actions[1..], Act(pid, actions[0], v))
  }

  function Lift(s: System, pid: Pid, r: Revision, v: View): System {
    System(s.slots[r := v.slot], v.conversation, s.processes[pid := v.process])
  }

  lemma ActKeepsRevision(pid: Pid, a: Action, v: View)
    ensures Act(pid, a, v).process.revision == v.process.revision
  {
    hide SafeContentType, Frozen, Storable;
  }

  // A run of one process alone is a run of its view.
  lemma {:induction false} SoloIsExec(s: System, pid: Pid, actions: seq<Action>)
    requires pid in s.processes && s.processes[pid].revision in s.slots
    requires forall a :: a in actions ==> Own(pid, a)
    ensures var r := s.processes[pid].revision;
            Exec(s, actions) == Lift(s, pid, r, Solo(pid, actions, View(s.processes[pid], s.slots[r], s.conversation)))
    decreases |actions|
  {
    hide Act;
    var r := s.processes[pid].revision;
    var v := View(s.processes[pid], s.slots[r], s.conversation);
    if actions == [] {
      assert s == Lift(s, pid, r, v);
    } else {
      assert Own(pid, actions[0]);
      ActKeepsRevision(pid, actions[0], v);
      var s' := Step(s, actions[0]);
      assert s' == Lift(s, pid, r, Act(pid, actions[0], v));
      SoloIsExec(s', pid, actions[1..]);
      var w := Solo(pid, actions, v);
      assert Lift(s', pid, r, w) == Lift(s, pid, r, w);
    }
  }

  lemma {:induction false} SoloConcat(pid: Pid, first: seq<Action>, second: seq<Action>, v: View)
    ensures Solo(pid, first + second, v) == Solo(pid, second, Solo(pid, first, v))
    decreases |first|
  {
    hide Act;
    if first == [] {
      assert first + second == second;
    } else {
      assert (first + second)[1..] == first[1..] + second;
      SoloConcat(pid, first[1..], second, Act(pid, first[0], v));
    }
  }

  // The crash-free continuations, as the resume path issues them.
  function FinishRun(pid: Pid): seq<Action> {
    [MarkCommitted(pid), WriteAnswer(pid)]
  }

  predicate LeasedTo(pid: Pid, v: View) {
    v.conversation.revision == v.process.revision && v.conversation.lease == Some(Lease(pid, v.process.fence))
  }

  /** A crash-free request of `pid` has come from `v0` to the given point. */
  predicate Stage(pid: Pid, v0: View, v: View, pc: Pc, phase: Phase) {
    && ViewOk(pid, v)
    && v.process.pc == pc && v.process.revision == v0.process.revision
    && v.slot.row.phase == phase && !v.slot.row.timedOut
    && v.slot.history.answers == v0.slot.history.answers
  }

  predicate Delivered(v0: View, v: View) {
    var h := v.slot.history;
    && v.process.pc == Finished && v.slot.row.phase == Committed && h.everCommitted && h.buffered.Some?
    && h.answers == v0.slot.history.answers + [AnswerOf(Frozen(h.buffered.value), v0.process.revision + 1)]
  }

  /** What the calls of a request have brought in and what is stored of it. */
  datatype Facts = Facts(
    buffer: Option<Response>,
    summary: int,
    buffered: Option<Response>,
    payload: Option<Response>,
    snapshot: Option<int>,
    nextState: Option<NextState>,
    log: seq<NextState>)

  function FactsOf(v: View): Facts {
    Facts(v.process.buffer, v.process.summary, v.slot.history.buffered, v.slot.row.responsePayload, v.slot.row.snapshot,
          v.slot.row.nextState, v.conversation.log)
  }

  // The facts once the main call has returned the response and was settled with the snapshot.
  function WithMain(f: Facts, response: Response, snapshot: int): Facts {
    f.(buffer := Some(response), buffered := Some(response), payload := Some(response), snapshot := Some(snapshot))
  }

  // ... once the summary call has returned the content and was settled.
  function WithSummary(f: Facts, revision: Revision, content: int): Facts {
    f.(summary := content, nextState := Some(NextState(revision + 1, content)))
  }

  // ... once the checkpointed state is stored.
  function WithStored(f: Facts): Facts {
    if f.nextState.Some? then f.(log := f.log + [f.nextState.value]) else f
  }

  lemma MarkStage(pid: Pid, v0: View, v: View)
    requires Stage(pid, v0, v, Marking, SettledPendingCommit)
    ensures var v' := Act(pid, MarkCommitted(pid), v);
            Stage(pid, v0, v', Answering, Committed) && v'.conversation == v.conversation && FactsOf(v') == FactsOf(v)
  {
    hide SafeContentType, Frozen, Storable;
    ActKeepsView(pid, MarkCommitted(pid), v);
  }

  lemma AnswerStage(pid: Pid, v0: View, v: View)
    requires Stage(pid, v0, v, Answering, Committed)
    ensures var v' := Act(pid, WriteAnswer(pid), v);
            Delivered(v0, v') && v'.conversation == v.conversation && FactsOf(v') == FactsOf(v)
  {
    hide SafeContentType, Frozen, Storable;
    ActKeepsView(pid, WriteAnswer(pid), v);
  }

  lemma FinishDelivers(pid: Pid, v0: View, v: View)
    requires Stage(pid, v0, v, Marking, SettledPendingCommit)
    ensures var v' := Solo(pid, FinishRun(pid), v);
            Delivered(v0, v') && v'.conversation == v.conversation && FactsOf(v') == FactsOf(v)
  {
    hide Act, Stage, Delivered, FactsOf;
    MarkStage(pid, v0, v);
    var v1 := Act(pid, MarkCommitted(pid), v);
    AnswerStage(pid, v0, v1);
    assert FinishRun(pid)[1..] == [WriteAnswer(pid)] && [WriteAnswer(pid)][1..] == [];
    assert Solo(pid, [WriteAnswer(pid)], v1) == Solo(pid, [], Act(pid, WriteAnswer(pid), v1));
  }

  lemma SwapStage(pid: Pid, v0: View, v: View, retried: bool)
    requires Stage(pid, v0, v, Swapping(retried), SettledPendingCommit) && LeasedTo(pid, v)
    ensures var v' := Act(pid, Swap(pid, Acknowledged), v);
            Stage(pid, v0, v', Marking, SettledPendingCommit) && FactsOf(v') == WithStored(FactsOf(v)) && FactsOf(v).nextState.Some?
  {
    hide SafeContentType, Frozen, Storable;
    ActKeepsView(pid, Swap(pid, Acknowledged), v);
  }

  // The state has been stored by this request, whatever it knows of that.
  predicate StoredUnder(v: View) {
    && v.process.copy.nextState.Some? && v.conversation.revision == v.process.revision + 1
    && v.conversation.writerFence == v.process.fence && v.conversation.state == v.process.copy.nextState
  }

  lemma ReplyIsLost(pid: Pid, v0: View, v: View, retried: bool)
    requires Stage(pid, v0, v, Swapping(retried), SettledPendingCommit) && LeasedTo(pid, v)
    ensures var v1 := Act(pid, Swap(pid, ReplyLost), v);
            && Stage(pid, v0, v1, Resolving(retried), SettledPendingCommit) && StoredUnder(v1)
            && FactsOf(v1) == WithStored(FactsOf(v)) && FactsOf(v).nextState.Some?
  {
    hide SafeContentType, Frozen, Storable;
    ActKeepsView(pid, Swap(pid, ReplyLost), v);
  }

  lemma ResolveFinds(pid: Pid, v0: View, v: View, retried: bool)
    requires Stage(pid, v0, v, Resolving(retried), SettledPendingCommit) && StoredUnder(v)
    ensures var v1 := Act(pid, Resolve(pid), v); Stage(pid, v0, v1, Marking, SettledPendingCommit) && FactsOf(v1) == FactsOf(v)
  {
    hide SafeContentType, Frozen, Storable;
    ActKeepsView(pid, Resolve(pid), v);
  }

  // The reply of a swap that happened is lost: reading the conversation finds it stored.
  lemma LostReplyStage(pid: Pid, v0: View, v: View, retried: bool)
    requires Stage(pid, v0, v, Swapping(retried), SettledPendingCommit) && LeasedTo(pid, v)
    ensures var v1 := Act(pid, Swap(pid, ReplyLost), v); var v2 := Act(pid, Resolve(pid), v1);
            && v1.process.pc == Resolving(retried)
            && Stage(pid, v0, v2, Marking, SettledPendingCommit) && FactsOf(v2) == WithStored(FactsOf(v)) && FactsOf(v).nextState.Some?
  {
    hide Act, StoredUnder, FactsOf, LeasedTo, ViewOk, WithStored;
    ReplyIsLost(pid, v0, v, retried);
    ResolveFinds(pid, v0, Act(pid, Swap(pid, ReplyLost), v), retried);
  }

  lemma RequestIsLost(pid: Pid, v0: View, v: View)
    requires Stage(pid, v0, v, Swapping(false), SettledPendingCommit) && LeasedTo(pid, v)
    ensures var v1 := Act(pid, Swap(pid, RequestLost), v);
            Stage(pid, v0, v1, Resolving(false), SettledPendingCommit) && LeasedTo(pid, v1) && FactsOf(v1) == FactsOf(v)
  {
    hide SafeContentType, Frozen, Storable;
    ActKeepsView(pid, Swap(pid, RequestLost), v);
  }

  lemma ResolveRetries(pid: Pid, v0: View, v: View)
    requires Stage(pid, v0, v, Resolving(false), SettledPendingCommit) && LeasedTo(pid, v)
    ensures var v1 := Act(pid, Resolve(pid), v);
            Stage(pid, v0, v1, Swapping(true), SettledPendingCommit) && LeasedTo(pid, v1) && FactsOf(v1) == FactsOf(v)
  {
    hide SafeContentType, Frozen, Storable;
    ActKeepsView(pid, Resolve(pid), v);
  }

  // A swap that never arrived is tried once more.
  lemma LostRequestStage(pid: Pid, v0: View, v: View)
    requires Stage(pid, v0, v, Swapping(false), SettledPendingCommit) && LeasedTo(pid, v)
    ensures var v1 := Act(pid, Swap(pid, RequestLost), v); var v2 := Act(pid, Resolve(pid), v1);
            && v1.process.pc == Resolving(false)
            && Stage(pid, v0, v2, Swapping(true), SettledPendingCommit) && LeasedTo(pid, v2) && FactsOf(v2) == FactsOf(v)
  {
    hide Act, FactsOf, LeasedTo, ViewOk;
    RequestIsLost(pid, v0, v);
    ResolveRetries(pid, v0, Act(pid, Swap(pid, RequestLost), v));
  }

  // A stage can be taken as a new start: what is delivered from there is delivered from the first start.
  lemma StageAgain(pid: Pid, v0: View, v: View, pc: Pc, phase: Phase)
    requires Stage(pid, v0, v, pc, phase)
    ensures Stage(pid, v, v, pc, phase) && v.process.pc == pc && v.process.revision == v0.process.revision
    ensures forall w :: Delivered(v, w) ==> Delivered(v0, w)
  {
    hide SafeContentType, Frozen, Storable, ViewOk;
  }

  lemma SwapDelivers(pid: Pid, v0: View, v: View)
    requires Stage(pid, v0, v, Swapping(false), SettledPendingCommit) && LeasedTo(pid, v)
    ensures var v' := Solo(pid, [Swap(pid, Acknowledged)] + FinishRun(pid), v);
            Delivered(v0, v') && FactsOf(v') == WithStored(FactsOf(v)) && FactsOf(v).nextState.Some?
  {
    hide Act, Stage, Delivered, FactsOf;
    SwapStage(pid, v0, v, false);
    FinishDelivers(pid, v0, Act(pid, Swap(pid, Acknowledged), v));
    assert ([Swap(pid, Acknowledged)] + FinishRun(pid))[1..] == FinishRun(pid);
  }

  predicate SummaryStage(pid: Pid, v0: View, v: View, pc: Pc, phase: Phase, bill: Bill) {
    Stage(pid, v0, v, pc, phase) && LeasedTo(pid, v) && v.slot.summaryBill == bill
  }

  lemma SummaryReserves(pid: Pid, v0: View, v: View)
    requires Stage(pid, v0, v, SummaryPreparing, MainSettled) && LeasedTo(pid, v) && v.slot.summaryBill != Refunded
    ensures var v' := Act(pid, ReserveSummary(pid), v);
            SummaryStage(pid, v0, v', SummaryMarking, MainSettled, Reserved) && FactsOf(v') == FactsOf(v)
  {
    hide SafeContentType, Frozen, Storable;
    ActKeepsView(pid, ReserveSummary(pid), v);
  }

  lemma SummaryDispatches(pid: Pid, v0: View, v: View)
    requires SummaryStage(pid, v0, v, SummaryMarking, MainSettled, Reserved)
    ensures var v' := Act(pid, MarkSummary(pid), v);
            SummaryStage(pid, v0, v', SummaryExecuting, SummaryDispatched, Reserved) && FactsOf(v') == FactsOf(v)
  {
    hide SafeContentType, Frozen, Storable;
    ActKeepsView(pid, MarkSummary(pid), v);
  }

  lemma SummaryCalls(pid: Pid, v0: View, v: View, content: int)
    requires SummaryStage(pid, v0, v, SummaryExecuting, SummaryDispatched, Reserved)
    ensures var v' := Act(pid, ExecuteSummary(pid, ValidSummary(content)), v);
            SummaryStage(pid, v0, v', SummarySettling(true), SummaryDispatched, Reserved) && FactsOf(v') == FactsOf(v).(summary := content)
  {
    hide SafeContentType, Frozen, Storable;
    ActKeepsView(pid, ExecuteSummary(pid, ValidSummary(content)), v);
  }

  lemma SummaryCharges(pid: Pid, v0: View, v: View)
    requires SummaryStage(pid, v0, v, SummarySettling(true), SummaryDispatched, Reserved)
    ensures var v' := Act(pid, SettleSummary(pid), v);
            SummaryStage(pid, v0, v', SummaryReloading, SettledPendingCommit, Settled) && FactsOf(v') == FactsOf(v).(nextState := Some(NextState(v0.process.revision + 1, FactsOf(v).summary)))
  {
    hide SafeContentType, Frozen, Storable;
    ActKeepsView(pid, SettleSummary(pid), v);
  }

  lemma SummaryReloads(pid: Pid, v0: View, v: View)
    requires SummaryStage(pid, v0, v, SummaryReloading, SettledPendingCommit, Settled)
    ensures var v' := Act(pid, ReloadSummary(pid), v);
            SummaryStage(pid, v0, v', Swapping(false), SettledPendingCommit, Settled) && FactsOf(v') == FactsOf(v)
  {
    hide SafeContentType, Frozen, Storable;
    ActKeepsView(pid, ReloadSummary(pid), v);
  }

  lemma SoloSplit(pid: Pid, run: seq<Action>, v: View)
    requires run != []
    ensures Solo(pid, run, v) == Solo(pid, run[1..], Act(pid, run[0], v))
  {
    hide SafeContentType, Frozen, Storable;
  }

  // The summary half of a request, from the settled main call to the written answer.
  function SummaryRun(pid: Pid, content: int): seq<Action> {
    [ReserveSummary(pid), MarkSummary(pid), ExecuteSummary(pid, ValidSummary(content)), SettleSummary(pid), ReloadSummary(pid)]
  }

  // A crash-free summary half whose call succeeds settles the summary call.
  lemma SummarySettles(pid: Pid, v0: View, v: View, content: int)
    requires Stage(pid, v0, v, SummaryPreparing, MainSettled) && LeasedTo(pid, v) && v.slot.summaryBill != Refunded
    ensures var v' := Solo(pid, SummaryRun(pid, content), v);
            Stage(pid, v0, v', Swapping(false), SettledPendingCommit) && LeasedTo(pid, v')
            && FactsOf(v') == WithSummary(FactsOf(v), v0.process.revision, content)
  {
    hide Act, Stage, SummaryStage, LeasedTo, Solo, FactsOf;
    var run := SummaryRun(pid, content);
    SummaryReserves(pid, v0, v);
    var v1 := Act(pid, run[0], v);
    SummaryDispatches(pid, v0, v1);
    var v2 := Act(pid, run[1], v1);
    SummaryCalls(pid, v0, v2, content);
    var v3 := Act(pid, run[2], v2);
    SummaryCharges(pid, v0, v3);
    var v4 := Act(pid, run[3], v3);
    SummaryReloads(pid, v0, v4);
    SummaryStageFacts(pid, v0, Act(pid, run[4], v4));
    SoloFive(pid, run, v);
  }

  lemma SummaryDelivers(pid: Pid, v0: View, v: View, content: int)
    requires Stage(pid, v0, v, SummaryPreparing, MainSettled) && LeasedTo(pid, v) && v.slot.summaryBill != Refunded
    ensures var v' := Solo(pid, SummaryRun(pid, content) + ([Swap(pid, Acknowledged)] + FinishRun(pid)), v);
            Delivered(v0, v') && FactsOf(v') == WithStored(WithSummary(FactsOf(v), v0.process.revision, content))
  {
    hide Act, Stage, LeasedTo, Delivered, Solo, FactsOf;
    SummarySettles(pid, v0, v, content);
    SwapDelivers(pid, v0, Solo(pid, SummaryRun(pid, content), v));
    SoloConcat(pid, SummaryRun(pid, content), [Swap(pid, Acknowledged)] + FinishRun(pid), v);
  }

  lemma SummaryStageFacts(pid: Pid, v0: View, v: View)
    requires SummaryStage(pid, v0, v, Swapping(false), SettledPendingCommit, Settled)
    ensures Stage(pid, v0, v, Swapping(false), SettledPendingCommit) && LeasedTo(pid, v)
  {
    hide SafeContentType, Frozen, Storable;
  }

  lemma SoloFive(pid: Pid, run: seq<Action>, v: View)
    requires |run| == 5
    ensures Solo(pid, run, v) == Act(pid, run[4], Act(pid, run[3], Act(pid, run[2], Act(pid, run[1], Act(pid, run[0], v)))))
  {
    hide Act, Solo;
    var v1 := Act(pid, run[0], v);
    var v2 := Act(pid, run[1], v1);
    var v3 := Act(pid, run[2], v2);
    var v4 := Act(pid, run[3], v3);
    SoloSplit(pid, run, v);
    SoloSplit(pid, run[1..], v1);
    assert run[1..][1..] == run[2..];
    SoloSplit(pid, run[2..], v2);
    assert run[2..][1..] == run[3..];
    SoloSplit(pid, run[3..], v3);
    assert run[3..][1..] == run[4..];
    SoloSplit(pid, run[4..], v4);
    assert run[4..][1..] == [];
    SoloEmpty(pid, Act(pid, run[4], v4));
  }

  lemma SoloEmpty(pid: Pid, v: View)
    ensures Solo(pid, [], v) == v
  {
    hide SafeContentType, Frozen, Storable;
  }

  // The main half of a request, from the pre-consumed operation to the settled main call.
  function MainRun(pid: Pid, response: Response, snapshot: int): seq<Action> {
    [EnterAttempt(pid), MarkMain(pid), ExecuteMain(pid, Some(response)), SettleMain(pid, snapshot), ReloadMain(pid)]
  }

  predicate MainStage(pid: Pid, v0: View, v: View, pc: Pc, phase: Phase, bill: Bill) {
    Stage(pid, v0, v, pc, phase) && LeasedTo(pid, v) && v.slot.mainBill == bill && v.slot.summaryBill != Refunded
    && (pc == MainGate || pc == MainMarking ==> v.process.copy.phase == Intent)
  }

  lemma MainReserves(pid: Pid, v0: View, v: View)
    requires Stage(pid, v0, v, MainPreparing, Intent) && LeasedTo(pid, v) && v.process.copy.phase == Intent && v.slot.mainBill != Refunded
    ensures var v' := Act(pid, ReserveMain(pid), v);
            MainStage(pid, v0, v', MainGate, Intent, Reserved) && FactsOf(v') == FactsOf(v)
  {
    hide SafeContentType, Frozen, Storable;
    ActKeepsView(pid, ReserveMain(pid), v);
  }

  lemma MainEnters(pid: Pid, v0: View, v: View)
    requires MainStage(pid, v0, v, MainGate, Intent, Reserved)
    ensures var v' := Act(pid, EnterAttempt(pid), v);
            MainStage(pid, v0, v', MainMarking, Intent, Reserved) && FactsOf(v') == FactsOf(v)
  {
    hide SafeContentType, Frozen, Storable;
    ActKeepsView(pid, EnterAttempt(pid), v);
  }

  lemma MainDispatches(pid: Pid, v0: View, v: View)
    requires MainStage(pid, v0, v, MainMarking, Intent, Reserved)
    ensures var v' := Act(pid, MarkMain(pid), v);
            MainStage(pid, v0, v', MainExecuting, MainDispatched, Reserved) && FactsOf(v') == FactsOf(v)
  {
    hide SafeContentType, Frozen, Storable;
    ActKeepsView(pid, MarkMain(pid), v);
  }

  lemma MainCalls(pid: Pid, v0: View, v: View, response: Response)
    requires MainStage(pid, v0, v, MainExecuting, MainDispatched, Reserved) && Storable(response)
    ensures var v' := Act(pid, ExecuteMain(pid, Some(response)), v);
            MainStage(pid, v0, v', MainSettling, MainDispatched, Reserved) && FactsOf(v') == FactsOf(v).(buffer := Some(response), buffered := Some(response))
  {
    hide SafeContentType, Frozen, Storable;
    ActKeepsView(pid, ExecuteMain(pid, Some(response)), v);
  }

  lemma MainCharges(pid: Pid, v0: View, v: View, snapshot: int)
    requires MainStage(pid, v0, v, MainSettling, MainDispatched, Reserved)
    ensures var v' := Act(pid, SettleMain(pid, snapshot), v);
            MainStage(pid, v0, v', MainReloading, MainSettled, Settled) && FactsOf(v') == FactsOf(v).(payload := FactsOf(v).buffer, snapshot := Some(snapshot))
  {
    hide SafeContentType, Frozen, Storable;
    ActKeepsView(pid, SettleMain(pid, snapshot), v);
  }

  lemma MainReloads(pid: Pid, v0: View, v: View)
    requires MainStage(pid, v0, v, MainReloading, MainSettled, Settled)
    ensures var v' := Act(pid, ReloadMain(pid), v);
            MainStage(pid, v0, v', SummaryPreparing, MainSettled, Settled) && FactsOf(v') == FactsOf(v)
  {
    hide SafeContentType, Frozen, Storable;
    ActKeepsView(pid, ReloadMain(pid), v);
  }

  lemma MainStageFacts(pid: Pid, v0: View, v: View)
    requires MainStage(pid, v0, v, SummaryPreparing, MainSettled, Settled)
    ensures Stage(pid, v0, v, SummaryPreparing, MainSettled) && LeasedTo(pid, v) && v.slot.summaryBill != Refunded
  {
    hide SafeContentType, Frozen, Storable;
  }

  function SummaryToAnswer(pid: Pid, content: int): seq<Action> {
    SummaryRun(pid, content) + ([Swap(pid, Acknowledged)] + FinishRun(pid))
  }

  // A crash-free main half whose calls succeed settles the main call.
  lemma MainSettles(pid: Pid, v0: View, v: View, response: Response, snapshot: int)
    requires Stage(pid, v0, v, MainPreparing, Intent) && LeasedTo(pid, v) && v.process.copy.phase == Intent && v.slot.mainBill != Refunded
    requires Storable(response)
    ensures var v' := Solo(pid, [ReserveMain(pid)] + MainRun(pid, response, snapshot), v);
            Stage(pid, v0, v', SummaryPreparing, MainSettled) && LeasedTo(pid, v') && v'.slot.summaryBill != Refunded
            && FactsOf(v') == WithMain(FactsOf(v), response, snapshot)
  {
    hide Act, Stage, MainStage, LeasedTo, Solo, FactsOf;
    var run := MainRun(pid, response, snapshot);
    MainReserves(pid, v0, v);
    var v0' := Act(pid, ReserveMain(pid), v);
    MainEnters(pid, v0, v0');
    var v1 := Act(pid, run[0], v0');
    MainDispatches(pid, v0, v1);
    var v2 := Act(pid, run[1], v1);
    MainCalls(pid, v0, v2, response);
    var v3 := Act(pid, run[2], v2);
    MainCharges(pid, v0, v3, snapshot);
    var v4 := Act(pid, run[3], v3);
    MainReloads(pid, v0, v4);
    MainStageFacts(pid, v0, Act(pid, run[4], v4));
    SoloFive(pid, run, v0');
    SoloStep(pid, ReserveMain(pid), run, v);
  }

  lemma SoloStep(pid: Pid, a: Action, rest: seq<Action>, v: View)
    ensures Solo(pid, [a] + rest, v) == Solo(pid, rest, Act(pid, a, v))
  {
    hide Act;
    assert ([a] + rest)[1..] == rest;
  }

  /** A fresh request for an outcome that nobody else is holding. */
  predicate FreshRetry(s: System, pid: Pid, r: Revision) {
    Inv(s) && pid !in s.processes && r in s.slots && !s.slots[r].row.timedOut
  }

  predicate Idle(s: System, r: Revision) {
    s.conversation.lease.None? && s.conversation.revision == r
  }

  function Entered(s: System, pid: Pid, r: Revision): View
    requires r in s.slots
  {
    var row := s.slots[r].row;
    View(BlankProcess(EntryPc(row), r, row.key, row), s.slots[r], s.conversation)
  }

  lemma StartEnters(s: System, pid: Pid, r: Revision)
    requires FreshRetry(s, pid, r)
    ensures Step(s, Start(pid, r, s.slots[r].row.key)) == Lift(s, pid, r, Entered(s, pid, r))
    ensures ViewOk(pid, Entered(s, pid, r))
  {
    hide SlotOk, ProcessOk;
    assert SlotOk(r, s.slots[r], s.conversation);
    EntryOk(pid, s.slots[r], s.conversation, r, s.slots[r].row.key);
  }

  // A retry that runs alone is the run of its view.
  lemma RetryRun(s: System, pid: Pid, r: Revision, own: seq<Action>)
    requires FreshRetry(s, pid, r) && (forall a :: a in own ==> Own(pid, a))
    ensures Exec(s, [Start(pid, r, s.slots[r].row.key)] + own) == Lift(s, pid, r, Solo(pid, own, Entered(s, pid, r)))
  {
    hide Act, SlotOk, ProcessOk;
    StartEnters(s, pid, r);
    var start := Start(pid, r, s.slots[r].row.key);
    var s' := Step(s, start);
    assert ([start] + own)[1..] == own;
    SoloIsExec(s', pid, own);
    var w := Solo(pid, own, Entered(s, pid, r));
    assert Lift(s', pid, r, w) == Lift(s, pid, r, w);
  }
}
