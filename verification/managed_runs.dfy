// The request path as runs of effects: what may happen around an effect, where each effect leads, what
// a run of effects makes of what a request sees, and that the runs of the request path deliver.

module ManagedRuns {
  import opened Options
  import opened OutcomeStore
  import opened OutcomeProtocol
  import opened OutcomeInvariant
  import opened OutcomeSafety
  import opened OutcomeTheorems
  import opened OutcomeRecovery
  import opened OutcomeRetry
  import opened OutcomeFencing
  import opened ContentTypes
  import opened OutcomeProvenance

  datatype Fault = NoFault | EffectFails | ProcessDies

  // What happens around one effect.
  datatype Turn = Turn(others: seq<Action>, fault: Fault, resetsRetry: bool)

  const QuietTurn := Turn([], NoFault, false)

  // What the outside world answers to one request.
  datatype Script = Script(
    upstream: Option<Response>,
    channelError: bool,
    snapshot: int,
    summary: SummaryResult,
    firstAck: Ack,
    secondAck: Ack)

  datatype RelayError = ManagedError | UpstreamFailure

  // What may happen besides a request's own effects: others act, and its main refund runs in the background.
  predicate Foreign(pid: Pid, a: Action) {
    a.LeaseExpires? || a.TimeOut? || a.Scrub? || a.RefundMain? || a.pid != pid
  }

  function OnlyForeign(pid: Pid, actions: seq<Action>): (r: seq<Action>)
    ensures forall a :: a in r ==> Foreign(pid, a)
    ensures (forall a :: a in actions ==> Foreign(pid, a)) ==> r == actions
  {
    if actions == [] then []
    else (if Foreign(pid, actions[0]) then [actions[0]] else []) + OnlyForeign(pid, actions[1..])
  }

  /** The program counter at which an action takes effect. */
  predicate Enabled(pc: Pc, a: Action) {
    match a
    case Confirm(_) => pc == Confirming
    case Begin(_) => pc == Beginning
    case Load(_) => pc == Loading
    case ReserveMain(_) => pc == MainPreparing
    case EnterAttempt(_) => pc == MainGate
    case MarkMain(_) => pc == MainMarking
    case ExecuteMain(_, _) => pc == MainExecuting
    case SettleMain(_, _) => pc == MainSettling
    case ReloadMain(_) => pc == MainReloading
    case ReserveSummary(_) => pc == SummaryPreparing
    case MarkSummary(_) => pc == SummaryMarking
    case ExecuteSummary(_, _) => pc == SummaryExecuting
    case SettleSummary(_) => pc.SummarySettling?
    case ReloadSummary(_) => pc == SummaryReloading
    case Swap(_, _) => pc.Swapping?
    case Resolve(_) => pc.Resolving?
    case MarkCommitted(_) => pc == Marking
    case WriteAnswer(_) => pc == Answering
    case _ => false
  }

  // Where a request can be after an effect that neither failed nor killed it.
  predicate Follows(before: Process, a: Action, after: Process) {
    match a
    case Confirm(_) => after == before.(pc := Beginning) || after.pc == Marking
    case Begin(_) => after.pc == Loading && after.copy == before.copy
    case Load(_) =>
      && after.copy == before.copy
      && (before.copy.phase == Intent ==> after.pc == MainPreparing)
      && (before.copy.phase == MainSettled ==> after.pc == SummaryPreparing)
      && (before.copy.phase == SettledPendingCommit ==> after.pc == Swapping(false))
    case ReserveMain(_) => after.pc == MainGate && after.copy == before.copy
    case EnterAttempt(_) => after == before.(pc := MainMarking) && before.copy.phase == Intent
    case MarkMain(_) => after.pc == MainExecuting && after.copy.phase == MainDispatched
    case ExecuteMain(_, upstream) => after.copy == before.copy && after.pc == if upstream.None? then MainGate else MainSettling
    case SettleMain(_, _) => after.pc == MainReloading
    case ReloadMain(_) => after.pc == SummaryPreparing
    case ReserveSummary(_) => after.pc == SummaryMarking
    case MarkSummary(_) => after.pc == SummaryExecuting
    case ExecuteSummary(_, _) => after.pc.SummarySettling?
    case SettleSummary(_) => after.pc == SummaryReloading
    case ReloadSummary(_) => after.pc == Swapping(false) && after.copy.phase == SettledPendingCommit
    case Swap(_, ack) => after.pc == if ack == Acknowledged then Marking else Resolving(before.pc.Swapping? && before.pc.retried)
    case Resolve(_) => after.pc == Marking || (after.pc == Swapping(true) && before.pc == Resolving(false))
    case MarkCommitted(_) => after.pc == Answering && after.copy.phase == Committed
    case WriteAnswer(_) => after.pc == Finished
    case _ => false
  }

  predicate Resumable(phase: Phase) {
    phase == Intent || phase == MainSettled || phase == SettledPendingCommit
  }

  // A request that has been let in is at the effect its phase calls for.
  predicate LetIn(process: Process) {
    match process.copy.phase
    case Intent => process.pc == MainPreparing
    case MainSettled => process.pc == SummaryPreparing
    case SettledPendingCommit => process.pc == Swapping(false)
    case Committed => process.pc == Answering
    case _ => false
  }

  predicate Stopped(pc: Pc) { pc == Failed || pc == Crashed }

  lemma ActFollows(pid: Pid, a: Action, v: View)
    requires Enabled(v.process.pc, a)
    ensures var after := Act(pid, a, v).process;
            after.revision == v.process.revision && after.key == v.process.key
            && (Stopped(after.pc) || Follows(v.process, a, after))
  {
    hide SafeContentType, Frozen, Storable;
  }

  lemma StopStops(pid: Pid, a: Action, v: View)
    requires (a.Fail? || a.Crash?) && v.process.pc != Finished
    ensures Act(pid, a, v).process.pc == if a.Fail? && v.process.pc != Crashed then Failed else Crashed
    ensures Act(pid, a, v).process.revision == v.process.revision
  {
    hide SafeContentType, Frozen, Storable;
  }

  lemma RefundLeavesProcess(pid: Pid, v: View)
    ensures Act(pid, RefundMain(pid), v).process == v.process
  {}

  // What others do leaves a process as it is.
  lemma {:induction false} ForeignLeaves(s: System, pid: Pid, actions: seq<Action>)
    requires pid in s.processes && (forall a :: a in actions ==> Foreign(pid, a))
    ensures pid in Exec(s, actions).processes && Exec(s, actions).processes[pid] == s.processes[pid]
    ensures s.slots.Keys <= Exec(s, actions).slots.Keys
    decreases |actions|
  {
    hide Act;
    if actions != [] {
      assert Foreign(pid, actions[0]);
      if pid in s.processes && s.processes[pid].revision in s.slots && actions[0] == RefundMain(pid) {
        RefundLeavesProcess(pid, View(s.processes[pid], s.slots[s.processes[pid].revision], s.conversation));
      }
      ForeignLeaves(Step(s, actions[0]), pid, actions[1..]);
    }
  }

  // A channel error is retried whatever the budget; that is why the phase gate is needed.
  predicate ShouldRetry(channelError: bool, retryTimes: int) {
    channelError || retryTimes > 0
  }

  lemma StartFollows(s: System, pid: Pid, revision: Revision, key: Key)
    requires pid !in s.processes
    ensures var after := Step(s, Start(pid, revision, key)).processes;
            && pid in after && after[pid].revision == revision
            && (after[pid].pc == Failed
                || (after[pid].pc == Answering && after[pid].copy.phase == Committed)
                || (after[pid].pc == Confirming && after[pid].copy.phase == SettledPendingCommit)
                || (after[pid].pc == Beginning && (after[pid].copy.phase == Intent || after[pid].copy.phase == MainSettled)))
  {
    hide SafeContentType, Frozen, Storable;
  }

  // The effects that give back what a failed request holds.
  predicate GivesBack(pid: Pid, a: Action) {
    a == RefundSummary(pid) || a == RefundMain(pid) || a == ReleaseLease(pid)
  }

  function EverythingBack(pid: Pid): set<Action> {
    {RefundSummary(pid), RefundMain(pid), ReleaseLease(pid)}
  }

  lemma FailFails(s: System, pid: Pid)
    requires Inv(s) && pid in s.processes
    ensures var after := Step(s, Fail(pid)).processes; var process := s.processes[pid];
            && pid in after && after[pid].revision == process.revision
            && after[pid].pc == if process.pc == Finished || process.pc == Crashed then process.pc else Failed
  {
    hide SlotOk;
    assert ProcessIn(s, pid);
  }

  lemma ExecNothing(s: System)
    ensures Exec(s, []) == s
  {}

  predicate InSlot(s: System, pid: Pid) {
    pid in s.processes && s.processes[pid].revision in s.slots
  }

  /** The gateway at one moment. */
  datatype Moment = Moment(system: System, trace: seq<Action>, turns: seq<Turn>)

  // The effects happened, one after the other, to what the request sees; one that is not enabled is skipped.
  predicate Ran(pid: Pid, s: System, t: System, run: seq<Action>) {
    InSlot(s, pid) ==> InSlot(t, pid) && ViewIn(t, pid) == Solo(pid, run, ViewIn(s, pid))
  }

  // The run has gone on and the request has kept its revision.  With nothing in the way, exactly these
  // effects happened.
  predicate Went(pid: Pid, x: Moment, y: Moment, run: seq<Action>) {
    && x.trace <= y.trace && |y.turns| <= |x.turns|
    && (pid in x.system.processes ==>
          pid in y.system.processes && y.system.processes[pid].revision == x.system.processes[pid].revision)
    && (x.turns == [] ==> y.turns == [] && Ran(pid, x.system, y.system, run))
  }

  lemma WentNowhere(pid: Pid, x: Moment)
    ensures Went(pid, x, x, [])
  {
    hide Act, Exec, Step;
  }

  lemma WentOn(pid: Pid, x: Moment, y: Moment, z: Moment, first: seq<Action>, second: seq<Action>)
    requires Went(pid, x, y, first) && Went(pid, y, z, second)
    ensures Went(pid, x, z, first + second)
  {
    hide Solo;
    if InSlot(x.system, pid) {
      SoloConcat(pid, first, second, ViewIn(x.system, pid));
    }
  }

  // An effect a request comes to in its own program.
  predicate Program(a: Action) {
    && !a.Start? && !a.Fail? && !a.Crash? && !a.RefundMain? && !a.RefundSummary? && !a.ReleaseLease?
    && !a.LeaseExpires? && !a.TimeOut? && !a.Scrub?
  }

  predicate Skipped(pc: Pc, run: seq<Action>) {
    forall a :: a in run ==> Program(a) && !Enabled(pc, a)
  }

  lemma DisabledDoesNothing(pid: Pid, a: Action, v: View)
    requires Program(a) && !Enabled(v.process.pc, a)
    ensures Act(pid, a, v) == v
  {}

  lemma {:induction false} SkippedDoesNothing(pid: Pid, run: seq<Action>, v: View)
    requires Skipped(v.process.pc, run)
    ensures Solo(pid, run, v) == v
    decreases |run|
  {
    hide Act, Program, Enabled;
    if run != [] {
      DisabledDoesNothing(pid, run[0], v);
      SkippedDoesNothing(pid, run[1..], v);
    }
  }

  // Exactly this action was added to the run.
  predicate Applied(a: Action, x: Moment, y: Moment) {
    x.turns == [] && y.turns == [] && y.trace == x.trace + [a] && y.system == Step(x.system, a)
  }

  // Where a request comes to a point at which the rest is not enabled, it has run the rest, too.
  lemma WentSkipping(pid: Pid, x: Moment, y: Moment, first: seq<Action>, rest: seq<Action>)
    requires Went(pid, x, y, first) && pid in y.system.processes && Skipped(y.system.processes[pid].pc, rest)
    ensures Went(pid, x, y, first + rest)
  {
    hide Solo, Skipped;
    if InSlot(x.system, pid) {
      SoloConcat(pid, first, rest, ViewIn(x.system, pid));
      if InSlot(y.system, pid) { SkippedDoesNothing(pid, rest, ViewIn(y.system, pid)); }
    }
  }

  lemma WentRest(pid: Pid, x: Moment, y: Moment, run: seq<Action>, k: nat)
    requires k <= |run| && Went(pid, x, y, run[..k]) && pid in y.system.processes && Skipped(y.system.processes[pid].pc, run[k..])
    ensures Went(pid, x, y, run)
  {
    hide Went, Skipped;
    WentSkipping(pid, x, y, run[..k], run[k..]);
    assert run[..k] + run[k..] == run;
  }

  lemma WentNext(pid: Pid, x: Moment, y: Moment, z: Moment, run: seq<Action>, k: nat)
    requires k < |run| && Went(pid, x, y, run[..k]) && Went(pid, y, z, [run[k]])
    ensures Went(pid, x, z, run[..k + 1])
  {
    hide Went;
    WentOn(pid, x, y, z, run[..k], [run[k]]);
    assert run[..k] + [run[k]] == run[..k + 1];
  }

  // The effects of each part of the request path, in order; those that a state does not call for are skipped.
  function EntryRun(pid: Pid): seq<Action> {
    [Confirm(pid), MarkCommitted(pid), Begin(pid), Load(pid)]
  }

  function ChildRun(pid: Pid, result: SummaryResult): seq<Action> {
    [ReserveSummary(pid), MarkSummary(pid), ExecuteSummary(pid, result), SettleSummary(pid)]
  }

  function CommitRun(pid: Pid, firstAck: Ack, secondAck: Ack): seq<Action> {
    [Swap(pid, firstAck), Resolve(pid), Swap(pid, secondAck), Resolve(pid)]
  }

  function FlushRun(pid: Pid, script: Script): seq<Action> {
    CommitRun(pid, script.firstAck, script.secondAck) + FinishRun(pid)
  }

  function SettledRun(pid: Pid, script: Script): seq<Action> {
    (ChildRun(pid, script.summary) + [ReloadSummary(pid)]) + FlushRun(pid, script)
  }

  function DispatchRun(pid: Pid, upstream: Option<Response>, snapshot: int): seq<Action> {
    [MarkMain(pid), ExecuteMain(pid, upstream), SettleMain(pid, snapshot)]
  }

  function AttemptRun(pid: Pid, script: Script): seq<Action> {
    (([EnterAttempt(pid)] + DispatchRun(pid, script.upstream, script.snapshot)) + [ReloadMain(pid)]) + SettledRun(pid, script)
  }

  // From where the request was let in to the answer.
  function LetInRun(pid: Pid, script: Script, phase: Phase): seq<Action> {
    match phase
    case Committed => [WriteAnswer(pid)]
    case SettledPendingCommit => FlushRun(pid, script)
    case MainSettled => SettledRun(pid, script)
    case _ => [ReserveMain(pid)] + AttemptRun(pid, script)
  }

  lemma RunsAreProgram(pid: Pid, script: Script)
    ensures AllProgram(FinishRun(pid)) && AllProgram(FlushRun(pid, script)) && AllProgram(SettledRun(pid, script)) && AllProgram(AttemptRun(pid, script))
    ensures AllProgram([ReloadSummary(pid)]) && AllProgram([ReloadMain(pid)])
    ensures AllProgram(DispatchRun(pid, script.upstream, script.snapshot))
  {
    assert AllProgram(CommitRun(pid, script.firstAck, script.secondAck)) && AllProgram(ChildRun(pid, script.summary));
  }

  // The request's own effects in the order of its program.
  predicate Proper(pid: Pid, run: seq<Action>) {
    AllProgram(run) && AllOwn(pid, run) && run[..0] == [] && run[..|run|] == run
  }

  lemma EntryRunIs(pid: Pid)
    ensures var run := EntryRun(pid);
            && |run| == 4 && Proper(pid, run) && run[..0] == [] && run[..4] == run
            && run[0] == Confirm(pid) && run[1] == MarkCommitted(pid) && run[2] == Begin(pid) && run[3] == Load(pid)
            && Skipped(Failed, run[0..]) && Skipped(Answering, run[0..]) && Skipped(Answering, run[2..])
  {
    var run := EntryRun(pid);
    assert run[0..] == run && run[2..] == [Begin(pid), Load(pid)];
    assert AllProgram(run) && AllOwn(pid, run);
    hide AllProgram, AllOwn, Program, Own;
    EntrySkips(pid);
  }

  lemma EntrySkips(pid: Pid)
    ensures Skipped(Failed, EntryRun(pid)) && Skipped(Answering, EntryRun(pid)) && Skipped(Answering, [Begin(pid), Load(pid)])
  {}

  lemma ChildRunIs(pid: Pid, result: SummaryResult)
    ensures var run := ChildRun(pid, result);
            && |run| == 4 && Proper(pid, run) && run[..0] == [] && run[..4] == run
            && run[0] == ReserveSummary(pid) && run[1] == MarkSummary(pid) && run[2] == ExecuteSummary(pid, result) && run[3] == SettleSummary(pid)
  {}

  lemma CommitRunIs(pid: Pid, firstAck: Ack, secondAck: Ack)
    ensures var run := CommitRun(pid, firstAck, secondAck);
            && |run| == 4 && Proper(pid, run) && run[..0] == [] && run[..4] == run
            && run[0] == Swap(pid, firstAck) && run[1] == Resolve(pid) && run[2] == Swap(pid, secondAck) && run[3] == Resolve(pid)
            && Skipped(Marking, run[1..]) && Skipped(Marking, run[2..]) && Skipped(Marking, run[3..]) && Skipped(Marking, run[4..])
  {}

  lemma DispatchRunIs(pid: Pid, upstream: Option<Response>, snapshot: int)
    ensures var run := DispatchRun(pid, upstream, snapshot);
            && |run| == 3 && Proper(pid, run) && run[..0] == [] && run[..3] == run
            && run[0] == MarkMain(pid) && run[1] == ExecuteMain(pid, upstream) && run[2] == SettleMain(pid, snapshot)
            && Skipped(MainGate, run[2..])
  {}

  lemma FlushRunIs(pid: Pid, script: Script)
    ensures var run := FlushRun(pid, script);
            && run == CommitRun(pid, script.firstAck, script.secondAck) + FinishRun(pid)
            && |run| == 6 && Proper(pid, run) && AllProgram(FinishRun(pid))
            && run[..4] == CommitRun(pid, script.firstAck, script.secondAck) && run[..6] == run
            && run[4] == MarkCommitted(pid) && run[5] == WriteAnswer(pid)
  {
    RunsAreProgram(pid, script);
  }

  // An attempt that ends before the reload has nothing more to do.
  lemma AttemptEnds(pid: Pid, x: Moment, y: Moment, script: Script)
    requires pid in y.system.processes && (Stopped(y.system.processes[pid].pc) || y.system.processes[pid].pc == MainGate)
    requires Went(pid, x, y, [EnterAttempt(pid)] + DispatchRun(pid, script.upstream, script.snapshot))
    ensures Went(pid, x, y, AttemptRun(pid, script))
  {
    hide Went, DispatchRun, SettledRun, AllProgram, Skipped;
    RunsAreProgram(pid, script);
    GateSkips(pid, script);
    var before := [EnterAttempt(pid)] + DispatchRun(pid, script.upstream, script.snapshot);
    if y.system.processes[pid].pc != MainGate {
      StoppedSkips(y.system.processes[pid].pc, [ReloadMain(pid)]);
      StoppedSkips(y.system.processes[pid].pc, SettledRun(pid, script));
    }
    WentSkipping(pid, x, y, before, [ReloadMain(pid)]);
    WentSkipping(pid, x, y, before + [ReloadMain(pid)], SettledRun(pid, script));
  }

  // A request that begins has not marked anything on its way in.
  lemma SkipToBeginning(pid: Pid, x: Moment, y: Moment)
    requires pid in y.system.processes && y.system.processes[pid].pc == Beginning
    requires Went(pid, x, y, EntryRun(pid)[..0]) || Went(pid, x, y, EntryRun(pid)[..1])
    ensures Went(pid, x, y, EntryRun(pid)[..2])
  {
    hide Went;
    var run := EntryRun(pid)[..2];
    assert EntryRun(pid)[..0] == run[..0] && EntryRun(pid)[..1] == run[..1] && run[1..] == [MarkCommitted(pid)];
    if Went(pid, x, y, run[..0]) { WentRest(pid, x, y, run, 0); } else { WentRest(pid, x, y, run, 1); }
  }

  lemma WentRan(pid: Pid, x: Moment, y: Moment, run: seq<Action>)
    requires Went(pid, x, y, run) && x.turns == []
    ensures y.turns == [] && Ran(pid, x.system, y.system, run)
  {}

  lemma WentFacts(pid: Pid, x: Moment, y: Moment, run: seq<Action>)
    requires Went(pid, x, y, run) && pid in x.system.processes
    ensures x.trace <= y.trace && pid in y.system.processes
    ensures y.system.processes[pid].revision == x.system.processes[pid].revision
  {}

  // A failed attempt is back at the gate, where nothing of the rest of the attempt is enabled.
  lemma GateSkips(pid: Pid, script: Script)
    ensures Skipped(MainGate, [ReloadMain(pid)]) && Skipped(MainGate, SettledRun(pid, script))
  {
    assert Skipped(MainGate, [ReloadMain(pid)]) && Skipped(MainGate, [ReloadSummary(pid)]);
    assert Skipped(MainGate, CommitRun(pid, script.firstAck, script.secondAck)) && Skipped(MainGate, ChildRun(pid, script.summary));
    assert Skipped(MainGate, FinishRun(pid));
  }

  predicate AllProgram(run: seq<Action>) {
    forall a :: a in run ==> Program(a)
  }

  lemma StoppedSkips(pc: Pc, run: seq<Action>)
    requires Stopped(pc) && AllProgram(run)
    ensures Skipped(pc, run)
  {}

  // The others' actions of the turn, and then the effect or what its fault makes of it.
  predicate TookTurn(pid: Pid, a: Action, turn: Turn, trace: seq<Action>, trace': seq<Action>) {
    trace' == trace + OnlyForeign(pid, turn.others)
              + [match turn.fault case NoFault => a case EffectFails => Fail(pid) case ProcessDies => Crash(pid)]
  }

  lemma StepIsAct(s: System, pid: Pid, a: Action)
    requires Own(pid, a)
    ensures Ran(pid, s, Step(s, a), [a])
  {
    hide Act;
    if InSlot(s, pid) {
      ActKeepsRevision(pid, a, ViewIn(s, pid));
      SoloStep(pid, a, [], ViewIn(s, pid));
      assert [a] + [] == [a];
    }
  }

  // ----- an undisturbed request delivers -----

  lemma SoloFour(pid: Pid, run: seq<Action>, v: View)
    requires |run| == 4
    ensures Solo(pid, run, v) == Act(pid, run[3], Act(pid, run[2], Act(pid, run[1], Act(pid, run[0], v))))
  {
    hide Act, Solo;
    var v1 := Act(pid, run[0], v);
    var v2 := Act(pid, run[1], v1);
    var v3 := Act(pid, run[2], v2);
    SoloSplit(pid, run, v);
    SoloSplit(pid, run[1..], v1);
    assert run[1..][1..] == run[2..];
    SoloSplit(pid, run[2..], v2);
    assert run[2..][1..] == run[3..];
    SoloSplit(pid, run[3..], v3);
    assert run[3..][1..] == [];
    SoloEmpty(pid, Act(pid, run[3], v3));
  }

  // At most one of the two swaps fails to arrive; whichever replies get lost, the state is stored once.
  lemma CommitStage(pid: Pid, v0: View, v: View, firstAck: Ack, secondAck: Ack)
    requires Stage(pid, v0, v, Swapping(false), SettledPendingCommit) && LeasedTo(pid, v)
    requires firstAck != RequestLost || secondAck != RequestLost
    ensures var v' := Solo(pid, CommitRun(pid, firstAck, secondAck), v);
            Stage(pid, v0, v', Marking, SettledPendingCommit) && FactsOf(v') == WithStored(FactsOf(v)) && FactsOf(v).nextState.Some?
  {
    hide Act, Stage, LeasedTo, FactsOf, Solo, Enabled, WithStored;
    SoloFour(pid, CommitRun(pid, firstAck, secondAck), v);
    if firstAck != RequestLost {
      SwapOnce(pid, v0, v, false, firstAck);
      var w := Act(pid, Resolve(pid), Act(pid, Swap(pid, firstAck), v));
      StoredSkips(pid, v0, w, secondAck);
    } else {
      LostRequestStage(pid, v0, v);
      SwapOnce(pid, v0, Act(pid, Resolve(pid), Act(pid, Swap(pid, RequestLost), v)), true, secondAck);
    }
  }

  lemma SwapOnce(pid: Pid, v0: View, v: View, retried: bool, ack: Ack)
    requires Stage(pid, v0, v, Swapping(retried), SettledPendingCommit) && LeasedTo(pid, v) && ack != RequestLost
    ensures var v' := Act(pid, Resolve(pid), Act(pid, Swap(pid, ack), v));
            Stage(pid, v0, v', Marking, SettledPendingCommit) && FactsOf(v') == WithStored(FactsOf(v)) && FactsOf(v).nextState.Some?
  {
    hide Act, Stage, LeasedTo, FactsOf, WithStored;
    if ack == Acknowledged {
      SwapStage(pid, v0, v, retried);
      StageAgain(pid, v0, Act(pid, Swap(pid, ack), v), Marking, SettledPendingCommit);
      DisabledDoesNothing(pid, Resolve(pid), Act(pid, Swap(pid, ack), v));
    } else {
      LostReplyStage(pid, v0, v, retried);
    }
  }

  lemma StoredSkips(pid: Pid, v0: View, v: View, ack: Ack)
    requires Stage(pid, v0, v, Marking, SettledPendingCommit)
    ensures Act(pid, Resolve(pid), Act(pid, Swap(pid, ack), v)) == v
  {
    hide Act, Stage;
    StageAgain(pid, v0, v, Marking, SettledPendingCommit);
    DisabledDoesNothing(pid, Swap(pid, ack), v);
    DisabledDoesNothing(pid, Resolve(pid), v);
  }

  // What the outside world has to do for one request: a success of at most two mebibytes, a valid summary, and
  // one of the two swaps arriving.
  predicate Succeeds(script: Script) {
    && script.upstream.Some? && 200 <= script.upstream.value.status <= 299 && |script.upstream.value.body| <= 2097152
    && script.summary.ValidSummary?
    && (script.firstAck != RequestLost || script.secondAck != RequestLost)
  }

  lemma FlushDelivers(pid: Pid, v0: View, v: View, script: Script)
    requires Stage(pid, v0, v, Swapping(false), SettledPendingCommit) && LeasedTo(pid, v) && Succeeds(script)
    ensures var v' := Solo(pid, FlushRun(pid, script), v);
            Delivered(v0, v') && FactsOf(v') == WithStored(FactsOf(v)) && FactsOf(v).nextState.Some?
  {
    hide Act, Stage, LeasedTo, Delivered, FactsOf, Solo, CommitRun, FinishRun, WithStored;
    var commit := CommitRun(pid, script.firstAck, script.secondAck);
    CommitStage(pid, v0, v, script.firstAck, script.secondAck);
    FinishDelivers(pid, v0, Solo(pid, commit, v));
    SoloConcat(pid, commit, FinishRun(pid), v);
  }

  lemma SettledDelivers(pid: Pid, v0: View, v: View, script: Script)
    requires Stage(pid, v0, v, SummaryPreparing, MainSettled) && LeasedTo(pid, v) && v.slot.summaryBill != Refunded && Succeeds(script)
    ensures var v' := Solo(pid, SettledRun(pid, script), v);
            Delivered(v0, v') && FactsOf(v') == WithStored(WithSummary(FactsOf(v), v0.process.revision, script.summary.content))
            && FactsOf(v').nextState.Some?
  {
    hide Act, Stage, LeasedTo, Delivered, FactsOf, Solo, FlushRun;
    var content := script.summary.content;
    assert ChildRun(pid, script.summary) + [ReloadSummary(pid)] == SummaryRun(pid, content);
    SummarySettles(pid, v0, v, content);
    FlushDelivers(pid, v0, Solo(pid, SummaryRun(pid, content), v), script);
    SoloConcat(pid, SummaryRun(pid, content), FlushRun(pid, script), v);
  }

  lemma FreshDelivers(pid: Pid, v0: View, v: View, script: Script)
    requires Stage(pid, v0, v, MainPreparing, Intent) && LeasedTo(pid, v) && v.process.copy.phase == Intent && v.slot.mainBill != Refunded
    requires Succeeds(script)
    ensures var v' := Solo(pid, [ReserveMain(pid)] + AttemptRun(pid, script), v);
            && Delivered(v0, v') && FactsOf(v').nextState.Some?
            && FactsOf(v') == WithStored(WithSummary(WithMain(FactsOf(v), script.upstream.value, script.snapshot), v0.process.revision, script.summary.content))
  {
    hide Act, Stage, LeasedTo, Delivered, FactsOf, Solo, SettledRun;
    var response := script.upstream.value;
    var main := MainRun(pid, response, script.snapshot);
    assert ([EnterAttempt(pid)] + DispatchRun(pid, script.upstream, script.snapshot)) + [ReloadMain(pid)] == main;
    assert [ReserveMain(pid)] + (main + SettledRun(pid, script)) == ([ReserveMain(pid)] + main) + SettledRun(pid, script);
    MainSettles(pid, v0, v, response, script.snapshot);
    SettledDelivers(pid, v0, Solo(pid, [ReserveMain(pid)] + main, v), script);
    SoloConcat(pid, [ReserveMain(pid)] + main, SettledRun(pid, script), v);
  }

  // What a request needs to find: its outcome committed, or stored and only unmarked, or resumable with
  // nobody in the way and nothing refunded.
  predicate Ready(s: System, r: Revision)
    requires r in s.slots
  {
    || s.slots[r].row.phase == Committed
    || (s.slots[r].row.phase == SettledPendingCommit && s.conversation.revision == r + 1)
    || (Resumable(s.slots[r].row.phase) && Idle(s, r) && s.slots[r].mainBill != Refunded && s.slots[r].summaryBill != Refunded)
  }

  // Let in, and where.
  predicate Arrived(pid: Pid, v0: View, v: View) {
    && v.slot.mainBill == v0.slot.mainBill && v.slot.summaryBill == v0.slot.summaryBill && FactsOf(v) == FactsOf(v0)
    && match v.process.copy.phase
       case Intent => v0.slot.row.phase == Intent && Stage(pid, v0, v, MainPreparing, Intent) && LeasedTo(pid, v)
       case MainSettled => v0.slot.row.phase == MainSettled && Stage(pid, v0, v, SummaryPreparing, MainSettled) && LeasedTo(pid, v)
       case SettledPendingCommit =>
         v0.slot.row.phase == SettledPendingCommit && Stage(pid, v0, v, Swapping(false), SettledPendingCommit) && LeasedTo(pid, v)
       case Committed => Stage(pid, v0, v, Answering, Committed) && v.conversation == v0.conversation
       case _ => false
  }

  // Whether the request still has to store the next revision.
  predicate StillToStore(s: System, r: Revision)
    requires r in s.slots
  {
    s.slots[r].row.phase != Committed && s.conversation.revision == r
  }

  lemma OpenedArrives(pid: Pid, v0: View)
    requires ViewOk(pid, v0) && v0.process.pc == Beginning && !v0.slot.row.timedOut && v0.process.copy == v0.slot.row
    requires Resumable(v0.slot.row.phase) && v0.conversation.lease.None? && v0.conversation.revision == v0.process.revision
    ensures Arrived(pid, v0, Opened(pid, v0)) && Opened(pid, v0).process.copy == v0.process.copy
  {
    hide Act, Stage, LeasedTo, FactsOf, ViewOk;
    BeginStage(pid, v0);
  }

  lemma EntrySolo(pid: Pid, v: View)
    ensures Solo(pid, EntryRun(pid), v) == Opened(pid, Act(pid, MarkCommitted(pid), Act(pid, Confirm(pid), v)))
  {
    hide Act, Solo;
    SoloFour(pid, EntryRun(pid), v);
  }

  lemma BeginningArrives(pid: Pid, v0: View)
    requires ViewOk(pid, v0) && v0.process.pc == Beginning && !v0.slot.row.timedOut && v0.process.copy == v0.slot.row
    requires Resumable(v0.slot.row.phase) && v0.conversation.lease.None? && v0.conversation.revision == v0.process.revision
    ensures Arrived(pid, v0, Solo(pid, EntryRun(pid), v0)) && Solo(pid, EntryRun(pid), v0).process.copy == v0.process.copy
  {
    hide Act, Arrived, ViewOk, Solo;
    DisabledDoesNothing(pid, Confirm(pid), v0);
    DisabledDoesNothing(pid, MarkCommitted(pid), v0);
    EntrySolo(pid, v0);
    OpenedArrives(pid, v0);
  }

  // The conversation is still at the revision: the request begins as for any other phase.
  lemma ConfirmingArrives(pid: Pid, v0: View)
    requires ViewOk(pid, v0) && v0.process.pc == Confirming && !v0.slot.row.timedOut && v0.process.copy == v0.slot.row
    requires v0.slot.row.phase == SettledPendingCommit && v0.conversation.lease.None? && v0.conversation.revision == v0.process.revision
    ensures Arrived(pid, v0, Solo(pid, EntryRun(pid), v0)) && Solo(pid, EntryRun(pid), v0).process.copy == v0.process.copy
  {
    hide Act, ViewOk, Solo, FactsOf, LeasedTo, Stage;
    ConfirmStage(pid, v0);
    var v1 := Act(pid, Confirm(pid), v0);
    DisabledDoesNothing(pid, MarkCommitted(pid), v1);
    EntrySolo(pid, v0);
    OpenedArrives(pid, v1);
    StageFromSame(pid, v0, v1, Opened(pid, v1));
  }

  lemma StageFromSame(pid: Pid, v0: View, v1: View, v: View)
    requires v1 == Goto(v0, Beginning)
    ensures forall pc, phase :: Stage(pid, v1, v, pc, phase) ==> Stage(pid, v0, v, pc, phase)
    ensures FactsOf(v1) == FactsOf(v0)
  {
    hide ViewOk, SafeContentType, Frozen, Storable;
  }

  // The next state is stored already: the request marks it and goes on to the answer.
  lemma StoredArrives(pid: Pid, v0: View)
    requires ViewOk(pid, v0) && v0.process.pc == Confirming && !v0.slot.row.timedOut && v0.process.copy == v0.slot.row
    requires v0.slot.row.phase == SettledPendingCommit && v0.conversation.revision == v0.process.revision + 1
    ensures Arrived(pid, v0, Solo(pid, EntryRun(pid), v0)) && Solo(pid, EntryRun(pid), v0).process.copy.phase == Committed
  {
    hide Act, ViewOk, Solo, FactsOf, LeasedTo, Stage;
    ConfirmStage(pid, v0);
    var v1 := Act(pid, Confirm(pid), v0);
    MarkStage(pid, v0, v1);
    StageAgain(pid, v0, v1, Marking, SettledPendingCommit);
    MarkCopies(pid, v1);
    var v2 := Act(pid, MarkCommitted(pid), v1);
    ConfirmKeepsSlot(pid, v0);
    StageAgain(pid, v0, v2, Answering, Committed);
    EntrySolo(pid, v0);
    DisabledDoesNothing(pid, Begin(pid), v2);
    DisabledDoesNothing(pid, Load(pid), v2);
  }

  lemma ConfirmKeepsSlot(pid: Pid, v: View)
    ensures Act(pid, Confirm(pid), v).slot == v.slot
  {
    hide SafeContentType, Frozen, Storable;
  }

  lemma MarkCopies(pid: Pid, v: View)
    requires v.process.pc == Marking
    ensures var v' := Act(pid, MarkCommitted(pid), v);
            && v'.slot.mainBill == v.slot.mainBill && v'.slot.summaryBill == v.slot.summaryBill
            && (v'.process.pc == Answering ==> v'.process.copy.phase == Committed)
  {
    hide SafeContentType, Frozen, Storable;
  }

  // A committed outcome is replayed at once.
  lemma AnsweringArrives(pid: Pid, v0: View)
    requires ViewOk(pid, v0) && v0.process.pc == Answering && v0.slot.row.phase == Committed && !v0.slot.row.timedOut
    requires v0.process.copy == v0.slot.row
    ensures Arrived(pid, v0, Solo(pid, EntryRun(pid), v0)) && Solo(pid, EntryRun(pid), v0) == v0
  {
    hide Act, ViewOk, Solo, FactsOf;
    EntrySkips(pid);
    SkippedDoesNothing(pid, EntryRun(pid), v0);
  }

  lemma RequestArrives(s: System, pid: Pid, r: Revision)
    requires FreshRetry(s, pid, r) && Ready(s, r)
    ensures var v0 := Entered(s, pid, r); var v := Solo(pid, EntryRun(pid), v0);
            && Arrived(pid, v0, v)
            && v.process.copy.phase == if StillToStore(s, r) then s.slots[r].row.phase else Committed
  {
    hide Act, ViewOk, Solo, Arrived, Inv;
    var v0 := Entered(s, pid, r);
    StartEnters(s, pid, r);
    EnteredPc(s, pid, r);
    if s.slots[r].row.phase == Committed {
      AnsweringArrives(pid, v0);
    } else if s.conversation.revision == r + 1 {
      StoredArrives(pid, v0);
    } else if s.slots[r].row.phase == SettledPendingCommit {
      ConfirmingArrives(pid, v0);
    } else {
      BeginningArrives(pid, v0);
    }
  }

  // From where it was let in, a request whose calls succeed delivers what they brought.
  lemma ArrivedDelivers(pid: Pid, v0: View, v: View, script: Script)
    requires Arrived(pid, v0, v) && Succeeds(script)
    requires v.process.copy.phase == Intent ==> v0.slot.mainBill != Refunded
    requires v.process.copy.phase == MainSettled ==> v0.slot.summaryBill != Refunded
    ensures var phase := v.process.copy.phase; var w := Solo(pid, LetInRun(pid, script, phase), v);
            && Delivered(v0, w)
            && FactsOf(w) == if phase == Committed then FactsOf(v0)
                             else Brought(FactsOf(v0), phase, v0.process.revision, script.upstream.value, script.snapshot, script.summary.content)
  {
    hide Act, Stage, LeasedTo, Delivered, FactsOf, Solo, SettledRun, FlushRun, AttemptRun, WithStored, WithMain, WithSummary;
    match v.process.copy.phase
    case Intent => FreshDelivers(pid, v0, v, script);
    case MainSettled => SettledDelivers(pid, v0, v, script);
    case SettledPendingCommit => FlushDelivers(pid, v0, v, script);
    case Committed =>
      AnswerStage(pid, v0, v);
      SoloStep(pid, WriteAnswer(pid), [], v);
      SoloEmpty(pid, Act(pid, WriteAnswer(pid), v));
      assert [WriteAnswer(pid)] + [] == [WriteAnswer(pid)];
  }

  // An undisturbed request whose calls succeed delivers, from whichever phase it finds.
  lemma RequestGoes(s: System, pid: Pid, r: Revision, script: Script)
    requires FreshRetry(s, pid, r) && Ready(s, r) && Succeeds(script)
    ensures var v0 := Entered(s, pid, r); var v := Solo(pid, EntryRun(pid), v0);
            var w := Solo(pid, LetInRun(pid, script, v.process.copy.phase), v);
            && Delivered(v0, w)
            && FactsOf(w) == if !StillToStore(s, r) then FactsOf(v0)
                             else Brought(FactsOf(v0), s.slots[r].row.phase, r, script.upstream.value, script.snapshot, script.summary.content)
  {
    hide Act, Solo, Arrived, Inv, Delivered, FactsOf, Brought, LetInRun, Succeeds;
    RequestArrives(s, pid, r);
    EnteredPc(s, pid, r);
    var v0 := Entered(s, pid, r);
    ArrivedDelivers(pid, v0, Solo(pid, EntryRun(pid), v0), script);
  }

  // ----- a request for a new outcome finds the one it has made -----

  function WithSlot(s: System, r: Revision, key: Key): System {
    if r in s.slots then s else s.(slots := s.slots[r := NewSlot(key)])
  }

  // The request is not turned away, and what it finds is ready for it.
  predicate Undisturbed(s: System, r: Revision, key: Key) {
    && r < 9223372036854775807
    && (forall q :: q in s.slots ==> (q == r <==> s.slots[q].row.key == key))
    && (r in s.slots ==> !s.slots[r].row.timedOut)
    && Ready(WithSlot(s, r, key), r)
  }

  lemma StartFindsSlot(s: System, pid: Pid, r: Revision, key: Key)
    requires Inv(s) && pid !in s.processes && Undisturbed(s, r, key)
    ensures var s1 := WithSlot(s, r, key);
            && FreshRetry(s1, pid, r) && s1.slots[r].row.key == key
            && Step(s, Start(pid, r, key)) == Lift(s1, pid, r, Entered(s1, pid, r))
  {
    hide SlotOk, ProcessOk, Ready;
    if r !in s.slots {
      AddSlotKeepsInv(s, r, key);
    }
    var s1 := WithSlot(s, r, key);
    StartEnters(s1, pid, r);
    assert Step(s, Start(pid, r, key)).slots == Step(s1, Start(pid, r, key)).slots;
  }

  // The run from s to t has answered once more: the outcome is committed, the answer carries the response that
  // is stored, which is the one just returned if the outcome was fresh, and what the calls brought is stored.
  ghost predicate AnsweredWith(s: System, t: System, r: Revision, key: Key, script: Script)
    requires Succeeds(script)
  {
    var before := WithSlot(s, r, key);
    && r in t.slots && t.slots[r].row.phase == Committed && t.slots[r].history.buffered.Some?
    && var old_, new_, response := before.slots[r].history.answers, t.slots[r].history.answers, t.slots[r].history.buffered.value;
    && |new_| == |old_| + 1 && new_[..|old_|] == old_ && Carries(new_[|old_|], response, r + 1)
    && r < t.conversation.revision
    && (if StillToStore(before, r)
        then Brings(before, t, r, script.upstream.value, script.snapshot, script.summary.content)
        else t.conversation.log == s.conversation.log && t.slots[r].history.buffered == before.slots[r].history.buffered)
  }

  // On its way in such a request is not stopped.
  lemma GetsIn(s: System, t: System, pid: Pid, r: Revision, key: Key)
    requires Inv(s) && pid !in s.processes && Undisturbed(s, r, key)
    requires Ran(pid, Step(s, Start(pid, r, key)), t, EntryRun(pid))
    ensures InSlot(t, pid) && !Stopped(t.processes[pid].pc)
    ensures ViewIn(t, pid) == Solo(pid, EntryRun(pid), Entered(WithSlot(s, r, key), pid, r))
  {
    hide Act, Solo, Inv, Undisturbed, ViewOk, EntryRun, DoStart;
    StartFindsSlot(s, pid, r, key);
    var s1 := WithSlot(s, r, key);
    EnteredPc(s1, pid, r);
    assert ViewIn(Step(s, Start(pid, r, key)), pid) == Entered(s1, pid, r);
    assert Ready(s1, r) by { IsReady(s, r, key); }
    RequestArrives(s1, pid, r);
    ArrivedRuns(pid, Entered(s1, pid, r), ViewIn(t, pid));
  }

  lemma IsReady(s: System, r: Revision, key: Key)
    requires Undisturbed(s, r, key)
    ensures r in WithSlot(s, r, key).slots && Ready(WithSlot(s, r, key), r)
  {}

  lemma ArrivedRuns(pid: Pid, v0: View, v: View)
    requires Arrived(pid, v0, v)
    ensures !Stopped(v.process.pc)
  {
    hide ViewOk, FactsOf;
  }

  lemma DeliveredIsAnswered(s: System, t: System, pid: Pid, r: Revision, key: Key, script: Script)
    requires Inv(s) && pid !in s.processes && Undisturbed(s, r, key) && Succeeds(script)
    requires Inv(t) && InSlot(t, pid) && t.processes[pid].revision == r
    requires var v := Solo(pid, EntryRun(pid), Entered(WithSlot(s, r, key), pid, r));
             ViewIn(t, pid) == Solo(pid, LetInRun(pid, script, v.process.copy.phase), v)
    ensures t.processes[pid].pc == Finished && AnsweredWith(s, t, r, key, script)
  {
    hide Act, Solo, Inv, Undisturbed, Ready, ViewOk, EntryRun, LetInRun, SafeContentType, FreshRetry, Brought, FactsOf, Brings, Carries, Frozen, AnswerOf;
    StartFindsSlot(s, pid, r, key);
    IsReady(s, r, key);
    var s1 := WithSlot(s, r, key);
    EnteredPc(s1, pid, r);
    RequestGoes(s1, pid, r, script);
    var v0, w := Entered(s1, pid, r), ViewIn(t, pid);
    CommittedIsStored(t, r);
    AnswerCarries(w.slot.history.buffered.value, r + 1);
    if StillToStore(s1, r) {
      BroughtBrings(s1, pid, r, w, script.upstream.value, script.snapshot, script.summary.content);
      SameBrings(s1, Lift(s1, pid, r, w), t, r, script.upstream.value, script.snapshot, script.summary.content);
    } else {
      SameFacts(w, v0);
    }
  }

  lemma SameBrings(s: System, t: System, t': System, r: Revision, response: Response, snapshot: int, content: int)
    requires Brings(s, t, r, response, snapshot, content) && r in t'.slots && t'.slots[r] == t.slots[r] && t'.conversation == t.conversation
    ensures Brings(s, t', r, response, snapshot, content)
  {}

  lemma SameFacts(w: View, v0: View)
    requires FactsOf(w) == FactsOf(v0)
    ensures w.conversation.log == v0.conversation.log && w.slot.history.buffered == v0.slot.history.buffered
  {}

  lemma AnswerCarries(response: Response, revision: nat)
    ensures Carries(AnswerOf(Frozen(response), revision), response, revision)
  {
    hide SafeContentType;
    ContentTypeIff(response.contentType);
  }

  // Clean-up after success: only the lease goes.
  lemma ReleaseOnly(s: System, pid: Pid)
    requires IsFinished(s, pid)
    ensures var t := Step(s, ReleaseLease(pid));
            && IsFinished(t, pid) && t.processes[pid].revision == s.processes[pid].revision && t.slots == s.slots
            && t.conversation == s.conversation.(lease := t.conversation.lease)
            && t.conversation.lease != Some(Lease(pid, t.processes[pid].fence))
  {
    var v := ViewIn(s, pid);
    assert Act(pid, ReleaseLease(pid), v).slot == v.slot;
  }

  predicate IsFinished(s: System, pid: Pid) {
    InSlot(s, pid) && s.processes[pid].pc == Finished
  }

  // What an answer says does not depend on who holds the lease.
  lemma AnsweredAfterRelease(s: System, t: System, t': System, r: Revision, key: Key, script: Script)
    requires Succeeds(script) && AnsweredWith(s, t, r, key, script)
    requires t'.slots == t.slots && t'.conversation.log == t.conversation.log && t'.conversation.revision == t.conversation.revision
    ensures AnsweredWith(s, t', r, key, script)
  {
    hide Carries, Ready;
  }
}
