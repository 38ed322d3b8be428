// The request path in the source's own form: ordered effects with early
// returns.  Between any two effects other requests, lease expiry and timeouts
// may act, and every effect may fail or the process may die at it.  What the
// methods promise is that they are runs of the protocol, so everything proved
// about runs holds of them, and that success means a delivered answer.

module ManagedRelay {
  import opened Options
  import opened OutcomeStore
  import opened OutcomeProtocol
  import opened OutcomeInvariant
  import opened OutcomeSafety
  import opened OutcomeTheorems
  import opened OutcomeRecovery
  import opened OutcomeRetry
  import opened OutcomeFencing
  import opened OutcomeProvenance
  import opened OutcomeCleanUp
  import opened ManagedRuns

  class Gateway {
    var system: System
    var turns: seq<Turn>
    var maximumRetryTimes: nat
    ghost var trace: seq<Action>

    ghost predicate Valid()
      reads this
    {
      system == Exec(Initial, trace)
    }

    constructor (turns: seq<Turn>)
      ensures Valid() && system == Initial
    {
      this.turns := turns;
      system := Initial;
      maximumRetryTimes := 0;
      trace := [];
    }

    function PcOf(pid: Pid): Pc
      requires pid in system.processes
      reads this
    {
      system.processes[pid].pc
    }

    // One more action of the run.
    method Apply(a: Action)
      requires Valid()
      modifies this`system, this`trace
      ensures Valid() && system == Step(old(system), a) && trace == old(trace) + [a]
    {
      ExecConcat(Initial, trace, [a]);
      assert Exec(system, [a]) == Exec(Step(system, a), []);
      system := Step(system, a);
      trace := trace + [a];
    }

    method NextTurn() returns (turn: Turn)
      modifies this`turns
      ensures |turns| <= |old(turns)| && (turn != QuietTurn ==> |turns| < |old(turns)|)
      ensures if old(turns) == [] then turn == QuietTurn && turns == [] else turn == old(turns)[0] && turns == old(turns)[1..]
    {
      if turns == [] {
        turn := QuietTurn;
      } else {
        turn := turns[0];
        turns := turns[1..];
      }
    }

    // Others act: any actions of other requests, lease expiry and timeouts.
    method LetOthersAct(pid: Pid, actions: seq<Action>)
      requires Valid() && pid in system.processes
      modifies this`system, this`trace
      ensures Valid() && old(trace) <= trace
      ensures trace == old(trace) + OnlyForeign(pid, actions) && system == Exec(old(system), OnlyForeign(pid, actions))
      ensures pid in system.processes && system.processes[pid] == old(system.processes[pid])
    {
      hide Step, Inv;
      var others := OnlyForeign(pid, actions);
      ExecConcat(Initial, trace, others);
      ForeignLeaves(system, pid, others);
      system := Exec(system, others);
      trace := trace + others;
    }

    lemma EffectOf(pid: Pid, a: Action, chosen: Action)
      requires Inv(system) && Own(pid, a) && pid in system.processes && Enabled(PcOf(pid), a)
      requires chosen == a || chosen == Fail(pid) || chosen == Crash(pid)
      ensures var after := Step(system, chosen).processes;
              && pid in after && after[pid].revision == system.processes[pid].revision
              && (Stopped(after[pid].pc) || (chosen == a && Follows(system.processes[pid], a, after[pid])))
    {
      hide Act, SlotOk, ProcessOk, Follows;
      var process := system.processes[pid];
      assert ProcessIn(system, pid);
      var v := View(process, system.slots[process.revision], system.conversation);
      if chosen == a {
        ActFollows(pid, a, v);
      } else {
        StopStops(pid, chosen, v);
      }
    }

    ghost function Now(): Moment
      reads this
    {
      Moment(system, trace, turns)
    }

    // What is planned for the next effect.
    ghost function Planned(): Turn
      reads this
    {
      if turns == [] then QuietTurn else turns[0]
    }

    // Others act, then one effect of this request happens, fails, or is where the process dies.
    // With nothing in the way the effect itself happens, and nothing else.
    method Perform(pid: Pid, a: Action) returns (ok: bool)
      requires Valid() && Own(pid, a) && pid in system.processes && Enabled(PcOf(pid), a)
      modifies this`system, this`trace, this`turns
      ensures Valid() && pid in system.processes && Went(pid, old(Now()), Now(), [a])
      ensures ok <==> !Stopped(PcOf(pid))
      ensures ok ==> Follows(old(system.processes[pid]), a, system.processes[pid])
      ensures TookTurn(pid, a, old(Planned()), old(trace), trace)
      ensures old(turns) == [] ==> Applied(a, old(Now()), Now())
    {
      hide Step, Inv, Follows, Exec, Act, Ran, OnlyForeign, Own, Enabled;
      ghost var start, quiet := Now(), turns == [];
      var turn := NextTurn();
      LetOthersAct(pid, turn.others);
      RunKeepsInv(trace);
      if quiet {
        ExecNothing(start.system);
        StepIsAct(start.system, pid, a);
      }
      var chosen := match turn.fault case NoFault => a case EffectFails => Fail(pid) case ProcessDies => Crash(pid);
      EffectOf(pid, a, chosen);
      Apply(chosen);
      ok := system.processes[pid].pc != Failed && system.processes[pid].pc != Crashed;
    }

    predicate At(pid: Pid, pc: Pc)
      reads this
    {
      pid in system.processes && PcOf(pid) == pc
    }

    predicate HasStopped(pid: Pid)
      reads this
    {
      pid in system.processes && Stopped(PcOf(pid))
    }

    // The next effect of a run.
    method Next(pid: Pid, a: Action, ghost x: Moment, ghost run: seq<Action>, ghost k: nat) returns (ok: bool)
      requires Valid() && pid in system.processes && Enabled(PcOf(pid), a)
      requires k < |run| && run[k] == a && Proper(pid, run) && Went(pid, x, Now(), run[..k])
      modifies this`system, this`trace, this`turns
      ensures Valid() && pid in system.processes && Went(pid, x, Now(), run[..k + 1])
      ensures ok ==> !Stopped(PcOf(pid)) && Follows(old(system.processes[pid]), a, system.processes[pid])
      ensures !ok ==> HasStopped(pid) && Went(pid, x, Now(), run)
    {
      hide Step, Exec, Act, Went, TookTurn, Applied, Follows, Own, Enabled, Program;
      assert a in run;
      ghost var y := Now();
      ok := Perform(pid, a);
      WentNext(pid, x, y, Now(), run, k);
      if !ok {
        StoppedSkips(PcOf(pid), run[k + 1..]);
        WentRest(pid, x, Now(), run, k + 1);
      }
    }

    // Take the lease, then read the revision under it.
    method BeginManagedConsensusSession(pid: Pid, ghost x: Moment) returns (ok: bool)
      requires Valid() && At(pid, Beginning) && Resumable(system.processes[pid].copy.phase)
      requires Went(pid, x, Now(), EntryRun(pid)[..2])
      modifies this`system, this`trace, this`turns
      ensures Valid() && Went(pid, x, Now(), EntryRun(pid))
      ensures if ok then pid in system.processes && LetIn(system.processes[pid]) else HasStopped(pid)
    {
      hide Step, Act, Exec, Went, Proper, Skipped, EntryRun;
      ghost var run := EntryRun(pid);
      EntryRunIs(pid);
      ok := Next(pid, Begin(pid), x, run, 2);
      if !ok { return; }
      ok := Next(pid, Load(pid), x, run, 3);
    }

    // Entry: reserve the outcome, heal a stored but unmarked commit, otherwise take the lease.
    method PrepareManagedConsensusRequest(pid: Pid, revision: Revision, key: Key) returns (ok: bool)
      requires Valid() && pid !in system.processes
      modifies this`system, this`trace, this`turns
      ensures Valid() && old(trace) < trace
      ensures pid in system.processes && system.processes[pid].revision == revision
      ensures if ok then LetIn(system.processes[pid]) else HasStopped(pid)
      ensures var start := Start(pid, revision, key);
              Went(pid, Moment(Step(old(system), start), old(trace) + [start], old(turns)), Now(), EntryRun(pid))
    {
      hide Act, Exec, Went;
      StartFollows(system, pid, revision, key);
      Apply(Start(pid, revision, key));
      ghost var x, run := Now(), EntryRun(pid);
      WentNowhere(pid, x);
      ok := EnterManagedConsensusRequest(pid);
      WentFacts(pid, x, Now(), run);
    }

    // ... once the outcome is reserved.
    method EnterManagedConsensusRequest(pid: Pid) returns (ok: bool)
      requires Valid() && pid in system.processes
      requires var process := system.processes[pid];
               || process.pc == Failed
               || (process.pc == Answering && process.copy.phase == Committed)
               || (process.pc == Confirming && process.copy.phase == SettledPendingCommit)
               || (process.pc == Beginning && (process.copy.phase == Intent || process.copy.phase == MainSettled))
      modifies this`system, this`trace, this`turns
      ensures Valid() && pid in system.processes && Went(pid, old(Now()), Now(), EntryRun(pid))
      ensures if ok then LetIn(system.processes[pid]) else HasStopped(pid)
    {
      hide Step, Act, Exec, Went, Proper, Skipped, EntryRun;
      ghost var x, run := Now(), EntryRun(pid);
      WentNowhere(pid, x);
      EntryRunIs(pid);
      if PcOf(pid) == Failed {
        WentRest(pid, x, x, run, 0);
        return false;
      }
      if PcOf(pid) == Answering {
        WentRest(pid, x, x, run, 0);
        return true;
      }
      if PcOf(pid) == Confirming {
        ok := Next(pid, Confirm(pid), x, run, 0);
        if !ok { return; }
        if PcOf(pid) == Marking {
          ok := Next(pid, MarkCommitted(pid), x, run, 1);
          if ok { WentRest(pid, x, Now(), run, 2); }
          return;
        }
      }
      SkipToBeginning(pid, x, Now());
      ok := BeginManagedConsensusSession(pid, x);
    }

    // The one summary call: reserve, mark, dispatch, settle with the checkpoint.
    method ExecuteSummaryChild(pid: Pid, result: SummaryResult) returns (ok: bool)
      requires Valid() && At(pid, SummaryPreparing)
      modifies this`system, this`trace, this`turns
      ensures Valid() && Went(pid, old(Now()), Now(), ChildRun(pid, result))
      ensures if ok then At(pid, SummaryReloading) else HasStopped(pid)
    {
      hide Step, Act, Exec, Went, Proper, ChildRun;
      ghost var x, run := Now(), ChildRun(pid, result);
      WentNowhere(pid, x);
      ChildRunIs(pid, result);
      ok := Next(pid, ReserveSummary(pid), x, run, 0);
      if !ok { return; }
      ok := Next(pid, MarkSummary(pid), x, run, 1);
      if !ok { return; }
      ok := Next(pid, ExecuteSummary(pid, result), x, run, 2);
      if !ok { return; }
      ok := Next(pid, SettleSummary(pid), x, run, 3);
    }

    // One attempt to store the next revision; an unclear reply is resolved by reading.
    method StoreOnce(pid: Pid, ack: Ack, retried: bool, ghost x: Moment, ghost run: seq<Action>, ghost k: nat) returns (ok: bool)
      requires Valid() && At(pid, Swapping(retried))
      requires k + 1 < |run| && run[k] == Swap(pid, ack) && run[k + 1] == Resolve(pid)
      requires Proper(pid, run) && Went(pid, x, Now(), run[..k])
      requires Skipped(Marking, run[k + 1..]) && Skipped(Marking, run[k + 2..])
      modifies this`system, this`trace, this`turns
      ensures Valid()
      ensures if !ok then HasStopped(pid) && Went(pid, x, Now(), run)
              else if At(pid, Marking) then Went(pid, x, Now(), run)
              else !retried && At(pid, Swapping(true)) && Went(pid, x, Now(), run[..k + 2])
    {
      hide Step, Act, Exec, Went, Proper, Skipped;
      ok := Next(pid, Swap(pid, ack), x, run, k);
      if !ok { return; }
      if PcOf(pid) == Marking { WentRest(pid, x, Now(), run, k + 1); return; }
      ok := Next(pid, Resolve(pid), x, run, k + 1);
      if ok && PcOf(pid) == Marking { WentRest(pid, x, Now(), run, k + 2); }
    }

    // At most two attempts.
    method CommitWithRecovery(pid: Pid, firstAck: Ack, secondAck: Ack) returns (ok: bool)
      requires Valid() && At(pid, Swapping(false))
      modifies this`system, this`trace, this`turns
      ensures Valid() && Went(pid, old(Now()), Now(), CommitRun(pid, firstAck, secondAck))
      ensures if ok then At(pid, Marking) else HasStopped(pid)
    {
      hide Step, Act, Exec, Went, Proper, Skipped, CommitRun;
      ghost var x, run := Now(), CommitRun(pid, firstAck, secondAck);
      WentNowhere(pid, x);
      CommitRunIs(pid, firstAck, secondAck);
      ok := StoreOnce(pid, firstAck, false, x, run, 0);
      if !ok || PcOf(pid) == Marking { return; }
      ok := StoreOnce(pid, secondAck, true, x, run, 2);
    }

    method CommitAndFlushManagedRevision(pid: Pid, script: Script) returns (ok: bool)
      requires Valid() && At(pid, Swapping(false))
      modifies this`system, this`trace, this`turns
      ensures Valid() && Went(pid, old(Now()), Now(), FlushRun(pid, script))
      ensures if ok then At(pid, Finished) else HasStopped(pid)
    {
      hide Step, Act, Exec, Went, Proper, AllProgram, Skipped, CommitRun, FinishRun, FlushRun;
      ghost var x, run, commit, finish := Now(), FlushRun(pid, script), CommitRun(pid, script.firstAck, script.secondAck), FinishRun(pid);
      FlushRunIs(pid, script);
      ok := CommitWithRecovery(pid, script.firstAck, script.secondAck);
      if !ok { StoppedSkips(PcOf(pid), finish); WentSkipping(pid, x, Now(), commit, finish); return; }
      ok := Next(pid, MarkCommitted(pid), x, run, 4);
      if !ok { return; }
      ok := Next(pid, WriteAnswer(pid), x, run, 5);
    }

    // What both paths do once the main call is settled.
    method SummarizeAndCommit(pid: Pid, script: Script) returns (ok: bool)
      requires Valid() && At(pid, SummaryPreparing)
      modifies this`system, this`trace, this`turns
      ensures Valid() && Went(pid, old(Now()), Now(), SettledRun(pid, script))
      ensures if ok then At(pid, Finished) else HasStopped(pid)
    {
      hide Step, Act, Exec, Went, AllProgram, Skipped, ChildRun, FlushRun;
      ghost var x, child, reload, flush := Now(), ChildRun(pid, script.summary), [ReloadSummary(pid)], FlushRun(pid, script);
      RunsAreProgram(pid, script);
      ok := ExecuteSummaryChild(pid, script.summary);
      ghost var y := Now();
      if !ok { StoppedSkips(PcOf(pid), reload); WentSkipping(pid, x, y, child, reload); }
      else { ok := Perform(pid, ReloadSummary(pid)); WentOn(pid, x, y, Now(), child, reload); }
      y := Now();
      if !ok { StoppedSkips(PcOf(pid), flush); WentSkipping(pid, x, y, child + reload, flush); return; }
      ok := CommitAndFlushManagedRevision(pid, script);
      WentOn(pid, x, y, Now(), child + reload, flush);
    }

    // Dispatch, buffer, validate, checkpoint and settle the main call.
    method ExecuteManagedPreparedTextAttempt(pid: Pid, upstream: Option<Response>, snapshot: int) returns (error: Option<RelayError>)
      requires Valid() && At(pid, MainMarking)
      modifies this`system, this`trace, this`turns
      ensures Valid() && Went(pid, old(Now()), Now(), DispatchRun(pid, upstream, snapshot))
      ensures match error
              case None => At(pid, MainReloading) && upstream.Some?
              case Some(UpstreamFailure) => At(pid, MainGate) && system.processes[pid].copy.phase == MainDispatched && upstream.None?
              case Some(ManagedError) => HasStopped(pid)
    {
      hide Step, Act, Exec, Went, Proper, Skipped, DispatchRun;
      ghost var x, run := Now(), DispatchRun(pid, upstream, snapshot);
      WentNowhere(pid, x);
      DispatchRunIs(pid, upstream, snapshot);
      var ok := Next(pid, MarkMain(pid), x, run, 0);
      if !ok { return Some(ManagedError); }
      ok := Next(pid, ExecuteMain(pid, upstream), x, run, 1);
      if !ok { return Some(ManagedError); }
      if PcOf(pid) == MainGate { WentRest(pid, x, Now(), run, 2); return Some(UpstreamFailure); }
      ok := Next(pid, SettleMain(pid, snapshot), x, run, 2);
      return if ok then None else Some(ManagedError);
    }

    // The forward path of one attempt.
    method ExecuteManagedContextAttempt(pid: Pid, script: Script) returns (error: Option<RelayError>)
      requires Valid() && At(pid, MainGate)
      modifies this`system, this`trace, this`turns
      ensures Valid() && Went(pid, old(Now()), Now(), AttemptRun(pid, script))
      ensures match error
              case None => At(pid, Finished) && script.upstream.Some? && old(system.processes[pid].copy.phase) == Intent
              case Some(UpstreamFailure) =>
                && At(pid, MainGate) && system.processes[pid].copy.phase == MainDispatched && old(system.processes[pid].copy.phase) == Intent
                && script.upstream.None?
              case Some(ManagedError) => HasStopped(pid)
    {
      hide Step, Act, Exec, Went, AllProgram, Skipped, DispatchRun, SettledRun;
      ghost var x, enter, dispatch, reload, settled :=
        Now(), [EnterAttempt(pid)], DispatchRun(pid, script.upstream, script.snapshot), [ReloadMain(pid)], SettledRun(pid, script);
      RunsAreProgram(pid, script);
      GateSkips(pid, script);
      var ok := Perform(pid, EnterAttempt(pid));
      if !ok {
        StoppedSkips(PcOf(pid), dispatch);
        WentSkipping(pid, x, Now(), enter, dispatch);
        AttemptEnds(pid, x, Now(), script);
        return Some(ManagedError);
      }
      ghost var y := Now();
      error := ExecuteManagedPreparedTextAttempt(pid, script.upstream, script.snapshot);
      WentOn(pid, x, y, Now(), enter, dispatch);
      if error.Some? { AttemptEnds(pid, x, Now(), script); return; }
      y := Now();
      ok := Perform(pid, ReloadMain(pid));
      WentOn(pid, x, y, Now(), enter + dispatch, reload);
      y := Now();
      if !ok {
        StoppedSkips(PcOf(pid), settled);
        WentSkipping(pid, x, y, (enter + dispatch) + reload, settled);
        return Some(ManagedError);
      }
      ok := SummarizeAndCommit(pid, script);
      WentOn(pid, x, y, Now(), (enter + dispatch) + reload, settled);
      return if ok then None else Some(ManagedError);
    }

    // The recovery path: replay, or continue from the stored phase; a fresh outcome is not resumed.
    method ResumeManagedContextOutcome(pid: Pid, script: Script) returns (resumed: bool, ok: bool)
      requires Valid() && pid in system.processes && LetIn(system.processes[pid])
      modifies this`system, this`trace, this`turns
      ensures Valid() && pid in system.processes
      ensures resumed <==> old(system.processes[pid].copy.phase) != Intent
      ensures if resumed then Went(pid, old(Now()), Now(), LetInRun(pid, script, old(system.processes[pid].copy.phase)))
              else Now() == old(Now())
      ensures resumed ==> if ok then At(pid, Finished) else HasStopped(pid)
    {
      hide Step, Act, Exec, Went, SettledRun, FlushRun;
      var phase := system.processes[pid].copy.phase;
      if phase == Intent { return false, true; }
      resumed := true;
      if phase == Committed {
        ok := Perform(pid, WriteAnswer(pid));
        return;
      }
      if phase == MainSettled {
        ok := SummarizeAndCommit(pid, script);
      } else {
        ok := CommitAndFlushManagedRevision(pid, script);
      }
    }

    // One clean-up effect: it happens now, it fails and is only logged (or comes later, with what others
    // do), or the process dies at it.
    method TryToGiveBack(pid: Pid, a: Action) returns (done: bool)
      requires Valid() && IsOver(system, pid) && GivesBack(pid, a)
      modifies this`system, this`trace, this`turns
      ensures Valid() && IsOver(system, pid) && system.processes[pid].revision == old(system.processes[pid].revision)
      ensures PcOf(pid) == old(PcOf(pid)) || (old(PcOf(pid)) == Failed && PcOf(pid) == Crashed)
      ensures old(trace) <= trace && (done ==> a in trace[|old(trace)|..]) && |turns| <= |old(turns)|
      ensures done == old(Planned()).fault.NoFault?
      ensures old(turns) == [] ==> Applied(a, old(Now()), Now())
    {
      hide Step, Exec;
      ExecNothing(system);
      var turn := NextTurn();
      LetOthersAct(pid, turn.others);
      done := turn.fault == NoFault;
      if turn.fault != EffectFails {
        var chosen := if done then a else Crash(pid);
        StepLeavesOver(system, chosen, pid);
        Apply(chosen);
        assert trace[|trace| - 1] == chosen;
      }
    }

    // The clean-up effects one after the other; `done` names those that have happened.
    method GiveBackEach(pid: Pid, effects: seq<Action>) returns (done: set<Action>)
      requires Valid() && IsOver(system, pid) && (forall a :: a in effects ==> GivesBack(pid, a))
      modifies this`system, this`trace, this`turns
      ensures Valid() && IsOver(system, pid) && system.processes[pid].revision == old(system.processes[pid].revision)
      ensures PcOf(pid) == old(PcOf(pid)) || (old(PcOf(pid)) == Failed && PcOf(pid) == Crashed)
      ensures old(trace) <= trace && (forall a :: a in done ==> a in effects && a in trace[|old(trace)|..])
      ensures old(turns) == [] ==> turns == [] && (forall a :: a in effects ==> a in done)
      ensures old(turns) == [] && |effects| == 1 ==> system == Step(old(system), effects[0])
    {
      hide Exec, Step, Inv, GivesBack;
      ghost var start, was, quiet := trace, system, turns == [];
      done := {};
      for i := 0 to |effects|
        invariant Valid() && start <= trace && IsOver(system, pid)
        invariant system.processes[pid].revision == old(system.processes[pid].revision)
        invariant PcOf(pid) == old(PcOf(pid)) || (old(PcOf(pid)) == Failed && PcOf(pid) == Crashed)
        invariant forall a :: a in done ==> a in effects && a in trace[|start|..]
        invariant quiet ==> turns == [] && (forall k :: 0 <= k < i ==> effects[k] in done)
        invariant quiet && |effects| == 1 ==> system == if i == 0 then was else Step(was, effects[0])
      {
        ghost var middle := trace;
        var ok := TryToGiveBack(pid, effects[i]);
        StillLater(start, middle, done);
        if ok { done := done + {effects[i]}; }
      }
    }

    // Deferred clean-up: an unsuccessful request gives back what it reserved; the lease goes either way.
    // The main refund runs in the background.  `done` names the effects that have happened.
    method CleanUp(pid: Pid) returns (done: set<Action>)
      requires Valid() && pid in system.processes
      modifies this`system, this`trace, this`turns
      ensures Valid() && old(trace) <= trace
      ensures IsOver(system, pid) && system.processes[pid].revision == old(system.processes[pid].revision)
      ensures PcOf(pid) == Finished <==> old(PcOf(pid)) == Finished
      ensures PcOf(pid) == Failed && done == EverythingBack(pid) ==> TidiedIn(system, pid)
      ensures old(turns) == [] && PcOf(pid) == Failed ==> done == EverythingBack(pid)
      ensures old(turns) == [] && old(IsFinished(system, pid)) ==> system == Step(old(system), ReleaseLease(pid))
    {
      hide Exec, Step, Inv, TidiedIn;
      done := {};
      if PcOf(pid) == Crashed { return; }
      RunKeepsInv(trace);
      FailFails(system, pid);
      if PcOf(pid) != Finished {
        Apply(Fail(pid));
      }
      ghost var start := trace;
      var effects := if PcOf(pid) == Failed then [RefundSummary(pid), RefundMain(pid), ReleaseLease(pid)] else [ReleaseLease(pid)];
      done := GiveBackEach(pid, effects);
      TidyAtTheEnd(start, pid, done);
      assert PcOf(pid) == Failed ==> EverythingBack(pid) == set a | a in effects;
    }

    lemma TidyAtTheEnd(start: seq<Action>, pid: Pid, done: set<Action>)
      requires Valid() && start <= trace && IsOver(Exec(Initial, start), pid) && IsOver(system, pid)
      requires forall a :: a in done ==> a in trace[|start|..]
      ensures PcOf(pid) == Failed && done == EverythingBack(pid) ==> TidiedIn(system, pid)
    {
      hide Exec, Step, Inv, TidiedIn;
      if PcOf(pid) == Failed && done == EverythingBack(pid) {
        assert trace == start + trace[|start|..];
        ExecConcat(Initial, start, trace[|start|..]);
        assert forall a :: GivesBack(pid, a) ==> a in done;
        FailedIsTidied(start, trace[|start|..], pid);
      }
    }

    // What was in the later part of an earlier trace is in the later part of this one.
    lemma StillLater(start: seq<Action>, middle: seq<Action>, done: set<Action>)
      requires start <= middle <= trace && forall a :: a in done ==> a in middle[|start|..]
      ensures forall a :: a in done ==> a in trace[|start|..]
      ensures forall a :: a in trace[|middle|..] ==> a in trace[|start|..]
    {
      assert trace[|start|..] == middle[|start|..] + trace[|middle|..];
    }

    // One request from entry to answer.
    method Relay(pid: Pid, revision: Revision, key: Key, script: Script) returns (ok: bool, done: set<Action>)
      requires Valid() && pid !in system.processes
      modifies this
      ensures Valid() && old(trace) < trace
      ensures pid in system.processes && system.processes[pid].revision == revision
      ensures if ok then At(pid, Finished) else HasStopped(pid)
      ensures PcOf(pid) == Failed && done == EverythingBack(pid) ==> TidiedIn(system, pid)
      ensures ok ==> revision in system.slots && system.slots[revision].history.everCommitted && system.slots[revision].history.answers != []
      ensures old(turns) == [] && old(Undisturbed(system, revision, key)) && Succeeds(script) ==>
                && ok && AnsweredWith(old(system), system, revision, key, script)
                && system.conversation.lease != Some(Lease(pid, system.processes[pid].fence))
    {
      hide Step, Act, Exec, Went, Inv, Solo, Undisturbed, AnsweredWith, EntryRun, LetInRun, LetIn, WithSlot, Entered;
      ghost var s, quiet := system, turns == [] && Undisturbed(system, revision, key) && Succeeds(script);
      RunKeepsInv(trace);
      ok := PrepareManagedConsensusRequest(pid, revision, key);
      ghost var x := Moment(Step(s, Start(pid, revision, key)), old(trace) + [Start(pid, revision, key)], old(turns));
      ghost var y := Now();
      if quiet {
        WentRan(pid, x, y, EntryRun(pid));
        GetsIn(s, y.system, pid, revision, key);
      }
      if ok {
        ok := RelayLetIn(pid, script);
        if quiet { WentRan(pid, y, Now(), LetInRun(pid, script, ViewIn(y.system, pid).process.copy.phase)); }
      }
      RunKeepsInv(trace);
      if quiet { DeliveredIsAnswered(s, system, pid, revision, key, script); }
      ghost var t := system;
      done := CleanUp(pid);
      FinishedMeansAnswered(pid);
      if quiet {
        ReleaseOnly(t, pid);
        AnsweredAfterRelease(s, t, system, revision, key, script);
      }
    }

    method RelayLetIn(pid: Pid, script: Script) returns (ok: bool)
      requires Valid() && pid in system.processes && LetIn(system.processes[pid])
      modifies this
      ensures Valid() && old(trace) <= trace
      ensures pid in system.processes && system.processes[pid].revision == old(system.processes[pid].revision)
      ensures ok <==> At(pid, Finished)
      ensures script.upstream.Some? ==> Went(pid, old(Now()), Now(), LetInRun(pid, script, old(system.processes[pid].copy.phase)))
    {
      hide Step, Act, Exec, Went, AttemptRun, AllProgram, Skipped;
      ghost var x, phase := Now(), system.processes[pid].copy.phase;
      var resumed;
      resumed, ok := ResumeManagedContextOutcome(pid, script);
      if resumed { WentFacts(pid, x, Now(), LetInRun(pid, script, phase)); return; }
      RunsAreProgram(pid, script);
      ok := Perform(pid, ReserveMain(pid));
      WentFacts(pid, x, Now(), [ReserveMain(pid)]);
      if !ok {
        StoppedSkips(PcOf(pid), AttemptRun(pid, script));
        WentSkipping(pid, x, Now(), [ReserveMain(pid)], AttemptRun(pid, script));
        return;
      }
      ghost var y := Now();
      ghost var attempts, reset;
      ok, attempts, reset := RelayAttempts(pid, script);
      if script.upstream.Some? { WentOn(pid, x, y, Now(), [ReserveMain(pid)], AttemptRun(pid, script)); }
    }

    // Attempts follow one another as long as the retry policy allows; the gate stops the second one.  After a
    // failed first attempt there is a second one exactly on a channel error whose retry counter was reset.
    method RelayAttempts(pid: Pid, script: Script) returns (ok: bool, ghost attempts: nat, ghost reset: bool)
      requires Valid() && At(pid, MainGate)
      modifies this
      ensures Valid() && old(trace) <= trace
      ensures pid in system.processes && system.processes[pid].revision == old(system.processes[pid].revision)
      ensures ok <==> At(pid, Finished)
      ensures attempts <= 2 && (ok ==> attempts == 1 && script.upstream.Some?)
      ensures attempts == 2 ==> script.channelError && reset
      ensures attempts == 1 ==> ok || HasStopped(pid) || !(script.channelError && reset)
      ensures script.upstream.Some? ==> Went(pid, old(Now()), Now(), AttemptRun(pid, script))
    {
      hide Step, Act, Exec, Went, AttemptRun;
      attempts, reset := 0, false;
      ghost var y := Now();
      maximumRetryTimes := 0;
      var retry := 0;
      while retry <= maximumRetryTimes
        invariant Valid() && y.trace <= trace && maximumRetryTimes == 0
        invariant At(pid, MainGate) && system.processes[pid].revision == old(system.processes[pid].revision)
        invariant script.upstream.Some? ==> Now() == y && retry == 0
        invariant retry == attempts == 0 || (attempts == 1 && system.processes[pid].copy.phase != Intent && retry == if reset then 0 else 1)
        invariant attempts == 1 ==> script.channelError
        decreases system.processes[pid].copy.phase == Intent
      {
        ghost var z := Now();
        var error := ExecuteManagedContextAttempt(pid, script);
        WentFacts(pid, z, Now(), AttemptRun(pid, script));
        attempts := attempts + 1;
        if error != Some(UpstreamFailure) { ok := error.None?; return; }
        if !ShouldRetry(script.channelError, maximumRetryTimes - retry) { ok := false; return; }
        var turn := NextTurn();
        reset := turn.resetsRetry;
        if !turn.resetsRetry {
          retry := retry + 1;
        }
      }
      ok := false;
    }

    lemma FinishedMeansAnswered(pid: Pid)
      requires Valid() && pid in system.processes
      ensures PcOf(pid) == Finished ==>
                var r := system.processes[pid].revision;
                r in system.slots && system.slots[r].history.everCommitted && system.slots[r].history.answers != []
    {
      hide SlotOk;
      RunKeepsInv(trace);
      assert ProcessIn(system, pid);
    }
  }
}
