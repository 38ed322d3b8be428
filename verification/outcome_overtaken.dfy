// A reachable state in which a committed revision can no longer be healed: its request
// crashed right after storing it, and the next revision was stored before the retry came.

module OutcomeOvertaken {
  import opened Integers
  import opened Options
  import opened OutcomeStore
  import opened OutcomeProtocol
  import opened OutcomeInvariant
  import opened OutcomeSafety
  import opened OutcomeTheorems
  import opened OutcomeRecovery
  import opened OutcomeRetry

  // Everything up to and including the compare-and-set, and then the process dies.
  function CrashRun(pid: Pid, response: Response): seq<Action> {
    Opening(pid) + (([ReserveMain(pid)] + MainRun(pid, response, 0)) + (SummaryRun(pid, 0) + [Swap(pid, Acknowledged), Crash(pid)]))
  }

  lemma SwapThenCrash(pid: Pid, v0: View, v: View)
    requires Stage(pid, v0, v, Swapping(false), SettledPendingCommit) && LeasedTo(pid, v)
    ensures var v' := Solo(pid, [Swap(pid, Acknowledged), Crash(pid)], v);
            && v'.slot.row.phase == SettledPendingCommit && !v'.slot.row.timedOut && v'.slot.row.key == v.slot.row.key
            && v'.conversation.revision == v0.process.revision + 1
  {
    hide SafeContentType, Frozen, Storable;
    var rest := [Crash(pid)];
    assert [Swap(pid, Acknowledged), Crash(pid)] == [Swap(pid, Acknowledged)] + rest && rest == rest + [];
    SoloStep(pid, Swap(pid, Acknowledged), rest, v);
    SoloStep(pid, Crash(pid), [], Act(pid, Swap(pid, Acknowledged), v));
  }

  lemma CrashRunStores(s: System, pid: Pid, r: Revision, response: Response)
    requires FreshRetry(s, pid, r) && Idle(s, r) && s.slots[r].row.phase == Intent && s.slots[r].mainBill != Refunded && Storable(response)
    ensures var v := Solo(pid, CrashRun(pid, response), Entered(s, pid, r));
            && v.slot.row.phase == SettledPendingCommit && !v.slot.row.timedOut && v.conversation.revision == r + 1
  {
    hide Act, Stage, Solo, LeasedTo, Inv, ViewOk;
    var v0 := Entered(s, pid, r);
    StartEnters(s, pid, r);
    EnteredPc(s, pid, r);
    BeginStage(pid, v0);
    var v1 := Opened(pid, v0);
    var main, last := [ReserveMain(pid)] + MainRun(pid, response, 0), [Swap(pid, Acknowledged), Crash(pid)];
    MainSettles(pid, v0, v1, response, 0);
    var v2 := Solo(pid, main, v1);
    SummarySettles(pid, v0, v2, 0);
    SwapThenCrash(pid, v0, Solo(pid, SummaryRun(pid, 0), v2));
    SoloConcat(pid, SummaryRun(pid, 0), last, v2);
    SoloConcat(pid, main, SummaryRun(pid, 0) + last, v1);
    SoloOpening(pid, main + (SummaryRun(pid, 0) + last), v0);
  }

  lemma CrashRunIsOwn(pid: Pid, response: Response)
    ensures forall a :: a in CrashRun(pid, response) ==> Own(pid, a)
  {
    assert AllOwn(pid, Opening(pid)) && AllOwn(pid, [ReserveMain(pid)]) && AllOwn(pid, MainRun(pid, response, 0));
    assert AllOwn(pid, SummaryRun(pid, 0)) && AllOwn(pid, [Swap(pid, Acknowledged), Crash(pid)]);
    hide Own, Opening, MainRun, SummaryRun;
    var main, summary := [ReserveMain(pid)] + MainRun(pid, response, 0), SummaryRun(pid, 0) + [Swap(pid, Acknowledged), Crash(pid)];
    OwnConcat(pid, [ReserveMain(pid)], MainRun(pid, response, 0));
    OwnConcat(pid, SummaryRun(pid, 0), [Swap(pid, Acknowledged), Crash(pid)]);
    OwnConcat(pid, main, summary);
    OwnConcat(pid, Opening(pid), main + summary);
  }

  // Reserving an outcome at an unused revision with an unused key.
  lemma StartReserves(s: System, pid: Pid, r: Revision, key: Key)
    requires Inv(s) && pid !in s.processes && r < MaxInt64 && r !in s.slots && !Conflicts(s.slots, r, key)
    ensures var s' := Step(s, Start(pid, r, key));
            && Inv(s') && s'.slots == s.slots[r := NewSlot(key)] && s'.conversation == s.conversation
            && s'.processes.Keys == s.processes.Keys + {pid}
  {
    hide Inv;
    StepKeepsInv(s, Start(pid, r, key));
  }

  // The first half: revision 1 is stored, its outcome at revision 0 is not marked, and the lease has lapsed.
  lemma StoredUnmarked() returns (actions: seq<Action>)
    ensures var s := Exec(Initial, actions);
            && 0 in s.slots && s.slots.Keys == {0} && s.slots[0].row.key == 0
            && s.slots[0].row.phase == SettledPendingCommit && !s.slots[0].row.timedOut
            && s.conversation.revision == 1 && s.conversation.lease.None? && s.processes.Keys == {0, 1}
  {
    hide Act, Inv, Solo, SlotOk, ProcessOk;
    var response := Response(200, "", "");
    var first := [Start(0, 0, 0)];
    RunKeepsInv([]);
    StartReserves(Initial, 0, 0, 0);
    var s0 := Exec(Initial, first);
    assert s0 == Step(Initial, Start(0, 0, 0)) by { assert first[1..] == []; }
    assert FreshRetry(s0, 1, 0) && Idle(s0, 0);
    CrashRunStores(s0, 1, 0, response);
    CrashRunIsOwn(1, response);
    RetryRun(s0, 1, 0, CrashRun(1, response));
    var second := [Start(1, 0, 0)] + CrashRun(1, response);
    var s1 := Exec(s0, second);
    ExecConcat(Initial, first, second);
    ExecConcat(Initial, first + second, [LeaseExpires]);
    assert Exec(s1, [LeaseExpires]) == Step(s1, LeaseExpires) by { assert [LeaseExpires][1..] == []; }
    actions := first + second + [LeaseExpires];
    KeyKept(s0, second, 0);
  }

  lemma KeyKept(s: System, actions: seq<Action>, r: Revision)
    requires r in s.slots
    ensures r in Exec(s, actions).slots && Exec(s, actions).slots[r].row.key == s.slots[r].row.key
  {
    PhasesMoveForward(s, actions, r);
  }

  // So there is a run after which revision 1 is stored, its outcome was never marked, and no retry, whatever
  // it does, can answer any more, because revision 2 is stored as well.
  lemma OvertakenIsReachable()
    ensures exists actions, pid ::
              && var s := Exec(Initial, actions);
              && FreshRetry(s, pid, 0) && s.slots[0].row.phase == SettledPendingCommit && s.conversation.revision > 1
              && !exists own :: (forall a :: a in own ==> Own(pid, a))
                                && Answered(s, Exec(s, [Start(pid, 0, s.slots[0].row.key)] + own), 0)
  {
    hide Act, Inv, Solo, SlotOk, ProcessOk, Exec, Answered, RequestRun, Own;
    var response := Response(200, "", "");
    var first := StoredUnmarked();
    var s1 := Exec(Initial, first);
    RunKeepsInv(first);
    StartReserves(s1, 2, 1, 1);
    var second := [Start(2, 1, 1)];
    var s2 := Exec(s1, second);
    ExecOne(s1, Start(2, 1, 1));
    var own := RequestRun(s2, 3, 1, response, 0, 0);
    UndisturbedRequestAnswers(s2, 3, 1, response, 0, 0);
    RequestRunIsOwn(s2, 3, 1, response, 0, 0);
    var third := [Start(3, 1, s2.slots[1].row.key)] + own;
    RetryRun(s2, 3, 1, own);
    var s3 := Exec(s2, third);
    var actions := first + second + third;
    ExecConcat(Initial, first, second);
    ExecConcat(Initial, first + second, third);
    RunKeepsInv(actions);
    AnsweredIsStored(s2, s3, 1);
    HealIff(s3, 4, 0);
    assert s3 == Exec(Initial, actions);
  }

  lemma ExecOne(s: System, a: Action)
    ensures Exec(s, [a]) == Step(s, a)
  {
    assert [a][1..] == [];
  }

  lemma AnsweredIsStored(s: System, s': System, r: Revision)
    requires Answered(s, s', r)
    ensures s'.conversation.revision > r
  {}
}
