// What the protocol promises, for every interleaving of requests, retries,
// lost replies, lease losses, timeouts and crashes.

module OutcomeTheorems {
  import opened Options
  import opened OutcomeStore
  import opened OutcomeProtocol
  import opened OutcomeInvariant
  import opened OutcomeSafety

  lemma {:induction false} ExecConcat(s: System, first: seq<Action>, second: seq<Action>)
    ensures Exec(s, first + second) == Exec(Exec(s, first), second)
    decreases |first|
  {
    if first == [] {
      assert first + second == second;
    } else {
      assert (first + second)[1..] == first[1..] + second;
      ExecConcat(Step(s, first[0]), first[1..], second);
    }
  }

  lemma RunKeepsInv(actions: seq<Action>)
    ensures Inv(Exec(Initial, actions))
  {
    ExecKeepsInv(Initial, actions);
  }

  // Both upstream calls happen at most once and are charged at most once; a stored
  // answer has cost exactly one main charge, a delivered one exactly one of each; and a charged
  // client's answer is stored with its summary snapshot until the outcome is scrubbed.
  lemma AtMostOnce(actions: seq<Action>, r: Revision)
    requires r in Exec(Initial, actions).slots
    ensures var slot := Exec(Initial, actions).slots[r]; var h := slot.history;
            && h.mainCalls <= 1 && h.mainCharges <= 1 && h.summaryCalls <= 1 && h.summaryCharges <= 1
            && (slot.row.responsePayload.Some? ==> h.mainCalls == 1 && h.mainCharges == 1)
            && (h.mainCharges == 1 ==> slot.row.phase == Expired
                                       || (slot.row.responsePayload.Some? && slot.row.responsePayload == h.buffered && slot.row.snapshot.Some?))
            && (h.answers != [] ==> h.mainCalls == 1 && h.mainCharges == 1 && h.summaryCalls == 1 && h.summaryCharges == 1)
  {
    RunKeepsInv(actions);
    assert SlotOk(r, Exec(Initial, actions).slots[r], Exec(Initial, actions).conversation);
  }

  // Every delivered answer, first delivery or replay, is the buffered response of the one
  // main call with the next revision in its header, and that next state is stored.
  lemma AnswersAgree(actions: seq<Action>, r: Revision, i: nat)
    requires r in Exec(Initial, actions).slots && i < |Exec(Initial, actions).slots[r].history.answers|
    ensures var s := Exec(Initial, actions); var h := s.slots[r].history;
            && h.buffered.Some?
            && h.answers[i] == AnswerOf(Frozen(h.buffered.value), r + 1)
            && r < |s.conversation.log| == s.conversation.revision
            && h.nextState == Some(s.conversation.log[r])
  {
    RunKeepsInv(actions);
    assert SlotOk(r, Exec(Initial, actions).slots[r], Exec(Initial, actions).conversation);
  }

  lemma ActAnswers(pid: Pid, a: Action, v: View)
    ensures var v' := Act(pid, a, v);
            v'.slot.history.answers == v.slot.history.answers
            || (v.process.pc == Answering && v'.slot.row == v.slot.row && v'.conversation == v.conversation)
  {
    hide SafeContentType, Frozen, Storable;
  }

  lemma AnsweringMeansCommitted(s: System, pid: Pid)
    requires Inv(s) && pid in s.processes && s.processes[pid].pc == Answering
    ensures s.processes[pid].revision in s.slots && s.slots[s.processes[pid].revision].history.everCommitted
  {
    hide SlotOk;
    assert ProcessIn(s, pid);
  }

  predicate SameAnswers(s: System, s': System, r: Revision)
    requires r in s'.slots
  {
    s'.slots[r].history.answers == if r in s.slots then s.slots[r].history.answers else []
  }

  // Bytes reach a client only in a step that finds the outcome committed, and that step writes nothing durable.
  lemma NoAnswerBeforeCommit(actions: seq<Action>, a: Action, r: Revision)
    requires r in Step(Exec(Initial, actions), a).slots
    requires !SameAnswers(Exec(Initial, actions), Step(Exec(Initial, actions), a), r)
    ensures var s := Exec(Initial, actions); var s' := Step(s, a);
              && r in s.slots && s.slots[r].history.everCommitted
              && s'.slots[r].row == s.slots[r].row && s'.conversation == s.conversation
  {
    hide SlotOk, ProcessOk, Act, Inv;
    RunKeepsInv(actions);
    var s := Exec(Initial, actions);
    assert !(a.Start? || a.LeaseExpires? || a.TimeOut? || a.Scrub?);
    ActAnswers(a.pid, a, View(s.processes[a.pid], s.slots[r], s.conversation));
    AnsweringMeansCommitted(s, a.pid);
  }

  lemma ActCommits(pid: Pid, a: Action, v: View)
    requires Act(pid, a, v).slot.history.everCommitted && !v.slot.history.everCommitted
    ensures Act(pid, a, v).slot.row.phase == Committed
  {
    hide SafeContentType, Frozen, Storable;
  }

  lemma CommittedFlagIsCas(s: System, a: Action, r: Revision)
    requires r in Step(s, a).slots && Step(s, a).slots[r].history.everCommitted
    ensures (r in s.slots && s.slots[r].history.everCommitted) || Step(s, a).slots[r].row.phase == Committed
  {
    hide Act;
    if !(a.Start? || a.LeaseExpires? || a.TimeOut? || a.Scrub?) && a.pid in s.processes && s.processes[a.pid].revision == r && r in s.slots {
      var v := View(s.processes[a.pid], s.slots[r], s.conversation);
      if Act(a.pid, a, v).slot.history.everCommitted && !v.slot.history.everCommitted {
        ActCommits(a.pid, a, v);
      }
    }
  }

  // The committed flag records exactly that some earlier state of the run had the phase Committed.
  lemma {:induction false} EverCommittedMeaning(actions: seq<Action>, r: Revision)
    requires r in Exec(Initial, actions).slots && Exec(Initial, actions).slots[r].history.everCommitted
    ensures exists k :: 0 <= k <= |actions| && r in Exec(Initial, actions[..k]).slots
                     && Exec(Initial, actions[..k]).slots[r].row.phase == Committed
    decreases |actions|
  {
    assert actions[..|actions|] == actions;
    if actions != [] {
      var n := |actions| - 1;
      var before := actions[..n];
      assert actions == before + [actions[n]];
      ExecConcat(Initial, before, [actions[n]]);
      var s := Exec(Initial, before);
      assert Exec(s, [actions[n]]) == Exec(Step(s, actions[n]), []);
      CommittedFlagIsCas(s, actions[n], r);
      if r in s.slots && s.slots[r].history.everCommitted {
        EverCommittedMeaning(before, r);
        var k :| 0 <= k <= n && r in Exec(Initial, before[..k]).slots && Exec(Initial, before[..k]).slots[r].row.phase == Committed;
        assert before[..k] == actions[..k];
      }
    }
  }

  predicate Advances(slot: Slot, slot': Slot) {
    && slot'.row.key == slot.row.key
    && (slot'.row.phase == slot.row.phase || Rank(slot'.row.phase) > Rank(slot.row.phase))
    && (slot.mainBill == Refunded ==> slot'.mainBill == Refunded)
    && (slot.summaryBill == Refunded ==> slot'.summaryBill == Refunded)
  }

  lemma ActAdvances(pid: Pid, a: Action, v: View)
    ensures Advances(v.slot, Act(pid, a, v).slot)
  {
    hide SafeContentType, Frozen, Storable;
  }

  lemma StepAdvances(s: System, a: Action, r: Revision)
    requires r in s.slots
    ensures r in Step(s, a).slots && Advances(s.slots[r], Step(s, a).slots[r])
  {
    if !(a.Start? || a.LeaseExpires? || a.TimeOut? || a.Scrub?) {
      if a.pid in s.processes && s.processes[a.pid].revision == r {
        hide Act;
        ActAdvances(a.pid, a, View(s.processes[a.pid], s.slots[r], s.conversation));
      }
    }
  }

  // In every run an outcome keeps its key, its phase never moves back (it stays or gains rank),
  // and a refunded operation stays refunded.
  lemma {:induction false} PhasesMoveForward(s: System, actions: seq<Action>, r: Revision)
    requires r in s.slots
    ensures r in Exec(s, actions).slots && Advances(s.slots[r], Exec(s, actions).slots[r])
    decreases |actions|
  {
    if actions != [] {
      StepAdvances(s, actions[0], r);
      PhasesMoveForward(Step(s, actions[0]), actions[1..], r);
    }
  }

  lemma ActExtendsLog(pid: Pid, a: Action, v: View)
    ensures v.conversation.log <= Act(pid, a, v).conversation.log
  {
    hide SafeContentType, Frozen, Storable;
  }

  lemma StepExtendsLog(s: System, a: Action)
    ensures s.conversation.log <= Step(s, a).conversation.log
  {
    hide Act;
    if !(a.Start? || a.LeaseExpires? || a.TimeOut? || a.Scrub?) && a.pid in s.processes && s.processes[a.pid].revision in s.slots {
      ActExtendsLog(a.pid, a, View(s.processes[a.pid], s.slots[s.processes[a.pid].revision], s.conversation));
    }
  }

  lemma {:induction false} LogOnlyGrows(s: System, actions: seq<Action>)
    ensures s.conversation.log <= Exec(s, actions).conversation.log
    decreases |actions|
  {
    if actions != [] {
      StepExtendsLog(s, actions[0]);
      LogOnlyGrows(Step(s, actions[0]), actions[1..]);
    }
  }

  // Whatever competes for revision r: once something is stored at r + 1, it is the next state
  // settled by the one outcome of r, and nothing else is ever stored there.
  lemma OneNextState(first: seq<Action>, second: seq<Action>, r: Revision)
    requires r < Exec(Initial, first).conversation.revision
    ensures var s, t := Exec(Initial, first), Exec(Initial, first + second);
            && r < |s.conversation.log| && r < |t.conversation.log|
            && t.conversation.log[r] == s.conversation.log[r]
            && s.conversation.log[r].revision == r + 1
            && r in s.slots && s.slots[r].history.nextState == Some(s.conversation.log[r])
            && t.conversation.revision == |t.conversation.log|
  {
    RunKeepsInv(first);
    RunKeepsInv(first + second);
    var s := Exec(Initial, first);
    ExecConcat(Initial, first, second);
    LogOnlyGrows(s, second);
    assert SlotOk(r, s.slots[r], s.conversation);
  }
}
