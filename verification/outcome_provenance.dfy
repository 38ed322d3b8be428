// Where the durable state and the answers of an outcome come from: the actions of the run that made
// the two upstream calls and settled them, and what those actions carried.

module OutcomeProvenance {
  import opened Integers
  import opened Options
  import opened Text
  import opened ContentTypes
  import opened OutcomeStore
  import opened OutcomeProtocol
  import opened OutcomeInvariant
  import opened OutcomeSafety
  import opened OutcomeTheorems
  import opened OutcomeFencing
  import opened OutcomeCleanUp

  // The request acting at step k is at the given point for revision r.
  predicate ActsAt(actions: seq<Action>, k: nat, r: Revision, pc: Pc)
    requires k < |actions|
  {
    var s := Exec(Initial, actions[..k]);
    IsOwnStep(s, actions[k]) && s.processes[actions[k].pid].revision == r && s.processes[actions[k].pid].pc == pc
  }

  // Step k is the main upstream call for revision r, and this response came back.
  predicate MainReturned(actions: seq<Action>, k: nat, r: Revision, response: Response)
    requires k < |actions|
  {
    ActsAt(actions, k, r, MainExecuting) && actions[k] == ExecuteMain(actions[k].pid, Some(response))
  }

  // Step k is the summary call for revision r, and this valid summary came back.
  predicate SummaryReturned(actions: seq<Action>, k: nat, r: Revision, content: int)
    requires k < |actions|
  {
    ActsAt(actions, k, r, SummaryExecuting) && actions[k] == ExecuteSummary(actions[k].pid, ValidSummary(content))
  }

  // Step k settles the main call for revision r with this snapshot: it charges the operation.
  predicate MainSettledWith(actions: seq<Action>, k: nat, r: Revision, snapshot: int)
    requires k < |actions|
  {
    && ActsAt(actions, k, r, MainSettling) && actions[k] == SettleMain(actions[k].pid, snapshot)
    && MainChargedAt(actions, k, r)
  }

  predicate MainChargedAt(actions: seq<Action>, k: nat, r: Revision)
    requires k < |actions|
  {
    var s, s' := Exec(Initial, actions[..k]), Exec(Initial, actions[..k + 1]);
    r in s.slots && r in s'.slots && s.slots[r].mainBill != Settled && s'.slots[r].mainBill == Settled
  }

  predicate SummaryChargedAt(actions: seq<Action>, k: nat, r: Revision)
    requires k < |actions|
  {
    var s, s' := Exec(Initial, actions[..k]), Exec(Initial, actions[..k + 1]);
    r in s.slots && r in s'.slots && s.slots[r].summaryBill != Settled && s'.slots[r].summaryBill == Settled
  }

  // ----- what one step can change -----

  // A slot changes by an effect of a process of its revision; otherwise only its row lapses or is scrubbed.
  lemma SlotShape(s: System, a: Action, r: Revision)
    requires r in Step(s, a).slots
    ensures var slot' := Step(s, a).slots[r];
            if IsOwnStep(s, a) && s.processes[a.pid].revision == r then slot' == Act(a.pid, a, ViewIn(s, a.pid)).slot
            else if r !in s.slots then a.Start? && slot' == NewSlot(a.key)
            else slot' == s.slots[r].(row := slot'.row)
                 && (slot'.row == s.slots[r].row || slot'.row == s.slots[r].row.(timedOut := true) || slot'.row == ScrubbedRow(s.slots[r].row))
  {
    hide Act;
  }

  lemma EffectOnBuffered(pid: Pid, a: Action, v: View)
    ensures var v' := Act(pid, a, v);
            v'.slot.history.buffered == v.slot.history.buffered
            || (a.ExecuteMain? && v.process.pc == MainExecuting && a.upstream.Some? && v'.slot.history.buffered == a.upstream)
  {
    hide SafeContentType, Frozen, Storable;
  }

  lemma EffectOnSnapshot(pid: Pid, a: Action, v: View)
    ensures var v' := Act(pid, a, v);
            v'.slot.row.snapshot == v.slot.row.snapshot
            || (a.SettleMain? && v.process.pc == MainSettling && v'.slot.row.snapshot == Some(a.snapshot)
                && v.slot.mainBill != Settled && v'.slot.mainBill == Settled)
  {
    hide SafeContentType, Frozen, Storable;
  }

  lemma EffectOnNextState(pid: Pid, a: Action, v: View)
    ensures var v' := Act(pid, a, v);
            v'.slot.history.nextState == v.slot.history.nextState
            || (a.SettleSummary? && v.process.pc == SummarySettling(true)
                && v'.slot.history.nextState == Some(NextState(v.process.revision + 1, v.process.summary)))
  {
    hide SafeContentType, Frozen, Storable;
  }

  lemma EffectOnSummary(pid: Pid, a: Action, v: View)
    requires Act(pid, a, v).process.pc == SummarySettling(true)
    ensures var v' := Act(pid, a, v);
            (v.process.pc == SummarySettling(true) && v'.process.summary == v.process.summary)
            || (v.process.pc == SummaryExecuting && a == ExecuteSummary(a.pid, ValidSummary(v'.process.summary)))
  {
    hide SafeContentType, Frozen, Storable;
  }

  // A step of an earlier run is a step of this one.
  lemma StillAt(actions: seq<Action>, n: nat, k: nat)
    requires k < n <= |actions|
    ensures actions[..n][k] == actions[k] && actions[..n][..k] == actions[..k] && actions[..n][..k + 1] == actions[..k + 1]
  {}

  lemma LastActsAt(actions: seq<Action>, s: System, a: Action)
    requires actions != [] && s == Exec(Initial, actions[..|actions| - 1]) && a == actions[|actions| - 1] && IsOwnStep(s, a)
    ensures ActsAt(actions, |actions| - 1, s.processes[a.pid].revision, s.processes[a.pid].pc)
  {
    hide Exec, Step, Act;
  }

  // ----- where the state comes from -----

  lemma {:induction false} BufferedWasReturned(actions: seq<Action>, r: Revision)
    requires var s := Exec(Initial, actions); r in s.slots && s.slots[r].history.buffered.Some?
    ensures exists k :: 0 <= k < |actions| && MainReturned(actions, k, r, Exec(Initial, actions).slots[r].history.buffered.value)
    decreases |actions|
  {
    hide Act, Step, ActsAt;
    var before, a := LastStep(actions);
    var s, n := Exec(Initial, before), |actions| - 1;
    var response := Exec(Initial, actions).slots[r].history.buffered.value;
    SlotShape(s, a, r);
    if IsOwnStep(s, a) && s.processes[a.pid].revision == r {
      EffectOnBuffered(a.pid, a, ViewIn(s, a.pid));
      LastActsAt(actions, s, a);
    }
    if r in s.slots && s.slots[r].history.buffered == Some(response) {
      BufferedWasReturned(before, r);
      var k :| 0 <= k < n && MainReturned(before, k, r, response);
      Earlier(actions, n, k, r);
      assert MainReturned(actions, k, r, response);
    } else {
      assert MainReturned(actions, n, r, response);
    }
  }

  lemma Earlier(actions: seq<Action>, n: nat, k: nat, r: Revision)
    requires k < n <= |actions|
    ensures actions[..n][k] == actions[k]
    ensures forall pc :: ActsAt(actions[..n], k, r, pc) <==> ActsAt(actions, k, r, pc)
    ensures MainChargedAt(actions[..n], k, r) <==> MainChargedAt(actions, k, r)
  {
    hide Exec;
    StillAt(actions, n, k);
  }

  lemma ReturnedEarlier(actions: seq<Action>, n: nat, k: nat, r: Revision, content: int)
    requires k < n <= |actions| && SummaryReturned(actions[..n], k, r, content)
    ensures SummaryReturned(actions, k, r, content)
  {
    hide ActsAt;
    Earlier(actions, n, k, r);
    assert ActsAt(actions[..n], k, r, SummaryExecuting);
  }

  lemma {:induction false} SnapshotWasTaken(actions: seq<Action>, r: Revision)
    requires var s := Exec(Initial, actions); r in s.slots && s.slots[r].row.snapshot.Some?
    ensures exists k :: 0 <= k < |actions| && MainSettledWith(actions, k, r, Exec(Initial, actions).slots[r].row.snapshot.value)
    decreases |actions|
  {
    hide Act, Step, ActsAt;
    var before, a := LastStep(actions);
    var s, n := Exec(Initial, before), |actions| - 1;
    var snapshot := Exec(Initial, actions).slots[r].row.snapshot.value;
    SlotShape(s, a, r);
    if IsOwnStep(s, a) && s.processes[a.pid].revision == r {
      EffectOnSnapshot(a.pid, a, ViewIn(s, a.pid));
      LastActsAt(actions, s, a);
    }
    if r in s.slots && s.slots[r].row.snapshot == Some(snapshot) {
      SnapshotWasTaken(before, r);
      var k :| 0 <= k < n && MainSettledWith(before, k, r, snapshot);
      Earlier(actions, n, k, r);
      assert MainSettledWith(actions, k, r, snapshot);
    } else {
      assert actions[..n + 1] == actions;
      assert MainSettledWith(actions, n, r, snapshot);
    }
  }

  predicate Settling(s: System, p: Pid) {
    p in s.processes && s.processes[p].pc == SummarySettling(true)
  }

  // A request about to settle a valid summary is the one it came back to.
  lemma {:induction false} SettlingWasReturned(actions: seq<Action>, p: Pid)
    requires Settling(Exec(Initial, actions), p)
    ensures var process := Exec(Initial, actions).processes[p];
            exists k :: 0 <= k < |actions| && actions[k].ExecuteSummary? && actions[k].pid == p
                        && SummaryReturned(actions, k, process.revision, process.summary)
    decreases |actions|
  {
    hide Act, Step, ActsAt;
    if actions == [] { return; }
    var before, a := LastStep(actions);
    var s, n := Exec(Initial, before), |actions| - 1;
    var process := Exec(Initial, actions).processes[p];
    StepShape(s, a);
    if IsOwnStep(s, a) && a.pid == p {
      EffectOnSummary(p, a, ViewIn(s, p));
      EffectOnFences(p, a, ViewIn(s, p));
      LastActsAt(actions, s, a);
    }
    if Settling(s, p) && s.processes[p].summary == process.summary && s.processes[p].revision == process.revision {
      SettlingWasReturned(before, p);
      var k :| 0 <= k < n && before[k].ExecuteSummary? && before[k].pid == p && SummaryReturned(before, k, process.revision, process.summary);
      Earlier(actions, n, k, process.revision);
      assert SummaryReturned(actions, k, process.revision, process.summary);
    } else {
      assert SummaryReturned(actions, n, process.revision, process.summary);
    }
  }

  // The checkpointed next state carries what the summary call returned.
  predicate NextStateReturned(actions: seq<Action>, r: Revision, state: NextState) {
    exists k :: 0 <= k < |actions| && SummaryReturned(actions, k, r, state.content) && state == NextState(r + 1, state.content)
  }

  lemma {:induction false} NextStateWasReturned(actions: seq<Action>, r: Revision)
    requires var s := Exec(Initial, actions); r in s.slots && s.slots[r].history.nextState.Some?
    ensures NextStateReturned(actions, r, Exec(Initial, actions).slots[r].history.nextState.value)
    decreases |actions|
  {
    hide Act, Step, ActsAt;
    var before, a := LastStep(actions);
    var s, n := Exec(Initial, before), |actions| - 1;
    var state := Exec(Initial, actions).slots[r].history.nextState.value;
    SlotShape(s, a, r);
    if IsOwnStep(s, a) && s.processes[a.pid].revision == r {
      EffectOnNextState(a.pid, a, ViewIn(s, a.pid));
    }
    if r in s.slots && s.slots[r].history.nextState == Some(state) {
      NextStateWasReturned(before, r);
    } else {
      SettlingWasReturned(before, a.pid);
    }
    var k :| 0 <= k < n && SummaryReturned(before, k, r, state.content);
    ReturnedEarlier(actions, n, k, r, state.content);
  }

  // In every run: what is stored at revision r + 1 is the summary that the summary call for r returned.
  lemma StoredIsReturned(actions: seq<Action>, r: Revision)
    requires r < Exec(Initial, actions).conversation.revision
    ensures var c := Exec(Initial, actions).conversation;
            && r < |c.log|
            && exists k, content :: 0 <= k < |actions| && SummaryReturned(actions, k, r, content) && c.log[r] == NextState(r + 1, content)
  {
    hide Exec, SummaryReturned;
    OneNextState(actions, [], r);
    NextStateWasReturned(actions, r);
    var state := Exec(Initial, actions).conversation.log[r];
    var k :| 0 <= k < |actions| && SummaryReturned(actions, k, r, state.content);
  }

  // ----- the answers -----

  // What a client gets of a response: status and body as they came, one of two content types, the next revision.
  ghost predicate Carries(answer: Answer, response: Response, revision: nat) {
    && answer.status == response.status && answer.body == response.body && answer.revision == revision
    && (if NamesType(response.contentType, "application/problem+json") then answer.contentType == "application/problem+json"
        else answer.contentType == "application/json")
  }

  // In every run, every answer for r, first delivery or replay, carries the response that the main call for r
  // returned, which is a success of at most two mebibytes, and names revision r + 1.
  lemma DeliveredIsReturned(actions: seq<Action>, r: Revision, i: nat)
    requires r in Exec(Initial, actions).slots && i < |Exec(Initial, actions).slots[r].history.answers|
    ensures exists k, response ::
              && 0 <= k < |actions| && MainReturned(actions, k, r, response)
              && Carries(Exec(Initial, actions).slots[r].history.answers[i], response, r + 1)
              && 200 <= response.status <= 299 && |response.body| <= 2097152
  {
    hide MainReturned, Exec, SafeContentType;
    AnswersAgree(actions, r, i);
    BufferedWasReturned(actions, r);
    AnswerIsStorable(actions, r);
    var h := Exec(Initial, actions).slots[r].history;
    var response := h.buffered.value;
    ContentTypeIff(response.contentType);
    var k :| 0 <= k < |actions| && MainReturned(actions, k, r, response);
    assert Carries(h.answers[i], response, r + 1);
  }

  lemma AnswerIsStorable(actions: seq<Action>, r: Revision)
    requires r in Exec(Initial, actions).slots && Exec(Initial, actions).slots[r].history.answers != []
    ensures var b := Exec(Initial, actions).slots[r].history.buffered; b.Some? && Storable(b.value)
  {
    hide Exec;
    RunKeepsInv(actions);
    assert SlotOk(r, Exec(Initial, actions).slots[r], Exec(Initial, actions).conversation);
  }

  // In every run the stored response is the one the main call for r returned, the stored snapshot the one
  // its settlement was given, and the stored next state the one the summary call returned.
  lemma CheckpointIsReturned(actions: seq<Action>, r: Revision)
    requires r in Exec(Initial, actions).slots
    ensures var row := Exec(Initial, actions).slots[r].row;
            && (row.responsePayload.Some? ==>
                  exists k :: 0 <= k < |actions| && MainReturned(actions, k, r, row.responsePayload.value))
            && (row.snapshot.Some? ==>
                  exists k :: 0 <= k < |actions| && MainSettledWith(actions, k, r, row.snapshot.value))
            && (row.phase == SettledPendingCommit || row.phase == Committed ==>
                  row.nextState.Some? && NextStateReturned(actions, r, row.nextState.value))
  {
    hide MainReturned, MainSettledWith, NextStateReturned, Exec;
    RowIsHistory(actions, r);
    var slot := Exec(Initial, actions).slots[r];
    if slot.row.responsePayload.Some? { BufferedWasReturned(actions, r); }
    if slot.row.snapshot.Some? { SnapshotWasTaken(actions, r); }
    if slot.history.nextState.Some? { NextStateWasReturned(actions, r); }
  }

  lemma RowIsHistory(actions: seq<Action>, r: Revision)
    requires r in Exec(Initial, actions).slots
    ensures var slot := Exec(Initial, actions).slots[r];
            && (slot.row.responsePayload.Some? ==> slot.row.responsePayload == slot.history.buffered)
            && (slot.row.phase == SettledPendingCommit || slot.row.phase == Committed ==>
                  slot.row.nextState.Some? && slot.row.nextState == slot.history.nextState)
  {
    hide Exec;
    RunKeepsInv(actions);
    assert SlotOk(r, Exec(Initial, actions).slots[r], Exec(Initial, actions).conversation);
  }

  // ----- each call once -----

  lemma EffectOnCalls(pid: Pid, a: Action, v: View)
    ensures var h, h' := v.slot.history, Act(pid, a, v).slot.history;
            && h.mainCalls <= h'.mainCalls && h.summaryCalls <= h'.summaryCalls
            && (a.ExecuteMain? && v.process.pc == MainExecuting ==> h'.mainCalls == h.mainCalls + 1)
            && (a.ExecuteSummary? && v.process.pc == SummaryExecuting ==> h'.summaryCalls == h.summaryCalls + 1)
    ensures v.slot.mainBill == Settled ==> Act(pid, a, v).slot.mainBill == Settled
    ensures v.slot.summaryBill == Settled ==> Act(pid, a, v).slot.summaryBill == Settled
  {
    hide SafeContentType, Frozen, Storable;
  }

  predicate OnlyMore(slot: Slot, slot': Slot) {
    && slot.history.mainCalls <= slot'.history.mainCalls && slot.history.summaryCalls <= slot'.history.summaryCalls
    && (slot.mainBill == Settled ==> slot'.mainBill == Settled) && (slot.summaryBill == Settled ==> slot'.summaryBill == Settled)
  }

  lemma {:induction false} CallsOnlyGrow(s: System, actions: seq<Action>, r: Revision)
    requires r in s.slots
    ensures r in Exec(s, actions).slots && OnlyMore(s.slots[r], Exec(s, actions).slots[r])
    decreases |actions|
  {
    hide Act, Step;
    if actions != [] {
      var a := actions[0];
      StepAdvances(s, a, r);
      SlotShape(s, a, r);
      if IsOwnStep(s, a) { EffectOnCalls(a.pid, a, ViewIn(s, a.pid)); }
      CallsOnlyGrow(Step(s, a), actions[1..], r);
    }
  }

  // Between two steps of a run.
  lemma Later(actions: seq<Action>, k: nat, k': nat, r: Revision)
    requires k <= k' <= |actions| && r in Exec(Initial, actions[..k]).slots
    ensures r in Exec(Initial, actions[..k']).slots && OnlyMore(Exec(Initial, actions[..k]).slots[r], Exec(Initial, actions[..k']).slots[r])
  {
    hide Exec, OnlyMore;
    assert actions[..k'] == actions[..k] + actions[k..k'];
    ExecConcat(Initial, actions[..k], actions[k..k']);
    CallsOnlyGrow(Exec(Initial, actions[..k]), actions[k..k'], r);
  }

  lemma NextStep(actions: seq<Action>, k: nat)
    requires k < |actions|
    ensures Exec(Initial, actions[..k + 1]) == Step(Exec(Initial, actions[..k]), actions[k])
  {
    var before, last := LastStep(actions[..k + 1]);
    assert before == actions[..k];
  }

  lemma NotYetCalled(s: System, p: Pid)
    requires Inv(s) && p in s.processes && s.processes[p].revision in s.slots
    ensures s.processes[p].pc == MainExecuting ==> s.slots[s.processes[p].revision].history.mainCalls == 0
    ensures s.processes[p].pc == SummaryExecuting ==> s.slots[s.processes[p].revision].history.summaryCalls == 0
  {
    hide SlotOk;
    assert ProcessIn(s, p);
  }

  lemma CallingIsFirst(actions: seq<Action>, k: nat, r: Revision)
    requires k < |actions|
    ensures ActsAt(actions, k, r, MainExecuting) && actions[k].ExecuteMain? ==>
              && r in Exec(Initial, actions[..k]).slots && Exec(Initial, actions[..k]).slots[r].history.mainCalls == 0
              && r in Exec(Initial, actions[..k + 1]).slots && Exec(Initial, actions[..k + 1]).slots[r].history.mainCalls > 0
    ensures ActsAt(actions, k, r, SummaryExecuting) && actions[k].ExecuteSummary? ==>
              && r in Exec(Initial, actions[..k]).slots && Exec(Initial, actions[..k]).slots[r].history.summaryCalls == 0
              && r in Exec(Initial, actions[..k + 1]).slots && Exec(Initial, actions[..k + 1]).slots[r].history.summaryCalls > 0
  {
    hide Exec, Act, Inv, Step;
    var s, a := Exec(Initial, actions[..k]), actions[k];
    NextStep(actions, k);
    RunKeepsInv(actions[..k]);
    if IsOwnStep(s, a) {
      NotYetCalled(s, a.pid);
      EffectOnCalls(a.pid, a, ViewIn(s, a.pid));
      StepAdvances(s, a, s.processes[a.pid].revision);
      SlotShape(s, a, s.processes[a.pid].revision);
    }
  }

  // In every run there is at most one main call and at most one summary call for a revision, whoever makes
  // it and whatever comes back.
  lemma CallsHappenOnce(actions: seq<Action>, k: nat, k': nat, r: Revision)
    requires k < |actions| && k' < |actions|
    ensures MainCalledAt(actions, k, r) && MainCalledAt(actions, k', r) ==> k == k'
    ensures SummaryCalledAt(actions, k, r) && SummaryCalledAt(actions, k', r) ==> k == k'
  {
    if k < k' {
      CallsInOrder(actions, k, k', r);
    } else if k' < k {
      CallsInOrder(actions, k', k, r);
    }
  }

  predicate MainCalledAt(actions: seq<Action>, k: nat, r: Revision)
    requires k < |actions|
  {
    ActsAt(actions, k, r, MainExecuting) && actions[k].ExecuteMain?
  }

  predicate SummaryCalledAt(actions: seq<Action>, k: nat, r: Revision)
    requires k < |actions|
  {
    ActsAt(actions, k, r, SummaryExecuting) && actions[k].ExecuteSummary?
  }

  lemma CallsInOrder(actions: seq<Action>, k: nat, k': nat, r: Revision)
    requires k < k' < |actions|
    ensures !(MainCalledAt(actions, k, r) && MainCalledAt(actions, k', r))
    ensures !(SummaryCalledAt(actions, k, r) && SummaryCalledAt(actions, k', r))
  {
    hide Exec, ActsAt;
    CallingIsFirst(actions, k, r);
    CallingIsFirst(actions, k', r);
    if r in Exec(Initial, actions[..k + 1]).slots {
      Later(actions, k + 1, k', r);
    }
  }

  // ... and at most one charge of each operation.
  lemma ChargesHappenOnce(actions: seq<Action>, k: nat, k': nat, r: Revision)
    requires k < |actions| && k' < |actions|
    ensures MainChargedAt(actions, k, r) && MainChargedAt(actions, k', r) ==> k == k'
    ensures SummaryChargedAt(actions, k, r) && SummaryChargedAt(actions, k', r) ==> k == k'
  {
    hide Exec;
    if (MainChargedAt(actions, k, r) && MainChargedAt(actions, k', r)) || (SummaryChargedAt(actions, k, r) && SummaryChargedAt(actions, k', r)) {
      if k < k' { Later(actions, k + 1, k', r); }
      if k' < k { Later(actions, k' + 1, k, r); }
    }
  }

  // ----- at the door, and what happens by itself -----

  // Where a request goes that finds the outcome in this phase.
  predicate SentTo(phase: Phase, pc: Pc) {
    && (phase == Intent || phase == MainSettled ==> pc == Beginning)
    && (phase == SettledPendingCommit ==> pc == Confirming)
    && (phase == Committed ==> pc == Answering)
    && (phase == MainDispatched || phase == SummaryDispatched || phase == TerminalFailed || phase == Expired ==> pc == Failed)
  }

  // A request is turned away exactly when its revision is the last a signed 64-bit integer holds, when another
  // key has its revision, or when its key has another revision; nothing is reserved then.  Otherwise it finds
  // the outcome of its revision, a new one or the old one, scrubbed if its time is over, and goes where the
  // phase sends it.
  lemma StartMeans(s: System, pid: Pid, revision: Revision, key: Key)
    requires pid !in s.processes
    ensures var t := Step(s, Start(pid, revision, key));
            var refused := revision >= 9223372036854775807 || exists r :: r in s.slots && (r == revision) != (s.slots[r].row.key == key);
            && t.conversation == s.conversation && pid in t.processes
            && t.processes == s.processes[pid := t.processes[pid]] && t.processes[pid].revision == revision
            && !t.processes[pid].holdsMain && !t.processes[pid].holdsSummary && t.processes[pid].fence == 0
            && (refused ==> t.slots == s.slots && t.processes[pid].pc == Failed)
            && (!refused ==>
                  && revision in t.slots && t.slots == s.slots[revision := t.slots[revision]]
                  && var slot := t.slots[revision];
                  && (revision !in s.slots ==>
                        slot == Slot(Row(key, Intent, 0, "", None, None, None, false), Unreserved, Unreserved, NoHistory))
                  && (revision in s.slots && !s.slots[revision].row.timedOut ==> slot == s.slots[revision])
                  && (revision in s.slots && s.slots[revision].row.timedOut ==>
                        slot == s.slots[revision].(row := Row(key, Expired, 0, "", None, None, None, true)))
                  && t.processes[pid].copy == slot.row && SentTo(slot.row.phase, t.processes[pid].pc))
  {
    assert Conflicts(s.slots, revision, key) <==> exists r :: r in s.slots && (r == revision) != (s.slots[r].row.key == key);
  }

  // The clock, the scrubber and the lease each touch one thing.
  lemma EnvironmentMeans(s: System, r: Revision)
    ensures var t := Step(s, TimeOut(r));
            && t.conversation == s.conversation && t.processes == s.processes
            && t.slots == if r in s.slots then s.slots[r := s.slots[r].(row := s.slots[r].row.(timedOut := true))] else s.slots
    ensures var t := Step(s, Scrub(r));
            && t.conversation == s.conversation && t.processes == s.processes
            && t.slots == if r in s.slots && s.slots[r].row.timedOut
                          then s.slots[r := s.slots[r].(row := Row(s.slots[r].row.key, Expired, 0, "", None, None, None, true))]
                          else s.slots
    ensures Step(s, LeaseExpires) == s.(conversation := s.conversation.(lease := None))
  {}

  // Reserving again changes nothing, and only a refunded operation cannot be reserved.
  lemma ReservingTwice(bill: Bill)
    ensures ReserveBill(bill).None? <==> bill == Refunded
    ensures ReserveBill(bill).Some? ==>
              && ReserveBill(ReserveBill(bill).value) == ReserveBill(bill)
              && (ReserveBill(bill).value == Settled <==> bill == Settled) && ReserveBill(bill).value != Unreserved
              && RefundBill(ReserveBill(bill).value) == if bill == Settled then Settled else Refunded
  {}

  // ----- what a request reserves is its own to give back -----

  lemma EffectOnHolds(pid: Pid, a: Action, v: View)
    ensures var v' := Act(pid, a, v);
            && (v.process.holdsMain ==> v'.process.holdsMain) && (v.process.holdsSummary ==> v'.process.holdsSummary)
            && (a.ReserveMain? && v.process.pc == MainPreparing && v.slot.mainBill != Refunded ==> v'.process.holdsMain)
            && (a.ReserveSummary? && v.process.pc == SummaryPreparing && v.slot.summaryBill != Refunded ==> v'.process.holdsSummary)
  {
    hide SafeContentType, Frozen, Storable;
  }

  lemma EffectOnRefunds(pid: Pid, a: Action, v: View)
    ensures var v' := Act(pid, a, v);
            && (v'.slot.mainBill == Refunded && v.slot.mainBill != Refunded ==> a.RefundMain? && v.process.pc == Failed && v.process.holdsMain)
            && (v'.slot.summaryBill == Refunded && v.slot.summaryBill != Refunded ==>
                  a.RefundSummary? && v.process.pc == Failed && v.process.holdsSummary)
  {
    hide SafeContentType, Frozen, Storable;
  }

  // An operation is only ever refunded by a request that has failed and holds it.
  lemma OnlyFailedRefunds(s: System, a: Action, r: Revision)
    requires r in s.slots
    ensures var t := Step(s, a);
            && r in t.slots
            && (t.slots[r].mainBill == Refunded && s.slots[r].mainBill != Refunded ==>
                  a.RefundMain? && IsOwnStep(s, a) && s.processes[a.pid].revision == r
                  && s.processes[a.pid].pc == Failed && s.processes[a.pid].holdsMain)
    ensures var t := Step(s, a);
            t.slots[r].summaryBill == Refunded && s.slots[r].summaryBill != Refunded ==>
              a.RefundSummary? && IsOwnStep(s, a) && s.processes[a.pid].revision == r
              && s.processes[a.pid].pc == Failed && s.processes[a.pid].holdsSummary
  {
    hide Act, Step;
    StepAdvances(s, a, r);
    SlotShape(s, a, r);
    if IsOwnStep(s, a) && s.processes[a.pid].revision == r {
      EffectOnRefunds(a.pid, a, ViewIn(s, a.pid));
    }
  }

  predicate Holding(s: System, t: System, p: Pid) {
    p in s.processes ==>
      && p in t.processes && t.processes[p].revision == s.processes[p].revision
      && (s.processes[p].holdsMain ==> t.processes[p].holdsMain) && (s.processes[p].holdsSummary ==> t.processes[p].holdsSummary)
  }

  lemma {:induction false} HoldsStay(s: System, actions: seq<Action>, p: Pid)
    ensures Holding(s, Exec(s, actions), p)
    decreases |actions|
  {
    hide Act, Step;
    if actions != [] {
      var a := actions[0];
      StepShape(s, a);
      if IsOwnStep(s, a) && a.pid == p {
        EffectOnHolds(p, a, ViewIn(s, p));
        EffectOnFences(p, a, ViewIn(s, p));
      }
      HoldsStay(Step(s, a), actions[1..], p);
    }
  }

  // The request reserved the operation at step k.
  predicate ReservedMainAt(actions: seq<Action>, k: nat, p: Pid, r: Revision)
    requires k < |actions|
  {
    ActsAt(actions, k, r, MainPreparing) && actions[k] == ReserveMain(p) && Exec(Initial, actions[..k]).slots[r].mainBill != Refunded
  }

  predicate ReservedSummaryAt(actions: seq<Action>, k: nat, p: Pid, r: Revision)
    requires k < |actions|
  {
    ActsAt(actions, k, r, SummaryPreparing) && actions[k] == ReserveSummary(p) && Exec(Initial, actions[..k]).slots[r].summaryBill != Refunded
  }

  lemma ReservedIsHeld(actions: seq<Action>, k: nat, p: Pid, r: Revision)
    requires k < |actions|
    ensures ReservedMainAt(actions, k, p, r) ==>
              var s := Exec(Initial, actions); p in s.processes && s.processes[p].revision == r && s.processes[p].holdsMain
    ensures ReservedSummaryAt(actions, k, p, r) ==>
              var s := Exec(Initial, actions); p in s.processes && s.processes[p].revision == r && s.processes[p].holdsSummary
  {
    hide Exec, Act, Step;
    var s, a := Exec(Initial, actions[..k]), actions[k];
    NextStep(actions, k);
    if IsOwnStep(s, a) && a.pid == p {
      EffectOnHolds(p, a, ViewIn(s, p));
      EffectOnFences(p, a, ViewIn(s, p));
      StepShape(s, a);
      assert actions == actions[..k + 1] + actions[k + 1..];
      ExecConcat(Initial, actions[..k + 1], actions[k + 1..]);
      HoldsStay(Exec(Initial, actions[..k + 1]), actions[k + 1..], p);
    }
  }

  // In every run: once a request that failed has had its clean-up effects, each operation it reserved is
  // settled or refunded, whoever else may have reserved or settled it.
  lemma ReservedIsGivenBack(before: seq<Action>, later: seq<Action>, p: Pid, r: Revision, k: nat)
    requires k < |before| && (ReservedMainAt(before, k, p, r) || ReservedSummaryAt(before, k, p, r))
    requires IsOver(Exec(Initial, before), p)
    requires RefundMain(p) in later && RefundSummary(p) in later && ReleaseLease(p) in later
    requires var t := Exec(Exec(Initial, before), later); p in t.processes && t.processes[p].pc == Failed
    ensures var t := Exec(Initial, before + later);
            && r in t.slots
            && (ReservedMainAt(before, k, p, r) ==> t.slots[r].mainBill == Settled || t.slots[r].mainBill == Refunded)
            && (ReservedSummaryAt(before, k, p, r) ==> t.slots[r].summaryBill == Settled || t.slots[r].summaryBill == Refunded)
  {
    hide Exec, Act, Step;
    FailedIsTidied(before, later, p);
    assert (before + later)[..k] == before[..k] && (before + later)[k] == before[k];
    ReservedIsHeld(before + later, k, p, r);
    assert ActsAt(before + later, k, r, MainPreparing) <==> ActsAt(before, k, r, MainPreparing);
    assert ActsAt(before + later, k, r, SummaryPreparing) <==> ActsAt(before, k, r, SummaryPreparing);
    var s := Exec(Initial, before[..k]);
    assert r in s.slots;
    ExecConcat(Initial, before[..k], (before + later)[k..]);
    assert before + later == before[..k] + (before + later)[k..];
    PhasesMoveForward(s, (before + later)[k..], r);
  }

  // ----- what becomes of a call -----

  // A main call that returns nothing leads back to the gate, where the spent phase stops the next attempt; one
  // that returns a response goes on to be settled exactly if that is a success of at most two mebibytes.
  lemma MainCallEnds(pid: Pid, v: View, upstream: Option<Response>)
    requires v.process.pc == MainExecuting
    ensures var v1 := Act(pid, ExecuteMain(pid, upstream), v); var v2 := Act(pid, EnterAttempt(pid), v1);
            && v1.slot.row == v.slot.row && v1.slot.mainBill == v.slot.mainBill && v1.conversation == v.conversation
            && (upstream.None? ==> v1.process == v.process.(pc := MainGate)
                                   && (v.process.copy.phase == MainDispatched ==> v2 == v1.(process := v.process.(pc := Failed))))
            && (upstream.Some? ==>
                  && v1.process.buffer == upstream
                  && v1.process.pc == if 200 <= upstream.value.status <= 299 && |upstream.value.body| <= 2097152 then MainSettling else Failed)
  {}

  // A summary call is billed exactly when it reports usage, and checkpointed exactly when its summary is valid.
  lemma SummaryIsBilledIff(pid: Pid, v: View, result: SummaryResult)
    requires v.process.pc == SummaryExecuting && v.slot.summaryBill == Reserved
    requires v.slot.row.phase == SummaryDispatched && !v.slot.row.timedOut
    ensures var w := Act(pid, SettleSummary(pid), Act(pid, ExecuteSummary(pid, result), v));
            && w.conversation == v.conversation && w.slot.mainBill == v.slot.mainBill
            && w.slot.summaryBill == (if result == UpstreamError || result == NoUsage then Reserved else Settled)
            && w.process.pc == (if result.ValidSummary? then SummaryReloading else Failed)
            && w.slot.row == if result.ValidSummary?
                             then v.slot.row.(phase := SettledPendingCommit, nextState := Some(NextState(v.process.revision + 1, result.content)))
                             else v.slot.row
  {}

  // What is settled already is not charged again, and the request goes on as after its own settlement.
  lemma SettledIsNotCharged(pid: Pid, v: View, snapshot: int)
    ensures v.process.pc == MainSettling && v.slot.mainBill == Settled ==>
              Act(pid, SettleMain(pid, snapshot), v) == v.(process := v.process.(pc := MainReloading))
    ensures v.process.pc == SummarySettling(true) && v.slot.summaryBill == Settled ==>
              Act(pid, SettleSummary(pid), v) == v.(process := v.process.(pc := SummaryReloading))
    ensures v.process.pc == SummarySettling(false) && v.slot.summaryBill == Settled ==>
              Act(pid, SettleSummary(pid), v) == v.(process := v.process.(pc := Failed))
  {}

  // A stored response is read back exactly when it is a success of at most two mebibytes and agrees with the
  // row's own status and content type.
  lemma ReadIff(row: Row)
    ensures ReadResponse(row).Some? <==>
              && row.responsePayload.Some?
              && var stored := row.responsePayload.value;
              && 200 <= stored.status <= 299 && |stored.body| <= 2097152 && row.responseStatus == stored.status
              && row.responseContentType == if NamesType(stored.contentType, "application/problem+json")
                                            then "application/problem+json" else "application/json"
    ensures ReadResponse(row).Some? ==>
              && ReadResponse(row).value.status == row.responsePayload.value.status
              && ReadResponse(row).value.body == row.responsePayload.value.body
  {
    hide SafeContentType, NamesType;
    if row.responsePayload.Some? {
      ContentTypeIff(row.responsePayload.value.contentType);
    }
  }
}
