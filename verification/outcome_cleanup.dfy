// Giving back what a failed request holds: refunds and the release of the lease may come in
// any order, late, and amid everything others do.

module OutcomeCleanUp {
  import opened Options
  import opened OutcomeStore
  import opened OutcomeProtocol
  import opened OutcomeInvariant
  import opened OutcomeSafety
  import opened OutcomeTheorems
  import opened OutcomeFencing

  predicate Over(pc: Pc) { pc == Finished || pc == Failed || pc == Crashed }

  // An operation is reserved once, and then settled or refunded for good.
  predicate Progress(bill: Bill, bill': Bill) {
    bill' == bill || bill == Unreserved || (bill == Reserved && (bill' == Settled || bill' == Refunded))
  }

  predicate Closed(bill: Bill) {
    bill == Settled || bill == Refunded
  }

  predicate HoldsReal(process: Process, slot: Slot) {
    (process.holdsMain ==> slot.mainBill != Unreserved) && (process.holdsSummary ==> slot.summaryBill != Unreserved)
  }

  lemma EffectOnBills(pid: Pid, a: Action, v: View)
    ensures var v' := Act(pid, a, v);
            Progress(v.slot.mainBill, v'.slot.mainBill) && Progress(v.slot.summaryBill, v'.slot.summaryBill)
    ensures HoldsReal(v.process, v.slot) ==> HoldsReal(Act(pid, a, v).process, Act(pid, a, v).slot)
  {
    hide SafeContentType, Frozen, Storable;
  }

  lemma StepOnBills(s: System, a: Action, r: Revision)
    requires r in s.slots
    ensures r in Step(s, a).slots
            && Progress(s.slots[r].mainBill, Step(s, a).slots[r].mainBill)
            && Progress(s.slots[r].summaryBill, Step(s, a).slots[r].summaryBill)
  {
    hide Act;
    if IsOwnStep(s, a) && s.processes[a.pid].revision == r {
      EffectOnBills(a.pid, a, ViewIn(s, a.pid));
    }
  }

  predicate HoldsIn(s: System, p: Pid)
    requires p in s.processes
  {
    var process := s.processes[p];
    process.holdsMain || process.holdsSummary || process.fence > 0 ==>
      process.revision in s.slots && HoldsReal(process, s.slots[process.revision])
  }

  // In every run, a request that holds anything was let in, and what it holds was really reserved.
  lemma {:induction false} HeldIsReserved(actions: seq<Action>)
    ensures forall p :: p in Exec(Initial, actions).processes ==> HoldsIn(Exec(Initial, actions), p)
    decreases |actions|
  {
    if actions != [] {
      var before, a := LastStep(actions);
      HeldIsReserved(before);
      var s := Exec(Initial, before);
      forall p | p in Step(s, a).processes ensures HoldsIn(Step(s, a), p) {
        if p in s.processes {
          assert HoldsIn(s, p);
        }
        StepKeepsHolds(s, a, p);
      }
    }
  }

  lemma StepKeepsHolds(s: System, a: Action, p: Pid)
    requires p in Step(s, a).processes && (p in s.processes ==> HoldsIn(s, p))
    ensures HoldsIn(Step(s, a), p)
  {
    hide Act;
    if p !in s.processes {
      assert a.Start?;
    } else if IsOwnStep(s, a) && a.pid == p {
      EffectOnFences(p, a, ViewIn(s, p));
      EffectOnBills(p, a, ViewIn(s, p));
    } else {
      hide Step;
      StepShape(s, a);
      if s.processes[p].revision in s.slots {
        StepOnBills(s, a, s.processes[p].revision);
      }
    }
  }

  // What has been given back of what the request held.
  predicate MainBack(process: Process, slot: Slot) {
    process.holdsMain ==> Closed(slot.mainBill)
  }

  predicate SummaryBack(process: Process, slot: Slot) {
    process.holdsSummary ==> Closed(slot.summaryBill)
  }

  predicate LeaseBack(pid: Pid, process: Process, c: Conversation) {
    c.lease != Some(Lease(pid, process.fence))
  }

  /** Nothing this request reserved is still reserved, and it holds no lease. */
  predicate Tidied(pid: Pid, v: View) {
    MainBack(v.process, v.slot) && SummaryBack(v.process, v.slot) && LeaseBack(pid, v.process, v.conversation)
  }

  predicate LetInAndOver(s: System, pid: Pid) {
    IsOver(s, pid) && s.processes[pid].revision in s.slots
  }

  lemma OverActs(pid: Pid, a: Action, v: View)
    requires Over(v.process.pc)
    ensures var v' := Act(pid, a, v);
            && v'.process == v.process.(pc := v'.process.pc) && Over(v'.process.pc)
            && (v.process.pc != Failed ==> v'.process.pc == v.process.pc)
            && v'.conversation.fence == v.conversation.fence && (v'.process.pc != v.process.pc ==> a.Crash? && v'.process.pc == Crashed)
    ensures a == RefundMain(pid) && v.process.pc == Failed && HoldsReal(v.process, v.slot) ==> MainBack(v.process, Act(pid, a, v).slot)
    ensures a == RefundSummary(pid) && v.process.pc == Failed && HoldsReal(v.process, v.slot) ==> SummaryBack(v.process, Act(pid, a, v).slot)
    ensures a == ReleaseLease(pid) && v.process.pc != Crashed ==> LeaseBack(pid, v.process, Act(pid, a, v).conversation)
  {
    hide SafeContentType, Frozen, Storable;
  }

  predicate IsOver(s: System, pid: Pid) {
    pid in s.processes && Over(s.processes[pid].pc)
  }

  // A request that is over stays as it is, but for dying.
  lemma StepLeavesOver(s: System, a: Action, pid: Pid)
    requires IsOver(s, pid)
    ensures var s' := Step(s, a);
            && IsOver(s', pid) && s'.processes[pid] == s.processes[pid].(pc := s'.processes[pid].pc)
            && (s.processes[pid].pc != Failed ==> s'.processes[pid].pc == s.processes[pid].pc)
            && (s'.processes[pid].pc != s.processes[pid].pc ==> a == Crash(pid) && s'.processes[pid].pc == Crashed)
            && (s.processes[pid].revision in s.slots ==> s.processes[pid].revision in s'.slots)
  {
    hide Act;
    StepShape(s, a);
    if s.processes[pid].revision in s.slots {
      StepOnBills(s, a, s.processes[pid].revision);
    }
    if IsOwnStep(s, a) && a.pid == pid {
      OverActs(pid, a, ViewIn(s, pid));
    }
  }

  lemma {:induction false} RunLeavesOver(s: System, later: seq<Action>, pid: Pid)
    requires IsOver(s, pid)
    ensures IsOver(Exec(s, later), pid)
            && Exec(s, later).processes[pid] == s.processes[pid].(pc := Exec(s, later).processes[pid].pc)
    decreases |later|
  {
    hide Step, Over;
    if later != [] {
      StepLeavesOver(s, later[0], pid);
      RunLeavesOver(Step(s, later[0]), later[1..], pid);
    }
  }

  lemma StepGivesBack(s: System, a: Action, pid: Pid)
    requires LetInAndOver(s, pid) && HoldsIn(s, pid)
    ensures var process, slot, s' := s.processes[pid], s.slots[s.processes[pid].revision], Step(s, a);
            && s'.processes[pid].revision == process.revision && process.revision in s'.slots
            && var slot' := s'.slots[process.revision];
            && (MainBack(process, slot) || (a == RefundMain(pid) && process.pc == Failed) ==> MainBack(process, slot'))
            && (SummaryBack(process, slot) || (a == RefundSummary(pid) && process.pc == Failed) ==> SummaryBack(process, slot'))
            && (LeaseBack(pid, process, s.conversation) || (a == ReleaseLease(pid) && process.pc != Crashed)
                ==> LeaseBack(pid, process, s'.conversation))
  {
    hide Act;
    StepShape(s, a);
    StepLeavesOver(s, a, pid);
    StepOnBills(s, a, s.processes[pid].revision);
    if IsOwnStep(s, a) {
      EffectOnFences(a.pid, a, ViewIn(s, a.pid));
      if a.pid == pid {
        OverActs(pid, a, ViewIn(s, pid));
      }
    }
  }

  // Whatever else happens and in whatever order the three effects come: once a request that failed has had
  // each of them, nothing it reserved is still reserved and it holds no lease, now and ever after.
  lemma {:induction false} GivenBackForGood(s: System, later: seq<Action>, pid: Pid)
    requires LetInAndOver(s, pid) && HoldsIn(s, pid)
    ensures var process, slot, t := s.processes[pid], s.slots[s.processes[pid].revision], Exec(s, later);
            && LetInAndOver(t, pid) && t.processes[pid] == process.(pc := t.processes[pid].pc)
            && var slot' := t.slots[process.revision]; var pc' := t.processes[pid].pc;
            && (MainBack(process, slot) || (RefundMain(pid) in later && pc' == Failed) ==> MainBack(process, slot'))
            && (SummaryBack(process, slot) || (RefundSummary(pid) in later && pc' == Failed) ==> SummaryBack(process, slot'))
            && (LeaseBack(pid, process, s.conversation) || (ReleaseLease(pid) in later && pc' != Crashed)
                ==> LeaseBack(pid, process, t.conversation))
            && (process.pc != Failed ==> pc' == process.pc)
    decreases |later|
  {
    hide Act, Step, MainBack, SummaryBack, LeaseBack, HoldsIn, Over;
    if later != [] {
      var a := later[0];
      StepGivesBack(s, a, pid);
      StepLeavesOver(s, a, pid);
      StepKeepsHolds(s, a, pid);
      SameHolder(s.processes[pid], Step(s, a).processes[pid]);
      GivenBackForGood(Step(s, a), later[1..], pid);
      assert forall x :: x in later ==> x == a || x in later[1..];
    }
  }

  lemma SameHolder(process: Process, process': Process)
    requires process' == process.(pc := process'.pc)
    ensures forall slot :: MainBack(process', slot) <==> MainBack(process, slot)
    ensures forall slot :: SummaryBack(process', slot) <==> SummaryBack(process, slot)
    ensures forall pid, c :: LeaseBack(pid, process', c) <==> LeaseBack(pid, process, c)
  {}

  predicate TidiedIn(s: System, pid: Pid)
    requires pid in s.processes
  {
    s.processes[pid].revision in s.slots ==> Tidied(pid, ViewIn(s, pid))
  }

  // In every run: a failed request that has had all three effects is tidy, and stays so; one that was
  // rejected at the door holds nothing to begin with.
  lemma FailedIsTidied(before: seq<Action>, later: seq<Action>, pid: Pid)
    requires IsOver(Exec(Initial, before), pid)
    requires RefundMain(pid) in later && RefundSummary(pid) in later && ReleaseLease(pid) in later
    requires var t := Exec(Exec(Initial, before), later); pid in t.processes && t.processes[pid].pc == Failed
    ensures var t := Exec(Initial, before + later); pid in t.processes && TidiedIn(t, pid)
  {
    hide Act, Step, Inv;
    var s := Exec(Initial, before);
    HeldIsReserved(before);
    ExecConcat(Initial, before, later);
    assert HoldsIn(s, pid);
    if s.processes[pid].revision in s.slots {
      GivenBackForGood(s, later, pid);
    } else {
      RunLeavesOver(s, later, pid);
      RunKeepsInv(before + later);
      LeasesHaveTokens(Exec(Initial, before + later));
    }
  }

  lemma LeasesHaveTokens(s: System)
    requires Inv(s)
    ensures s.conversation.lease.Some? ==> s.conversation.lease.value.fence > 0
  {}
}
