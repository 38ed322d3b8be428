// Leases and fencing tokens: who may store the next revision, whose it is when a
// reply was lost, and what a lapsed outcome can still do.

module OutcomeFencing {
  import opened Options
  import opened OutcomeStore
  import opened OutcomeProtocol
  import opened OutcomeTheorems

  // The part of a request that runs under a lease.
  predicate UnderLease(pc: Pc) {
    !(pc.Confirming? || pc.Beginning? || pc.Marking? || pc.Answering? || pc.Finished? || pc.Failed? || pc.Crashed?)
  }

  predicate HasToken(process: Process) {
    UnderLease(process.pc) ==> process.fence > 0
  }

  predicate FenceOk(s: System, p: Pid)
    requires p in s.processes
  {
    s.processes[p].fence <= s.conversation.fence && HasToken(s.processes[p])
  }

  predicate FencesDiffer(s: System, p: Pid, q: Pid)
    requires p in s.processes && q in s.processes
  {
    p != q && s.processes[p].fence > 0 ==> s.processes[p].fence != s.processes[q].fence
  }

  predicate Fenced(s: System) {
    && (forall p :: p in s.processes ==> FenceOk(s, p))
    && (forall p, q :: p in s.processes && q in s.processes ==> FencesDiffer(s, p, q))
    && s.conversation.writerFence <= s.conversation.fence
  }

  // An effect leaves the tokens alone, or hands the next one to the acting process, and only when the
  // lease is free.
  predicate TakesFence(pid: Pid, v: View, v': View) {
    && v.conversation.lease.None?
    && v'.process.fence == v'.conversation.fence == v.conversation.fence + 1
    && v'.conversation.lease == Some(Lease(pid, v'.process.fence))
    && v'.conversation.log == v.conversation.log && v'.conversation.writerFence == v.conversation.writerFence
  }

  predicate KeepsFence(v: View, v': View) {
    && v'.process.fence == v.process.fence && v'.conversation.fence == v.conversation.fence
    && (v'.conversation.lease == v.conversation.lease || v'.conversation.lease.None?)
  }

  // Storing a state: only under the current lease, on the expected revision, and the checkpointed state.
  predicate Stores(pid: Pid, v: View, v': View) {
    && v.conversation.lease == Some(Lease(pid, v.process.fence)) && v.conversation.revision == v.process.revision
    && v.process.copy.nextState.Some?
    && v'.conversation == v.conversation.(revision := v.process.revision + 1, state := v.process.copy.nextState,
                                          writerFence := v.process.fence, log := v.conversation.log + [v.process.copy.nextState.value])
  }

  predicate SameRecord(c: Conversation, c': Conversation) {
    c'.log == c.log && c'.revision == c.revision && c'.state == c.state && c'.writerFence == c.writerFence
  }

  lemma EffectOnTokens(pid: Pid, a: Action, v: View)
    ensures var v' := Act(pid, a, v);
            (TakesFence(pid, v, v') || KeepsFence(v, v')) && v'.process.revision == v.process.revision
  {
    hide SafeContentType, Frozen, Storable;
  }

  lemma EffectKeepsToken(pid: Pid, a: Action, v: View)
    requires HasToken(v.process)
    ensures HasToken(Act(pid, a, v).process)
  {
    hide SafeContentType, Frozen, Storable;
  }

  lemma EffectOnRecord(pid: Pid, a: Action, v: View)
    ensures var v' := Act(pid, a, v);
            SameRecord(v.conversation, v'.conversation) || (a.Swap? && Stores(pid, v, v'))
  {
    hide SafeContentType, Frozen, Storable;
  }

  lemma EffectOnFences(pid: Pid, a: Action, v: View)
    ensures var v' := Act(pid, a, v);
            && (TakesFence(pid, v, v') || KeepsFence(v, v'))
            && (SameRecord(v.conversation, v'.conversation) || (a.Swap? && KeepsFence(v, v') && Stores(pid, v, v')))
            && v'.process.revision == v.process.revision
  {
    hide Act;
    EffectOnTokens(pid, a, v);
    EffectOnRecord(pid, a, v);
  }

  // Without any assumption on the state: a request goes on to mark its outcome committed only when
  // the conversation holds the very state it checkpointed, one revision on.
  lemma MarkingIsJustified(pid: Pid, a: Action, v: View)
    requires v.process.pc != Marking && Act(pid, a, v).process.pc == Marking
    ensures var c := Act(pid, a, v).conversation; c.revision == v.process.revision + 1 && c.state == v.process.copy.nextState
    ensures Act(pid, a, v).slot == v.slot
  {
    hide SafeContentType, Frozen, Storable;
  }

  predicate IsOwnStep(s: System, a: Action) {
    !(a.Start? || a.LeaseExpires? || a.TimeOut? || a.Scrub?) && a.pid in s.processes && s.processes[a.pid].revision in s.slots
  }

  function ViewIn(s: System, pid: Pid): View
    requires pid in s.processes && s.processes[pid].revision in s.slots
  {
    View(s.processes[pid], s.slots[s.processes[pid].revision], s.conversation)
  }

  // A step is an effect of one process or leaves tokens and record alone.
  lemma StepShape(s: System, a: Action)
    ensures var s' := Step(s, a);
            if IsOwnStep(s, a) then
              var v' := Act(a.pid, a, ViewIn(s, a.pid));
              s'.processes == s.processes[a.pid := v'.process] && s'.conversation == v'.conversation
            else
              && SameRecord(s.conversation, s'.conversation) && s'.conversation.fence == s.conversation.fence
              && (s'.conversation.lease == s.conversation.lease || s'.conversation.lease.None?)
              && s.processes.Keys <= s'.processes.Keys
              && (forall p :: p in s.processes ==> s'.processes[p] == s.processes[p])
              && (forall p :: p in s'.processes && p !in s.processes ==> s'.processes[p].fence == 0 && !UnderLease(s'.processes[p].pc))
  {
    hide Act;
  }

  lemma StepKeepsFenced(s: System, a: Action)
    requires Fenced(s)
    ensures Fenced(Step(s, a))
  {
    hide Act, Step, UnderLease;
    var s' := Step(s, a);
    StepShape(s, a);
    if IsOwnStep(s, a) {
      EffectOnFences(a.pid, a, ViewIn(s, a.pid));
      assert FenceOk(s, a.pid);
      EffectKeepsToken(a.pid, a, ViewIn(s, a.pid));
    }
    forall p | p in s'.processes ensures FenceOk(s', p) {
      if p in s.processes { assert FenceOk(s, p); }
    }
    forall p, q | p in s'.processes && q in s'.processes ensures FencesDiffer(s', p, q) {
      if p in s.processes && q in s.processes {
        assert FencesDiffer(s, p, q) && FenceOk(s, p) && FenceOk(s, q);
      }
    }
  }

  // In every run no two requests ever hold the same fencing token.
  lemma {:induction false} TokensAreUnique(actions: seq<Action>)
    ensures Fenced(Exec(Initial, actions))
    decreases |actions|
  {
    if actions != [] {
      var before, last := LastStep(actions);
      TokensAreUnique(before);
      StepKeepsFenced(Exec(Initial, before), last);
    }
  }

  lemma LastStep(actions: seq<Action>) returns (before: seq<Action>, last: Action)
    requires actions != []
    ensures before == actions[..|actions| - 1] && last == actions[|actions| - 1]
    ensures Exec(Initial, actions) == Step(Exec(Initial, before), last)
  {
    before, last := actions[..|actions| - 1], actions[|actions| - 1];
    assert actions == before + [last];
    ExecConcat(Initial, before, [last]);
    var s := Exec(Initial, before);
    assert Exec(s, [last]) == Exec(Step(s, last), []);
  }

  // At step k the request stored a state itself.
  predicate StoredAt(actions: seq<Action>, pid: Pid, k: nat)
    requires k < |actions|
  {
    && actions[k].Swap? && actions[k].pid == pid
    && |Exec(Initial, actions[..k + 1]).conversation.log| == |Exec(Initial, actions[..k]).conversation.log| + 1
  }

  // Whoever holds the token of the last writer is the last writer.
  lemma {:induction false} TokenNamesWriter(actions: seq<Action>, pid: Pid)
    requires var s := Exec(Initial, actions);
             pid in s.processes && s.processes[pid].fence > 0 && s.conversation.writerFence == s.processes[pid].fence
    ensures exists k :: 0 <= k < |actions| && StoredAt(actions, pid, k)
    decreases |actions|
  {
    hide Act, Step;
    if actions != [] {
      var before, a := LastStep(actions);
      var s, s' := Exec(Initial, before), Exec(Initial, actions);
      TokensAreUnique(before);
      TokensAreUnique(actions);
      StepShape(s, a);
      var n := |actions| - 1;
      assert actions[..n + 1] == actions && actions[..n] == before;
      if IsOwnStep(s, a) {
        EffectOnFences(a.pid, a, ViewIn(s, a.pid));
      }
      if !SameRecord(s.conversation, s'.conversation) {
        assert FencesDiffer(s', pid, a.pid);
        assert StoredAt(actions, pid, n);
      } else {
        assert pid in s.processes && s.processes[pid].fence == s'.processes[pid].fence;
        TokenNamesWriter(before, pid);
        var k :| 0 <= k < n && StoredAt(before, pid, k);
        assert before[..k + 1] == actions[..k + 1] && before[..k] == actions[..k];
        assert StoredAt(actions, pid, k);
      }
    }
  }

  // A request that resolves an unclear reply as a success stored the state itself, earlier in the run.
  lemma ResolvedWasOwn(actions: seq<Action>, pid: Pid)
    requires var s := Exec(Initial, actions);
             && pid in s.processes && s.processes[pid].revision in s.slots && s.processes[pid].pc.Resolving?
             && Step(s, Resolve(pid)).processes[pid].pc == Marking
    ensures exists k :: 0 <= k < |actions| && StoredAt(actions, pid, k)
  {
    hide Act, Exec, Step, StoredAt;
    var s := Exec(Initial, actions);
    StepShape(s, Resolve(pid));
    ResolveChecksToken(pid, ViewIn(s, pid));
    TokensAreUnique(actions);
    assert FenceOk(s, pid);
    TokenNamesWriter(actions, pid);
  }

  lemma ResolveChecksToken(pid: Pid, v: View)
    requires v.process.pc.Resolving? && Act(pid, Resolve(pid), v).process.pc == Marking
    ensures v.conversation.writerFence == v.process.fence
  {
    hide SafeContentType, Frozen, Storable;
  }

  // Only one request can store at any moment: the one whose lease and token are current.
  lemma OnlyHolderStores(actions: seq<Action>, a: Action)
    requires Step(Exec(Initial, actions), a).conversation.log != Exec(Initial, actions).conversation.log
    ensures var s := Exec(Initial, actions); var s' := Step(s, a);
            && a.Swap? && a.pid in s.processes
            && s.conversation.lease == Some(Lease(a.pid, s.processes[a.pid].fence))
            && s.conversation.revision == s.processes[a.pid].revision
            && s.processes[a.pid].copy.nextState.Some?
            && s'.conversation.log == s.conversation.log + [s.processes[a.pid].copy.nextState.value]
  {
    hide Act, Step;
    var s := Exec(Initial, actions);
    StepShape(s, a);
    EffectOnFences(a.pid, a, ViewIn(s, a.pid));
  }

  // The lease changes hands only when it is free, and always with a new, larger token.
  lemma LeaseIsTakenWhenFree(s: System, a: Action)
    requires Step(s, a).conversation.lease != s.conversation.lease && Step(s, a).conversation.lease.Some?
    ensures var s' := Step(s, a);
            && s.conversation.lease.None? && a.Begin? && a.pid in s.processes
            && s'.conversation.lease == Some(Lease(a.pid, s.conversation.fence + 1)) && s'.conversation.fence == s.conversation.fence + 1
  {
    hide Act, Step;
    StepShape(s, a);
    EffectOnFences(a.pid, a, ViewIn(s, a.pid));
    OnlyBeginTakes(a.pid, a, ViewIn(s, a.pid));
  }

  lemma OnlyBeginTakes(pid: Pid, a: Action, v: View)
    ensures Act(pid, a, v).conversation.fence != v.conversation.fence ==> a.Begin?
  {
    hide SafeContentType, Frozen, Storable;
  }

  // Past the reading of the revision and before the compare-and-set.
  predicate Proceeding(pc: Pc) {
    UnderLease(pc) && !pc.Loading? && !pc.Resolving?
  }

  predicate Current(s: System, p: Pid)
    requires p in s.processes
  {
    Proceeding(s.processes[p].pc) && s.conversation.lease == Some(Lease(p, s.processes[p].fence)) ==>
      s.conversation.revision == s.processes[p].revision
  }

  predicate CurrentView(pid: Pid, v: View) {
    Proceeding(v.process.pc) && v.conversation.lease == Some(Lease(pid, v.process.fence)) ==> v.conversation.revision == v.process.revision
  }

  lemma EffectKeepsCurrent(pid: Pid, a: Action, v: View)
    requires CurrentView(pid, v)
    ensures CurrentView(pid, Act(pid, a, v))
  {
    hide SafeContentType, Frozen, Storable;
  }

  // While a request that has read its revision still holds the lease, the conversation stays at that revision:
  // in every run, nobody can overtake the holder.
  lemma {:induction false} HolderIsCurrent(actions: seq<Action>)
    ensures forall p :: p in Exec(Initial, actions).processes ==> Current(Exec(Initial, actions), p)
    decreases |actions|
  {
    if actions != [] {
      var before, last := LastStep(actions);
      HolderIsCurrent(before);
      StepKeepsCurrent(Exec(Initial, before), last);
    }
  }

  lemma StepKeepsCurrent(s: System, a: Action)
    requires forall p :: p in s.processes ==> Current(s, p)
    ensures forall p :: p in Step(s, a).processes ==> Current(Step(s, a), p)
  {
    hide Act, Step, UnderLease;
    var s' := Step(s, a);
    StepShape(s, a);
    if IsOwnStep(s, a) {
      EffectOnFences(a.pid, a, ViewIn(s, a.pid));
      assert Current(s, a.pid);
      EffectKeepsCurrent(a.pid, a, ViewIn(s, a.pid));
    }
    forall p | p in s'.processes ensures Current(s', p) {
      if p in s.processes { assert Current(s, p); }
    }
  }

  lemma LapsedEffect(pid: Pid, a: Action, v: View)
    requires v.slot.row.timedOut
    ensures Act(pid, a, v).slot.row == v.slot.row
    ensures Act(pid, a, v).slot.history.everCommitted == v.slot.history.everCommitted
  {
    hide SafeContentType, Frozen, Storable;
  }

  // An outcome past its expiry never changes again but for being scrubbed, and is never committed any more.
  lemma {:induction false} LapsedStaysLapsed(s: System, actions: seq<Action>, r: Revision)
    requires r in s.slots && s.slots[r].row.timedOut
    ensures var t := Exec(s, actions);
            && r in t.slots && (t.slots[r].row == s.slots[r].row || t.slots[r].row == ScrubbedRow(s.slots[r].row))
            && t.slots[r].history.everCommitted == s.slots[r].history.everCommitted
    decreases |actions|
  {
    if actions != [] {
      LapsedStep(s, actions[0], r);
      LapsedStaysLapsed(Step(s, actions[0]), actions[1..], r);
    }
  }

  lemma LapsedStep(s: System, a: Action, r: Revision)
    requires r in s.slots && s.slots[r].row.timedOut
    ensures var t := Step(s, a);
            && r in t.slots && t.slots[r].row.timedOut
            && (t.slots[r].row == s.slots[r].row || t.slots[r].row == ScrubbedRow(s.slots[r].row))
            && t.slots[r].history.everCommitted == s.slots[r].history.everCommitted
  {
    hide Act;
    if IsOwnStep(s, a) && s.processes[a.pid].revision == r {
      LapsedEffect(a.pid, a, ViewIn(s, a.pid));
    }
  }
}
