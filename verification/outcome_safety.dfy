// Safety of the managed-context protocol over all runs.

module OutcomeSafety {
  import opened Integers
  import opened OutcomeStore
  import opened OutcomeProtocol
  import opened OutcomeInvariant

  predicate ProcessIn(s: System, pid: Pid)
    requires pid in s.processes
  {
    var process := s.processes[pid];
    && (process.revision !in s.slots ==> process.pc == Failed)
    && (process.revision in s.slots ==> ProcessOk(pid, process, s.slots[process.revision], s.conversation))
  }

  predicate Inv(s: System) {
    && ConversationOk(s.conversation)
    && (forall i :: 0 <= i < |s.conversation.log| ==> i in s.slots)
    && (forall r :: r in s.slots ==> SlotOk(r, s.slots[r], s.conversation))
    && (forall p :: p in s.processes ==> ProcessIn(s, p))
    && DistinctKeys(s.slots)
  }

  // One idempotency key per revision, and no revision that could not advance.
  predicate DistinctKeys(slots: map<Revision, Slot>) {
    && (forall r :: r in slots ==> r < MaxInt64)
    && (forall r, q :: r in slots && q in slots && slots[r].row.key == slots[q].row.key ==> r == q)
  }

  lemma ProcessUndisturbed(q: Pid, process: Process, pid: Pid, slot: Slot, slot': Slot, c: Conversation, c': Conversation, revision: Revision)
    requires q != pid && ProcessOk(q, process, slot, c)
    requires Evolves(pid, slot, slot') && Extends(c, c', revision)
    ensures ProcessOk(q, process, slot', c')
  {
    hide SafeContentType, Frozen, Storable;
  }

  lemma SlotUndisturbed(r: Revision, slot: Slot, c: Conversation, c': Conversation, revision: Revision)
    requires r != revision && SlotOk(r, slot, c) && Extends(c, c', revision)
    ensures SlotOk(r, slot, c')
  {
    hide SafeContentType, Frozen, Storable;
  }

  lemma IdleKeeps(r: Revision, slot: Slot, c: Conversation, pid: Pid, row: Row)
    requires SlotOk(r, slot, c)
    requires row == ScrubbedRow(slot.row) || row == slot.row.(timedOut := true)
    ensures SlotOk(r, slot.(row := row), c) && Evolves(pid, slot, slot.(row := row))
  {
    hide SafeContentType, Frozen, Storable;
  }

  // Replacing one slot by a later form of itself keeps every process of every revision.
  lemma IdleStepKeepsInv(s: System, r: Revision, row: Row)
    requires Inv(s) && r in s.slots
    requires row == ScrubbedRow(s.slots[r].row) || row == s.slots[r].row.(timedOut := true)
    ensures Inv(s.(slots := s.slots[r := s.slots[r].(row := row)]))
  {
    hide SlotOk, ProcessOk;
    var s' := s.(slots := s.slots[r := s.slots[r].(row := row)]);
    forall p | p in s.processes ensures ProcessIn(s', p) {
      IdleKeeps(r, s.slots[r], s.conversation, p + 1, row);
      if s.processes[p].revision == r {
        ProcessUndisturbed(p, s.processes[p], p + 1, s.slots[r], s'.slots[r], s.conversation, s.conversation, r);
      }
    }
    IdleKeeps(r, s.slots[r], s.conversation, 0, row);
  }

  lemma EntryOk(pid: Pid, slot: Slot, c: Conversation, revision: Revision, key: Key)
    requires SlotOk(revision, slot, c) && slot.row.key == key
    ensures ProcessOk(pid, BlankProcess(EntryPc(slot.row), revision, key, slot.row), slot, c)
  {
    hide SafeContentType, Frozen, Storable;
  }

  lemma NewSlotOk(c: Conversation, revision: Revision, key: Key)
    requires |c.log| <= revision
    ensures SlotOk(revision, NewSlot(key), c)
  {
    hide SafeContentType, Frozen, Storable;
  }

  lemma AddSlotKeepsInv(s: System, revision: Revision, key: Key)
    requires Inv(s) && revision < MaxInt64 && revision !in s.slots && !Conflicts(s.slots, revision, key)
    ensures Inv(s.(slots := s.slots[revision := NewSlot(key)]))
  {
    hide SlotOk, ProcessOk;
    var s' := s.(slots := s.slots[revision := NewSlot(key)]);
    NewSlotOk(s.conversation, revision, key);
    forall p | p in s'.processes ensures ProcessIn(s', p) {
      assert ProcessIn(s, p);
      if s.processes[p].revision == revision { FailedOk(p, s.processes[p], NewSlot(key), s.conversation); }
    }
  }

  lemma FailedOk(pid: Pid, process: Process, slot: Slot, c: Conversation)
    requires process.pc == Failed
    ensures ProcessOk(pid, process, slot, c)
  {
    hide SafeContentType, Frozen, Storable;
  }

  lemma AddProcessKeepsInv(s: System, pid: Pid, process: Process)
    requires Inv(s) && pid !in s.processes
    requires ProcessIn(s.(processes := s.processes[pid := process]), pid)
    ensures Inv(s.(processes := s.processes[pid := process]))
  {
    hide SlotOk, ProcessOk;
    var s' := s.(processes := s.processes[pid := process]);
    forall p | p in s'.processes ensures ProcessIn(s', p) {
      assert p != pid ==> ProcessIn(s, p);
    }
  }

  lemma StartKeepsInv(s: System, pid: Pid, revision: Revision, key: Key)
    requires Inv(s)
    ensures Inv(DoStart(s, pid, revision, key))
  {
    hide SlotOk, ProcessOk;
    if pid in s.processes { return; }
    if revision >= MaxInt64 || Conflicts(s.slots, revision, key) {
      var refused := BlankProcess(Failed, revision, key, NewRow(key));
      if revision in s.slots { FailedOk(pid, refused, s.slots[revision], s.conversation); }
      AddProcessKeepsInv(s, pid, refused);
    } else {
      var base := s;
      if revision !in s.slots {
        AddSlotKeepsInv(s, revision, key);
        base := s.(slots := s.slots[revision := NewSlot(key)]);
      }
      if base.slots[revision].row.timedOut {
        IdleStepKeepsInv(base, revision, ScrubbedRow(base.slots[revision].row));
        base := base.(slots := base.slots[revision := base.slots[revision].(row := ScrubbedRow(base.slots[revision].row))]);
      }
      var seen := base.slots[revision];
      assert base.slots == s.slots[revision := seen];
      EntryOk(pid, seen, base.conversation, revision, key);
      AddProcessKeepsInv(base, pid, BlankProcess(EntryPc(seen.row), revision, key, seen.row));
    }
  }

  lemma ActKeepsInv(s: System, a: Action, pid: Pid)
    requires Inv(s) && pid in s.processes && s.processes[pid].revision in s.slots
    ensures var process := s.processes[pid];
            var v := Act(pid, a, View(process, s.slots[process.revision], s.conversation));
            Inv(System(s.slots[process.revision := v.slot], v.conversation, s.processes[pid := v.process]))
  {
    hide SlotOk, ProcessOk, Act;
    var process := s.processes[pid];
    var r := process.revision;
    assert ProcessIn(s, pid);
    var before := View(process, s.slots[r], s.conversation);
    var v := Act(pid, a, before);
    ActKeepsView(pid, a, before);
    var s' := System(s.slots[r := v.slot], v.conversation, s.processes[pid := v.process]);
    forall p | p in s'.processes ensures ProcessIn(s', p) {
      if p != pid {
        assert ProcessIn(s, p);
        var q := s.processes[p];
        if q.revision == r {
          ProcessUndisturbed(p, q, pid, s.slots[r], v.slot, s.conversation, v.conversation, r);
        } else if q.revision in s.slots {
          ProcessUndisturbed(p, q, pid, s.slots[q.revision], s.slots[q.revision], s.conversation, v.conversation, r);
        }
      }
    }
    forall x | x in s'.slots ensures SlotOk(x, s'.slots[x], s'.conversation) {
      if x != r {
        SlotUndisturbed(x, s.slots[x], s.conversation, v.conversation, r);
      }
    }
  }

  lemma LeaseExpiryKeepsInv(s: System)
    requires Inv(s)
    ensures Inv(Step(s, LeaseExpires))
  {
    hide SlotOk, ProcessOk;
    var s' := Step(s, LeaseExpires);
    forall p | p in s'.processes ensures ProcessIn(s', p) {
      assert ProcessIn(s, p);
      var q := s.processes[p];
      if q.revision in s.slots {
        ProcessUndisturbed(p, q, p + 1, s.slots[q.revision], s.slots[q.revision], s.conversation, s'.conversation, 0);
      }
    }
    forall r | r in s'.slots ensures SlotOk(r, s'.slots[r], s'.conversation) {
      SlotUndisturbed(r, s.slots[r], s.conversation, s'.conversation, r + 1);
    }
  }

  lemma StepKeepsInv(s: System, a: Action)
    requires Inv(s)
    ensures Inv(Step(s, a))
  {
    hide SlotOk, ProcessOk;
    match a
    case Start(pid, revision, key) => StartKeepsInv(s, pid, revision, key);
    case LeaseExpires => LeaseExpiryKeepsInv(s);
    case TimeOut(revision) =>
      if revision in s.slots { IdleStepKeepsInv(s, revision, s.slots[revision].row.(timedOut := true)); }
    case Scrub(revision) =>
      if revision in s.slots { IdleStepKeepsInv(s, revision, ScrubbedRow(s.slots[revision].row)); }
    case _ =>
      if a.pid in s.processes && s.processes[a.pid].revision in s.slots { ActKeepsInv(s, a, a.pid); }
  }

  lemma {:induction false} ExecKeepsInv(s: System, actions: seq<Action>)
    requires Inv(s)
    ensures Inv(Exec(s, actions))
    decreases |actions|
  {
    if actions != [] {
      StepKeepsInv(s, actions[0]);
      ExecKeepsInv(Step(s, actions[0]), actions[1..]);
    }
  }
}
