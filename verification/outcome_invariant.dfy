// The invariant of every run of the protocol, proved from what one process sees.

module OutcomeInvariant {
  import opened Options
  import opened OutcomeStore
  import opened OutcomeProtocol

  predicate Charged(bill: Bill, charges: nat) {
    charges == if bill == Settled then 1 else 0
  }

  // The stored answer is the one the single main call buffered.
  predicate HoldsAnswer(row: Row, history: History) {
    && history.buffered.Some?
    && Storable(history.buffered.value)
    && row.responsePayload == history.buffered
    && row.responseStatus == history.buffered.value.status
    && row.responseContentType == SafeContentType(history.buffered.value.contentType)
  }

  predicate Stored(history: History, c: Conversation, revision: Revision) {
    history.nextState.Some? && revision < |c.log| && c.log[revision] == history.nextState.value
  }

  predicate HistoryOk(h: History) {
    && (h.mainOwner.None? ==> h.mainCalls == 0)
    && h.mainCalls <= 1
    && (h.buffered.Some? ==> h.mainCalls == 1)
    && (h.summaryOwner.None? ==> h.summaryCalls == 0)
    && h.summaryCalls <= 1
  }

  predicate PhaseOk(row: Row, h: History) {
    && row.phase != TerminalFailed
    && (row.phase == Intent ==> h.mainOwner.None?)
    && (Rank(row.phase) < Rank(MainSettled) || row.phase == Expired ==> row.responsePayload.None?)
    && (Rank(row.phase) < Rank(SummaryDispatched) ==> h.summaryOwner.None?)
    && (Rank(MainSettled) <= Rank(row.phase) <= Rank(Committed) ==> HoldsAnswer(row, h) && row.snapshot.Some?)
    && (Rank(SettledPendingCommit) <= Rank(row.phase) <= Rank(Committed) ==> h.nextState.Some? && row.nextState == h.nextState)
    && (Rank(row.phase) < Rank(SettledPendingCommit) ==> h.nextState.None?)
    && (row.phase == Committed ==> h.everCommitted)
    && (h.everCommitted ==> row.phase == Committed || row.phase == Expired)
  }

  predicate BillsOk(slot: Slot) {
    var h := slot.history;
    && Charged(slot.mainBill, h.mainCharges)
    && Charged(slot.summaryBill, h.summaryCharges)
    && (h.mainOwner.None? ==> slot.mainBill != Settled)
    && (h.summaryOwner.None? ==> slot.summaryBill != Settled)
    && (Rank(MainSettled) <= Rank(slot.row.phase) <= Rank(Committed) ==> slot.mainBill == Settled)
    && (Rank(SettledPendingCommit) <= Rank(slot.row.phase) <= Rank(Committed) ==> slot.summaryBill == Settled)
    && (h.everCommitted ==> slot.mainBill == Settled && slot.summaryBill == Settled)
    && (slot.mainBill == Settled ==> Rank(MainSettled) <= Rank(slot.row.phase))
    && (slot.summaryBill == Settled ==> Rank(SummaryDispatched) <= Rank(slot.row.phase))
    && (slot.mainBill == Settled ==> h.buffered.Some? && Storable(h.buffered.value))
    && (slot.summaryBill == Settled ==> h.summaryCalls == 1)
    && (slot.summaryBill != Unreserved ==> slot.mainBill == Settled)
  }

  predicate AnswersOk(revision: Revision, h: History) {
    && (h.answers != [] ==> h.everCommitted)
    && (h.everCommitted ==> h.buffered.Some?)
    && (h.everCommitted ==> forall i :: 0 <= i < |h.answers| ==> h.answers[i] == AnswerOf(Frozen(h.buffered.value), revision + 1))
  }

  predicate SlotOk(revision: Revision, slot: Slot, c: Conversation) {
    && HistoryOk(slot.history)
    && PhaseOk(slot.row, slot.history)
    && BillsOk(slot)
    && AnswersOk(revision, slot.history)
    && (slot.history.nextState.Some? ==> slot.history.nextState.value.revision == revision + 1)
    && (slot.history.everCommitted ==> Stored(slot.history, c, revision))
    && (revision < |c.log| ==> Stored(slot.history, c, revision))
  }

  predicate ConversationOk(c: Conversation) {
    && c.revision == |c.log|
    && (c.state == if c.log == [] then None else Some(c.log[|c.log| - 1]))
    && (c.lease.Some? ==> c.lease.value.fence > 0)
  }

  predicate ProcessOk(pid: Pid, process: Process, slot: Slot, c: Conversation) {
    var h := slot.history;
    && (process.pc != Failed && process.pc != Crashed ==> process.key == slot.row.key)
    && match process.pc
       case Confirming => process.copy.phase == SettledPendingCommit && process.copy.nextState == h.nextState && h.nextState.Some?
       case Beginning =>
         && (process.copy.phase == SettledPendingCommit ==> process.copy.nextState == h.nextState && h.nextState.Some?)
         && (process.copy.phase == MainSettled ==> slot.mainBill == Settled)
       case Loading =>
         && (process.copy.phase == SettledPendingCommit ==> process.copy.nextState == h.nextState && h.nextState.Some?)
         && (process.copy.phase == MainSettled ==> slot.mainBill == Settled)
       case SummaryPreparing => slot.mainBill == Settled
       case MainExecuting => h.mainOwner == Some(pid) && h.mainCalls == 0 && slot.mainBill != Settled
       case MainSettling =>
         && h.mainOwner == Some(pid) && slot.mainBill != Settled
         && h.buffered == process.buffer && process.buffer.Some? && Storable(process.buffer.value)
       case SummaryExecuting => h.summaryOwner == Some(pid) && h.summaryCalls == 0 && slot.summaryBill != Settled
       case SummarySettling(_) => h.summaryOwner == Some(pid) && h.summaryCalls == 1 && slot.summaryBill != Settled
       case Swapping(_) => process.copy.nextState == h.nextState && h.nextState.Some?
       case Resolving(_) => process.copy.nextState == h.nextState && h.nextState.Some?
       case Marking => process.copy.nextState == h.nextState && Stored(h, c, process.revision)
       case Answering => h.everCommitted && HoldsAnswer(process.copy, h)
       case Finished => h.everCommitted && h.answers != []
       case _ => true
  }

  predicate ViewOk(pid: Pid, v: View) {
    && ConversationOk(v.conversation)
    && SlotOk(v.process.revision, v.slot, v.conversation)
    && ProcessOk(pid, v.process, v.slot, v.conversation)
  }

  // The conversation stays, or stores one state on top of `revision`.
  predicate Extends(c: Conversation, c': Conversation, revision: Revision) {
    || c'.log == c.log
    || (|c.log| == revision && |c'.log| == revision + 1 && c.log == c'.log[..revision])
  }

  /** What the other processes may rely on: how a slot changes while process `pid` acts. */
  predicate Evolves(pid: Pid, slot: Slot, slot': Slot) {
    var h, h' := slot.history, slot'.history;
    && slot'.row.key == slot.row.key
    && (h'.mainOwner == h.mainOwner || (h.mainOwner.None? && h'.mainOwner == Some(pid)))
    && (h'.summaryOwner == h.summaryOwner || (h.summaryOwner.None? && h'.summaryOwner == Some(pid)))
    && (h.mainOwner.Some? && h.mainOwner != Some(pid) ==>
          h'.mainCalls == h.mainCalls && h'.buffered == h.buffered && (slot'.mainBill == Settled ==> slot.mainBill == Settled))
    && (h.summaryOwner.Some? && h.summaryOwner != Some(pid) ==>
          h'.summaryCalls == h.summaryCalls && (slot'.summaryBill == Settled ==> slot.summaryBill == Settled))
    && (h.nextState.Some? ==> h'.nextState == h.nextState)
    && (slot.mainBill == Settled ==> slot'.mainBill == Settled)
    && (h.buffered.Some? ==> h'.buffered == h.buffered)
    && (h.everCommitted ==> h'.everCommitted)
    && h.answers <= h'.answers
  }

  predicate Keeps(pid: Pid, v: View, v': View) {
    && ViewOk(pid, v')
    && Evolves(pid, v.slot, v'.slot)
    && Extends(v.conversation, v'.conversation, v.process.revision)
    && v'.process.revision == v.process.revision
  }

  lemma ConfirmKeeps(pid: Pid, v: View)
    requires ViewOk(pid, v) && v.process.pc == Confirming
    ensures Keeps(pid, v, DoConfirm(v))
  {
    hide SafeContentType, Frozen, Storable;
  }

  lemma BeginKeeps(pid: Pid, v: View)
    requires ViewOk(pid, v) && v.process.pc == Beginning
    ensures Keeps(pid, v, DoBegin(pid, v))
  {
    hide SafeContentType, Frozen, Storable;
  }

  lemma LoadKeeps(pid: Pid, v: View)
    requires ViewOk(pid, v) && v.process.pc == Loading
    ensures Keeps(pid, v, DoLoad(v))
  {
    hide SafeContentType, Frozen, Storable;
  }

  lemma ReserveMainKeeps(pid: Pid, v: View)
    requires ViewOk(pid, v) && v.process.pc == MainPreparing
    ensures Keeps(pid, v, DoReserveMain(v))
  {
    hide SafeContentType, Frozen, Storable;
  }

  lemma MarkMainKeeps(pid: Pid, v: View)
    requires ViewOk(pid, v) && v.process.pc == MainMarking
    ensures Keeps(pid, v, DoMarkMain(pid, v))
  {
    hide SafeContentType, Frozen, Storable;
  }

  lemma ExecuteMainKeeps(pid: Pid, v: View, upstream: Option<Response>)
    requires ViewOk(pid, v) && v.process.pc == MainExecuting
    ensures Keeps(pid, v, DoExecuteMain(v, upstream))
  {
    hide SafeContentType, Frozen, Storable;
  }

  lemma SettleMainKeeps(pid: Pid, v: View, snapshot: int)
    requires ViewOk(pid, v) && v.process.pc == MainSettling
    ensures Keeps(pid, v, DoSettleMain(v, snapshot))
  {
    hide SafeContentType, Frozen, Storable;
  }

  lemma ReloadKeeps(pid: Pid, v: View)
    requires ViewOk(pid, v)
    ensures v.process.pc == MainReloading ==> Keeps(pid, v, DoReload(v, MainSettled, SummaryPreparing))
    ensures v.process.pc == SummaryReloading ==> Keeps(pid, v, DoReload(v, SettledPendingCommit, Swapping(false)))
  {
    hide SafeContentType, Frozen, Storable;
  }

  lemma ReserveSummaryKeeps(pid: Pid, v: View)
    requires ViewOk(pid, v) && v.process.pc == SummaryPreparing
    ensures Keeps(pid, v, DoReserveSummary(v))
  {
    hide SafeContentType, Frozen, Storable;
  }

  lemma MarkSummaryKeeps(pid: Pid, v: View)
    requires ViewOk(pid, v) && v.process.pc == SummaryMarking
    ensures Keeps(pid, v, DoMarkSummary(pid, v))
  {
    hide SafeContentType, Frozen, Storable;
  }

  lemma ExecuteSummaryKeeps(pid: Pid, v: View, result: SummaryResult)
    requires ViewOk(pid, v) && v.process.pc == SummaryExecuting
    ensures Keeps(pid, v, DoExecuteSummary(v, result))
  {
    hide SafeContentType, Frozen, Storable;
  }

  lemma SettleSummaryKeeps(pid: Pid, v: View)
    requires ViewOk(pid, v) && v.process.pc.SummarySettling?
    ensures Keeps(pid, v, DoSettleSummary(v, v.process.pc.checkpoint))
  {
    hide SafeContentType, Frozen, Storable;
  }

  lemma SwapKeeps(pid: Pid, v: View, ack: Ack)
    requires ViewOk(pid, v) && v.process.pc.Swapping?
    ensures Keeps(pid, v, DoSwap(pid, v, v.process.pc.retried, ack))
  {
    hide SafeContentType, Frozen, Storable;
  }

  lemma ResolveKeeps(pid: Pid, v: View)
    requires ViewOk(pid, v) && v.process.pc.Resolving?
    ensures Keeps(pid, v, DoResolve(pid, v, v.process.pc.retried))
  {
    hide SafeContentType, Frozen, Storable;
  }

  lemma MarkCommittedKeeps(pid: Pid, v: View)
    requires ViewOk(pid, v) && v.process.pc == Marking
    ensures Keeps(pid, v, DoMarkCommitted(v))
  {
    hide SafeContentType, Frozen, Storable;
  }

  lemma WriteAnswerKeeps(pid: Pid, v: View)
    requires ViewOk(pid, v) && v.process.pc == Answering
    ensures Keeps(pid, v, DoWriteAnswer(v))
  {
    hide SafeContentType, Frozen, Storable;
  }

  lemma RefundKeeps(pid: Pid, v: View)
    requires ViewOk(pid, v)
    ensures Keeps(pid, v, v.(slot := v.slot.(mainBill := RefundBill(v.slot.mainBill))))
    ensures Keeps(pid, v, v.(slot := v.slot.(summaryBill := RefundBill(v.slot.summaryBill))))
  {
    hide SafeContentType, Frozen, Storable;
  }

  lemma StopKeeps(pid: Pid, v: View)
    requires ViewOk(pid, v)
    ensures Keeps(pid, v, v) && Keeps(pid, v, Goto(v, Failed)) && Keeps(pid, v, Goto(v, Crashed))
    ensures v.process.pc == MainGate ==> Keeps(pid, v, Goto(v, MainMarking))
    ensures Keeps(pid, v, v.(conversation := v.conversation.(lease := None)))
  {
    hide SafeContentType, Frozen, Storable;
  }

  // One action of one process keeps the invariant of what it sees and disturbs nobody else.
  lemma ActKeepsView(pid: Pid, a: Action, v: View)
    requires ViewOk(pid, v)
    ensures Keeps(pid, v, Act(pid, a, v))
  {
    var pc := v.process.pc;
    StopKeeps(pid, v);
    if Act(pid, a, v) == v { return; }
    match a
    case Confirm(_) => ConfirmKeeps(pid, v);
    case Begin(_) => BeginKeeps(pid, v);
    case Load(_) => LoadKeeps(pid, v);
    case ReserveMain(_) => ReserveMainKeeps(pid, v);
    case MarkMain(_) => MarkMainKeeps(pid, v);
    case ExecuteMain(_, upstream) => ExecuteMainKeeps(pid, v, upstream);
    case SettleMain(_, snapshot) => SettleMainKeeps(pid, v, snapshot);
    case ReloadMain(_) => ReloadKeeps(pid, v);
    case ReserveSummary(_) => ReserveSummaryKeeps(pid, v);
    case MarkSummary(_) => MarkSummaryKeeps(pid, v);
    case ExecuteSummary(_, result) => ExecuteSummaryKeeps(pid, v, result);
    case SettleSummary(_) => SettleSummaryKeeps(pid, v);
    case ReloadSummary(_) => ReloadKeeps(pid, v);
    case Swap(_, ack) => SwapKeeps(pid, v, ack);
    case Resolve(_) => ResolveKeeps(pid, v);
    case MarkCommitted(_) => MarkCommittedKeeps(pid, v);
    case WriteAnswer(_) => WriteAnswerKeeps(pid, v);
    case RefundMain(_) => RefundKeeps(pid, v);
    case RefundSummary(_) => RefundKeeps(pid, v);
    case _ =>
  }
}
