// The managed-context request protocol as a transition system.
//
// Durable state is one slot per conversation revision (outcome row, billing
// operations) and the conversation record.  Volatile state is one process per
// request: its program counter, its copy of the row and its response buffer.
// Every action is one atomic effect of the source; any action may come next,
// and an action that is not enabled changes nothing, so every sequence of
// actions is a run with crashes, retries, lost replies and any interleaving.

module OutcomeProtocol {
  import opened Integers
  import opened Options
  import opened OutcomeStore

  datatype Pc =
    | Confirming        // pending commit found: compare the conversation with the checkpoint
    | Beginning         // about to take the lease
    | Loading           // holds the lease, about to read the conversation's revision
    | MainPreparing     // about to pre-consume the main operation
    | MainGate          // intent check at the top of an attempt
    | MainMarking
    | MainExecuting     // the next effect is the main upstream call
    | MainSettling
    | MainReloading
    | SummaryPreparing
    | SummaryMarking
    | SummaryExecuting  // the next effect is the summary upstream call
    | SummarySettling(checkpoint: bool)
    | SummaryReloading
    | Swapping(retried: bool)
    | Resolving(retried: bool)
    | Marking           // the next revision is known to be stored
    | Answering         // committed: the stored response is about to be written
    | Finished
    | Failed
    | Crashed

  datatype Process = Process(
    pc: Pc,
    revision: Revision,
    key: Key,
    copy: Row,
    fence: nat,
    buffer: Option<Response>,
    summary: int,
    holdsMain: bool,
    holdsSummary: bool)

  datatype SummaryResult = UpstreamError | NoUsage | InvalidSummary | ValidSummary(content: int)

  datatype Ack = Acknowledged | ReplyLost | RequestLost

  datatype Action =
    | Start(pid: Pid, revision: Revision, key: Key)
    | Confirm(pid: Pid)
    | Begin(pid: Pid)
    | Load(pid: Pid)
    | ReserveMain(pid: Pid)
    | EnterAttempt(pid: Pid)
    | MarkMain(pid: Pid)
    | ExecuteMain(pid: Pid, upstream: Option<Response>)
    | SettleMain(pid: Pid, snapshot: int)
    | ReloadMain(pid: Pid)
    | ReserveSummary(pid: Pid)
    | MarkSummary(pid: Pid)
    | ExecuteSummary(pid: Pid, result: SummaryResult)
    | SettleSummary(pid: Pid)
    | ReloadSummary(pid: Pid)
    | Swap(pid: Pid, ack: Ack)
    | Resolve(pid: Pid)
    | MarkCommitted(pid: Pid)
    | WriteAnswer(pid: Pid)
    | Fail(pid: Pid)
    | Crash(pid: Pid)
    | RefundMain(pid: Pid)
    | RefundSummary(pid: Pid)
    | ReleaseLease(pid: Pid)
    | LeaseExpires
    | TimeOut(revision: Revision)
    | Scrub(revision: Revision)

  datatype System = System(slots: map<Revision, Slot>, conversation: Conversation, processes: map<Pid, Process>)

  const Initial := System(map[], NewConversation, map[])

  /** What one process sees: itself, the slot of its revision and the conversation. */
  datatype View = View(process: Process, slot: Slot, conversation: Conversation)

  function Goto(v: View, pc: Pc): View {
    v.(process := v.process.(pc := pc))
  }

  // Reserving an outcome hands back its row; the phase decides where the request goes.
  function EntryPc(row: Row): Pc {
    match row.phase
    case Intent => Beginning
    case MainSettled => Beginning
    case SettledPendingCommit => Confirming
    case Committed => Answering
    case _ => Failed
  }

  function DoConfirm(v: View): View {
    var expected := v.process.revision;
    if v.conversation.revision == expected then Goto(v, Beginning)
    else if v.conversation.revision == expected + 1 && v.conversation.state == v.process.copy.nextState then Goto(v, Marking)
    else Goto(v, Failed)
  }

  function DoBegin(pid: Pid, v: View): View {
    if v.conversation.lease.Some? then Goto(v, Failed)
    else
      var fence := v.conversation.fence + 1;
      View(v.process.(pc := Loading, fence := fence), v.slot,
           v.conversation.(fence := fence, lease := Some(Lease(pid, fence))))
  }

  // Under the lease the revision is read again; another one fails the request, which gives the lease back.
  function DoLoad(v: View): View {
    if v.conversation.revision != v.process.revision then Goto(v, Failed)
    else match v.process.copy.phase
      case Intent => Goto(v, MainPreparing)
      case MainSettled => Goto(v, SummaryPreparing)
      case SettledPendingCommit => Goto(v, Swapping(false))
      case _ => Goto(v, Failed)
  }

  function DoReserveMain(v: View): View {
    match ReserveBill(v.slot.mainBill)
    case None => Goto(v, Failed)
    case Some(bill) => v.(process := v.process.(pc := MainGate, holdsMain := true), slot := v.slot.(mainBill := bill))
  }

  function DoMarkMain(pid: Pid, v: View): View {
    match AdvancePhase(v.slot.row, Intent, MainDispatched)
    case None => Goto(v, Failed)
    case Some(row) =>
      v.(process := v.process.(pc := MainExecuting, copy := row),
         slot := v.slot.(row := row, history := v.slot.history.(mainOwner := Some(pid))))
  }

  function DoExecuteMain(v: View, upstream: Option<Response>): View {
    var called := v.slot.(history := v.slot.history.(mainCalls := v.slot.history.mainCalls + 1));
    match upstream
    case None => Goto(v.(slot := called), MainGate)
    case Some(response) =>
      var recorded := called.(history := called.history.(buffered := upstream));
      v.(process := v.process.(pc := if Storable(response) then MainSettling else Failed, buffer := upstream), slot := recorded)
  }

  // Settlement and checkpoint are one transaction: either both happen or neither.
  function DoSettleMain(v: View, snapshot: int): View {
    match v.slot.mainBill
    case Settled => Goto(v, MainReloading)
    case Reserved =>
      (match v.process.buffer
       case None => Goto(v, Failed)
       case Some(response) =>
         match MainCheckpoint(v.slot.row, response, snapshot)
         case None => Goto(v, Failed)
         case Some(row) =>
           Goto(v, MainReloading).(slot := v.slot.(row := row, mainBill := Settled,
                                   history := v.slot.history.(mainCharges := v.slot.history.mainCharges + 1))))
    case _ => Goto(v, Failed)
  }

  function DoReload(v: View, expected: Phase, next: Pc): View {
    if v.slot.row.phase == expected && !v.slot.row.timedOut
    then v.(process := v.process.(pc := next, copy := v.slot.row))
    else Goto(v, Failed)
  }

  function DoReserveSummary(v: View): View {
    match ReserveBill(v.slot.summaryBill)
    case None => Goto(v, Failed)
    case Some(bill) => v.(process := v.process.(pc := SummaryMarking, holdsSummary := true), slot := v.slot.(summaryBill := bill))
  }

  function DoMarkSummary(pid: Pid, v: View): View {
    match AdvancePhase(v.slot.row, MainSettled, SummaryDispatched)
    case None => Goto(v, Failed)
    case Some(row) =>
      v.(process := v.process.(pc := SummaryExecuting, copy := row),
         slot := v.slot.(row := row, history := v.slot.history.(summaryOwner := Some(pid))))
  }

  // An invalid summary is still billed, but without a checkpoint.
  function DoExecuteSummary(v: View, result: SummaryResult): View {
    var called := v.(slot := v.slot.(history := v.slot.history.(summaryCalls := v.slot.history.summaryCalls + 1)));
    match result
    case UpstreamError => Goto(called, Failed)
    case NoUsage => Goto(called, Failed)
    case InvalidSummary => Goto(called, SummarySettling(false))
    case ValidSummary(content) => called.(process := v.process.(pc := SummarySettling(true), summary := content))
  }

  function DoSettleSummary(v: View, checkpoint: bool): View {
    var history := v.slot.history;
    match v.slot.summaryBill
    case Settled => Goto(v, if checkpoint then SummaryReloading else Failed)
    case Reserved =>
      if !checkpoint then
        Goto(v, Failed).(slot := v.slot.(summaryBill := Settled, history := history.(summaryCharges := history.summaryCharges + 1)))
      else
        var nextState := NextState(v.process.revision + 1, v.process.summary);
        (match SummaryCheckpoint(v.slot.row, nextState)
         case None => Goto(v, Failed)
         case Some(row) =>
           Goto(v, SummaryReloading).(slot := v.slot.(row := row, summaryBill := Settled,
             history := history.(summaryCharges := history.summaryCharges + 1, nextState := Some(nextState)))))
    case _ => Goto(v, Failed)
  }

  // One fenced compare-and-set of the conversation; the reply, or the request, may get lost.
  function DoSwap(pid: Pid, v: View, retried: bool, ack: Ack): View {
    if ack == RequestLost then Goto(v, Resolving(retried))
    else match v.process.copy.nextState
      case None => Goto(v, Failed)
      case Some(state) =>
        match CompareAndSwap(v.conversation, v.process.revision, Lease(pid, v.process.fence), state)
        case None => Goto(v, Failed)
        case Some(conversation) =>
          Goto(v, if ack == Acknowledged then Marking else Resolving(retried)).(conversation := conversation)
  }

  // After an ambiguous reply: accept only this very state written under this very lease.
  function DoResolve(pid: Pid, v: View, retried: bool): View {
    var c := v.conversation;
    if c.revision == v.process.revision then
      Goto(v, if !retried && c.lease == Some(Lease(pid, v.process.fence)) then Swapping(true) else Failed)
    else if c.revision == v.process.revision + 1 && c.writerFence == v.process.fence && c.state == v.process.copy.nextState
    then Goto(v, Marking)
    else Goto(v, Failed)
  }

  function DoMarkCommitted(v: View): View {
    match AdvancePhase(v.slot.row, SettledPendingCommit, Committed)
    case None => Goto(v, Failed)
    case Some(row) =>
      v.(process := v.process.(pc := Answering, copy := row),
         slot := v.slot.(row := row, history := v.slot.history.(everCommitted := true)))
  }

  function DoWriteAnswer(v: View): View {
    match ReadResponse(v.process.copy)
    case None => Goto(v, Failed)
    case Some(response) =>
      var history := v.slot.history;
      Goto(v, Finished).(slot := v.slot.(history :=
        history.(answers := history.answers + [AnswerOf(response, v.process.revision + 1)])))
  }

  function Act(pid: Pid, a: Action, v: View): View {
    var pc := v.process.pc;
    match a
    case Confirm(_) => if pc == Confirming then DoConfirm(v) else v
    case Begin(_) => if pc == Beginning then DoBegin(pid, v) else v
    case Load(_) => if pc == Loading then DoLoad(v) else v
    case ReserveMain(_) => if pc == MainPreparing then DoReserveMain(v) else v
    case EnterAttempt(_) => if pc == MainGate then Goto(v, if v.process.copy.phase == Intent then MainMarking else Failed) else v
    case MarkMain(_) => if pc == MainMarking then DoMarkMain(pid, v) else v
    case ExecuteMain(_, upstream) => if pc == MainExecuting then DoExecuteMain(v, upstream) else v
    case SettleMain(_, snapshot) => if pc == MainSettling then DoSettleMain(v, snapshot) else v
    case ReloadMain(_) => if pc == MainReloading then DoReload(v, MainSettled, SummaryPreparing) else v
    case ReserveSummary(_) => if pc == SummaryPreparing then DoReserveSummary(v) else v
    case MarkSummary(_) => if pc == SummaryMarking then DoMarkSummary(pid, v) else v
    case ExecuteSummary(_, result) => if pc == SummaryExecuting then DoExecuteSummary(v, result) else v
    case SettleSummary(_) => if pc.SummarySettling? then DoSettleSummary(v, pc.checkpoint) else v
    case ReloadSummary(_) => if pc == SummaryReloading then DoReload(v, SettledPendingCommit, Swapping(false)) else v
    case Swap(_, ack) => if pc.Swapping? then DoSwap(pid, v, pc.retried, ack) else v
    case Resolve(_) => if pc.Resolving? then DoResolve(pid, v, pc.retried) else v
    case MarkCommitted(_) => if pc == Marking then DoMarkCommitted(v) else v
    case WriteAnswer(_) => if pc == Answering then DoWriteAnswer(v) else v
    case Fail(_) => if pc.Finished? || pc.Crashed? then v else Goto(v, Failed)
    case Crash(_) => if pc.Finished? then v else Goto(v, Crashed)
    case RefundMain(_) =>
      if pc == Failed && v.process.holdsMain then v.(slot := v.slot.(mainBill := RefundBill(v.slot.mainBill))) else v
    case RefundSummary(_) =>
      if pc == Failed && v.process.holdsSummary then v.(slot := v.slot.(summaryBill := RefundBill(v.slot.summaryBill))) else v
    case ReleaseLease(_) =>
      if v.conversation.lease == Some(Lease(pid, v.process.fence)) && (pc.Finished? || pc.Failed?)
      then v.(conversation := v.conversation.(lease := None)) else v
    case _ => v
  }

  // Reserving rejects a row of another request at this revision, and a key used at another one.
  predicate Conflicts(slots: map<Revision, Slot>, revision: Revision, key: Key) {
    || (revision in slots && slots[revision].row.key != key)
    || (exists r :: r in slots && r != revision && slots[r].row.key == key)
  }

  function BlankProcess(pc: Pc, revision: Revision, key: Key, copy: Row): Process {
    Process(pc, revision, key, copy, 0, None, 0, false, false)
  }

  // Revisions are stored as signed 64-bit integers, so the last one cannot advance.
  function DoStart(s: System, pid: Pid, revision: Revision, key: Key): System {
    if pid in s.processes then s
    else if revision >= MaxInt64 || Conflicts(s.slots, revision, key) then
      s.(processes := s.processes[pid := BlankProcess(Failed, revision, key, NewRow(key))])
    else
      var slot := if revision in s.slots then s.slots[revision] else NewSlot(key);
      var seen := if slot.row.timedOut then slot.(row := ScrubbedRow(slot.row)) else slot;
      System(s.slots[revision := seen], s.conversation,
             s.processes[pid := BlankProcess(EntryPc(seen.row), revision, key, seen.row)])
  }

  function Step(s: System, a: Action): System {
    match a
    case Start(pid, revision, key) => DoStart(s, pid, revision, key)
    case LeaseExpires => s.(conversation := s.conversation.(lease := None))
    case TimeOut(revision) =>
      if revision in s.slots
      then s.(slots := s.slots[revision := s.slots[revision].(row := s.slots[revision].row.(timedOut := true))]) else s
    case Scrub(revision) =>
      if revision in s.slots && s.slots[revision].row.timedOut
      then s.(slots := s.slots[revision := s.slots[revision].(row := ScrubbedRow(s.slots[revision].row))]) else s
    case _ =>
      if a.pid in s.processes && s.processes[a.pid].revision in s.slots then
        var process := s.processes[a.pid];
        var v := Act(a.pid, a, View(process, s.slots[process.revision], s.conversation));
        System(s.slots[process.revision := v.slot], v.conversation, s.processes[a.pid := v.process])
      else s
  }

  function Exec(s: System, actions: seq<Action>): System
    decreases |actions|
  {
    if actions == [] then s else Exec(Step(s, actions[0]), actions[1..])
  }
}
