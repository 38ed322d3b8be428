// The durable side of a managed-context outcome: the outcome row with its
// phase compare-and-set, the billing operation settled together with its
// checkpoint, and the conversation revision.

module OutcomeStore {
  import opened Options
  import opened Text

  type Revision = nat
  type Pid = nat
  type Key = nat

  const MaximumResponseBytes: nat := 2 * 1024 * 1024

  datatype Phase =
    | Intent
    | MainDispatched
    | MainSettled
    | SummaryDispatched
    | SettledPendingCommit
    | Committed
    | TerminalFailed
    | Expired

  function Rank(phase: Phase): nat {
    match phase
    case Intent => 0
    case MainDispatched => 1
    case MainSettled => 2
    case SummaryDispatched => 3
    case SettledPendingCommit => 4
    case Committed => 5
    case TerminalFailed => 6
    case Expired => 7
  }

  datatype Response = Response(status: int, contentType: string, body: string)

  predicate Storable(response: Response) {
    200 <= response.status < 300 && |response.body| <= MaximumResponseBytes
  }

  // Only two content types ever leave the gateway.
  function SafeContentType(value: string): string {
    var base := ToLower(TrimSpace(SplitOn(value, ';')[0]));
    if base == "application/json" || base == "application/problem+json" then base else "application/json"
  }

  function Frozen(response: Response): Response {
    response.(contentType := SafeContentType(response.contentType))
  }

  // The conversation state that follows a revision.  `content` stands for the summary.
  datatype NextState = NextState(revision: nat, content: int)

  /** One outcome row.  `timedOut` says that the clock has passed its expiry. */
  datatype Row = Row(
    key: Key,
    phase: Phase,
    responseStatus: int,
    responseContentType: string,
    responsePayload: Option<Response>,
    snapshot: Option<int>,
    nextState: Option<NextState>,
    timedOut: bool)

  function NewRow(key: Key): Row {
    Row(key, Intent, 0, "", None, None, None, false)
  }

  // The conditional update every Mark... call makes.
  function AdvancePhase(row: Row, expected: Phase, next: Phase): Option<Row> {
    if row.phase == expected && !row.timedOut then Some(row.(phase := next)) else None
  }

  function MainCheckpoint(row: Row, response: Response, snapshot: int): Option<Row> {
    if row.phase == MainDispatched && !row.timedOut && Storable(response) then
      Some(row.(phase := MainSettled,
           responseStatus := response.status,
           responseContentType := SafeContentType(response.contentType),
           responsePayload := Some(response),
           snapshot := Some(snapshot)))
    else None
  }

  function SummaryCheckpoint(row: Row, nextState: NextState): Option<Row> {
    if row.phase == SummaryDispatched && !row.timedOut then
      Some(row.(phase := SettledPendingCommit, nextState := Some(nextState)))
    else None
  }

  function ScrubbedRow(row: Row): Row {
    Row(row.key, Expired, 0, "", None, None, None, true)
  }

  // Reading the stored answer re-normalises it and compares it with the row's own columns.
  function ReadResponse(row: Row): Option<Response> {
    match row.responsePayload
    case None => None
    case Some(stored) =>
      if Storable(stored) && stored.status == row.responseStatus && SafeContentType(stored.contentType) == row.responseContentType
      then Some(Frozen(stored)) else None
  }

  // The durable accounting record of one purpose ("main" or "summary") at one revision.
  datatype Bill = Unreserved | Reserved | Settled | Refunded

  // None is the source's "already refunded" error; a settled operation is handed back as it is.
  function ReserveBill(bill: Bill): Option<Bill> {
    match bill
    case Unreserved => Some(Reserved)
    case Reserved => Some(Reserved)
    case Settled => Some(Settled)
    case Refunded => None
  }

  function RefundBill(bill: Bill): Bill {
    if bill == Reserved then Refunded else bill
  }

  // What a client receives: the stored answer and the revision header.
  datatype Answer = Answer(status: int, contentType: string, body: string, revision: nat)

  function AnswerOf(response: Response, revision: nat): Answer {
    Answer(response.status, response.contentType, response.body, revision)
  }

  /** What has happened to one outcome so far.  No step reads these fields. */
  datatype History = History(
    mainOwner: Option<Pid>,
    mainCalls: nat,
    mainCharges: nat,
    buffered: Option<Response>,
    summaryOwner: Option<Pid>,
    summaryCalls: nat,
    summaryCharges: nat,
    nextState: Option<NextState>,
    everCommitted: bool,
    answers: seq<Answer>)

  const NoHistory := History(None, 0, 0, None, None, 0, 0, None, false, [])

  datatype Slot = Slot(row: Row, mainBill: Bill, summaryBill: Bill, history: History)

  function NewSlot(key: Key): Slot {
    Slot(NewRow(key), Unreserved, Unreserved, NoHistory)
  }

  datatype Lease = Lease(holder: Pid, fence: nat)

  /** The conversation record; `log` lists every state ever stored in it. */
  datatype Conversation = Conversation(
    revision: Revision,
    state: Option<NextState>,
    writerFence: nat,
    fence: nat,
    lease: Option<Lease>,
    log: seq<NextState>)

  const NewConversation := Conversation(0, None, 0, 0, None, [])

  // The revision compare-and-set, fenced by the lease.
  function CompareAndSwap(conversation: Conversation, expected: Revision, lease: Lease, state: NextState): Option<Conversation> {
    if conversation.lease == Some(lease) && conversation.revision == expected then
      Some(conversation.(revision := expected + 1, state := Some(state), writerFence := lease.fence,
           log := conversation.log + [state]))
    else None
  }
}
