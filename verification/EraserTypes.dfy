/**
  The rows one chat owns in the eraser's database. Times are milliseconds read from one clock;
  identifiers are only ever compared, so they are numbers.
 */
module EraserTypes {
  import opened Wrappers
  import opened FutureMinutes

  const NO_WORK_AT: int := 253_370_764_800_000
  const CHAT_BUFFER: nat := 200
  const PAGE_SIZE: nat := 100
  const DAY: int := 24 * HOUR

  type MessageId = nat
  type UserId = nat
  type Token = nat
  type DispatchId = nat
  type Hours = h: int | h == 24 || h == 48 || h == 168 witness 48

  function Retention(hours: Hours): int {
    hours * HOUR
  }

  datatype Lane = Live | History
  datatype Purpose = Due | Safety
  datatype Connection = Connected | Missing | NoAccess | Unknown

  datatype Message = Message(id: MessageId, author: UserId, isBot: Option<bool>, source: int)

  /** A page's digest, kept as the list it is computed from. */
  type Signature = seq<(MessageId, int)>

  /** A closed range of source times. */
  datatype Span = Span(lo: int, hi: int)

  /** One worker's hold on the chat. */
  datatype Lease = Lease(token: Token, until: int)

  datatype HistoryLane = HistoryLane(
    cursor: Option<int>, complete: bool, gap: bool, signature: Option<Signature>)

  datatype SafetyLane = SafetyLane(
    floor: Option<int>, upper: Option<int>, cursor: Option<int>, signature: Option<Signature>,
    hadMessages: bool, gap: bool, gapAt: Option<int>, emptyStreak: nat)

  /** `low` is the legacy lower bound, `floor` the known-due one. */
  datatype DueLane = DueLane(
    low: Option<int>, floor: Option<int>, upper: Option<int>, cursor: Option<int>,
    signature: Option<Signature>, due: bool, gap: bool, gapAt: Option<int>)

  datatype Totals = Totals(
    deleted: int, historicalUnknown: int, acknowledged: int, removalReceipt: int,
    skipped: int, scanned: int)

  datatype Policy = Policy(
    enabled: bool, hours: Hours, revision: nat, activation: nat, lastOperation: Option<nat>,
    connection: Connection, lease: Option<Lease>,
    history: HistoryLane, safety: SafetyLane, due: DueLane,
    scanGeneration: nat, dueGeneration: nat,
    deferred: Option<Span>, historicalDeferred: Option<Span>,
    normalNextAt: int, safetyNextAt: int, totals: Totals)

  datatype State = Pending | Dispatching | Uncertain | Deleted | Protected | Review

  datatype Outcome = NotDue | RateLimited | Pinned | PolicyChanged | Reconciliation
                   | WasDeleted | WasProtected | RemovedReceipt

  /** A row of the DELETE journal. */
  datatype Candidate = Candidate(
    author: UserId, isBot: Option<bool>, source: int, lane: Lane, state: State, attempts: nat,
    outcome: Option<Outcome>, nextAttemptAt: int, updatedAt: int, dispatch: Option<DispatchId>)

  datatype Kind = ProtectedKind | HoldKind

  datatype Protection = Protection(
    revision: nat, completeThrough: Option<int>, ready: bool,
    botHistoryFrom: Option<int>, anchor: Option<int>)

  /** What a save request says, apart from its operation id; two requests hash alike when these agree. */
  datatype SaveBody = SaveBody(enabled: bool, hours: Hours, expectedRevision: int, actor: UserId,
                               connectWhenReady: bool)

  /** The part of the settings that a save answers with. */
  datatype Response = Response(enabled: bool, hours: Hours, revision: nat)

  datatype Operation = Operation(body: SaveBody, response: Response)

  datatype RequestStatus = RequestPending | RequestExpired | RequestCancelled | RequestActivated

  datatype ConnectionRequest = ConnectionRequest(
    operation: nat, actor: UserId, policyRevision: nat, status: RequestStatus,
    expiresAt: int, nextAttemptAt: int, lease: Option<Lease>)

  /** Everything stored for one chat, with the holds that are shared by all chats; a receipt keeps its time. */
  datatype Chat = Chat(
    policy: Policy,
    candidates: map<MessageId, Candidate>,
    future: Table,
    protection: Option<Protection>,
    protectedMessages: map<MessageId, Kind>,
    heldAuthors: set<UserId>,
    protectedBots: set<UserId>,
    globalAuthors: set<UserId>,
    globalMessages: set<MessageId>,
    receipts: map<nat, int>,
    operations: map<nat, Operation>,
    request: Option<ConnectionRequest>)

  // ---- SQL's treatment of missing values ----

  function Min(a: int, b: int): int {
    if a <= b then a else b
  }

  function Max(a: int, b: int): int {
    if a >= b then a else b
  }

  /** LEAST ignores a missing argument. */
  function LeastWith(a: Option<int>, x: int): int {
    match a
    case None => x
    case Some(v) => Min(v, x)
  }

  function LeastOf(a: Option<int>, b: Option<int>): Option<int> {
    match b
    case None => a
    case Some(v) => Some(LeastWith(a, v))
  }

  /** `x BETWEEN lo AND hi` is not true when a bound is missing. */
  predicate Between(x: int, lo: Option<int>, hi: Option<int>) {
    lo.Some? && hi.Some? && lo.value <= x <= hi.value
  }

  /** The same test for a column that may itself be missing. */
  predicate WithinWindow(x: Option<int>, lo: Option<int>, hi: Option<int>) {
    x.Some? && Between(x.value, lo, hi)
  }

  /** A range grown to take in another one. */
  function Widen(a: Option<Span>, b: Option<Span>): Option<Span> {
    match (a, b)
    case (None, _) => b
    case (_, None) => a
    case (Some(p), Some(q)) => Some(Span(Min(p.lo, q.lo), Max(p.hi, q.hi)))
  }

  predicate InSpan(x: int, s: Option<Span>) {
    s.Some? && s.value.lo <= x <= s.value.hi
  }

  /** A row freshly created with the column defaults of the schema. */
  const NEW_POLICY: Policy := Policy(
    false, 48, 0, 0, None, Unknown, None,
    HistoryLane(None, false, false, None),
    SafetyLane(None, None, None, None, false, false, None, 0),
    DueLane(None, None, None, None, None, false, false, None),
    0, 0, None, None, 0, 0, Totals(0, 0, 0, 0, 0, 0))

  const NEW_CHAT: Chat := Chat(NEW_POLICY, map[], [], None, map[], {}, {}, {}, {}, map[], map[], None)
}
