/**
  Every transaction of the store, as a function from the rows of one chat to the rows it leaves.
  Query results that need an order (the earliest due candidate, the page of rows to park) are
  arguments; `Enabled` says what they must be.
 */
module Transactions {
  import opened Wrappers
  import opened FutureMinutes
  import opened EraserTypes
  import opened Shielding
  import Q = QueryPages

  const SAFETY_DELAYS: seq<int> :=
    [15 * MINUTE, 30 * MINUTE, 60 * MINUTE, 120 * MINUTE, 240 * MINUTE, 360 * MINUTE]

  /** The range a page request asks for, newest first from `upper`. */
  datatype Window = Window(lower: Option<int>, upper: int)

  /** What a worker remembers of a candidate it read. */
  datatype Ticket = Ticket(state: State, dispatch: Option<DispatchId>)

  datatype DispatchError = GuardChanged | IsProtected | ProtectionPending

  datatype SaveError = InvalidPolicy | OperationConflict | StaleRevision | Unavailable | NotReady

  // ---- scheduling ----

  function PendingIds(c: map<MessageId, Candidate>): set<MessageId> {
    set id | id in c && c[id].state == Pending
  }

  function EffectiveDue(c: Candidate, hours: Hours): int {
    Max(c.source + Retention(hours), c.nextAttemptAt)
  }

  /** The due time of the first pending candidate in either lane, or nothing. */
  ghost predicate IsHead(s: Chat, head: Option<int>) {
    match head
    case None => forall id :: id in s.candidates ==> s.candidates[id].state != Pending
    case Some(t) =>
      && (exists id :: id in s.candidates && s.candidates[id].state == Pending
                       && EffectiveDue(s.candidates[id], s.policy.hours) == t)
      && (forall id :: id in s.candidates && s.candidates[id].state == Pending
                       ==> t <= EffectiveDue(s.candidates[id], s.policy.hours))
  }

  /** While a gap is retained, only minutes past its upper end may reopen the window. */
  function GapMoment(p: Policy): Option<int> {
    if p.due.gap then p.due.upper else None
  }

  /** When the whole minute `x` has reached the retention age. */
  function MinuteDue(x: int, hours: Hours): int {
    x + MINUTE + Retention(hours)
  }

  predicate HasCapacity(s: Chat) {
    |PendingIds(s.candidates)| <= CHAT_BUFFER - PAGE_SIZE
  }

  predicate DueScan(s: Chat, now: int) {
    var p := s.policy;
    var future := FirstAfter(s.future, GapMoment(p));
    && HasCapacity(s)
    && (|| (!p.history.complete && !p.history.gap)
        || (future.Some? && MinuteDue(future.value, p.hours) <= now)
        || (!p.due.gap && p.due.floor.Some? && (p.due.due || p.due.cursor.Some?)))
  }

  function NormalTarget(s: Chat, head: Option<int>, now: int): Option<int> {
    var future := FirstAfter(s.future, GapMoment(s.policy));
    var minute := if HasCapacity(s) && future.Some? then Some(MinuteDue(future.value, s.policy.hours)) else None;
    LeastOf(LeastOf(head, minute), if DueScan(s, now) then Some(now) else None)
  }

  function Reschedule(s: Chat, head: Option<int>, now: int, failed: bool, waitMs: int): Chat {
    var p := s.policy;
    var target := NormalTarget(s, head, now);
    var normal := if target.Some? then Max(now + 1000, target.value) else NO_WORK_AT;
    var safety := if HasCapacity(s) then p.safetyNextAt else Max(p.safetyNextAt, now + SAFETY_DELAYS[0]);
    var resumed := if HasCapacity(s) && p.safety.cursor.Some? && !p.safety.gap then now + 1000 else safety;
    var retry := now + Max(1000, waitMs);
    s.(policy := p.(normalNextAt := if failed then Max(normal, retry) else normal,
                    safetyNextAt := if failed then Max(resumed, retry) else resumed))
  }

  predicate Reachable(p: Policy) {
    p.connection != Missing && p.connection != NoAccess
  }

  function Reserve(s: Chat, token: Token, purpose: Purpose, now: int): Chat {
    var p := s.policy;
    var at := if purpose == Safety then p.safetyNextAt else p.normalNextAt;
    if p.enabled && Reachable(p) && at <= now && (p.lease.None? || p.lease.value.until < now)
    then s.(policy := p.(lease := Some(Lease(token, now + 60_000))))
    else s
  }

  predicate Leased(p: Policy, token: Token) {
    p.lease.Some? && p.lease.value.token == token
  }

  /** The visit's view: only a valid lease on an enabled, reachable chat. */
  predicate Active(p: Policy, token: Token, now: int) {
    p.enabled && Reachable(p) && Leased(p, token) && p.lease.value.until > now
  }

  function FinishVisit(s: Chat, token: Token, head: Option<int>, failed: bool, waitMs: int, now: int): Chat {
    if Leased(s.policy, token) then
      var r := Reschedule(s, head, now, failed, waitMs);
      r.(policy := r.policy.(lease := None))
    else s
  }

  /** A passive observation cannot undo a removal or a proven denial. */
  function SetConnection(s: Chat, status: Connection, explicit: bool): Chat {
    if status != Connected || explicit || Reachable(s.policy)
    then s.(policy := s.policy.(connection := status))
    else s
  }

  // ---- scanning ----

  /** The guard every write of a scan repeats: same lease, still valid, same revision and generation. */
  predicate SameScan(p: Policy, seen: Policy, now: int) {
    && p.enabled && seen.lease.Some? && Leased(p, seen.lease.value.token) && p.lease.value.until > now
    && p.revision == seen.revision && p.scanGeneration == seen.scanGeneration
  }

  /** `at` is the worker's clock when it chose the window, `now` the database clock of the write. */
  function OpenSafety(s: Chat, seen: Policy, at: int, now: int): (Chat, Option<Window>) {
    var cutoff := at - Retention(seen.hours);
    var floor := match seen.safety.floor
      case Some(f) => f
      case None => seen.due.low.GetOr(cutoff + 1);
    if floor > cutoff then (s, None)
    else if seen.safety.cursor.Some? && !seen.safety.gap
    then (s, Some(Window(Some(floor), seen.safety.cursor.value)))
    else if SameScan(s.policy, seen, now)
    then (s.(policy := s.policy.(safety := s.policy.safety.(
            floor := Some(floor), upper := Some(cutoff), cursor := Some(cutoff),
            signature := None, hadMessages := false, gap := false))),
          Some(Window(Some(floor), cutoff)))
    else (s, None)
  }

  function OpenDue(s: Chat, seen: Policy, at: int, future: Option<int>, now: int): (Chat, Option<Window>) {
    var cutoff := at - Retention(seen.hours);
    var ripe := future.Some? && MinuteDue(future.value, seen.hours) <= at;
    var known := (seen.due.due && seen.due.floor.Some?) || ripe;
    var floor := LeastOf(seen.due.floor, future);
    if seen.due.gap && !ripe then (s, None)
    else if !known && (seen.due.cursor.None? || seen.due.floor.None?) then (s, None)
    else if floor.None? || floor.value > cutoff then (s, None)
    else if !seen.due.gap && seen.due.cursor.Some? && seen.due.floor.Some?
    then (s, Some(Window(floor, seen.due.cursor.value)))
    else if SameScan(s.policy, seen, now) && s.policy.dueGeneration == seen.dueGeneration
    then (s.(policy := s.policy.(due := s.policy.due.(
            low := Some(LeastWith(s.policy.due.low, floor.value)), floor := floor,
            upper := Some(cutoff), cursor := Some(cutoff), signature := None, gap := false))),
          Some(Window(floor, cutoff)))
    else (s, None)
  }

  function OpenScan(s: Chat, seen: Policy, lane: Lane, purpose: Purpose, at: int, future: Option<int>, now: int)
    : (Chat, Option<Window>)
  {
    if lane == History then
      if purpose == Safety || seen.history.complete || seen.history.gap then (s, None)
      else (s, Some(Window(None, seen.history.cursor.GetOr(at - Retention(seen.hours)))))
    else if purpose == Safety then OpenSafety(s, seen, at, now)
    else OpenDue(s, seen, at, future, now)
  }

  datatype Verdict = Skip | Defer(gap: Gap) | Admit

  /** What becomes of one listed message. */
  function Judge(s: Chat, m: Message, now: int): Verdict {
    if m.source + Retention(s.policy.hours) > now || Excluded(s, m.id, m.author) then Skip
    else
      var gap := GapOf(s, m.isBot, m.source, m.author);
      if gap == NoGap then Admit else Defer(gap)
  }

  /** What a page leaves behind: journal rows and the ranges protection defers. */
  datatype Intake = Intake(rows: map<MessageId, Candidate>, current: Option<Span>, historical: Option<Span>)

  function NewRow(m: Message, lane: Lane, now: int): Candidate {
    Candidate(m.author, m.isBot, m.source, lane, Pending, 0, None, now, now, None)
  }

  function TakeIn(s: Chat, lane: Lane, now: int, acc: Intake, m: Message): Intake {
    match Judge(s, m, now)
    case Skip => acc
    case Defer(gap) =>
      if gap == CurrentGap then acc.(current := Widen(acc.current, Some(Span(m.source, m.source))))
      else acc.(historical := Widen(acc.historical, Some(Span(m.source, m.source))))
    case Admit =>
      if m.id in acc.rows then acc else acc.(rows := acc.rows[m.id := NewRow(m, lane, now)])
  }

  function TakeInAll(s: Chat, lane: Lane, now: int, page: seq<Message>): Intake {
    if page == [] then Intake(s.candidates, None, None)
    else TakeIn(s, lane, now, TakeInAll(s, lane, now, page[..|page| - 1]), page[|page| - 1])
  }

  function SignatureOf(page: seq<Message>): Signature {
    seq(|page|, i requires 0 <= i < |page| => (page[i].id, page[i].source))
  }

  function Oldest(page: seq<Message>): Option<int> {
    if page == [] then None else Some(page[|page| - 1].source)
  }

  function OrElse(a: Option<int>, b: Option<int>): Option<int> {
    if a.Some? then a else b
  }

  function AfterHistory(p: Policy, page: seq<Message>): Policy {
    var repeated := |page| == PAGE_SIZE && p.history.signature == Some(SignatureOf(page));
    p.(history := HistoryLane(OrElse(Oldest(page), p.history.cursor), |page| < PAGE_SIZE, repeated,
                              Some(SignatureOf(page))),
       scanGeneration := p.scanGeneration + 1)
  }

  predicate Closes(page: seq<Message>, upper: Option<int>) {
    |page| < PAGE_SIZE && upper.Some?
  }

  /** A finished safety window: the floor moves past it and gaps inside it are settled. */
  function AfterSafetyWindow(p: Policy, empty: bool, now: int): Policy
    requires p.safety.upper.Some?
  {
    var q := p.safety;
    var streak := if empty then Min(q.emptyStreak + 1, 6) else 0;
    var settled := WithinWindow(p.due.gapAt, q.floor, q.upper);
    var idle := p.due.floor.None?;
    p.(safety := SafetyLane(Some(q.upper.value + 1), None, None, None, false, false,
                            if WithinWindow(q.gapAt, q.floor, q.upper) then None else q.gapAt, streak),
       due := p.due.(low := Some(LeastWith(p.due.floor, q.upper.value + 1)),
                     gap := if settled then false else p.due.gap,
                     gapAt := if settled then None else p.due.gapAt,
                     cursor := if idle then None else p.due.cursor,
                     upper := if idle then None else p.due.upper,
                     signature := if idle then None else p.due.signature),
       safetyNextAt := now + SAFETY_DELAYS[Max(0, streak - 1)],
       scanGeneration := p.scanGeneration + 1)
  }

  function AfterSafetyPage(p: Policy, page: seq<Message>, now: int): Policy {
    var q := p.safety;
    var repeated := |page| == PAGE_SIZE && q.signature == Some(SignatureOf(page));
    var cursor := OrElse(Oldest(page), q.cursor);
    p.(safety := q.(cursor := cursor, signature := Some(SignatureOf(page)), gap := q.gap || repeated,
                    gapAt := if repeated then OrElse(q.gapAt, cursor) else q.gapAt,
                    hadMessages := q.hadMessages || |page| > 0),
       safetyNextAt := if repeated then now + 6 * HOUR else p.safetyNextAt,
       scanGeneration := p.scanGeneration + 1)
  }

  function AfterDueWindow(p: Policy): Policy {
    var d := p.due;
    p.(due := DueLane(OrElse(p.safety.floor, d.low), None, None, None, None, false, false,
                      if WithinWindow(d.gapAt, d.floor, d.upper) then None else d.gapAt),
       dueGeneration := p.dueGeneration + 1)
  }

  function AfterDuePage(p: Policy, page: seq<Message>): Policy {
    var d := p.due;
    var repeated := |page| == PAGE_SIZE && d.signature == Some(SignatureOf(page));
    var cursor := OrElse(Oldest(page), d.cursor);
    p.(due := d.(cursor := cursor, signature := Some(SignatureOf(page)), gap := d.gap || repeated,
                 gapAt := if repeated then OrElse(d.gapAt, cursor) else d.gapAt),
       dueGeneration := p.dueGeneration + 1)
  }

  /** A page counts only against the exact scan it was fetched for, and only while there is room for it. */
  predicate PageAccepted(s: Chat, seen: Policy, lane: Lane, purpose: Purpose, now: int) {
    && SameScan(s.policy, seen, now)
    && (lane == Live && purpose == Due ==> s.policy.dueGeneration == seen.dueGeneration)
    && HasCapacity(s)
  }

  function AfterPage(p: Policy, lane: Lane, page: seq<Message>, purpose: Purpose, now: int): Policy {
    if lane == History then AfterHistory(p, page)
    else if purpose == Safety then
      if Closes(page, p.safety.upper)
      then AfterSafetyWindow(p, !p.safety.hadMessages && page == [], now)
      else AfterSafetyPage(p, page, now)
    else if Closes(page, p.due.upper) && p.due.floor.Some? then AfterDueWindow(p)
    else AfterDuePage(p, page)
  }

  /** The effect of a page on the journal, the deferred ranges, the bitmap and its lane. */
  function PageTaken(s: Chat, lane: Lane, page: seq<Message>, purpose: Purpose, now: int): Chat {
    var taken := TakeInAll(s, lane, now, page);
    var p := s.policy.(
      totals := s.policy.totals.(scanned := s.policy.totals.scanned + |page|),
      deferred := Widen(s.policy.deferred, taken.current),
      historicalDeferred := Widen(s.policy.historicalDeferred, taken.historical));
    var closing := lane == Live && purpose == Due && Closes(page, p.due.upper) && p.due.floor.Some?;
    s.(candidates := taken.rows,
       future := if closing then Clear(s.future, p.due.floor.value, p.due.upper.value, WALK_LIMIT) else s.future,
       policy := AfterPage(p, lane, page, purpose, now))
  }

  function SavePage(s: Chat, seen: Policy, lane: Lane, page: seq<Message>, purpose: Purpose, now: int): Chat {
    if PageAccepted(s, seen, lane, purpose, now) then PageTaken(s, lane, page, purpose, now) else s
  }

  // ---- the DELETE journal ----

  predicate Issued(state: State) {
    state == Dispatching || state == Uncertain
  }

  predicate Terminal(state: State) {
    state == Deleted || state == Protected
  }

  predicate VisitAllowed(s: Chat, execution: bool, token: Token, checkedAt: int, pinAt: int, begin: int, now: int) {
    && execution && s.policy.enabled && Reachable(s.policy) && Leased(s.policy, token)
    && s.policy.lease.value.until > begin && s.policy.lease.value.until > now
    && now - checkedAt < 30_000 && now - pinAt < 5000
  }

  /** The first reason the final guard has to refuse, reading the clock at `now`. */
  function DispatchRefusal(s: Chat, execution: bool, id: MessageId, ticket: Ticket, token: Token,
                           checkedAt: int, pinAt: int, begin: int, now: int): Option<DispatchError>
  {
    if !VisitAllowed(s, execution, token, checkedAt, pinAt, begin, now) then Some(GuardChanged)
    else if id !in s.candidates then Some(GuardChanged)
    else
      var row := s.candidates[id];
      if row.state != Pending || row.dispatch != ticket.dispatch || row.nextAttemptAt > now
         || row.source + Retention(s.policy.hours) > now then Some(GuardChanged)
      else if Excluded(s, id, row.author) then Some(IsProtected)
      else if GapOf(s, row.isBot, row.source, row.author) != NoGap then Some(ProtectionPending)
      else None
  }

  /** The evidence and the lease are tested again, at `mark`, by the write itself. */
  predicate StillFresh(s: Chat, checkedAt: int, pinAt: int, mark: int) {
    && Min(checkedAt + 30_000, pinAt + 5000) > mark
    && s.policy.lease.Some? && s.policy.lease.value.until > mark
  }

  function Dispatch(s: Chat, execution: bool, id: MessageId, ticket: Ticket, token: Token,
                    checkedAt: int, pinAt: int, begin: int, now: int, mark: int, uuid: DispatchId)
    : (r: (Chat, Result<DispatchId, DispatchError>))
    ensures r.1.Success? ==> id in s.candidates && s.candidates[id].state == Pending
  {
    var refusal := DispatchRefusal(s, execution, id, ticket, token, checkedAt, pinAt, begin, now);
    if refusal.Some? then (s, Failure(refusal.value))
    else if !StillFresh(s, checkedAt, pinAt, mark) then (s, Failure(GuardChanged))
    else
      var row := s.candidates[id];
      (s.(candidates := s.candidates[id := row.(
            state := Dispatching, dispatch := Some(uuid), attempts := row.attempts + 1,
            updatedAt := mark, nextAttemptAt := mark + 10_000)]),
       Success(uuid))
  }

  /** Only the exact attempt may settle its row, and only in the ways its outcome allows. */
  predicate MaySettle(row: Candidate, ticket: Ticket, to: State, code: Outcome) {
    && !Terminal(row.state)
    && row.dispatch == ticket.dispatch
    && if ticket.dispatch.Some? && Issued(ticket.state) then
         && Issued(row.state) && to != Protected && to != Review
         && (to == Pending ==> ticket.state == Dispatching && code == RateLimited)
       else
         && row.state == Pending && ticket.state == Pending
         && (to == Pending || to == Protected || to == Review)
  }

  function CountSettled(t: Totals, to: State): Totals {
    if to == Deleted then t.(deleted := t.deleted + 1, acknowledged := t.acknowledged + 1)
    else if to == Protected then t.(skipped := t.skipped + 1)
    else t
  }

  function Settle(s: Chat, id: MessageId, ticket: Ticket, to: State, code: Outcome, waitMs: int, now: int): Chat
  {
    if id !in s.candidates || !MaySettle(s.candidates[id], ticket, to, code) then s
    else
      var row := s.candidates[id].(state := to, outcome := Some(code), updatedAt := now, nextAttemptAt := now + waitMs);
      var p := s.policy;
      s.(candidates := s.candidates[id := row],
         policy := p.(totals := CountSettled(p.totals, to),
                      normalNextAt := if to == Pending then Min(p.normalNextAt, EffectiveDue(row, p.hours))
                                      else p.normalNextAt))
  }

  /** Only an unissued review intent, named exactly, returns to ordinary work. */
  predicate MayRetry(s: Chat, id: MessageId, revision: nat, activation: nat, updatedAt: int) {
    && s.policy.revision == revision && s.policy.activation == activation
    && id in s.candidates && s.candidates[id].state == Review && s.candidates[id].attempts == 0
    && s.candidates[id].dispatch.None? && s.candidates[id].updatedAt == updatedAt
  }

  function Reopened(s: Chat, id: MessageId, now: int): Chat
    requires id in s.candidates
  {
    s.(candidates := s.candidates[id := s.candidates[id].(
      state := Pending, nextAttemptAt := now, outcome := None, updatedAt := now)])
  }

  function RetryReview(s: Chat, id: MessageId, revision: nat, activation: nat, updatedAt: int, head: Option<int>,
                       now: int): Chat {
    if !MayRetry(s, id, revision, activation, updatedAt) then s
    else Reschedule(Reopened(s, id, now), head, now, false, 1000)
  }

  function Without(s: Chat, id: MessageId): Chat {
    s.(candidates := map i | i in s.candidates && i != id :: s.candidates[i])
  }

  /** A pending candidate that protection does not cover yet becomes part of a deferred range. */
  function DeferProtection(s: Chat, id: MessageId): Chat {
    if id !in s.candidates || s.candidates[id].state != Pending then s
    else
      var row := s.candidates[id];
      var at := Some(Span(row.source, row.source));
      match GapOf(s, row.isBot, row.source, row.author)
      case NoGap => s
      case CurrentGap =>
        Without(s, id).(policy := s.policy.(deferred := Widen(s.policy.deferred, at)))
      case HistoryGap =>
        Without(s, id).(policy := s.policy.(historicalDeferred := Widen(s.policy.historicalDeferred, at)))
  }

  function InstallHolds(s: Chat, authors: set<UserId>, messages: set<MessageId>): Chat {
    s.(globalAuthors := s.globalAuthors + authors, globalMessages := s.globalMessages + messages)
  }

  /** Terminal rows older than seven days may be purged, and nothing else. */
  predicate Purgeable(c: Candidate, now: int) {
    Terminal(c.state) && c.updatedAt < now - 7 * DAY
  }

  /** A receipt is kept for seven days. */
  predicate Forgettable(receivedAt: int, now: int) {
    receivedAt < now - 7 * DAY
  }

  /** The rows a purge may lock, by age; rows that someone else holds are passed over. */
  function PurgeKeys(c: map<MessageId, Candidate>, locked: set<MessageId>, now: int): Q.Keys {
    map id | id in c && Purgeable(c[id], now) && id !in locked :: c[id].updatedAt
  }

  function ForgetKeys(receipts: map<nat, int>, locked: set<nat>, now: int): Q.Keys {
    map r | r in receipts && Forgettable(receipts[r], now) && r !in locked :: receipts[r]
  }

  function Purge(s: Chat, ids: set<MessageId>, receipts: set<nat>, now: int): Chat {
    s.(candidates := map id |
         id in s.candidates && !(id in ids && Purgeable(s.candidates[id], now)) :: s.candidates[id],
       receipts := map r | r in s.receipts && !(r in receipts && Forgettable(s.receipts[r], now)) :: s.receipts[r])
  }

  // ---- webhooks ----

  /** Expired minutes become part of the known-due range; `wake` says whether they may reopen a retained gap. */
  function HandOver(p: Policy, floor: int, wake: bool, now: int): Policy {
    p.(due := p.due.(low := Some(LeastWith(p.due.low, floor)), due := true,
                     floor := Some(LeastWith(p.due.floor, floor)),
                     gap := if wake then false else p.due.gap,
                     upper := if wake then None else p.due.upper,
                     cursor := if wake then None else p.due.cursor,
                     signature := if wake then None else p.due.signature),
       dueGeneration := p.dueGeneration + 1,
       normalNextAt := if wake then Min(p.normalNextAt, now) else p.normalNextAt)
  }

  function Compact(s: Chat, now: int): Chat {
    var p := s.policy;
    var rows := Expired(s.future, now - Retention(p.hours) - HOUR, COMPACT_LIMIT);
    if rows == [] then s
    else
      var floor := FirstBit(rows[0], None, 0).GetOr(rows[0].hour);
      var wake := !p.due.gap || (p.due.upper.Some? && ReachesPast(rows, p.due.upper.value));
      s.(future := s.future[|rows|..], policy := HandOver(p, floor, wake, now))
  }

  /** A message that is not due yet only sets its minute, and pulls the next wake to that minute's end. */
  function NoteFuture(s: Chat, source: int): Chat {
    var p := s.policy;
    var dueAt := MinuteDue(MinuteOf(source), p.hours);
    var blocked := p.due.gap && !(p.due.upper.Some? && End(MinuteOf(source)) > p.due.upper.value);
    s.(future := Put(s.future, source),
       policy := p.(normalNextAt := if blocked then p.normalNextAt else Min(p.normalNextAt, dueAt)))
  }

  /** A message that is already due lowers the due floor, restarts its windows and invalidates pages in flight. */
  function NoteDue(s: Chat, source: int, now: int): Chat {
    var p := s.policy;
    var hit := Between(source, p.safety.floor, p.safety.upper);
    s.(policy := p.(
      due := p.due.(low := Some(LeastWith(p.due.low, source)), due := true,
                    floor := Some(LeastWith(p.due.floor, source)),
                    cursor := None, upper := None, signature := None, gap := false),
      dueGeneration := p.dueGeneration + 1,
      normalNextAt := now,
      scanGeneration := p.scanGeneration + (if hit then 1 else 0),
      safety := if hit then p.safety.(cursor := p.safety.upper, signature := None, gap := false) else p.safety,
      safetyNextAt := if hit then now else p.safetyNextAt))
  }

  function NoteMessage(s: Chat, source: int, now: int): Chat {
    if !s.policy.enabled then s
    else
      var c := Compact(s, now);
      if source + Retention(s.policy.hours) > now then NoteFuture(c, source) else NoteDue(c, source, now)
  }

  function RemovedRow(s: Chat, id: MessageId, now: int): Chat
    requires id in s.candidates
  {
    s.(candidates := s.candidates[id := s.candidates[id].(
         state := Deleted, outcome := Some(RemovedReceipt), updatedAt := now)],
       policy := s.policy.(totals := s.policy.totals.(
         deleted := s.policy.totals.deleted + 1, removalReceipt := s.policy.totals.removalReceipt + 1)))
  }

  function NoteRemoval(s: Chat, id: MessageId, head: Option<int>, now: int): Chat {
    if id !in s.candidates || Terminal(s.candidates[id].state) then s
    else if s.candidates[id].state == Pending then Reschedule(RemovedRow(s, id, now), head, now, false, 1000)
    else RemovedRow(s, id, now)
  }

  function IngestMessage(s: Chat, receipt: nat, source: Option<int>, now: int): Chat {
    if receipt in s.receipts then s
    else
      var noted := s.(receipts := s.receipts[receipt := now]);
      if source.Some? then NoteMessage(noted, source.value, now) else noted
  }

  /** One authenticated webhook; a receipt key that was seen before changes nothing. */
  function Ingest(s: Chat, receipt: nat, source: Option<int>, removed: Option<MessageId>, botRemoved: bool,
                  head: Option<int>, now: int): Chat
  {
    if receipt in s.receipts then s
    else
      var noted := IngestMessage(s, receipt, source, now);
      var gone := if removed.Some? then NoteRemoval(noted, removed.value, head, now) else noted;
      if botRemoved then gone.(policy := gone.policy.(connection := Missing)) else gone
  }

  // ---- settings ----

  /** Enabling, or changing the period, restarts every lane around one cutoff. */
  function Restart(p: Policy, lowCut: int, historyCut: int, safetyCut: int, now: int): Policy {
    p.(due := DueLane(LeastOf(LeastOf(Some(lowCut + 1), p.due.gapAt), p.safety.gapAt),
                      None, None, None, None, false, false, p.due.gapAt),
       dueGeneration := p.dueGeneration + 1,
       history := HistoryLane(Some(Max(p.history.cursor.GetOr(0), historyCut)), false, false, None),
       safety := SafetyLane(LeastOf(LeastOf(Some(safetyCut + 1), p.due.gapAt), p.safety.gapAt),
                            None, None, None, false, false, p.safety.gapAt, p.safety.emptyStreak),
       safetyNextAt := now)
  }

  predicate Unissued(c: Candidate) {
    c.state == Pending && c.dispatch.None? && c.attempts == 0
  }

  /** Candidates a longer period makes too young again. */
  predicate Parkable(c: Candidate, hours: Hours, now: int) {
    Unissued(c) && c.source > now - Retention(hours) && c.nextAttemptAt <= c.source + Retention(hours)
  }

  function SourcesOf(c: map<MessageId, Candidate>, ids: seq<MessageId>): seq<int>
    requires forall k :: 0 <= k < |ids| ==> ids[k] in c
  {
    seq(|ids|, k requires 0 <= k < |ids| => c[ids[k]].source)
  }

  function ParkKeys(c: map<MessageId, Candidate>, hours: Hours, now: int): Q.Keys {
    map id | id in c && Parkable(c[id], hours, now) :: c[id].source
  }

  /** The first 200 parkable candidates in (source, id) order. */
  ghost predicate ParkPage(s: Chat, hours: Hours, ids: seq<MessageId>, now: int) {
    Q.FirstPage(ParkKeys(s.candidates, hours, now), CHAT_BUFFER, ids)
  }

  function Park(s: Chat, ids: seq<MessageId>): Chat
    requires forall k :: 0 <= k < |ids| ==> ids[k] in s.candidates
  {
    s.(future := PutAll(s.future, SourcesOf(s.candidates, ids)),
       candidates := map id | id in s.candidates && id !in ids :: s.candidates[id])
  }

  /** Age deferrals of an earlier version that a shorter period ends. */
  function WakeDeferrals(s: Chat, ids: set<MessageId>, cutoff: int, now: int): Chat {
    s.(candidates := map id | id in s.candidates ::
      var c := s.candidates[id];
      if id in ids && Unissued(c) && c.outcome == Some(NotDue) && c.source <= cutoff && c.nextAttemptAt > now
      then c.(nextAttemptAt := now, updatedAt := now) else c)
  }

  function WakeKeys(c: map<MessageId, Candidate>, cutoff: int): Q.Keys {
    map id | id in c && Unissued(c[id]) && c[id].outcome == Some(NotDue) && c[id].source <= cutoff :: c[id].source
  }

  function SaveRefusal(s: Chat, body: SaveBody, execution: bool): Option<SaveError> {
    if body.expectedRevision != s.policy.revision then Some(StaleRevision)
    else if body.enabled && !execution then Some(Unavailable)
    else if body.enabled && !(s.protection.Some? && s.protection.value.ready) then Some(NotReady)
    else None
  }

  predicate Enables(body: SaveBody) {
    body.enabled && !body.connectWhenReady
  }

  predicate Restarts(p: Policy, body: SaveBody) {
    Enables(body) && (!p.enabled || body.hours != p.hours)
  }

  function SavedPolicy(p: Policy, operation: nat, body: SaveBody, activation: nat, now: int): Policy {
    var cutoff := now - Retention(body.hours);
    var q := if Restarts(p, body) then Restart(p, cutoff, cutoff, cutoff, now) else p;
    q.(enabled := Enables(body), hours := body.hours, revision := p.revision + 1, lastOperation := Some(operation),
       activation := if p.enabled != Enables(body) then activation else p.activation,
       normalNextAt := now)
  }

  function SavedRequest(r: Option<ConnectionRequest>, operation: nat, body: SaveBody, revision: nat, now: int)
    : Option<ConnectionRequest>
  {
    if body.connectWhenReady
    then Some(ConnectionRequest(operation, body.actor, revision, RequestPending, now + HOUR, now, None))
    else if r.Some? && (r.value.status == RequestPending || r.value.status == RequestExpired)
    then Some(r.value.(status := RequestCancelled, lease := None))
    else r
  }

  function ResponseOf(p: Policy): Response {
    Response(p.enabled, p.hours, p.revision)
  }

  /** The candidates a save moves: parked by a longer period, woken by a shorter one. */
  function Aged(s: Chat, body: SaveBody, parked: seq<MessageId>, woken: set<MessageId>, now: int): Chat
    requires forall k :: 0 <= k < |parked| ==> parked[k] in s.candidates
  {
    if Enables(body) && body.hours > s.policy.hours then Park(s, parked)
    else if Enables(body) && body.hours < s.policy.hours
    then WakeDeferrals(s, woken, now - Retention(body.hours), now)
    else s
  }

  /** One settings write: replay, refuse, or commit exactly once under its operation id. */
  function Save(s: Chat, operation: nat, body: SaveBody, execution: bool, activation: nat,
                parked: seq<MessageId>, woken: set<MessageId>, now: int): (Chat, Result<Response, SaveError>)
    requires forall k :: 0 <= k < |parked| ==> parked[k] in s.candidates
  {
    if body.connectWhenReady && !body.enabled then (s, Failure(InvalidPolicy))
    else if operation in s.operations then
      (s, if s.operations[operation].body == body then Success(s.operations[operation].response)
          else Failure(OperationConflict))
    else if SaveRefusal(s, body, execution).Some? then (s, Failure(SaveRefusal(s, body, execution).value))
    else
      var p := SavedPolicy(s.policy, operation, body, activation, now);
      var a := Aged(s, body, parked, woken, now);
      (a.(policy := p,
          request := SavedRequest(s.request, operation, body, s.policy.revision + 1, now),
          operations := s.operations[operation := Operation(body, ResponseOf(p))]),
       Success(ResponseOf(p)))
  }

  // ---- connecting when ready ----

  function ReserveConnection(s: Chat, token: Token, execution: bool, now: int): Chat {
    if !execution || s.request.None? || s.request.value.status != RequestPending then s
    else
      var r := s.request.value;
      if r.expiresAt <= now then s.(request := Some(r.(status := RequestExpired, lease := None)))
      else if r.nextAttemptAt <= now && (r.lease.None? || r.lease.value.until <= now)
      then s.(request := Some(r.(lease := Some(Lease(token, Min(r.expiresAt, now + 60_000))))))
      else s
  }

  function FinishConnection(s: Chat, token: Token, cancelled: bool, waitMs: int, now: int): Chat {
    if s.request.None? || s.request.value.status != RequestPending
       || s.request.value.lease.None? || s.request.value.lease.value.token != token then s
    else
      var r := s.request.value;
      s.(request := Some(r.(
           status := if r.expiresAt <= now then RequestExpired
                     else if cancelled then RequestCancelled else RequestPending,
           nextAttemptAt := Min(r.expiresAt, now + Max(1000, waitMs)), lease := None)))
  }

  predicate MayActivate(s: Chat, token: Token, proofExpiresAt: int, execution: bool, now: int) {
    && execution && !s.policy.enabled
    && s.request.Some? && s.request.value.status == RequestPending
    && s.request.value.policyRevision == s.policy.revision
    && s.request.value.lease.Some? && s.request.value.lease.value.token == token
    && s.request.value.lease.value.until > now && s.request.value.expiresAt > now && proofExpiresAt > now
    && s.protection.Some? && s.protection.value.ready
  }

  /** The safety floor an activation computes, one past its cutoff unless a recorded gap lies below. */
  function ActivationFloor(p: Policy, safetyAt: int): int {
    LeastWith(p.safety.gapAt, LeastWith(p.due.gapAt, safetyAt - Retention(p.hours) + 1))
  }

  function ActivationCursor(p: Policy, historyAt: int): int {
    Max(p.history.cursor.GetOr(0), historyAt - Retention(p.hours))
  }

  /** The three lower bounds each read the database clock for themselves. */
  function ActivateConnection(s: Chat, token: Token, proofExpiresAt: int, execution: bool, activation: nat,
                              lowAt: int, historyAt: int, safetyAt: int, now: int): Chat
  {
    if !MayActivate(s, token, proofExpiresAt, execution, now) then s
    else
      var age := Retention(s.policy.hours);
      var q := Restart(s.policy, lowAt - age, historyAt - age, safetyAt - age, now);
      s.(policy := q.(enabled := true, revision := s.policy.revision + 1, connection := Connected,
                      activation := activation, lease := None, normalNextAt := now),
         request := Some(s.request.value.(status := RequestActivated, lease := None)))
  }
}
