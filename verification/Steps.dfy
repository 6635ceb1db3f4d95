/** The store as a state machine: one step is one committed transaction with all its arguments. */
module Steps {
  import opened Wrappers
  import opened EraserTypes
  import opened Shielding
  import opened Transactions

  datatype Step =
    | Protect(input: Snapshot, now: int)
    | SaveSettings(operation: nat, body: SaveBody, execution: bool, activation: nat,
                   parked: seq<MessageId>, woken: set<MessageId>, now: int)
    | LeaseConnection(token: Token, execution: bool, now: int)
    | EndConnection(token: Token, cancelled: bool, waitMs: int, now: int)
    | Connect(token: Token, proofExpiresAt: int, execution: bool, activation: nat,
              lowAt: int, historyAt: int, safetyAt: int, now: int)
    | Webhook(receipt: nat, source: Option<int>, removed: Option<MessageId>, botRemoved: bool, head: Option<int>,
              now: int)
    | ReserveVisit(token: Token, purpose: Purpose, now: int)
    | EndVisit(token: Token, head: Option<int>, failed: bool, waitMs: int, now: int)
    | Observe(status: Connection, explicit: bool)
    | OpenWindow(seen: Policy, lane: Lane, purpose: Purpose, at: int, future: Option<int>, now: int)
    | AcceptPage(seen: Policy, lane: Lane, page: seq<Message>, purpose: Purpose, now: int)
    | Mark(execution: bool, id: MessageId, ticket: Ticket, token: Token,
           checkedAt: int, pinAt: int, begin: int, now: int, mark: int, uuid: DispatchId)
    | Resolve(id: MessageId, ticket: Ticket, to: State, code: Outcome, waitMs: int, now: int)
    | Retry(id: MessageId, revision: nat, activation: nat, updatedAt: int, head: Option<int>, now: int)
    | AwaitProtection(id: MessageId)
    | GlobalHolds(authors: set<UserId>, messages: set<MessageId>)
    | Housekeep(ids: set<MessageId>, receipts: set<nat>, now: int)

  /** What the queries inside a transaction return, where the transaction depends on their order. */
  ghost predicate Enabled(s: Chat, step: Step) {
    match step
    case SaveSettings(_, body, _, _, parked, _, now) => ParkPage(s, body.hours, parked, now)
    case EndVisit(_, head, _, _, _) => IsHead(s, head)
    case Webhook(receipt, source, removed, _, head, now) =>
      var noted := IngestMessage(s, receipt, source, now);
      removed.Some? && removed.value in noted.candidates ==> IsHead(RemovedRow(noted, removed.value, now), head)
    case Retry(id, _, _, _, head, now) => id in s.candidates ==> IsHead(Reopened(s, id, now), head)
    case _ => true
  }

  function Apply(s: Chat, step: Step): Chat {
    match step
    case Protect(input, now) => ApplyProtection(s, input, now)
    case SaveSettings(operation, body, execution, activation, parked, woken, now) =>
      if forall k :: 0 <= k < |parked| ==> parked[k] in s.candidates
      then Save(s, operation, body, execution, activation, parked, woken, now).0
      else s
    case LeaseConnection(token, execution, now) => ReserveConnection(s, token, execution, now)
    case EndConnection(token, cancelled, waitMs, now) => FinishConnection(s, token, cancelled, waitMs, now)
    case Connect(token, proof, execution, activation, lowAt, historyAt, safetyAt, now) =>
      ActivateConnection(s, token, proof, execution, activation, lowAt, historyAt, safetyAt, now)
    case Webhook(receipt, source, removed, botRemoved, head, now) =>
      Ingest(s, receipt, source, removed, botRemoved, head, now)
    case ReserveVisit(token, purpose, now) => Reserve(s, token, purpose, now)
    case EndVisit(token, head, failed, waitMs, now) => FinishVisit(s, token, head, failed, waitMs, now)
    case Observe(status, explicit) => SetConnection(s, status, explicit)
    case OpenWindow(seen, lane, purpose, at, future, now) => OpenScan(s, seen, lane, purpose, at, future, now).0
    case AcceptPage(seen, lane, page, purpose, now) => SavePage(s, seen, lane, page, purpose, now)
    case Mark(execution, id, ticket, token, checkedAt, pinAt, begin, now, mark, uuid) =>
      Dispatch(s, execution, id, ticket, token, checkedAt, pinAt, begin, now, mark, uuid).0
    case Resolve(id, ticket, to, code, waitMs, now) => Settle(s, id, ticket, to, code, waitMs, now)
    case Retry(id, revision, activation, updatedAt, head, now) =>
      RetryReview(s, id, revision, activation, updatedAt, head, now)
    case AwaitProtection(id) => DeferProtection(s, id)
    case GlobalHolds(authors, messages) => InstallHolds(s, authors, messages)
    case Housekeep(ids, receipts, now) => Purge(s, ids, receipts, now)
  }

  function Run(s: Chat, steps: seq<Step>): Chat {
    if steps == [] then s else Apply(Run(s, steps[..|steps| - 1]), steps[|steps| - 1])
  }

  lemma {:induction false} RunSplit(s: Chat, a: seq<Step>, b: seq<Step>)
    ensures Run(s, a + b) == Run(Run(s, a), b)
  {
    if b == [] {
      assert a + b == a;
    } else {
      RunSplit(s, a, b[..|b| - 1]);
      assert (a + b)[..|a + b| - 1] == a + b[..|b| - 1];
    }
  }

  /** The mark step of a run took effect: the row was pending before and carries the new dispatch id. */
  predicate Marks(s: Chat, step: Step, id: MessageId) {
    step.Mark? && step.id == id
    && Dispatch(s, step.execution, id, step.ticket, step.token, step.checkedAt, step.pinAt,
                step.begin, step.now, step.mark, step.uuid).1.Success?
  }

  // ---- what the larger transactions leave alone ----

  /** Rescheduling moves the two wakes and nothing else. */
  lemma RescheduleFrame(s: Chat, head: Option<int>, now: int, failed: bool, waitMs: int)
    ensures var t := Reschedule(s, head, now, failed, waitMs);
            t == s.(policy := s.policy.(normalNextAt := t.policy.normalNextAt, safetyNextAt := t.policy.safetyNextAt))
  {
  }

  /** The part of a policy that webhooks never change. */
  predicate SameSettings(p: Policy, q: Policy) {
    p.enabled == q.enabled && p.hours == q.hours && p.revision == q.revision && p.activation == q.activation
    && p.lastOperation == q.lastOperation && p.lease == q.lease
  }

  lemma CompactFrame(s: Chat, now: int)
    ensures var t := Compact(s, now);
      && t == s.(policy := t.policy, future := t.future)
      && t.policy == s.policy.(due := t.policy.due, dueGeneration := t.policy.dueGeneration,
                               normalNextAt := t.policy.normalNextAt)
  {
  }

  /** What is not due yet, or already due, once expired minutes are handed over. */
  lemma NotedFrame(c: Chat, source: int, now: int)
    ensures var t :=
              if source + Retention(c.policy.hours) > now then NoteFuture(c, source) else NoteDue(c, source, now);
      && t == c.(policy := t.policy, future := t.future)
      && SameSettings(c.policy, t.policy) && t.policy.totals == c.policy.totals
  {
  }

  lemma NoteMessageFrame(s: Chat, source: int, now: int)
    ensures var t := NoteMessage(s, source, now);
      && t == s.(policy := t.policy, future := t.future)
      && SameSettings(s.policy, t.policy) && t.policy.totals == s.policy.totals
  {
    var c := Compact(s, now);
    CompactFrame(s, now);
    NotedFrame(c, source, now);
    assert c.policy.hours == s.policy.hours;
  }

  /** A webhook's message moves the due lane, the bitmap and the wakes. */
  lemma MessageFrame(s: Chat, receipt: nat, source: Option<int>, now: int)
    ensures var t := IngestMessage(s, receipt, source, now);
      && t == s.(policy := t.policy, future := t.future, receipts := t.receipts)
      && SameSettings(s.policy, t.policy) && t.policy.totals == s.policy.totals
  {
    if source.Some? {
      NoteMessageFrame(s.(receipts := s.receipts[receipt := now]), source.value, now);
    }
  }

  lemma RemovalFrame(s: Chat, id: MessageId, head: Option<int>, now: int)
    ensures var t := NoteRemoval(s, id, head, now);
      && t == s.(policy := t.policy, candidates := t.candidates)
      && SameSettings(s.policy, t.policy)
  {
    if id in s.candidates {
      RescheduleFrame(RemovedRow(s, id, now), head, now, false, 1000);
    }
  }

  lemma WebhookFrame(s: Chat, step: Step)
    requires step.Webhook?
    ensures var t := Apply(s, step);
      && t == s.(policy := t.policy, future := t.future, receipts := t.receipts, candidates := t.candidates)
      && SameSettings(s.policy, t.policy)
  {
    MessageFrame(s, step.receipt, step.source, step.now);
    if step.removed.Some? {
      RemovalFrame(IngestMessage(s, step.receipt, step.source, step.now), step.removed.value, step.head, step.now);
    }
  }

  lemma FinishFrame(s: Chat, token: Token, head: Option<int>, now: int, failed: bool, waitMs: int)
    ensures var t := FinishVisit(s, token, head, failed, waitMs, now);
      && t == s.(policy := s.policy.(
           normalNextAt := t.policy.normalNextAt, safetyNextAt := t.policy.safetyNextAt, lease := t.policy.lease))
      && (t.policy.lease == s.policy.lease || t.policy.lease.None?)
  {
    RescheduleFrame(s, head, now, failed, waitMs);
  }

  lemma EndVisitFrame(s: Chat, step: Step)
    requires step.EndVisit?
    ensures var t := Apply(s, step);
      && t == s.(policy := s.policy.(
           normalNextAt := t.policy.normalNextAt, safetyNextAt := t.policy.safetyNextAt, lease := t.policy.lease))
      && (t.policy.lease == s.policy.lease || t.policy.lease.None?)
  {
    FinishFrame(s, step.token, step.head, step.now, step.failed, step.waitMs);
  }

  lemma RetryFrame(s: Chat, step: Step)
    requires step.Retry?
    ensures var t := Apply(s, step);
      && t == s.(candidates := t.candidates, policy := s.policy.(
           normalNextAt := t.policy.normalNextAt, safetyNextAt := t.policy.safetyNextAt))
      && (t.candidates == s.candidates
          || (step.id in s.candidates && t.candidates == Reopened(s, step.id, step.now).candidates))
  {
    if MayRetry(s, step.id, step.revision, step.activation, step.updatedAt) {
      RescheduleFrame(Reopened(s, step.id, step.now), step.head, step.now, false, 1000);
    }
  }

  lemma MarkFrame(s: Chat, step: Step)
    requires step.Mark?
    ensures Apply(s, step) == s.(candidates := Apply(s, step).candidates)
  {
  }

  lemma ResolveFrame(s: Chat, step: Step)
    requires step.Resolve?
    ensures var t := Apply(s, step);
      t == s.(candidates := t.candidates,
              policy := s.policy.(totals := t.policy.totals, normalNextAt := t.policy.normalNextAt))
  {
  }

  lemma DeferFrame(s: Chat, id: MessageId)
    ensures var t := DeferProtection(s, id);
      && t == s.(candidates := t.candidates,
                 policy := s.policy.(deferred := t.policy.deferred, historicalDeferred := t.policy.historicalDeferred))
      && (t == s || (id in s.candidates && s.candidates[id].state == Pending
                     && t.candidates == Without(s, id).candidates))
  {
    if id in s.candidates && s.candidates[id].state == Pending {
      var row, p, w := s.candidates[id], s.policy, Without(s, id);
      var at := Some(Span(row.source, row.source));
      assert w == s.(candidates := w.candidates);
      match GapOf(s, row.isBot, row.source, row.author)
      case NoGap =>
      case CurrentGap =>
        assert DeferProtection(s, id) == w.(policy := p.(deferred := Widen(p.deferred, at)));
      case HistoryGap =>
        assert DeferProtection(s, id) == w.(policy := p.(historicalDeferred := Widen(p.historicalDeferred, at)));
    }
  }

  lemma AwaitFrame(s: Chat, step: Step)
    requires step.AwaitProtection?
    ensures var t := Apply(s, step);
      && t == s.(candidates := t.candidates,
                 policy := s.policy.(deferred := t.policy.deferred, historicalDeferred := t.policy.historicalDeferred))
      && (t == s || (step.id in s.candidates && s.candidates[step.id].state == Pending
                     && t.candidates == Without(s, step.id).candidates))
  {
    DeferFrame(s, step.id);
  }

  lemma HousekeepFrame(s: Chat, step: Step)
    requires step.Housekeep?
    ensures Apply(s, step) == s.(candidates := Apply(s, step).candidates, receipts := Apply(s, step).receipts)
  {
  }

  /** Leasing an opt-in or handing it back. */
  lemma RequestFrame(s: Chat, step: Step)
    requires step.LeaseConnection? || step.EndConnection?
    ensures Apply(s, step) == s.(request := Apply(s, step).request)
  {
  }

  lemma ReserveFrame(s: Chat, step: Step)
    requires step.ReserveVisit?
    ensures var t := Apply(s, step);
      t == s || t == s.(policy := s.policy.(lease := Some(Lease(step.token, step.now + 60_000))))
  {
  }

  lemma ObserveFrame(s: Chat, step: Step)
    requires step.Observe?
    ensures Apply(s, step) == s.(policy := s.policy.(connection := Apply(s, step).policy.connection))
  {
  }

  lemma HoldsFrame(s: Chat, step: Step)
    requires step.GlobalHolds?
    ensures Apply(s, step) == s.(globalAuthors := s.globalAuthors + step.authors,
                                 globalMessages := s.globalMessages + step.messages)
  {
  }

  /** A protection write may send history back, and touches no other lane and no row. */
  lemma ProtectFrame(s: Chat, step: Step)
    requires step.Protect?
    ensures var t := Apply(s, step);
      && t == s.(policy := t.policy, protectedMessages := t.protectedMessages, heldAuthors := t.heldAuthors,
                 protectedBots := t.protectedBots, protection := t.protection)
      && t.policy == s.policy.(scanGeneration := t.policy.scanGeneration, history := t.policy.history,
                               normalNextAt := t.policy.normalNextAt, deferred := t.policy.deferred,
                               historicalDeferred := t.policy.historicalDeferred)
      && s.policy.scanGeneration <= t.policy.scanGeneration
  {
    ReleaseFrame(s.policy, s.protection, step.input, step.now);
  }

  lemma ReleaseFrame(p: Policy, prior: Option<Protection>, input: Snapshot, now: int)
    ensures var q := ReleaseHistorical(ReleaseCurrent(p, input, now), prior, input, now);
      && q == p.(scanGeneration := q.scanGeneration, history := q.history, normalNextAt := q.normalNextAt,
                 deferred := q.deferred, historicalDeferred := q.historicalDeferred)
      && p.scanGeneration <= q.scanGeneration
  {
  }

  /** An activation writes the policy and the opt-in. */
  lemma ConnectFrame(s: Chat, step: Step)
    requires step.Connect?
    ensures Apply(s, step) == s.(policy := Apply(s, step).policy, request := Apply(s, step).request)
    ensures Apply(s, step).policy.totals == s.policy.totals
  {
  }

  lemma WindowFrame(s: Chat, step: Step)
    requires step.OpenWindow?
    ensures var t := Apply(s, step); t == s.(policy := s.policy.(safety := t.policy.safety, due := t.policy.due))
  {
    OpenFrame(s, step.seen, step.lane, step.purpose, step.at, step.future, step.now);
  }

  /** Opening a window writes the bounds of its lane. */
  lemma OpenFrame(s: Chat, seen: Policy, lane: Lane, purpose: Purpose, at: int, future: Option<int>, now: int)
    ensures var t := OpenScan(s, seen, lane, purpose, at, future, now).0;
            t == s.(policy := s.policy.(safety := t.policy.safety, due := t.policy.due))
  {
    if lane == Live {
      if purpose == Safety {
        OpenSafetyFrame(s, seen, at, now);
      } else {
        OpenDueFrame(s, seen, at, future, now);
      }
    }
  }

  /** The due lane moves only when a due window opens under the lease, around the reading of its clock. */
  lemma OpenMoves(s: Chat, seen: Policy, lane: Lane, purpose: Purpose, at: int, future: Option<int>, now: int)
    ensures var q := OpenScan(s, seen, lane, purpose, at, future, now).0.policy;
      q.due == s.policy.due
      || (lane == Live && purpose == Due && SameScan(s.policy, seen, now)
          && q.due.upper == Some(at - Retention(seen.hours)))
  {
    if lane == Live && purpose == Safety {
      OpenSafetyFrame(s, seen, at, now);
    }
  }

  lemma OpenSafetyFrame(s: Chat, seen: Policy, at: int, now: int)
    ensures var t := OpenSafety(s, seen, at, now).0; t == s.(policy := s.policy.(safety := t.policy.safety))
  {
  }

  lemma OpenDueFrame(s: Chat, seen: Policy, at: int, future: Option<int>, now: int)
    ensures var t := OpenDue(s, seen, at, future, now).0; t == s.(policy := s.policy.(due := t.policy.due))
  {
  }

  /** A lane's page moves cursors, generations and wakes. */
  lemma LaneFrame(p: Policy, lane: Lane, page: seq<Message>, purpose: Purpose, now: int)
    ensures var q := AfterPage(p, lane, page, purpose, now);
      && SameSettings(p, q) && q.totals == p.totals
      && q.deferred == p.deferred && q.historicalDeferred == p.historicalDeferred
  {
  }

  lemma TakenFrame(s: Chat, lane: Lane, page: seq<Message>, purpose: Purpose, now: int)
    ensures var t := PageTaken(s, lane, page, purpose, now);
      && t == s.(policy := t.policy, candidates := t.candidates, future := t.future)
      && SameSettings(s.policy, t.policy)
      && t.policy.totals == s.policy.totals.(scanned := t.policy.totals.scanned)
      && t.candidates == TakeInAll(s, lane, now, page).rows
  {
    var taken := TakeInAll(s, lane, now, page);
    LaneFrame(s.policy.(totals := s.policy.totals.(scanned := s.policy.totals.scanned + |page|),
                        deferred := Widen(s.policy.deferred, taken.current),
                        historicalDeferred := Widen(s.policy.historicalDeferred, taken.historical)),
              lane, page, purpose, now);
  }

  lemma PageFrame(s: Chat, step: Step)
    requires step.AcceptPage?
    ensures var t := Apply(s, step);
      && t == s.(policy := t.policy, candidates := t.candidates, future := t.future)
      && SameSettings(s.policy, t.policy)
      && t.policy.totals == s.policy.totals.(scanned := t.policy.totals.scanned)
      && (t.candidates == s.candidates || t.candidates == TakeInAll(s, step.lane, step.now, step.page).rows)
  {
    TakenFrame(s, step.lane, step.page, step.purpose, step.now);
  }

  /** A save writes the rows its change of period moves, or none, and never the exclusions. */
  lemma SaveFrame(s: Chat, step: Step)
    requires step.SaveSettings? && forall k :: 0 <= k < |step.parked| ==> step.parked[k] in s.candidates
    ensures var t, a := Apply(s, step), Aged(s, step.body, step.parked, step.woken, step.now);
      && t == s.(policy := t.policy, candidates := t.candidates, future := t.future,
                 request := t.request, operations := t.operations)
      && (t.candidates == s.candidates || t.candidates == a.candidates)
      && t.policy.totals == s.policy.totals
  {
    AgedFrame(s, step.body, step.parked, step.woken, step.now);
  }

  lemma AgedFrame(s: Chat, body: SaveBody, parked: seq<MessageId>, woken: set<MessageId>, now: int)
    requires forall k :: 0 <= k < |parked| ==> parked[k] in s.candidates
    ensures var a := Aged(s, body, parked, woken, now); a == s.(candidates := a.candidates, future := a.future)
  {
  }
}
