/**
  At most one effect: over every run of the store with crashes, lost answers, stale visits, removal
  receipts and purges, one lifetime of a journal row never has two DELETE requests on the wire of
  which neither is known to have been rejected.
 */
module AtMostOnce {
  import opened Wrappers
  import opened EraserTypes
  import opened Transactions
  import opened Steps
  import opened VisitOutcome

  /** One issued dispatch: the row it was issued for, the step at which that row was born, its wire state. */
  datatype Attempt = Attempt(id: MessageId, birth: nat, wire: Wire)

  /** `births` gives each present row the step that inserted it; `age` counts steps. */
  datatype Journal = Journal(chat: Chat, births: map<MessageId, nat>, age: nat, attempts: map<DispatchId, Attempt>)

  datatype Event =
    | Transact(step: Step)
    | Issue(step: Step)
    | Send(d: DispatchId)
    | Hear(d: DispatchId, transport: Transport)
    | Report(d: DispatchId, waitMs: int, now: int)
    | Doubt(d: DispatchId, waitMs: int, now: int)

  /** A settlement by a visit that holds an issued attempt; only `Report` makes those. */
  predicate IssuedSettle(step: Step) {
    step.Resolve? && step.ticket.dispatch.Some? && Issued(step.ticket.state)
  }

  ghost predicate Can(j: Journal, e: Event) {
    match e
    case Transact(step) => Enabled(j.chat, step) && !step.Mark? && !IssuedSettle(step)
    case Issue(step) => step.Mark? && step.uuid !in j.attempts
    case Send(d) => d in j.attempts && j.attempts[d].wire == Unsent
    case Hear(d, transport) => d in j.attempts && j.attempts[d].wire == InFlight
    case Report(d, _, _) => d in j.attempts && j.attempts[d].wire != InFlight
    case Doubt(d, _, _) => d in j.attempts && j.attempts[d].wire != InFlight
  }

  /** Rows the step inserted are born now. */
  function Births(births: map<MessageId, nat>, s: Chat, t: Chat, age: nat): map<MessageId, nat> {
    map id | id in t.candidates :: if id in s.candidates && id in births then births[id] else age
  }

  /** The call a visit makes for its issued attempt, as `VerdictFollowsWire` shows. */
  function ReportStep(j: Journal, d: DispatchId, waitMs: int, now: int): Step
    requires d in j.attempts
  {
    var verdict := SettlementOf(j.attempts[d].wire);
    Resolve(j.attempts[d].id, Ticket(Dispatching, Some(d)), verdict.0, verdict.1, waitMs, now)
  }

  /** The call it makes when the store did not take the first one: whatever the wire showed, uncertain. */
  function DoubtStep(j: Journal, d: DispatchId, waitMs: int, now: int): Step
    requires d in j.attempts
  {
    Resolve(j.attempts[d].id, Ticket(Dispatching, Some(d)), Uncertain, Reconciliation, waitMs, now)
  }

  function WithChat(j: Journal, t: Chat): Journal {
    j.(chat := t, births := Births(j.births, j.chat, t, j.age), age := j.age + 1)
  }

  ghost function Do(j: Journal, e: Event): Journal
    requires Can(j, e)
  {
    match e
    case Transact(step) => WithChat(j, Apply(j.chat, step))
    case Issue(step) =>
      var k := WithChat(j, Apply(j.chat, step));
      if Marks(j.chat, step, step.id) && step.id in j.births
      then k.(attempts := k.attempts[step.uuid := Attempt(step.id, j.births[step.id], Unsent)])
      else k
    case Send(d) => j.(attempts := j.attempts[d := j.attempts[d].(wire := InFlight)], age := j.age + 1)
    case Hear(d, transport) =>
      j.(attempts := j.attempts[d := j.attempts[d].(wire := WireOf(transport))], age := j.age + 1)
    case Report(d, waitMs, now) => WithChat(j, Apply(j.chat, ReportStep(j, d, waitMs, now)))
    case Doubt(d, waitMs, now) => WithChat(j, Apply(j.chat, DoubtStep(j, d, waitMs, now)))
  }

  ghost function After(j: Journal, e: Event): Journal {
    if Can(j, e) then Do(j, e) else j
  }

  ghost function Play(j: Journal, events: seq<Event>): Journal {
    if events == [] then j else After(Play(j, events[..|events| - 1]), events[|events| - 1])
  }

  predicate Fresh(j: Journal) {
    j.chat == NEW_CHAT && j.births == map[] && j.attempts == map[]
  }

  // ---- how a row may move ----

  /** Transactions other than marks and issued settlements: no row leaves dispatching or uncertain except as deleted. */
  predicate RowMoves(s: Chat, t: Chat, id: MessageId) {
    && (id in s.candidates && id in t.candidates ==>
          var a, b := s.candidates[id], t.candidates[id];
          && b.dispatch == a.dispatch && b.attempts == a.attempts
          && (|| b.state == a.state
              || (b.state == Deleted && !Terminal(a.state))
              || ((a.state == Pending || (a.state == Review && a.dispatch.None?))
                  && (b.state == Pending || b.state == Protected || b.state == Review))))
    && (id in s.candidates && id !in t.candidates ==>
          s.candidates[id].state == Pending || Terminal(s.candidates[id].state))
    && (id !in s.candidates && id in t.candidates ==>
          t.candidates[id].state == Pending && t.candidates[id].dispatch.None? && t.candidates[id].attempts == 0)
  }

  ghost predicate AllRowsMove(s: Chat, t: Chat) {
    forall id :: RowMoves(s, t, id)
  }

  lemma {:induction false} TakeInAddsPending(s: Chat, lane: Lane, now: int, page: seq<Message>)
    ensures var rows := TakeInAll(s, lane, now, page).rows;
      && (forall id :: id in s.candidates ==> id in rows && rows[id] == s.candidates[id])
      && (forall id :: id in rows && id !in s.candidates ==>
            rows[id].state == Pending && rows[id].dispatch.None? && rows[id].attempts == 0)
  {
    if page == [] {
    } else {
      TakeInAddsPending(s, lane, now, page[..|page| - 1]);
    }
  }

  lemma SameRowsMove(s: Chat, t: Chat)
    requires t.candidates == s.candidates
    ensures AllRowsMove(s, t)
  {
  }

  /** Transactions that never write the journal. */
  lemma PolicyStepsKeepRows(s: Chat, step: Step)
    requires step.Protect? || step.LeaseConnection? || step.EndConnection? || step.Connect? || step.ReserveVisit?
             || step.Observe? || step.OpenWindow? || step.GlobalHolds?
    ensures Apply(s, step).candidates == s.candidates && Apply(s, step).policy.totals == s.policy.totals
  {
    match step
    case Protect(_, _) => ProtectFrame(s, step);
    case LeaseConnection(_, _, _) => RequestFrame(s, step);
    case EndConnection(_, _, _, _) => RequestFrame(s, step);
    case Connect(_, _, _, _, _, _, _, _) => ConnectFrame(s, step);
    case ReserveVisit(_, _, _) => ReserveFrame(s, step);
    case Observe(_, _) => ObserveFrame(s, step);
    case OpenWindow(_, _, _, _, _, _) => WindowFrame(s, step);
    case GlobalHolds(_, _) => HoldsFrame(s, step);
  }

  /** A change of the period moves only unissued rows. */
  lemma AgedMoves(s: Chat, step: Step)
    requires step.SaveSettings? && Enabled(s, step)
    ensures AllRowsMove(s, Aged(s, step.body, step.parked, step.woken, step.now))
  {
    var a := Aged(s, step.body, step.parked, step.woken, step.now);
    forall id
      ensures RowMoves(s, a, id)
    {
      if id in s.candidates && id !in a.candidates {
        var k :| 0 <= k < |step.parked| && step.parked[k] == id;
      }
    }
  }

  lemma SaveMoves(s: Chat, step: Step)
    requires step.SaveSettings? && Enabled(s, step)
    ensures AllRowsMove(s, Apply(s, step))
  {
    var t, a := Apply(s, step), Aged(s, step.body, step.parked, step.woken, step.now);
    SaveFrame(s, step);
    if t.candidates == s.candidates {
      SameRowsMove(s, t);
    } else {
      AgedMoves(s, step);
      LikeRowsMove(s, a, t);
    }
  }

  lemma LikeRowsMove(s: Chat, a: Chat, t: Chat)
    requires AllRowsMove(s, a) && t.candidates == a.candidates
    ensures AllRowsMove(s, t)
  {
    forall id
      ensures RowMoves(s, t, id)
    {
      assert RowMoves(s, a, id);
    }
  }

  lemma WebhookMoves(s: Chat, step: Step)
    requires step.Webhook?
    ensures AllRowsMove(s, Apply(s, step))
  {
    var noted := IngestMessage(s, step.receipt, step.source, step.now);
    MessageFrame(s, step.receipt, step.source, step.now);
    if step.removed.Some? && step.removed.value in s.candidates {
      var r := RemovedRow(noted, step.removed.value, step.now);
      RescheduleFrame(r, step.head, step.now, false, 1000);
      assert Apply(s, step).candidates == s.candidates || Apply(s, step).candidates == r.candidates;
    } else {
      assert Apply(s, step).candidates == s.candidates;
    }
  }

  lemma RetryMoves(s: Chat, step: Step)
    requires step.Retry? || step.EndVisit?
    ensures AllRowsMove(s, Apply(s, step))
  {
    match step
    case Retry(id, _, _, _, head, now) =>
      if id in s.candidates {
        RescheduleFrame(Reopened(s, id, now), head, now, false, 1000);
      }
    case EndVisit(_, head, failed, waitMs, now) =>
      RescheduleFrame(s, head, now, failed, waitMs);
      SameRowsMove(s, Apply(s, step));
  }

  lemma RowWritesMove(s: Chat, step: Step)
    requires (step.Resolve? && !IssuedSettle(step)) || step.AwaitProtection? || step.Housekeep?
    ensures AllRowsMove(s, Apply(s, step))
  {
    match step
    case Resolve(_, _, _, _, _, _) => SettleMoves(s, step);
    case AwaitProtection(_) => AwaitFrame(s, step);
    case Housekeep(_, _, _) =>
  }

  lemma SettleMoves(s: Chat, step: Step)
    requires step.Resolve? && !IssuedSettle(step)
    ensures AllRowsMove(s, Apply(s, step))
  {
  }

  lemma AcceptMoves(s: Chat, step: Step)
    requires step.AcceptPage?
    ensures AllRowsMove(s, Apply(s, step))
  {
    TakeInAddsPending(s, step.lane, step.now, step.page);
    assert Apply(s, step).candidates == s.candidates
           || Apply(s, step).candidates == TakeInAll(s, step.lane, step.now, step.page).rows;
  }

  lemma TransactMoves(s: Chat, step: Step)
    requires Enabled(s, step) && !step.Mark? && !IssuedSettle(step)
    ensures AllRowsMove(s, Apply(s, step))
  {
    match step
    case SaveSettings(_, _, _, _, _, _, _) => SaveMoves(s, step);
    case Webhook(_, _, _, _, _, _) => WebhookMoves(s, step);
    case AcceptPage(_, _, _, _, _) => AcceptMoves(s, step);
    case EndVisit(_, _, _, _, _) => RetryMoves(s, step);
    case Retry(_, _, _, _, _, _) => RetryMoves(s, step);
    case Resolve(_, _, _, _, _, _) => RowWritesMove(s, step);
    case AwaitProtection(_) => RowWritesMove(s, step);
    case Housekeep(_, _, _) => RowWritesMove(s, step);
    case _ =>
      PolicyStepsKeepRows(s, step);
      SameRowsMove(s, Apply(s, step));
  }

  // ---- the invariant ----

  predicate SameLife(a: Attempt, id: MessageId, birth: nat) {
    a.id == id && a.birth == birth
  }

  /** Every attempt of this lifetime, except possibly `d`, is known to have been rejected. */
  ghost predicate OthersRejected(j: Journal, id: MessageId, birth: nat, d: Option<DispatchId>) {
    forall x :: x in j.attempts && SameLife(j.attempts[x], id, birth) && Some(x) != d ==> j.attempts[x].wire == Rejected
  }

  ghost predicate RowHolds(j: Journal, id: MessageId)
    requires id in j.chat.candidates && id in j.births
  {
    var row := j.chat.candidates[id];
    && (!Issued(row.state) && row.state != Deleted ==> OthersRejected(j, id, j.births[id], None))
    && (Issued(row.state) ==>
          && row.dispatch.Some? && row.dispatch.value in j.attempts
          && SameLife(j.attempts[row.dispatch.value], id, j.births[id])
          && OthersRejected(j, id, j.births[id], row.dispatch))
  }

  ghost predicate OneLive(j: Journal) {
    forall x, y ::
      (x in j.attempts && y in j.attempts && SameLife(j.attempts[x], j.attempts[y].id, j.attempts[y].birth)
       && j.attempts[x].wire != Rejected && j.attempts[y].wire != Rejected)
      ==> x == y
  }

  ghost predicate Inv(j: Journal) {
    && (forall id :: id in j.births <==> id in j.chat.candidates)
    && (forall id :: id in j.births ==> j.births[id] < j.age)
    && (forall x :: x in j.attempts ==> j.attempts[x].birth < j.age)
    && (forall id :: id in j.chat.candidates && id in j.births ==> RowHolds(j, id))
    && OneLive(j)
  }

  /** Present rows keep their birth, new ones are born now. */
  lemma BirthsFollow(j: Journal, t: Chat)
    requires Inv(j)
    ensures var k := WithChat(j, t);
      && (forall id :: id in k.births <==> id in t.candidates)
      && (forall id :: id in k.births ==> k.births[id] < k.age)
      && (forall id :: id in k.births && id in j.chat.candidates ==> k.births[id] == j.births[id])
      && (forall id :: id in k.births && id !in j.chat.candidates ==> k.births[id] == j.age)
  {
  }

  lemma RowKeepsHolding(j: Journal, t: Chat, id: MessageId)
    requires Inv(j) && id in t.candidates && RowMoves(j.chat, t, id) && id in WithChat(j, t).births
    ensures RowHolds(WithChat(j, t), id)
  {
    BirthsFollow(j, t);
    if id in j.chat.candidates {
      assert RowHolds(j, id);
    }
  }

  lemma MovesKeep(j: Journal, t: Chat)
    requires Inv(j) && AllRowsMove(j.chat, t)
    ensures Inv(WithChat(j, t))
  {
    var k := WithChat(j, t);
    BirthsFollow(j, t);
    forall id | id in t.candidates && id in k.births
      ensures RowHolds(k, id)
    {
      assert RowMoves(j.chat, t, id);
      RowKeepsHolding(j, t, id);
    }
    assert k.attempts == j.attempts && k.age > j.age;
  }

  lemma IssueKeeps(j: Journal, step: Step)
    requires Inv(j) && step.Mark? && step.uuid !in j.attempts
    ensures Inv(Do(j, Issue(step)))
  {
    if Marks(j.chat, step, step.id) {
      MarkedKeeps(j, step);
    } else {
      assert Apply(j.chat, step) == j.chat;
      SameRowsMove(j.chat, j.chat);
      MovesKeep(j, j.chat);
    }
  }

  /** One pending row becomes the dispatch `d`, which no attempt carries yet. */
  /** The journal with one fresh request of row `id`, not sent yet. */
  ghost function WithAttempt(j: Journal, t: Chat, id: MessageId, d: DispatchId): Journal
    requires id in j.births
  {
    WithChat(j, t).(attempts := j.attempts[d := Attempt(id, j.births[id], Unsent)])
  }

  lemma FreshIsOneLive(j: Journal, t: Chat, id: MessageId, d: DispatchId)
    requires Inv(j) && d !in j.attempts && id in j.births
    requires OthersRejected(j, id, j.births[id], None)
    ensures OneLive(WithAttempt(j, t, id, d))
  {
  }

  lemma OneIssuedKeeps(j: Journal, t: Chat, id: MessageId, row: Candidate, d: DispatchId)
    requires Inv(j) && d !in j.attempts
    requires id in j.chat.candidates && id in j.births && j.chat.candidates[id].state == Pending
    requires t.candidates == j.chat.candidates[id := row] && row.state == Dispatching && row.dispatch == Some(d)
    ensures Inv(WithChat(j, t).(attempts := j.attempts[d := Attempt(id, j.births[id], Unsent)]))
  {
    var k := WithAttempt(j, t, id, d);
    assert k.births == j.births;
    assert RowHolds(j, id);
    assert OthersRejected(j, id, j.births[id], None);
    FreshIsOneLive(j, t, id, d);
    forall i | i in t.candidates
      ensures RowHolds(k, i)
    {
      assert RowHolds(j, i);
    }
  }

  lemma MarkedKeeps(j: Journal, step: Step)
    requires Inv(j) && step.Mark? && step.uuid !in j.attempts && Marks(j.chat, step, step.id)
    ensures Inv(Do(j, Issue(step)))
  {
    var t := Apply(j.chat, step);
    OneIssuedKeeps(j, t, step.id, t.candidates[step.id], step.uuid);
  }

  lemma WireKeeps(j: Journal, d: DispatchId, wire: Wire)
    requires Inv(j) && d in j.attempts && j.attempts[d].wire != Rejected
    ensures Inv(j.(attempts := j.attempts[d := j.attempts[d].(wire := wire)], age := j.age + 1))
  {
    var k := j.(attempts := j.attempts[d := j.attempts[d].(wire := wire)], age := j.age + 1);
    forall id | id in k.chat.candidates
      ensures RowHolds(k, id)
    {
      assert RowHolds(j, id);
    }
  }

  /** The row that carries `d` is settled as its wire state allows, or left uncertain. */
  lemma OneSettledKeeps(j: Journal, t: Chat, id: MessageId, row: Candidate, d: DispatchId)
    requires Inv(j) && d in j.attempts
    requires id in j.chat.candidates && id in j.births
    requires Issued(j.chat.candidates[id].state) && j.chat.candidates[id].dispatch == Some(d)
    requires t.candidates == j.chat.candidates[id := row] && row.dispatch == Some(d)
    requires row.state == SettlementOf(j.attempts[d].wire).0 || row.state == Uncertain
    ensures Inv(WithChat(j, t))
  {
    var k := WithChat(j, t);
    assert k.births == j.births;
    assert RowHolds(j, id);
    forall i | i in t.candidates
      ensures RowHolds(k, i)
    {
      assert RowHolds(j, i);
    }
  }

  lemma SettlementKeeps(j: Journal, d: DispatchId, step: Step)
    requires Inv(j) && d in j.attempts && step.Resolve? && step.id == j.attempts[d].id
    requires step.ticket == Ticket(Dispatching, Some(d))
    requires step.to == SettlementOf(j.attempts[d].wire).0 || step.to == Uncertain
    ensures Inv(WithChat(j, Apply(j.chat, step)))
  {
    var t := Apply(j.chat, step);
    if step.id in j.chat.candidates && MaySettle(j.chat.candidates[step.id], step.ticket, step.to, step.code) {
      OneSettledKeeps(j, t, step.id, t.candidates[step.id], d);
    } else {
      assert t == j.chat;
      SameRowsMove(j.chat, t);
      MovesKeep(j, t);
    }
  }

  lemma StoreKeeps(j: Journal, step: Step)
    requires Inv(j) && Can(j, Transact(step))
    ensures Inv(Do(j, Transact(step)))
  {
    TransactMoves(j.chat, step);
    MovesKeep(j, Apply(j.chat, step));
  }

  /** The two steps of the wire. */
  lemma WireEventKeeps(j: Journal, e: Event)
    requires Inv(j) && Can(j, e) && (e.Send? || e.Hear?)
    ensures Inv(Do(j, e))
  {
    match e
    case Send(d) => WireKeeps(j, d, InFlight);
    case Hear(d, transport) => WireKeeps(j, d, WireOf(transport));
  }

  lemma EventKeeps(j: Journal, e: Event)
    requires Inv(j) && Can(j, e)
    ensures Inv(Do(j, e))
  {
    match e
    case Transact(step) => StoreKeeps(j, step);
    case Issue(step) => IssueKeeps(j, step);
    case Report(d, waitMs, now) => SettlementKeeps(j, d, ReportStep(j, d, waitMs, now));
    case Doubt(d, waitMs, now) => SettlementKeeps(j, d, DoubtStep(j, d, waitMs, now));
    case _ => WireEventKeeps(j, e);
  }

  lemma {:induction false} InvAlways(j: Journal, events: seq<Event>)
    requires Fresh(j)
    ensures Inv(Play(j, events))
  {
    if events == [] {
    } else {
      var n := |events| - 1;
      InvAlways(j, events[..n]);
      if Can(Play(j, events[..n]), events[n]) {
        EventKeeps(Play(j, events[..n]), events[n]);
      }
    }
  }

  // ---- what it means ----

  /** The request was sent and no rejection of it is known: the message may be gone because of it. */
  predicate MayHaveEffect(wire: Wire) {
    wire == InFlight || wire == Acked || wire == Lost
  }

  /** In every run, two such requests for one lifetime of a row are the same request. */
  lemma AtMostOneEffect(j: Journal, events: seq<Event>, x: DispatchId, y: DispatchId)
    requires Fresh(j)
    requires var k := Play(j, events);
      && x in k.attempts && y in k.attempts
      && SameLife(k.attempts[x], k.attempts[y].id, k.attempts[y].birth)
      && MayHaveEffect(k.attempts[x].wire) && MayHaveEffect(k.attempts[y].wire)
    ensures x == y
  {
    InvAlways(j, events);
  }

  /** A row can be dispatched again only when every earlier request of its lifetime is known to have been rejected. */
  lemma PendingMeansNoEffect(j: Journal, events: seq<Event>, id: MessageId, d: DispatchId)
    requires Fresh(j)
    requires var k := Play(j, events);
      && id in k.chat.candidates && id in k.births && k.chat.candidates[id].state == Pending
      && d in k.attempts && SameLife(k.attempts[d], id, k.births[id])
    ensures Play(j, events).attempts[d].wire == Rejected
  {
    InvAlways(j, events);
    assert RowHolds(Play(j, events), id);
  }

  /** The row is present and its last request is unresolved. */
  predicate Unresolved(s: Chat, id: MessageId) {
    id in s.candidates && Issued(s.candidates[id].state)
  }

  /** A transaction other than a removal receipt leaves an unresolved row as it is. */
  /** Settlements of other attempts and purges pass an unresolved row over. */
  lemma WritesLeaveIssued(s: Chat, step: Step, id: MessageId)
    requires (step.Resolve? && !IssuedSettle(step)) || step.Housekeep?
    requires Unresolved(s, id)
    ensures id in Apply(s, step).candidates && Apply(s, step).candidates[id] == s.candidates[id]
  {
  }

  lemma UnresolvedStays(s: Chat, step: Step, id: MessageId)
    requires Enabled(s, step) && !step.Mark? && !IssuedSettle(step) && !step.Webhook?
    requires Unresolved(s, id)
    ensures id in Apply(s, step).candidates && Apply(s, step).candidates[id] == s.candidates[id]
  {
    match step
    case SaveSettings(_, _, _, _, _, _, _) => SaveLeavesIssued(s, step, id);
    case AcceptPage(_, lane, page, _, now) => TakeInAddsPending(s, lane, now, page);
    case EndVisit(_, head, failed, waitMs, now) => RescheduleFrame(s, head, now, failed, waitMs);
    case Retry(_, _, _, _, _, _) => RetryLeavesIssued(s, step, id);
    case Resolve(_, _, _, _, _, _) => WritesLeaveIssued(s, step, id);
    case AwaitProtection(_) => AwaitFrame(s, step);
    case Housekeep(_, _, _) => WritesLeaveIssued(s, step, id);
    case _ => PolicyStepsKeepRows(s, step);
  }

  lemma SaveLeavesIssued(s: Chat, step: Step, id: MessageId)
    requires step.SaveSettings? && Enabled(s, step) && Unresolved(s, id)
    ensures id in Apply(s, step).candidates && Apply(s, step).candidates[id] == s.candidates[id]
  {
    var a := Aged(s, step.body, step.parked, step.woken, step.now);
    assert id in a.candidates && a.candidates[id] == s.candidates[id];
    assert Apply(s, step).candidates == s.candidates || Apply(s, step).candidates == a.candidates;
  }

  lemma RetryLeavesIssued(s: Chat, step: Step, id: MessageId)
    requires step.Retry? && Unresolved(s, id)
    ensures id in Apply(s, step).candidates && Apply(s, step).candidates[id] == s.candidates[id]
  {
    if step.id in s.candidates {
      RescheduleFrame(Reopened(s, step.id, step.now), step.head, step.now, false, 1000);
    }
  }

  lemma ReceiptTouchesOnlyItsRow(s: Chat, step: Step, id: MessageId)
    requires step.Webhook? && Unresolved(s, id)
    ensures id in Apply(s, step).candidates
    ensures Apply(s, step).candidates[id] == s.candidates[id]
            || (step.removed == Some(id) && Apply(s, step).candidates[id].state == Deleted)
  {
    var noted := IngestMessage(s, step.receipt, step.source, step.now);
    MessageFrame(s, step.receipt, step.source, step.now);
    if step.removed.Some? && step.removed.value in s.candidates {
      RescheduleFrame(RemovedRow(noted, step.removed.value, step.now), step.head, step.now, false, 1000);
    }
  }

  /** What the event that resolved a row has to be. */
  predicate Resolution(j: Journal, e: Event, id: MessageId, state: State)
    requires id in j.chat.candidates
  {
    || (e.Transact? && e.step.Webhook? && e.step.removed == Some(id) && state == Deleted)
    || (e.Report? && e.d in j.attempts && j.chat.candidates[id].dispatch == Some(e.d)
        && ((j.attempts[e.d].wire == Acked && state == Deleted)
            || (j.attempts[e.d].wire == Rejected && state == Pending)))
  }

  lemma ReportResolves(k: Journal, e: Event, id: MessageId)
    requires Inv(k) && e.Report? && Can(k, e) && Unresolved(k.chat, id) && !Unresolved(Do(k, e).chat, id)
    ensures var next := Do(k, e);
            id in next.chat.candidates && Resolution(k, e, id, next.chat.candidates[id].state)
  {
    assert RowHolds(k, id);
    var step := ReportStep(k, e.d, e.waitMs, e.now);
    assert Do(k, e).chat == Apply(k.chat, step);
  }

  lemma DoubtLeavesUnresolved(k: Journal, e: Event, id: MessageId)
    requires e.Doubt? && Can(k, e) && Unresolved(k.chat, id)
    ensures Unresolved(Do(k, e).chat, id)
  {
  }

  lemma IssueLeavesUnresolved(k: Journal, e: Event, id: MessageId)
    requires e.Issue? && Can(k, e) && Unresolved(k.chat, id)
    ensures Unresolved(Do(k, e).chat, id)
  {
  }

  /**
    An unresolved row stays until it is resolved, and it is resolved only by the acknowledgement or the
    429 of the very dispatch it carries, or by a removal receipt; it is never parked or purged.
   */
  lemma OnlyItsOwnAnswerResolves(j: Journal, events: seq<Event>, e: Event, id: MessageId)
    requires Fresh(j) && Can(Play(j, events), e)
    requires Unresolved(Play(j, events).chat, id) && !Unresolved(Do(Play(j, events), e).chat, id)
    ensures var k, next := Play(j, events), Do(Play(j, events), e);
            id in next.chat.candidates && Resolution(k, e, id, next.chat.candidates[id].state)
  {
    InvAlways(j, events);
    var k := Play(j, events);
    match e
    case Transact(step) =>
      if step.Webhook? {
        ReceiptTouchesOnlyItsRow(k.chat, step, id);
      } else {
        UnresolvedStays(k.chat, step, id);
      }
    case Issue(step) => IssueLeavesUnresolved(k, e, id);
    case Send(d) =>
    case Hear(d, transport) =>
    case Report(d, waitMs, now) => ReportResolves(k, e, id);
    case Doubt(d, waitMs, now) => DoubtLeavesUnresolved(k, e, id);
  }
}
