/**
  One visit of a worker: scan, then dispatch, then finish, with every way the server may answer as an
  argument and every way a store call may fail chosen freely. The visit is a run of the store's
  transactions, and it keeps the discipline that the journal's safety rests on: what each DELETE it sends
  came to is written by the very next transactions, and never said to be more than the wire showed.
 */
module CleanupRuntime {
  import opened Wrappers
  import F = FutureMinutes
  import opened EraserTypes
  import T = Transactions
  import opened Steps
  import V = VisitOutcome
  import ES = EraserStore
  import J = AtMostOnce

  const EVIDENCE_MS := 30_000
  const PIN_MS := 5000

  /** A row that the query for due candidates returned; it is pending. */
  datatype Listed = Listed(id: MessageId, lane: Lane, source: int, dispatch: Option<DispatchId>)

  /** The error of a call; `status` is missing when the error is not the client's own. */
  datatype CallError = CallError(status: Option<int>, rightsMissing: bool, retryAfterMs: int)

  /** What became of a store call: done, not done, or done with its answer lost. */
  datatype Fate = Written | NotWritten | AnswerLost

  const STORE_FAILED: CallError := CallError(None, false, 1000)

  /** What one lane's scan meets, in the order it asks. */
  datatype ScanTurn = ScanTurn(
    stopping: bool, at: int, openAt: int, openNow: int, rights: Option<CallError>,
    page: Result<seq<Message>, CallError>, saveAt: int, next: seq<Listed>)

  /** What one candidate's attempt meets. */
  datatype Turn = Turn(
    stopping: bool, at: int, rights: Option<CallError>, pin: Result<Option<MessageId>, CallError>,
    admission: V.Admission, stopped: bool, begin: int, now: int, mark: int, uuid: DispatchId,
    transport: V.Transport, retryAfterMs: int, settledAt: int)

  function TicketOf(c: Listed): T.Ticket { T.Ticket(Pending, c.dispatch) }

  function WaitOf(error: CallError): int {
    if error.status == Some(429) then error.retryAfterMs
    else if error.status == Some(403) then 300_000
    else 5000
  }

  // ---- what a visit does ----

  /** A report that reached the store, with the rows it left. */
  datatype Note = Note(step: Step, left: Chat)

  /**
    A transaction; a mark with its request and the reports of it; or a mark whose answer was lost, with no
    request. `left` are the rows it leaves.
   */
  datatype Deed =
    | Plain(step: Step, left: Chat)
    | Sent(mark: Step, transport: V.Transport, reports: seq<Note>, left: Chat)
    | Orphan(mark: Step, left: Chat)

  function StateAt(start: Chat, deeds: seq<Deed>, k: nat): Chat
    requires k <= |deeds|
  {
    if k == 0 then start else deeds[k - 1].left
  }

  function StepsOf(deed: Deed): seq<Step> {
    match deed
    case Plain(step, _) => [step]
    case Sent(mark, _, reports, _) => [mark] + NotedSteps(reports)
    case Orphan(mark, _) => [mark]
  }

  function NotedSteps(notes: seq<Note>): seq<Step> {
    seq(|notes|, k requires 0 <= k < |notes| => notes[k].step)
  }

  function AllSteps(deeds: seq<Deed>): seq<Step> {
    if deeds == [] then [] else AllSteps(deeds[..|deeds| - 1]) + StepsOf(deeds[|deeds| - 1])
  }

  /** A settlement of exactly this dispatch that claims what the wire shows, or that it is uncertain. */
  predicate ReportFits(mark: Step, transport: V.Transport, report: Step) {
    mark.Mark? && report.Resolve? && report.id == mark.id
    && report.ticket == T.Ticket(Dispatching, Some(mark.uuid))
    && ((report.to, report.code) == V.SettlementOf(V.WireOf(transport))
        || (report.to, report.code) == (Uncertain, Reconciliation))
  }

  /** The first report is what the wire shows; a doubt follows only when the store failed that one. */
  predicate ReportsFit(mark: Step, transport: V.Transport, notes: seq<Note>) {
    && |notes| <= 2 && (forall k :: 0 <= k < |notes| ==> ReportFits(mark, transport, notes[k].step))
    && (|notes| == 2 ==> notes[1].step.to == Uncertain)
  }

  function LeftAfter(marked: Chat, notes: seq<Note>): Chat {
    if notes == [] then marked else notes[|notes| - 1].left
  }

  predicate NotesChain(marked: Chat, notes: seq<Note>) {
    && (|notes| >= 1 ==> notes[0].left == Apply(marked, notes[0].step))
    && (|notes| >= 2 ==> notes[1].left == Apply(notes[0].left, notes[1].step))
  }

  /** A plain step never marks a row and never settles an issued attempt. */
  predicate DeedFits(s: Chat, deed: Deed) {
    match deed
    case Plain(step, left) =>
      left == Apply(s, step)
      && (step.Mark? ==> !Marks(s, step, step.id)) && (step.Resolve? ==> step.ticket.state == Pending)
    case Sent(mark, transport, reports, left) =>
      && NotesChain(Apply(s, mark), reports) && left == LeftAfter(Apply(s, mark), reports)
      && ReportsFit(mark, transport, reports) && mark.Mark? && Marks(s, mark, mark.id)
    case Orphan(mark, left) => left == Apply(s, mark) && mark.Mark? && Marks(s, mark, mark.id)
  }

  /** The request was acknowledged, and that is on record. */
  predicate Acknowledged(deed: Deed) {
    deed.Sent? && |deed.reports| == 1 && deed.reports[0].step.Resolve? && deed.reports[0].step.to == Deleted
  }

  /** After this nothing more may be dispatched: the outcome of a request is open, or was a rejection. */
  predicate Last(deed: Deed) {
    deed.Orphan? || (deed.Sent? && !Acknowledged(deed))
  }

  predicate Open(deeds: seq<Deed>) {
    forall k :: 0 <= k < |deeds| ==> !Last(deeds[k])
  }

  predicate NoVisitEnds(deeds: seq<Deed>) {
    forall k :: 0 <= k < |deeds| ==> !(deeds[k].Plain? && deeds[k].step.EndVisit?)
  }

  ghost predicate Chained(start: Chat, deeds: seq<Deed>) {
    forall k {:trigger DeedFits(StateAt(start, deeds, k), deeds[k])} ::
      0 <= k < |deeds| ==> DeedFits(StateAt(start, deeds, k), deeds[k])
  }

  predicate StopsWhenOpen(deeds: seq<Deed>) {
    forall j, k :: 0 <= j < k < |deeds| && Last(deeds[j]) ==> deeds[k].Plain? && !deeds[k].step.Mark?
  }

  ghost predicate Disciplined(start: Chat, deeds: seq<Deed>) {
    Chained(start, deeds) && StopsWhenOpen(deeds)
  }

  /** The store stands where these deeds lead, and they kept the discipline. */
  ghost predicate Stands(store: ES.Store, start: Chat, deeds: seq<Deed>)
    reads store
  {
    store.Valid() && store.Contents() == StateAt(start, deeds, |deeds|) && Disciplined(start, deeds)
  }

  function SentCount(deeds: seq<Deed>): nat {
    if deeds == [] then 0 else SentCount(deeds[..|deeds| - 1]) + if deeds[|deeds| - 1].Sent? then 1 else 0
  }

  lemma Extends(start: Chat, deeds: seq<Deed>, deed: Deed)
    requires Disciplined(start, deeds) && DeedFits(StateAt(start, deeds, |deeds|), deed)
    requires Open(deeds) || (deed.Plain? && !deed.step.Mark?)
    ensures Disciplined(start, deeds + [deed])
    ensures Open(deeds) && !Last(deed) ==> Open(deeds + [deed])
    ensures NoVisitEnds(deeds) && !(deed.Plain? && deed.step.EndVisit?) ==> NoVisitEnds(deeds + [deed])
    ensures SentCount(deeds + [deed]) == SentCount(deeds) + if deed.Sent? then 1 else 0
  {
    ChainExtends(start, deeds, deed);
    ListExtends(deeds, deed);
  }

  lemma ListExtends(deeds: seq<Deed>, deed: Deed)
    requires StopsWhenOpen(deeds) && (Open(deeds) || (deed.Plain? && !deed.step.Mark?))
    ensures StopsWhenOpen(deeds + [deed])
    ensures Open(deeds) && !Last(deed) ==> Open(deeds + [deed])
    ensures NoVisitEnds(deeds) && !(deed.Plain? && deed.step.EndVisit?) ==> NoVisitEnds(deeds + [deed])
    ensures SentCount(deeds + [deed]) == SentCount(deeds) + if deed.Sent? then 1 else 0
  {
    assert (deeds + [deed])[..|deeds|] == deeds;
  }

  lemma ChainExtends(start: Chat, deeds: seq<Deed>, deed: Deed)
    requires Chained(start, deeds) && DeedFits(StateAt(start, deeds, |deeds|), deed)
    ensures Chained(start, deeds + [deed])
  {
    var more := deeds + [deed];
    forall k | 0 <= k < |more|
      ensures DeedFits(StateAt(start, more, k), more[k])
    {
      assert StateAt(start, more, k) == StateAt(start, deeds, k);
      if k < |deeds| {
        assert more[k] == deeds[k];
        assert DeedFits(StateAt(start, deeds, k), deeds[k]);
      } else {
        assert more[k] == deed;
      }
    }
  }

  lemma RunOne(s: Chat, a: Step)
    ensures Run(s, [a]) == Apply(s, a)
  {
    assert [a][..0] == [];
  }

  lemma RunTwo(s: Chat, a: Step, b: Step)
    ensures Run(s, [a, b]) == Apply(Apply(s, a), b)
  {
    assert [a, b][..1] == [a];
    RunOne(s, a);
  }

  lemma NotesRun(marked: Chat, notes: seq<Note>)
    requires NotesChain(marked, notes) && |notes| <= 2
    ensures Run(marked, NotedSteps(notes)) == LeftAfter(marked, notes)
  {
    var steps := NotedSteps(notes);
    if |notes| == 1 {
      assert steps == [notes[0].step];
      RunOne(marked, notes[0].step);
    } else if |notes| == 2 {
      assert steps == [notes[0].step, notes[1].step];
      RunTwo(marked, notes[0].step, notes[1].step);
    }
  }

  /** What a visit does is a run of the store. */
  lemma {:induction false} DeedsAreARun(start: Chat, deeds: seq<Deed>)
    requires Chained(start, deeds)
    ensures StateAt(start, deeds, |deeds|) == Run(start, AllSteps(deeds))
  {
    if deeds == [] {
    } else {
      var n := |deeds| - 1;
      var before, deed := deeds[..n], deeds[n];
      forall k | 0 <= k < n
        ensures DeedFits(StateAt(start, before, k), before[k])
      {
        assert StateAt(start, before, k) == StateAt(start, deeds, k);
        assert DeedFits(StateAt(start, deeds, k), deeds[k]);
      }
      DeedsAreARun(start, before);
      assert StateAt(start, before, n) == StateAt(start, deeds, n);
      LastDeedRuns(StateAt(start, deeds, n), deed);
      RunSplit(start, AllSteps(before), StepsOf(deed));
    }
  }

  lemma LastDeedRuns(s: Chat, deed: Deed)
    requires DeedFits(s, deed)
    ensures Run(s, StepsOf(deed)) == deed.left
  {
    match deed
    case Plain(step, _) => RunOne(s, step);
    case Sent(mark, _, reports, _) =>
      RunSplit(s, [mark], NotedSteps(reports));
      RunOne(s, mark);
      NotesRun(Apply(s, mark), reports);
    case Orphan(mark, _) => RunOne(s, mark);
  }

  // ---- single transactions of a visit ----

  /** At most one plain step more, which neither marks a row nor ends the visit. */
  ghost predicate GoesOn(start: Chat, deeds: seq<Deed>, after: seq<Deed>) {
    && Disciplined(start, after)
    && (Open(deeds) ==> Open(after))
    && (NoVisitEnds(deeds) ==> NoVisitEnds(after))
    && SentCount(after) == SentCount(deeds)
  }

  /** Neither a mark, nor the end, nor the settlement of an issued attempt. */
  predicate Ordinary(step: Step) {
    !step.Mark? && !step.EndVisit? && (step.Resolve? ==> step.ticket.state == Pending)
  }

  lemma Append(start: Chat, deeds: seq<Deed>, step: Step, left: Chat) returns (after: seq<Deed>)
    requires Disciplined(start, deeds) && Ordinary(step) && left == Apply(StateAt(start, deeds, |deeds|), step)
    ensures GoesOn(start, deeds, after) && StateAt(start, after, |after|) == left
  {
    Extends(start, deeds, Plain(step, left));
    after := deeds + [Plain(step, left)];
  }

  lemma AppendRefused(start: Chat, deeds: seq<Deed>, mark: Step, left: Chat) returns (after: seq<Deed>)
    requires Disciplined(start, deeds) && Open(deeds) && mark.Mark?
    requires !Marks(StateAt(start, deeds, |deeds|), mark, mark.id)
    requires left == Apply(StateAt(start, deeds, |deeds|), mark)
    ensures GoesOn(start, deeds, after) && StateAt(start, after, |after|) == left
  {
    Extends(start, deeds, Plain(mark, left));
    after := deeds + [Plain(mark, left)];
  }

  method Observe(store: ES.Store, status: Connection, ghost start: Chat, ghost deeds: seq<Deed>)
    returns (ok: bool, ghost after: seq<Deed>)
    requires Stands(store, start, deeds)
    modifies store
    ensures Stands(store, start, after) && GoesOn(start, deeds, after)
  {
    var fate: Fate := *;
    ok, after := fate == Written, deeds;
    if fate != NotWritten {
      ghost var s := store.Contents();
      store.SetConnection(status, false);
      ObservedSound(s, status);
      after := Append(start, deeds, Step.Observe(status, false), store.Contents());
    }
  }

  lemma ObservedSound(s: Chat, status: Connection)
    requires ES.Sound(s)
    ensures ES.Sound(T.SetConnection(s, status, false))
  {
  }

  /** A settlement of a row that this visit has not issued. */
  method SettlePending(store: ES.Store, c: Listed, to: State, code: Outcome, waitMs: int, now: int,
                       ghost start: Chat, ghost deeds: seq<Deed>) returns (ok: bool, ghost after: seq<Deed>)
    requires Stands(store, start, deeds)
    modifies store
    ensures Stands(store, start, after) && GoesOn(start, deeds, after)
  {
    var fate: Fate := *;
    ok, after := fate == Written, deeds;
    if fate != NotWritten {
      store.Settle(c.id, TicketOf(c), to, code, waitMs, now);
      after := Append(start, deeds, Resolve(c.id, TicketOf(c), to, code, waitMs, now), store.Contents());
    }
  }

  method AwaitProtection(store: ES.Store, c: Listed, ghost start: Chat, ghost deeds: seq<Deed>)
    returns (ok: bool, ghost after: seq<Deed>)
    requires Stands(store, start, deeds)
    modifies store
    ensures Stands(store, start, after) && GoesOn(start, deeds, after)
  {
    var fate: Fate := *;
    ok, after := fate == Written, deeds;
    if fate != NotWritten {
      store.DeferProtection(c.id);
      after := Append(start, deeds, Step.AwaitProtection(c.id), store.Contents());
    }
  }

  /** The visit's last call; it may fail like any other, and then the lease runs out by itself. */
  method Finish(store: ES.Store, token: Token, failed: bool, waitMs: int, now: int, ghost start: Chat,
                ghost deeds: seq<Deed>)
    returns (finished: bool, ghost after: seq<Deed>)
    requires Stands(store, start, deeds) && NoVisitEnds(deeds)
    modifies store
    ensures Stands(store, start, after) && SentCount(after) == SentCount(deeds)
    ensures finished ==>
              && EndsVisit(after, token)
              && T.IsHead(StateAt(start, after, |after| - 1), after[|after| - 1].step.head)
    ensures !finished ==> after == deeds
  {
    var fate: Fate := *;
    finished, after := fate != NotWritten, deeds;
    if finished {
      ghost var head := store.FinishVisit(token, failed, waitMs, now);
      ghost var end := Plain(EndVisit(token, head, failed, waitMs, now), store.Contents());
      Extends(start, deeds, end);
      after := deeds + [end];
      assert after[..|deeds|] == deeds;
    }
  }

  /** The list ends with the end of the visit, and holds no other. */
  predicate EndsVisit(deeds: seq<Deed>, token: Token) {
    deeds != [] && NoVisitEnds(deeds[..|deeds| - 1])
    && var end := deeds[|deeds| - 1]; end.Plain? && end.step.EndVisit? && end.step.token == token
  }

  // ---- one candidate ----

  ghost function MarkStep(store: ES.Store, c: Listed, token: Token, rightsAt: int, pinAt: int, t: Turn): Step {
    Mark(store.executionEnabled, c.id, TicketOf(c), token, rightsAt, pinAt, t.begin, t.now, t.mark, t.uuid)
  }

  method MarkRow(store: ES.Store, c: Listed, token: Token, rightsAt: int, pinAt: int, t: Turn)
    returns (result: Result<DispatchId, T.DispatchError>, ghost mark: Step)
    requires store.Valid()
    modifies store
    ensures mark.Mark? && mark.id == c.id && mark.uuid == t.uuid && store.Valid()
    ensures store.Contents() == Apply(old(store.Contents()), mark)
    ensures result.Success? <==> Marks(old(store.Contents()), mark, mark.id)
  {
    mark := MarkStep(store, c, token, rightsAt, pinAt, t);
    result := store.AssertAndMarkDispatch(c.id, TicketOf(c), token, rightsAt, pinAt, t.begin, t.now, t.mark, t.uuid);
  }

  /** The final guard: a refusal is a plain step; a success leaves the row marked and nothing reported yet. */
  method Guard(store: ES.Store, c: Listed, token: Token, rightsAt: int, pinAt: int, t: Turn,
               ghost start: Chat, ghost deeds: seq<Deed>)
    returns (result: Result<DispatchId, T.DispatchError>, ghost mark: Step, ghost after: seq<Deed>)
    requires Stands(store, start, deeds) && Open(deeds)
    modifies store
    ensures mark.Mark? && mark.id == c.id && mark.uuid == t.uuid
    ensures result.Failure? ==> Stands(store, start, after) && GoesOn(start, deeds, after)
    ensures result.Success? ==> after == deeds && store.Valid() && Marks(StateAt(start, deeds, |deeds|), mark, mark.id)
                                && store.Contents() == Apply(StateAt(start, deeds, |deeds|), mark)
  {
    result, mark := MarkRow(store, c, token, rightsAt, pinAt, t);
    after := deeds;
    if result.Failure? {
      after := AppendRefused(start, deeds, mark, store.Contents());
    }
  }

  /** A refusal of the guard leads to a settlement or a deferral of the pending row. */
  method Refused(store: ES.Store, c: Listed, error: T.DispatchError, now: int, ghost start: Chat,
                 ghost deeds: seq<Deed>)
    returns (ok: bool, ghost after: seq<Deed>)
    requires Stands(store, start, deeds) && Open(deeds)
    modifies store
    ensures Stands(store, start, after) && GoesOn(start, deeds, after)
  {
    match error
    case IsProtected => ok, after := SettlePending(store, c, Protected, WasProtected, 1000, now, start, deeds);
    case ProtectionPending => ok, after := AwaitProtection(store, c, start, deeds);
    case GuardChanged => ok, after := SettlePending(store, c, Pending, PolicyChanged, 1000, now, start, deeds);
  }

  /** What the visit makes of an answer: the settlement, the error it throws, and the wait it stores. */
  method ReadAnswer(t: Turn) returns (thrown: Option<CallError>, to: State, code: Outcome, waitMs: int)
    ensures (to, code) == V.SettlementOf(V.WireOf(t.transport))
    ensures thrown.None? <==> to == Deleted
  {
    match V.Classify(t.transport)
    case Success(_) =>
      return None, Deleted, WasDeleted, 1000;
    case Failure(failure) =>
      var status := if failure.MaxFailure? then Some(failure.status) else None;
      thrown := Some(CallError(status, false, t.retryAfterMs));
      if failure.MaxFailure? && failure.status == 429 && !failure.attempted {
        return thrown, Pending, RateLimited, t.retryAfterMs;
      }
      return thrown, Uncertain, Reconciliation, 10_000;
  }

  /** One settlement of the issued attempt. */
  method Report(store: ES.Store, c: Listed, uuid: DispatchId, to: State, code: Outcome, waitMs: int, now: int)
    returns (ok: bool, ghost note: Option<Note>)
    requires store.Valid()
    modifies store
    ensures store.Valid()
    ensures var step := Resolve(c.id, T.Ticket(Dispatching, Some(uuid)), to, code, waitMs, now);
      note.Some? ==>
        note.value == Note(step, store.Contents()) && store.Contents() == Apply(old(store.Contents()), step)
    ensures note.None? ==> !ok && store.Contents() == old(store.Contents())
  {
    var fate: Fate := *;
    ok, note := fate == Written, None;
    if fate != NotWritten {
      store.Settle(c.id, T.Ticket(Dispatching, Some(uuid)), to, code, waitMs, now);
      note := Some(Note(Resolve(c.id, T.Ticket(Dispatching, Some(uuid)), to, code, waitMs, now), store.Contents()));
    }
  }

  ghost function Noted(notes: seq<Note>, note: Option<Note>): seq<Note> {
    if note.Some? then notes + [note.value] else notes
  }

  /** The answer written; an acknowledgement that the store does not take is followed by a doubt. */
  method ReportAnswer(store: ES.Store, c: Listed, t: Turn, ghost mark: Step)
    returns (thrown: Option<CallError>, ghost notes: seq<Note>)
    requires store.Valid() && mark.Mark? && mark.id == c.id && mark.uuid == t.uuid
    modifies store
    ensures store.Valid() && NotesChain(old(store.Contents()), notes)
    ensures store.Contents() == LeftAfter(old(store.Contents()), notes) && ReportsFit(mark, t.transport, notes)
    ensures thrown.None? ==> |notes| == 1 && notes[0].step.Resolve? && notes[0].step.to == Deleted
  {
    var to, code, waitMs, ok;
    ghost var first, second: Option<Note>;
    second := None;
    thrown, to, code, waitMs := ReadAnswer(t);
    ok, first := Report(store, c, t.uuid, to, code, waitMs, t.settledAt);
    if !ok {
      if thrown.None? {
        ok, second := Report(store, c, t.uuid, Uncertain, Reconciliation, 10_000, t.settledAt);
      }
      thrown := Some(STORE_FAILED);
    }
    notes := Noted(Noted([], first), second);
  }

  /** The row is marked, so the request goes out, and its answer decides what is reported. */
  method SendAndReport(store: ES.Store, c: Listed, ghost mark: Step, t: Turn, ghost start: Chat, ghost deeds: seq<Deed>)
    returns (thrown: Option<CallError>, ghost after: seq<Deed>)
    requires store.Valid() && Disciplined(start, deeds) && Open(deeds)
    requires mark.Mark? && mark.id == c.id && mark.uuid == t.uuid
    requires Marks(StateAt(start, deeds, |deeds|), mark, mark.id)
    requires store.Contents() == Apply(StateAt(start, deeds, |deeds|), mark)
    modifies store
    ensures Stands(store, start, after)
    ensures thrown.None? ==> Open(after)
    ensures SentCount(after) == SentCount(deeds) + 1
    ensures NoVisitEnds(deeds) ==> NoVisitEnds(after)
  {
    ghost var reports;
    thrown, reports := ReportAnswer(store, c, t, mark);
    ghost var deed := Sent(mark, t.transport, reports, store.Contents());
    Extends(start, deeds, deed);
    after := deeds + [deed];
  }

  /** The row is marked: either the answer of the commit is lost, or the request goes out. */
  method Pass(store: ES.Store, c: Listed, ghost mark: Step, t: Turn, ghost start: Chat, ghost deeds: seq<Deed>)
    returns (thrown: Option<CallError>, sent: bool, ghost after: seq<Deed>)
    requires store.Valid() && Disciplined(start, deeds) && Open(deeds)
    requires mark.Mark? && mark.id == c.id && mark.uuid == t.uuid
    requires Marks(StateAt(start, deeds, |deeds|), mark, mark.id)
    requires store.Contents() == Apply(StateAt(start, deeds, |deeds|), mark)
    modifies store
    ensures Stands(store, start, after)
    ensures thrown.None? ==> Open(after)
    ensures SentCount(after) == SentCount(deeds) + if sent then 1 else 0
    ensures NoVisitEnds(deeds) ==> NoVisitEnds(after)
  {
    var lost: bool := *;
    if lost {
      ghost var deed := Orphan(mark, store.Contents());
      Extends(start, deeds, deed);
      after := deeds + [deed];
      return Some(STORE_FAILED), false, after;
    }
    thrown, after := SendAndReport(store, c, mark, t, start, deeds);
    return thrown, true, after;
  }

  /** The guard and what it leads to: a refusal settled, a lost answer, or a request with its reports. */
  method Attempt(store: ES.Store, c: Listed, token: Token, rightsAt: int, pinAt: int, t: Turn,
                 ghost start: Chat, ghost deeds: seq<Deed>)
    returns (thrown: Option<CallError>, sent: bool, ghost after: seq<Deed>)
    requires Stands(store, start, deeds) && Open(deeds)
    modifies store
    ensures Stands(store, start, after)
    ensures thrown.None? ==> Open(after)
    ensures SentCount(after) == SentCount(deeds) + if sent then 1 else 0
    ensures NoVisitEnds(deeds) ==> NoVisitEnds(after)
  {
    var result;
    ghost var mark;
    result, mark, after := Guard(store, c, token, rightsAt, pinAt, t, start, deeds);
    if result.Failure? {
      var ok;
      ok, after := Refused(store, c, result.error, t.settledAt, start, after);
      return if ok then None else Some(STORE_FAILED), false, after;
    }
    thrown, sent, after := Pass(store, c, mark, t, start, deeds);
  }

  /** Admission, then the guard, then the request, and the calls about it; `thrown` ends the visit. */
  method Remove(store: ES.Store, c: Listed, token: Token, rightsAt: int, pinAt: int, t: Turn,
                ghost start: Chat, ghost deeds: seq<Deed>)
    returns (thrown: Option<CallError>, sent: bool, ghost after: seq<Deed>)
    requires Stands(store, start, deeds) && Open(deeds)
    modifies store
    ensures Stands(store, start, after)
    ensures thrown.None? ==> Open(after)
    ensures SentCount(after) == SentCount(deeds) + if sent then 1 else 0
    ensures NoVisitEnds(deeds) ==> NoVisitEnds(after)
    ensures t.admission != V.Admitted || t.stopped ==> !sent
  {
    var ok;
    if t.admission.Deferred? {
      ok, after := SettlePending(store, c, Pending, RateLimited, t.retryAfterMs, t.settledAt, start, deeds);
      return Some(if ok then CallError(Some(429), false, t.retryAfterMs) else STORE_FAILED), false, after;
    }
    if t.admission.NotAvailable? {
      return Some(STORE_FAILED), false, deeds;
    }
    if t.stopped {
      ok, after := SettlePending(store, c, Pending, PolicyChanged, 1000, t.settledAt, start, deeds);
      return if ok then None else Some(STORE_FAILED), false, after;
    }
    var guardFails: bool := *;
    if guardFails {
      return Some(STORE_FAILED), false, deeds;
    }
    thrown, sent, after := Attempt(store, c, token, rightsAt, pinAt, t, start, deeds);
  }

  // ---- the loops ----

  /** Evidence of rights is renewed when it is thirty seconds old; its age counts from before the request. */
  method RenewRights(store: ES.Store, rightsAt: int, at: int, answer: Option<CallError>, ghost start: Chat,
                     ghost deeds: seq<Deed>)
    returns (thrown: Option<CallError>, checkedAt: int, ghost after: seq<Deed>)
    requires Stands(store, start, deeds) && Open(deeds)
    modifies store
    ensures Stands(store, start, after) && GoesOn(start, deeds, after)
    ensures thrown.None? ==>
              at - checkedAt < EVIDENCE_MS && checkedAt == (if at - rightsAt >= EVIDENCE_MS then at else rightsAt)
  {
    thrown, checkedAt, after := None, rightsAt, deeds;
    if at - rightsAt >= EVIDENCE_MS {
      checkedAt := at;
      if answer.Some? {
        return answer, checkedAt, after;
      }
      var ok;
      ok, after := Observe(store, Connected, start, deeds);
      if !ok {
        thrown := Some(STORE_FAILED);
      }
    }
  }

  /** The loop over the due candidates. */
  method DispatchAll(store: ES.Store, token: Token, candidates: seq<Listed>, turns: seq<Turn>, rightsStart: int,
                     ghost start: Chat, ghost deeds: seq<Deed>)
    returns (thrown: Option<CallError>, sent: nat, ghost after: seq<Deed>)
    requires Stands(store, start, deeds) && Open(deeds) && NoVisitEnds(deeds) && |turns| == |candidates|
    modifies store
    ensures Stands(store, start, after) && NoVisitEnds(after)
    ensures SentCount(after) == SentCount(deeds) + sent && sent <= |candidates|
  {
    thrown, sent, after := None, 0, deeds;
    var rightsAt, pinAt := rightsStart, 0;
    var pinned: Option<MessageId> := None;
    for k := 0 to |candidates|
      invariant Stands(store, start, after) && Open(after) && NoVisitEnds(after)
      invariant SentCount(after) == SentCount(deeds) + sent && sent <= k
    {
      var c, t := candidates[k], turns[k];
      var readFails: bool := *;
      if readFails {
        return Some(STORE_FAILED), sent, after;
      }
      var policy := store.ActivePolicy(token, t.at);
      if policy.None? || t.stopping {
        return None, sent, after;
      }
      if c.source + Retention(policy.value.hours) > t.at {
        continue;
      }
      thrown, rightsAt, after := RenewRights(store, rightsAt, t.at, t.rights, start, after);
      if thrown.Some? {
        return;
      }
      if t.at - pinAt >= PIN_MS {
        pinAt := t.at;
        if t.pin.Failure? {
          return Some(t.pin.error), sent, after;
        }
        pinned := t.pin.value;
      }
      if pinned == Some(c.id) {
        var ok;
        ok, after := SettlePending(store, c, Pending, Pinned, 60_000, t.settledAt, start, after);
        if !ok {
          return Some(STORE_FAILED), sent, after;
        }
        continue;
      }
      var one;
      thrown, one, after := Remove(store, c, token, rightsAt, pinAt, t, start, after);
      sent := sent + if one then 1 else 0;
      if thrown.Some? {
        return;
      }
    }
  }

  /** Opens the lane's window on the policy the visit has just read. */
  method OpenWindow(store: ES.Store, seen: Policy, lane: Lane, purpose: Purpose, t: ScanTurn,
                    ghost start: Chat, ghost deeds: seq<Deed>)
    returns (window: Option<T.Window>, ok: bool, ghost after: seq<Deed>)
    requires Stands(store, start, deeds) && Open(deeds) && NoVisitEnds(deeds)
    modifies store
    ensures Stands(store, start, after) && GoesOn(start, deeds, after)
  {
    var fate: Fate := *;
    window, ok, after := None, fate == Written, deeds;
    if fate != NotWritten {
      var first := FirstMinute(store, seen);
      ghost var s := store.Contents();
      window := store.OpenScan(seen, lane, purpose, t.openAt, first, t.openNow);
      ghost var step := Step.OpenWindow(seen, lane, purpose, t.openAt, first, t.openNow);
      OpenedSound(s, step);
      after := Append(start, deeds, step, store.Contents());
    }
  }

  /** Opening a window leaves the bitmap and the journal alone. */
  lemma OpenedSound(s: Chat, step: Step)
    requires step.OpenWindow?
    ensures ES.Sound(s) ==> ES.Sound(Apply(s, step))
  {
    OpenFrame(s, step.seen, step.lane, step.purpose, step.at, step.future, step.now);
  }

  /** The first tracked minute, past the upper end of a retained gap of the policy that was read. */
  method FirstMinute(store: ES.Store, seen: Policy) returns (first: Option<int>)
    requires store.Valid()
    ensures first == F.FirstAfter(store.future, T.GapMoment(seen))
  {
    first := F.FirstFutureMinute(store.future, if seen.due.gap then seen.due.upper else None);
  }

  method AcceptPage(store: ES.Store, seen: Policy, lane: Lane, page: seq<Message>, purpose: Purpose, now: int,
                    ghost start: Chat, ghost deeds: seq<Deed>)
    returns (ok: bool, ghost after: seq<Deed>)
    requires Stands(store, start, deeds) && ES.SoundPage(page)
    modifies store
    ensures Stands(store, start, after) && GoesOn(start, deeds, after)
  {
    var fate: Fate := *;
    ok, after := fate == Written, deeds;
    if fate != NotWritten {
      store.SavePage(seen, lane, page, purpose, now);
      after := Append(start, deeds, Step.AcceptPage(seen, lane, page, purpose, now), store.Contents());
    }
  }

  /** One lane: its window, evidence of rights, a page, and the page's transaction. */
  method ScanLane(store: ES.Store, seen: Policy, lane: Lane, purpose: Purpose, t: ScanTurn, rightsStart: int,
                  ghost start: Chat, ghost deeds: seq<Deed>)
    returns (thrown: Option<CallError>, scanned: bool, rightsAt: int, ghost after: seq<Deed>)
    requires Stands(store, start, deeds) && Open(deeds) && NoVisitEnds(deeds)
    requires t.page.Success? ==> ES.SoundPage(t.page.value)
    modifies store
    ensures Stands(store, start, after) && GoesOn(start, deeds, after)
  {
    thrown, scanned, rightsAt := None, false, rightsStart;
    var window, ok;
    window, ok, after := OpenWindow(store, seen, lane, purpose, t, start, deeds);
    if !ok {
      return Some(STORE_FAILED), false, rightsAt, after;
    }
    if window.None? {
      return;
    }
    thrown, rightsAt, after := RenewRights(store, rightsAt, t.at, t.rights, start, after);
    if thrown.Some? {
      return;
    }
    if t.page.Failure? {
      return Some(t.page.error), false, rightsAt, after;
    }
    ok, after := AcceptPage(store, seen, lane, t.page.value, purpose, t.saveAt, start, after);
    scanned := true;
    thrown := if ok then None else Some(STORE_FAILED);
  }

  /** The lanes in turn, until one leaves something due. */
  method ScanAll(store: ES.Store, token: Token, purpose: Purpose, listed: seq<Listed>, turns: seq<ScanTurn>,
                 ghost start: Chat, ghost deeds: seq<Deed>)
    returns (thrown: Option<CallError>, ended: bool, candidates: seq<Listed>, rightsAt: int, ghost after: seq<Deed>)
    requires Stands(store, start, deeds) && Open(deeds) && NoVisitEnds(deeds) && |turns| == 2
    requires forall k :: 0 <= k < 2 && turns[k].page.Success? ==> ES.SoundPage(turns[k].page.value)
    modifies store
    ensures Stands(store, start, after) && GoesOn(start, deeds, after)
    ensures candidates == listed || candidates == turns[0].next || candidates == turns[1].next
  {
    thrown, ended, candidates, rightsAt, after := None, false, listed, 0, deeds;
    var lanes := if purpose == Safety then [Live] else [Live, History];
    for k := 0 to |lanes|
      invariant Stands(store, start, after) && GoesOn(start, deeds, after)
      invariant candidates == listed || candidates == turns[0].next || candidates == turns[1].next
    {
      var t := turns[k];
      var readFails: bool := *;
      if readFails {
        return Some(STORE_FAILED), false, candidates, rightsAt, after;
      }
      var policy := store.ActivePolicy(token, t.at);
      if policy.None? || t.stopping {
        ended := true;
        return;
      }
      var scanned;
      thrown, scanned, rightsAt, after := ScanLane(store, policy.value, lanes[k], purpose, t, rightsAt, start, after);
      if thrown.Some? {
        return;
      }
      if scanned {
        candidates := t.next;
        if candidates != [] {
          return;
        }
      }
    }
  }

  /** What the visit stores about an error before it finishes; a failure of that call changes nothing more. */
  method Caught(store: ES.Store, thrown: Option<CallError>, ghost start: Chat, ghost deeds: seq<Deed>)
    returns (failed: bool, waitMs: int, ghost after: seq<Deed>)
    requires Stands(store, start, deeds) && NoVisitEnds(deeds)
    modifies store
    ensures Stands(store, start, after) && NoVisitEnds(after) && SentCount(after) == SentCount(deeds)
    ensures failed <==> thrown.Some?
    ensures waitMs == if thrown.Some? then WaitOf(thrown.value) else 1000
  {
    failed, waitMs, after := thrown.Some?, if thrown.Some? then WaitOf(thrown.value) else 1000, deeds;
    if thrown.Some? && thrown.value.rightsMissing {
      var ok;
      ok, after := Observe(store, NoAccess, start, deeds);
    }
  }

  /** The part of a visit that may throw. */
  method Work(store: ES.Store, token: Token, purpose: Purpose, enabled: bool, stopping: bool, at: int,
              listed: seq<Listed>, scans: seq<ScanTurn>, turns: seq<Turn>, ghost start: Chat)
    returns (thrown: Option<CallError>, sent: nat, ghost after: seq<Deed>)
    requires store.Valid() && store.Contents() == start && |scans| == 2 && |turns| == 5
    requires |listed| <= 5 && |scans[0].next| <= 5 && |scans[1].next| <= 5
    requires forall k :: 0 <= k < 2 && scans[k].page.Success? ==> ES.SoundPage(scans[k].page.value)
    modifies store
    ensures Stands(store, start, after) && NoVisitEnds(after)
    ensures SentCount(after) == sent <= 5
  {
    thrown, sent, after := None, 0, [];
    var readFails: bool := *;
    if readFails {
      return Some(STORE_FAILED), 0, [];
    }
    var policy := store.ActivePolicy(token, at);
    if policy.None? || stopping || !enabled {
      return;
    }
    var candidates, rightsAt := listed, 0;
    var size := store.BufferSize();
    var idle := forall k :: 0 <= k < |listed| ==> listed[k].lane != Live;
    if (purpose == Safety || idle) && size <= CHAT_BUFFER - PAGE_SIZE {
      var ended;
      thrown, ended, candidates, rightsAt, after := ScanAll(store, token, purpose, listed, scans, start, after);
      if thrown.Some? || ended {
        return;
      }
    }
    thrown, sent, after := DispatchAll(store, token, candidates, turns[..|candidates|], rightsAt, start, after);
  }

  /**
    A whole visit. Whatever the server answers and whichever store calls fail, the visit is a run of the
    store that sends at most five requests, settles each of them in the very next transactions under its own
    dispatch id as the wire showed or as uncertain, and dispatches nothing more once an outcome is open; and
    unless its very last call fails, it ends its own lease.
   */
  method Visit(store: ES.Store, token: Token, purpose: Purpose, enabled: bool, stopping: bool, at: int,
               listed: seq<Listed>, scans: seq<ScanTurn>, turns: seq<Turn>, finishedAt: int)
    returns (sent: nat, finished: bool, ghost deeds: seq<Deed>)
    requires store.Valid() && |scans| == 2 && |turns| == 5
    requires |listed| <= 5 && |scans[0].next| <= 5 && |scans[1].next| <= 5
    requires forall k :: 0 <= k < 2 && scans[k].page.Success? ==> ES.SoundPage(scans[k].page.value)
    modifies store
    ensures store.Valid() && Disciplined(old(store.Contents()), deeds)
    ensures store.Contents() == Run(old(store.Contents()), AllSteps(deeds))
    ensures SentCount(deeds) == sent <= 5
    ensures if finished then EndsVisit(deeds, token) else NoVisitEnds(deeds)
  {
    ghost var start := store.Contents();
    var thrown, failed, waitMs;
    thrown, sent, deeds := Work(store, token, purpose, enabled, stopping, at, listed, scans, turns, start);
    failed, waitMs, deeds := Caught(store, thrown, start, deeds);
    finished, deeds := Finish(store, token, failed, waitMs, finishedAt, start, deeds);
    DeedsAreARun(start, deeds);
  }

  // ---- the deeds in the world of the journal ----

  /** The same deed as events of the journal: the mark, the request, its answer, and what was said about it. */
  function JournalEvents(deed: Deed): seq<J.Event> {
    match deed
    case Plain(step, _) => if step.Mark? then [J.Issue(step)] else [J.Transact(step)]
    case Orphan(mark, _) => [J.Issue(mark)]
    case Sent(mark, transport, reports, _) =>
      if !mark.Mark? then []
      else [J.Issue(mark), J.Send(mark.uuid), J.Hear(mark.uuid, transport)]
           + ReportEvents(mark.uuid, transport, reports)
  }

  function ReportEvents(d: DispatchId, transport: V.Transport, notes: seq<Note>): seq<J.Event> {
    seq(|notes|, k requires 0 <= k < |notes| => ReportEvent(d, transport, notes[k].step))
  }

  function ReportEvent(d: DispatchId, transport: V.Transport, report: Step): J.Event {
    if !report.Resolve? then J.Send(d)
    else if (report.to, report.code) == V.SettlementOf(V.WireOf(transport)) then J.Report(d, report.waitMs, report.now)
    else J.Doubt(d, report.waitMs, report.now)
  }

  lemma PlaySnoc(j: J.Journal, events: seq<J.Event>, e: J.Event)
    ensures J.Play(j, events + [e]) == J.After(J.Play(j, events), e)
  {
    assert (events + [e])[..|events|] == events;
  }

  /** The rows are those after the mark, and the attempt stands on the wire like this. */
  ghost predicate OnWire(j: J.Journal, marked: Chat, d: DispatchId, wire: V.Wire, id: MessageId) {
    j.chat == marked && d in j.attempts && j.attempts[d].id == id && j.attempts[d].wire == wire
  }

  /** The request went out and its answer came back. */
  ghost predicate Heard(j: J.Journal, marked: Chat, d: DispatchId, transport: V.Transport, id: MessageId) {
    OnWire(j, marked, d, V.WireOf(transport), id)
  }

  lemma MarkIsIssued(j: J.Journal, mark: Step)
    requires J.Inv(j) && mark.Mark? && mark.uuid !in j.attempts && Marks(j.chat, mark, mark.id)
    ensures OnWire(J.After(j, J.Issue(mark)), Apply(j.chat, mark), mark.uuid, V.Unsent, mark.id)
  {
    assert mark.id in j.chat.candidates && mark.id in j.births;
  }

  lemma SentIsHeard(j: J.Journal, mark: Step, transport: V.Transport)
    requires J.Inv(j) && mark.Mark? && mark.uuid !in j.attempts && Marks(j.chat, mark, mark.id)
    ensures Heard(J.Play(j, [J.Issue(mark), J.Send(mark.uuid), J.Hear(mark.uuid, transport)]),
                  Apply(j.chat, mark), mark.uuid, transport, mark.id)
  {
    var d := mark.uuid;
    MarkIsIssued(j, mark);
    var j1 := J.After(j, J.Issue(mark));
    SendIsHeard(j1, Apply(j.chat, mark), d, transport, mark.id);
    PlaySnoc(j, [], J.Issue(mark));
    PlaySnoc(j, [J.Issue(mark)], J.Send(d));
    PlaySnoc(j, [J.Issue(mark), J.Send(d)], J.Hear(d, transport));
    assert [] + [J.Issue(mark)] == [J.Issue(mark)];
    assert [J.Issue(mark)] + [J.Send(d)] == [J.Issue(mark), J.Send(d)];
    assert [J.Issue(mark), J.Send(d)] + [J.Hear(d, transport)] == [J.Issue(mark), J.Send(d), J.Hear(d, transport)];
  }

  lemma SendIsHeard(j: J.Journal, marked: Chat, d: DispatchId, transport: V.Transport, id: MessageId)
    requires OnWire(j, marked, d, V.Unsent, id)
    ensures Heard(J.After(J.After(j, J.Send(d)), J.Hear(d, transport)), marked, d, transport, id)
  {
    assert OnWire(J.After(j, J.Send(d)), marked, d, V.InFlight, id);
  }

  lemma ReportIsEvent(j: J.Journal, marked: Chat, mark: Step, transport: V.Transport, report: Step)
    requires mark.Mark? && Heard(j, marked, mark.uuid, transport, mark.id) && ReportFits(mark, transport, report)
    requires V.WireOf(transport) != V.InFlight
    ensures Heard(J.After(j, ReportEvent(mark.uuid, transport, report)), Apply(marked, report), mark.uuid, transport,
                  mark.id)
  {
  }

  lemma ReportsAreEvents(j: J.Journal, events: seq<J.Event>, marked: Chat, mark: Step,
                         transport: V.Transport, notes: seq<Note>)
    requires mark.Mark? && Heard(J.Play(j, events), marked, mark.uuid, transport, mark.id)
    requires NotesChain(marked, notes) && ReportsFit(mark, transport, notes)
    ensures J.Play(j, events + ReportEvents(mark.uuid, transport, notes)).chat == LeftAfter(marked, notes)
  {
    var more := ReportEvents(mark.uuid, transport, notes);
    if notes == [] {
      assert events + more == events;
    } else {
      var e := ReportEvent(mark.uuid, transport, notes[0].step);
      PlaySnoc(j, events, e);
      ReportIsEvent(J.Play(j, events), marked, mark, transport, notes[0].step);
      if |notes| == 1 {
        assert more == [e];
      } else {
        SecondIsEvent(j, events + [e], notes[0].left, mark, transport, notes[1].step);
        assert events + more == (events + [e]) + [ReportEvent(mark.uuid, transport, notes[1].step)];
      }
    }
  }

  lemma SecondIsEvent(j: J.Journal, events: seq<J.Event>, left: Chat, mark: Step, transport: V.Transport, report: Step)
    requires mark.Mark? && Heard(J.Play(j, events), left, mark.uuid, transport, mark.id)
    requires ReportFits(mark, transport, report)
    ensures J.Play(j, events + [ReportEvent(mark.uuid, transport, report)]).chat == Apply(left, report)
  {
    PlaySnoc(j, events, ReportEvent(mark.uuid, transport, report));
    ReportIsEvent(J.Play(j, events), left, mark, transport, report);
  }

  /**
    Whatever a visit does to the rows, the journal's world does too: a request with its answer and its reports
    is a mark, a send, an answer and reports or doubts of that world, with the same rows left.
   */
  lemma DeedIsJournalled(j: J.Journal, deed: Deed)
    requires J.Inv(j) && DeedFits(j.chat, deed)
    requires deed.Plain? ==> Enabled(j.chat, deed.step) && (deed.step.Mark? ==> deed.step.uuid !in j.attempts)
    requires !deed.Plain? ==> deed.mark.Mark? && deed.mark.uuid !in j.attempts
    ensures J.Play(j, JournalEvents(deed)).chat == deed.left
  {
    match deed
    case Plain(step, _) => PlaySnoc(j, [], JournalEvents(deed)[0]);
    case Orphan(mark, _) => PlaySnoc(j, [], J.Issue(mark));
    case Sent(mark, transport, reports, _) =>
      SentIsHeard(j, mark, transport);
      ReportsAreEvents(j, [J.Issue(mark), J.Send(mark.uuid), J.Hear(mark.uuid, transport)],
                       Apply(j.chat, mark), mark, transport, reports);
  }

  // ---- connecting when ready ----

  const PROOF_MS := 15_000

  /** What one connection attempt meets; the two `before` times are the guard's readings around the rights call. */
  datatype ConnectTurn = ConnectTurn(
    at: int, beforeBot: int, bot: Option<CallError>, botCheckedAt: int, beforeActor: int, beforeActorSend: int,
    sentAt: int, actor: Option<CallError>, actorMissing: bool, answeredAt: int,
    activation: nat, lowAt: int, historyAt: int, safetyAt: int, now: int, finishedAt: int)

  /** The two proofs in order; nothing is returned when both hold and are still fresh. */
  method Prove(store: ES.Store, token: Token, t: ConnectTurn) returns (failure: Option<CallError>, cancelled: bool)
    ensures failure.None? ==>
      t.bot.None? && t.actor.None? && t.sentAt - t.botCheckedAt <= 10_000 && t.answeredAt - t.botCheckedAt <= PROOF_MS
    ensures cancelled ==> failure.Some? && t.bot.None? && t.actorMissing && failure == t.actor
  {
    var stopped := CallError(None, false, 1000);
    var live := store.LiveRequest(token, t.beforeBot);
    if !live {
      return Some(stopped), false;
    }
    if t.bot.Some? {
      return t.bot, false;
    }
    live := store.LiveRequest(token, t.beforeActor);
    if !live {
      return Some(stopped), false;
    }
    live := store.LiveRequest(token, t.beforeActorSend);
    if !live {
      return Some(stopped), false;
    }
    if t.sentAt - t.botCheckedAt > 10_000 {
      return Some(CallError(Some(0), false, 1000)), false;
    }
    if t.actor.Some? {
      return t.actor, t.actorMissing && t.actor.value.status == Some(403);
    }
    if t.answeredAt - t.botCheckedAt > PROOF_MS {
      return Some(CallError(Some(0), false, 1000)), false;
    }
    return None, false;
  }

  /** The opt-in enabled the chat, on two proofs of which the older was less than fifteen seconds old. */
  ghost predicate ActivatedOnProof(s: Chat, left: Chat, token: Token, execution: bool, t: ConnectTurn) {
    && left == T.ActivateConnection(s, token, t.botCheckedAt + PROOF_MS, execution, t.activation,
                                    t.lowAt, t.historyAt, t.safetyAt, t.now)
    && T.MayActivate(s, token, t.botCheckedAt + PROOF_MS, execution, t.now)
    && t.bot.None? && t.actor.None? && t.now < t.botCheckedAt + PROOF_MS
  }

  /** The request was handed back, for good only on a denial of the actor's own rights. */
  ghost predicate HandedBack(s: Chat, left: Chat, token: Token, t: ConnectTurn) {
    exists cancelled, waitMs :: waitMs >= 30_000 && (cancelled ==> t.actorMissing && t.actor.Some?)
      && left == T.FinishConnection(s, token, cancelled, waitMs, t.finishedAt)
  }

  method HandBack(store: ES.Store, token: Token, cancelled: bool, waitMs: int, t: ConnectTurn)
    requires waitMs >= 30_000 && (cancelled ==> t.actorMissing && t.actor.Some?)
    modifies store
    ensures store.Contents() == old(store.Contents()) || HandedBack(old(store.Contents()), store.Contents(), token, t)
    ensures old(store.request.Some? && store.request.value.status != RequestPending) ==>
              store.Contents() == old(store.Contents())
  {
    var fate: Fate := *;
    if fate != NotWritten {
      ghost var s := store.Contents();
      store.FinishConnection(token, cancelled, waitMs, t.finishedAt);
      assert store.Contents() == T.FinishConnection(s, token, cancelled, waitMs, t.finishedAt);
    }
  }

  /**
    One attempt to act on an opt-in: it activates, or hands the request back, or leaves everything as it
    was, whichever store calls fail. It can enable the chat only with both proofs in hand.
   */
  method Connect(store: ES.Store, token: Token, enabled: bool, stopping: bool, t: ConnectTurn)
    modifies store
    ensures var s, left := old(store.Contents()), store.Contents();
      || left == s
      || (ActivatedOnProof(s, left, token, store.executionEnabled, t) && enabled && !stopping)
      || HandedBack(s, left, token, t)
    ensures store.policy.enabled && !old(store.policy.enabled) ==>
              ActivatedOnProof(old(store.Contents()), store.Contents(), token, store.executionEnabled, t)
  {
    var live := store.LiveRequest(token, t.at);
    if !live || stopping || !enabled {
      return;
    }
    var failure, cancelled := Prove(store, token, t);
    if failure.Some? {
      var waitMs := if failure.value.status == Some(429) then Max(30_000, failure.value.retryAfterMs) else 30_000;
      HandBack(store, token, cancelled, waitMs, t);
      return;
    }
    var fate: Fate := *;
    var activated := false;
    if fate != NotWritten {
      activated := store.ActivateConnection(token, t.botCheckedAt + PROOF_MS, t.activation, t.lowAt, t.historyAt,
                                            t.safetyAt, t.now);
    }
    if fate != Written || !activated {
      HandBack(store, token, false, 30_000, t);
    }
  }
}
