/**
  Two runs, from a chat that was just created, in which the code does less than it is meant to: an activation
  whose clock readings leave a hole, and a safety visit whose crash puts the ordinary schedule to sleep.
 */
module Shortfalls {
  import opened Wrappers
  import F = FutureMinutes
  import opened EraserTypes
  import opened Shielding
  import opened Transactions
  import opened Steps
  import opened ScanWorld
  import opened Coverage
  import opened NoLostWake

  function StartAt(now: int): World {
    World(NEW_CHAT, now, map[], {}, {}, {}, map[], {})
  }

  const DAY_100: int := 100 * DAY

  /** A complete snapshot without any publication. */
  const SNAPSHOT: Snapshot := Snapshot(1, {}, {}, {}, {}, Some(DAY_100), None, true, None)

  const PROTECTED_CHAT: Chat := NEW_CHAT.(protection := Some(Protection(1, Some(DAY_100), true, None, None)))

  lemma SnapshotInstalls(now: int)
    ensures Apply(NEW_CHAT, Protect(SNAPSHOT, now)) == PROTECTED_CHAT
  {
    assert AddKinds(map[], {}, {}) == map[];
  }

  /** A run in steps: each event is possible, and leads where it should. */
  ghost predicate Leads(w: World, e: Event, w': World) {
    Can(w, e) && Do(w, e) == w'
  }

  lemma RunLeads(start: World, events: seq<Event>, k: nat, w: World, w': World)
    requires k < |events| && Play(start, events[..k]) == w && Leads(w, events[k], w')
    ensures Play(start, events[..k + 1]) == w'
  {
    PlaySnoc(start, events, k);
  }

  // ---- an activation with a hole ----

  const HOLE_AT: int := 98 * DAY + 1
  const CONNECT_AT: int := DAY_100 + 2

  /** A person's message; its time falls between the two bounds of the activation. */
  const HOLE_MESSAGE: Message := Message(5, 9, Some(false), HOLE_AT)

  const OPT_IN: SaveBody := SaveBody(true, 48, 0, 4, true)

  const HOLE_RUN: seq<Event> := [
    Post(HOLE_MESSAGE), Tick(CONNECT_AT), Transact(Protect(SNAPSHOT, CONNECT_AT)),
    Transact(SaveSettings(1, OPT_IN, true, 0, [], {}, CONNECT_AT)), Transact(LeaseConnection(7, true, CONNECT_AT))]

  /** The activation reads the clock for its history cursor, and two milliseconds later for its safety floor. */
  const LATE_CONNECT: Step := Connect(7, CONNECT_AT + 10, true, 1, DAY_100, DAY_100, CONNECT_AT, CONNECT_AT)

  function Posted5(now: int, chat: Chat): World {
    World(chat, now, map[5 := HOLE_MESSAGE], {5}, {}, {}, map[], {})
  }

  const OPTED_IN: Chat := PROTECTED_CHAT.(
    policy := NEW_POLICY.(revision := 1, lastOperation := Some(1), normalNextAt := CONNECT_AT),
    request := Some(ConnectionRequest(1, 4, 1, RequestPending, CONNECT_AT + F.HOUR, CONNECT_AT, None)),
    operations := map[1 := Operation(OPT_IN, Response(false, 48, 1))])

  const LEASED_OPT_IN: Chat := OPTED_IN.(
    request := Some(OPTED_IN.request.value.(lease := Some(Lease(7, CONNECT_AT + 60_000)))))

  lemma HolePosts()
    ensures Leads(StartAt(HOLE_AT), HOLE_RUN[0], Posted5(HOLE_AT, NEW_CHAT))
    ensures Leads(Posted5(HOLE_AT, NEW_CHAT), HOLE_RUN[1], Posted5(CONNECT_AT, NEW_CHAT))
  {
  }

  lemma HoleProtects()
    ensures Leads(Posted5(CONNECT_AT, NEW_CHAT), HOLE_RUN[2], Posted5(CONNECT_AT, PROTECTED_CHAT))
  {
    SnapshotInstalls(CONNECT_AT);
  }

  lemma HoleOptsIn()
    ensures Leads(Posted5(CONNECT_AT, PROTECTED_CHAT), HOLE_RUN[3], Posted5(CONNECT_AT, OPTED_IN))
  {
    assert Apply(PROTECTED_CHAT, HOLE_RUN[3].step) == OPTED_IN;
  }

  lemma HoleLeases()
    ensures Leads(Posted5(CONNECT_AT, OPTED_IN), HOLE_RUN[4], Posted5(CONNECT_AT, LEASED_OPT_IN))
  {
    assert Apply(OPTED_IN, HOLE_RUN[4].step) == LEASED_OPT_IN;
  }

  lemma HoleRunBegins()
    ensures Play(StartAt(HOLE_AT), HOLE_RUN[..3]) == Posted5(CONNECT_AT, PROTECTED_CHAT)
  {
    var w0 := StartAt(HOLE_AT);
    HolePosts();
    HoleProtects();
    RunLeads(w0, HOLE_RUN, 0, w0, Posted5(HOLE_AT, NEW_CHAT));
    RunLeads(w0, HOLE_RUN, 1, Posted5(HOLE_AT, NEW_CHAT), Posted5(CONNECT_AT, NEW_CHAT));
    RunLeads(w0, HOLE_RUN, 2, Posted5(CONNECT_AT, NEW_CHAT), Posted5(CONNECT_AT, PROTECTED_CHAT));
  }

  lemma HoleRunEnds()
    ensures Fresh(StartAt(HOLE_AT)) && Play(StartAt(HOLE_AT), HOLE_RUN) == Posted5(CONNECT_AT, LEASED_OPT_IN)
  {
    var w0 := StartAt(HOLE_AT);
    HoleRunBegins();
    HoleOptsIn();
    HoleLeases();
    RunLeads(w0, HOLE_RUN, 3, Posted5(CONNECT_AT, PROTECTED_CHAT), Posted5(CONNECT_AT, OPTED_IN));
    RunLeads(w0, HOLE_RUN, 4, Posted5(CONNECT_AT, OPTED_IN), Posted5(CONNECT_AT, LEASED_OPT_IN));
    assert HOLE_RUN[..5] == HOLE_RUN;
  }

  /**
    After a real run, the activation goes through, and a visible message the policy owes is in no lane's
    reach: neither above the safety floor, nor below the history cursor, nor known to anything else.
   */
  lemma LateReadingLeavesHole()
    ensures Fresh(StartAt(HOLE_AT))
    ensures var w := Play(StartAt(HOLE_AT), HOLE_RUN);
      var t := Apply(w.chat, LATE_CONNECT);
      && Owed(w, 5) && w.known[5] == HOLE_MESSAGE && LATE_CONNECT.safetyAt <= w.now
      && t.policy.enabled && !LeavesNoHole(w.chat.policy, LATE_CONNECT) && !Covered(t, w.done, HOLE_MESSAGE)
  {
    HoleRunEnds();
    var t := Apply(LEASED_OPT_IN, LATE_CONNECT);
    assert MayActivate(LEASED_OPT_IN, 7, CONNECT_AT + 10, true, CONNECT_AT);
    assert t.policy.history.cursor == Some(98 * DAY) && t.policy.safety.floor == Some(98 * DAY + 3);
  }

  // ---- a crash that loses the ordinary wake ----

  const CRASH_AT: int := DAY_100 + 2 * DAY

  /** Posted on the day the chat is enabled, and never announced by a webhook. */
  const CRASH_MESSAGE: Message := Message(5, 9, Some(false), DAY_100)

  const ENABLE: SaveBody := SaveBody(true, 24, 0, 4, false)

  const CRASH_RUN: seq<Event> := [
    Transact(Protect(SNAPSHOT, DAY_100)),
    Transact(SaveSettings(1, ENABLE, true, 1, [], {}, DAY_100)),
    Transact(ReserveVisit(7, Due, DAY_100)), Look(7), Open(7, History, Due, DAY_100, None), Fetch(7, []), Commit(7),
    Transact(EndVisit(7, None, false, 1000, DAY_100)),
    Post(CRASH_MESSAGE), Tick(CRASH_AT),
    Transact(ReserveVisit(8, Safety, CRASH_AT)), Look(8), Open(8, Live, Safety, CRASH_AT, None),
    Fetch(8, [CRASH_MESSAGE]), Commit(8),
    Tick(CRASH_AT + 60_001)]

  const ENABLED_POLICY: Policy := NEW_POLICY.(
    enabled := true, hours := 24, revision := 1, lastOperation := Some(1), activation := 1,
    due := DueLane(Some(99 * DAY + 1), None, None, None, None, false, false, None), dueGeneration := 1,
    history := HistoryLane(Some(99 * DAY), false, false, None),
    safety := SafetyLane(Some(99 * DAY + 1), None, None, None, false, false, None, 0),
    safetyNextAt := DAY_100, normalNextAt := DAY_100)

  /** The rows of the run, which differ from the first enabled ones in the policy and the journal. */
  function Enabled1(p: Policy, rows: map<MessageId, Candidate>): Chat {
    PROTECTED_CHAT.(policy := p, candidates := rows, operations := map[1 := Operation(ENABLE, Response(true, 24, 1))])
  }

  function Quiet1(p: Policy, visits: map<Token, Visit>, tokens: set<Token>): World {
    World(Enabled1(p, map[]), DAY_100, map[], {}, {}, {}, visits, tokens)
  }

  function LeasedTo(p: Policy, token: Token, until: int): Policy {
    p.(lease := Some(Lease(token, until)))
  }

  const VISIT_7: Policy := LeasedTo(ENABLED_POLICY, 7, DAY_100 + 60_000)
  const LOOKED_7: Visit := Visit(DAY_100, VISIT_7, None, None, None)
  const OPENED_7: Visit := LOOKED_7.(chosen := Some(Opened(History, Due, Window(None, 99 * DAY))))
  const FETCHED_7: Visit := OPENED_7.(page := Some([]))

  const HISTORY_DONE: Policy := VISIT_7.(
    history := HistoryLane(Some(99 * DAY), true, false, Some([])), scanGeneration := 1)

  const ASLEEP: Policy := HISTORY_DONE.(lease := None, normalNextAt := NO_WORK_AT)

  function Posted1(now: int, p: Policy, rows: map<MessageId, Candidate>, visits: map<Token, Visit>,
                   tokens: set<Token>): World {
    World(Enabled1(p, rows), now, map[5 := CRASH_MESSAGE], {5}, {}, {}, visits, tokens)
  }

  const VISIT_8: Policy := LeasedTo(ASLEEP, 8, CRASH_AT + 60_000)
  const SAFETY_OPEN: Policy := VISIT_8.(
    safety := SafetyLane(Some(99 * DAY + 1), Some(101 * DAY), Some(101 * DAY), None, false, false, None, 0))
  const LOOKED_8: Visit := Visit(CRASH_AT, VISIT_8, None, None, None)
  const OPENED_8: Visit := LOOKED_8.(chosen := Some(Opened(Live, Safety, Window(Some(99 * DAY + 1), 101 * DAY))))
  const FETCHED_8: Visit := OPENED_8.(page := Some([CRASH_MESSAGE]))

  lemma ProtectsChat()
    ensures Leads(StartAt(DAY_100), CRASH_RUN[0], StartAt(DAY_100).(chat := PROTECTED_CHAT))
  {
    SnapshotInstalls(DAY_100);
  }

  lemma EnablesChat()
    ensures Leads(StartAt(DAY_100).(chat := PROTECTED_CHAT), CRASH_RUN[1], Quiet1(ENABLED_POLICY, map[], {}))
  {
    assert Apply(PROTECTED_CHAT, CRASH_RUN[1].step) == Enabled1(ENABLED_POLICY, map[]);
  }

  lemma ReservesFirst()
    ensures Leads(Quiet1(ENABLED_POLICY, map[], {}), CRASH_RUN[2], Quiet1(VISIT_7, map[], {7}))
    ensures Leads(Quiet1(VISIT_7, map[], {7}), CRASH_RUN[3], Quiet1(VISIT_7, map[7 := LOOKED_7], {7}))
  {
    assert Apply(Enabled1(ENABLED_POLICY, map[]), CRASH_RUN[2].step) == Enabled1(VISIT_7, map[]);
  }

  lemma OpensHistory()
    ensures Leads(Quiet1(VISIT_7, map[7 := LOOKED_7], {7}), CRASH_RUN[4], Quiet1(VISIT_7, map[7 := OPENED_7], {7}))
  {
  }

  lemma FetchesHistory()
    ensures Leads(Quiet1(VISIT_7, map[7 := OPENED_7], {7}), CRASH_RUN[5], Quiet1(VISIT_7, map[7 := FETCHED_7], {7}))
  {
  }

  lemma FinishesHistory()
    ensures Leads(Quiet1(VISIT_7, map[7 := FETCHED_7], {7}), CRASH_RUN[6], Quiet1(HISTORY_DONE, map[], {7}))
  {
    var s := Enabled1(VISIT_7, map[]);
    assert PendingIds(s.candidates) == {};
    assert SignatureOf([]) == [];
    assert SavePage(s, VISIT_7, History, [], Due, DAY_100) == Enabled1(HISTORY_DONE, map[]);
  }

  lemma FallsAsleep()
    ensures Leads(Quiet1(HISTORY_DONE, map[], {7}), CRASH_RUN[7], Quiet1(ASLEEP, map[], {7}))
    ensures Asleep(ASLEEP) && Idle(Enabled1(ASLEEP, map[]))
  {
    var s := Enabled1(HISTORY_DONE, map[]);
    assert PendingIds(s.candidates) == {};
    assert Apply(s, CRASH_RUN[7].step) == Enabled1(ASLEEP, map[]);
  }

  lemma WaitsTwoDays()
    ensures Leads(Quiet1(ASLEEP, map[], {7}), CRASH_RUN[8], Posted1(DAY_100, ASLEEP, map[], map[], {7}))
    ensures Leads(Posted1(DAY_100, ASLEEP, map[], map[], {7}), CRASH_RUN[9],
                  Posted1(CRASH_AT, ASLEEP, map[], map[], {7}))
  {
  }

  lemma ReservesSafety()
    ensures Leads(Posted1(CRASH_AT, ASLEEP, map[], map[], {7}), CRASH_RUN[10],
                  Posted1(CRASH_AT, VISIT_8, map[], map[], {7, 8}))
    ensures Leads(Posted1(CRASH_AT, VISIT_8, map[], map[], {7, 8}), CRASH_RUN[11],
                  Posted1(CRASH_AT, VISIT_8, map[], map[8 := LOOKED_8], {7, 8}))
  {
    assert Apply(Enabled1(ASLEEP, map[]), CRASH_RUN[10].step) == Enabled1(VISIT_8, map[]);
  }

  lemma FetchesMessage()
    ensures Leads(Posted1(CRASH_AT, VISIT_8, map[], map[8 := LOOKED_8], {7, 8}), CRASH_RUN[12],
                  Posted1(CRASH_AT, SAFETY_OPEN, map[], map[8 := OPENED_8], {7, 8}))
    ensures Leads(Posted1(CRASH_AT, SAFETY_OPEN, map[], map[8 := OPENED_8], {7, 8}), CRASH_RUN[13],
                  Posted1(CRASH_AT, SAFETY_OPEN, map[], map[8 := FETCHED_8], {7, 8}))
  {
    assert [CRASH_MESSAGE][0].id == 5;
    assert Listed([CRASH_MESSAGE], 5);
    assert OpenScan(Enabled1(VISIT_8, map[]), VISIT_8, Live, Safety, CRASH_AT, None, CRASH_AT).0
           == Enabled1(SAFETY_OPEN, map[]);
  }

  /** The page of the visit that crashes. */
  lemma PageIsAccepted()
    ensures var s := Enabled1(SAFETY_OPEN, map[]);
      PageAccepted(s, VISIT_8, Live, Safety, CRASH_AT) && Idle(s) && Asleep(s.policy)
      && AdmitsNew(s, [CRASH_MESSAGE], CRASH_AT)
  {
    var s := Enabled1(SAFETY_OPEN, map[]);
    assert PendingIds(s.candidates) == {};
    assert Judge(s, [CRASH_MESSAGE][0], CRASH_AT) == Admit;
  }

  lemma CrashRunOpens()
    ensures Play(StartAt(DAY_100), CRASH_RUN[..8]) == Quiet1(ASLEEP, map[], {7})
  {
    var w0 := StartAt(DAY_100);
    ProtectsChat();
    EnablesChat();
    ReservesFirst();
    OpensHistory();
    FetchesHistory();
    FinishesHistory();
    FallsAsleep();
    RunLeads(w0, CRASH_RUN, 0, w0, w0.(chat := PROTECTED_CHAT));
    RunLeads(w0, CRASH_RUN, 1, w0.(chat := PROTECTED_CHAT), Quiet1(ENABLED_POLICY, map[], {}));
    RunLeads(w0, CRASH_RUN, 2, Quiet1(ENABLED_POLICY, map[], {}), Quiet1(VISIT_7, map[], {7}));
    RunLeads(w0, CRASH_RUN, 3, Quiet1(VISIT_7, map[], {7}), Quiet1(VISIT_7, map[7 := LOOKED_7], {7}));
    RunLeads(w0, CRASH_RUN, 4, Quiet1(VISIT_7, map[7 := LOOKED_7], {7}), Quiet1(VISIT_7, map[7 := OPENED_7], {7}));
    RunLeads(w0, CRASH_RUN, 5, Quiet1(VISIT_7, map[7 := OPENED_7], {7}), Quiet1(VISIT_7, map[7 := FETCHED_7], {7}));
    RunLeads(w0, CRASH_RUN, 6, Quiet1(VISIT_7, map[7 := FETCHED_7], {7}), Quiet1(HISTORY_DONE, map[], {7}));
    RunLeads(w0, CRASH_RUN, 7, Quiet1(HISTORY_DONE, map[], {7}), Quiet1(ASLEEP, map[], {7}));
  }

  lemma CrashRunFetches()
    ensures Play(StartAt(DAY_100), CRASH_RUN[..14])
            == Posted1(CRASH_AT, SAFETY_OPEN, map[], map[8 := FETCHED_8], {7, 8})
  {
    var w0 := StartAt(DAY_100);
    CrashRunOpens();
    WaitsTwoDays();
    ReservesSafety();
    FetchesMessage();
    RunLeads(w0, CRASH_RUN, 8, Quiet1(ASLEEP, map[], {7}), Posted1(DAY_100, ASLEEP, map[], map[], {7}));
    RunLeads(w0, CRASH_RUN, 9, Posted1(DAY_100, ASLEEP, map[], map[], {7}),
             Posted1(CRASH_AT, ASLEEP, map[], map[], {7}));
    RunLeads(w0, CRASH_RUN, 10, Posted1(CRASH_AT, ASLEEP, map[], map[], {7}),
             Posted1(CRASH_AT, VISIT_8, map[], map[], {7, 8}));
    RunLeads(w0, CRASH_RUN, 11, Posted1(CRASH_AT, VISIT_8, map[], map[], {7, 8}),
             Posted1(CRASH_AT, VISIT_8, map[], map[8 := LOOKED_8], {7, 8}));
    RunLeads(w0, CRASH_RUN, 12, Posted1(CRASH_AT, VISIT_8, map[], map[8 := LOOKED_8], {7, 8}),
             Posted1(CRASH_AT, SAFETY_OPEN, map[], map[8 := OPENED_8], {7, 8}));
    RunLeads(w0, CRASH_RUN, 13, Posted1(CRASH_AT, SAFETY_OPEN, map[], map[8 := OPENED_8], {7, 8}),
             Posted1(CRASH_AT, SAFETY_OPEN, map[], map[8 := FETCHED_8], {7, 8}));
  }

  /**
    After a real run: the chat was idle and asleep, a safety visit committed its page and died, and by the
    time its lease has expired a candidate is waiting that no ordinary reservation will ever take.
   */
  lemma CrashedSafetyVisitLosesWake()
    ensures Fresh(StartAt(DAY_100))
    ensures var w := Play(StartAt(DAY_100), CRASH_RUN[..8]).chat; w.policy.lease.None? && Asleep(w.policy) && Idle(w)
    ensures WakeLost(Play(StartAt(DAY_100), CRASH_RUN).chat, CRASH_AT + 60_001)
  {
    CrashRunOpens();
    FallsAsleep();
    CrashRunFetches();
    PageIsAccepted();
    var w := Posted1(CRASH_AT, SAFETY_OPEN, map[], map[8 := FETCHED_8], {7, 8});
    CrashLosesWakeIff(w.chat, VISIT_8, [CRASH_MESSAGE], CRASH_AT, CRASH_AT + 60_001);
    CrashRunEnds(w);
  }

  lemma CrashRunEnds(w: World)
    requires w == Posted1(CRASH_AT, SAFETY_OPEN, map[], map[8 := FETCHED_8], {7, 8})
    requires Play(StartAt(DAY_100), CRASH_RUN[..14]) == w
    ensures Play(StartAt(DAY_100), CRASH_RUN).chat == SavePage(w.chat, VISIT_8, Live, [CRASH_MESSAGE], Safety, CRASH_AT)
  {
    var w' := Committed(w, 8);
    assert Leads(w, CRASH_RUN[14], w') && Leads(w', CRASH_RUN[15], w'.(now := CRASH_AT + 60_001));
    RunLeads(StartAt(DAY_100), CRASH_RUN, 14, w, w');
    RunLeads(StartAt(DAY_100), CRASH_RUN, 15, w', w'.(now := CRASH_AT + 60_001));
    assert CRASH_RUN[..16] == CRASH_RUN;
  }
}
