/**
  The coverage frontier: while a policy is enabled no visible message falls between the lanes.
  Every message is still ahead of the safety floor or of the due floor, or behind the history
  cursor of an unfinished history, or inside a deferred range, or already journaled or excluded.
 */
module Coverage {
  import opened Wrappers
  import opened EraserTypes
  import opened Shielding
  import opened Transactions
  import opened Steps
  import opened ScanWorld

  // ---- the ways a message is accounted for ----

  predicate AboveSafety(p: Policy, source: int) {
    p.safety.floor.Some? && p.safety.floor.value <= source
  }

  predicate AboveDue(p: Policy, source: int) {
    p.due.floor.Some? && p.due.floor.value <= source
  }

  predicate InHistory(p: Policy, source: int) {
    !p.history.complete && p.history.cursor.Some? && source <= p.history.cursor.value
  }

  predicate Deferred(p: Policy, source: int) {
    InSpan(source, p.deferred) || InSpan(source, p.historicalDeferred)
  }

  /** Journaled, purged after its end, or excluded for good. */
  predicate Handled(s: Chat, done: set<MessageId>, m: Message) {
    m.id in s.candidates || m.id in done || Excluded(s, m.id, m.author)
  }

  /** Protection or the journal has it. */
  predicate Kept(s: Chat, done: set<MessageId>, m: Message) {
    Deferred(s.policy, m.source) || Handled(s, done, m)
  }

  predicate Base(s: Chat, done: set<MessageId>, m: Message) {
    InHistory(s.policy, m.source) || Kept(s, done, m)
  }

  predicate Covered(s: Chat, done: set<MessageId>, m: Message) {
    AboveSafety(s.policy, m.source) || AboveDue(s.policy, m.source) || Base(s, done, m)
  }

  /** The messages the claims are about: visible, and announced if they appeared late. */
  predicate Owed(w: World, id: MessageId) {
    id in w.visible && id in w.known && id !in w.late
  }

  // ---- the invariant ----

  /** Both ends of a window exist together, in order. */
  predicate WindowsPaired(p: Policy) {
    && (p.safety.upper.Some? <==> p.safety.cursor.Some?)
    && (p.safety.cursor.Some? ==> p.safety.floor.Some?
                                  && p.safety.floor.value <= p.safety.cursor.value <= p.safety.upper.value)
    && (p.due.upper.Some? <==> p.due.cursor.Some?)
    && (p.due.cursor.Some? ==> p.due.floor.Some? && p.due.cursor.value <= p.due.upper.value)
    && (p.due.gap ==> p.due.cursor.Some?)
  }

  /** Nothing scanned or deferred is younger than a day. */
  predicate OldEnough(p: Policy, now: int) {
    && now >= 7 * DAY
    && (p.history.cursor.Some? ==> p.history.cursor.value <= now - DAY)
    && (p.deferred.Some? ==> p.deferred.value.hi <= now - DAY)
    && (p.historicalDeferred.Some? ==> p.historicalDeferred.value.hi <= now - DAY)
  }

  predicate LanesReady(p: Policy, now: int) {
    p.enabled ==>
      && p.safety.floor.Some? && p.history.cursor.Some?
      && p.safety.floor.value <= now - Retention(p.hours) + 1
      && (p.safety.upper.Some? ==> p.safety.upper.value <= now - Retention(p.hours))
      && (p.due.upper.Some? ==> p.due.upper.value <= now - Retention(p.hours))
  }

  ghost predicate RowsMatch(w: World) {
    && (forall id :: id in w.known ==> w.known[id].id == id)
    && (forall id :: id in w.visible ==> id in w.known)
    && (forall id :: id in w.chat.candidates ==>
          w.chat.candidates[id].source <= w.now - DAY
          && id in w.known && w.known[id].source == w.chat.candidates[id].source)
  }

  ghost predicate AllCovered(w: World) {
    w.chat.policy.enabled ==> forall id :: Owed(w, id) ==> Covered(w.chat, w.done, w.known[id])
  }

  /** Everything a safety window has passed is accounted for without the safety floor. */
  ghost predicate SafetyPassed(w: World) {
    var p := w.chat.policy;
    p.enabled && p.safety.cursor.Some? && p.safety.upper.Some? ==>
      forall id :: Owed(w, id) && p.safety.cursor.value < w.known[id].source <= p.safety.upper.value
                   ==> Base(w.chat, w.done, w.known[id])
  }

  /** Everything above the cursor of a due window is accounted for without the due floor. */
  ghost predicate DuePassed(w: World) {
    var p := w.chat.policy;
    p.enabled && p.due.cursor.Some? ==>
      forall id :: Owed(w, id) && p.due.cursor.value < w.known[id].source
                   ==> AboveSafety(p, w.known[id].source) || Base(w.chat, w.done, w.known[id])
  }

  // ---- visits ----

  predicate SameGeneration(p: Policy, seen: Policy) {
    p.enabled && p.revision == seen.revision && p.scanGeneration == seen.scanGeneration
  }

  predicate SameSafety(a: SafetyLane, b: SafetyLane) {
    a.floor == b.floor && a.upper == b.upper && a.cursor == b.cursor && a.gap == b.gap
  }

  predicate SameHistory(a: HistoryLane, b: HistoryLane) {
    a.cursor == b.cursor && a.complete == b.complete && a.gap == b.gap
  }

  predicate SameDue(a: DueLane, b: DueLane) {
    a.floor == b.floor && a.upper == b.upper && a.cursor == b.cursor && a.gap == b.gap && a.due == b.due
  }

  /** A snapshot whose generations still match still shows the lanes as they are. */
  predicate SnapshotHolds(p: Policy, v: Visit) {
    && SameSafety(p.safety, v.seen.safety) && SameHistory(p.history, v.seen.history)
    && (p.dueGeneration == v.seen.dueGeneration ==> SameDue(p.due, v.seen.due))
    && (p.safety.floor.Some? ==> p.safety.floor.value <= v.at - Retention(p.hours) + 1)
  }

  /** The window a visit holds is the lane's stored cursor and bound. */
  predicate WindowHolds(p: Policy, v: Visit, o: Opened) {
    if o.lane == History then
      && !p.history.complete && !p.history.gap
      && p.history.cursor == Some(o.window.upper) && o.window.lower.None?
    else if o.purpose == Safety then
      p.safety.cursor == Some(o.window.upper) && p.safety.floor == o.window.lower && !p.safety.gap
    else
      p.dueGeneration == v.seen.dueGeneration ==>
        && p.due.cursor == Some(o.window.upper) && !p.due.gap && p.due.floor.Some?
        && o.window.lower.Some? && o.window.lower.value <= p.due.floor.value
  }

  /** A message announced while a history page was in flight: the due lane has it, or the safety lane will. */
  predicate Elsewhere(p: Policy, source: int) {
    && (AboveSafety(p, source) || (AboveDue(p, source) && p.due.cursor.None?))
    && !(p.safety.cursor.Some? && Between(source, p.safety.floor, p.safety.upper))
  }

  /** The page in flight answers for every owed message of its window, or another lane does. */
  ghost predicate PageHolds(w: World, v: Visit, o: Opened, page: seq<Message>) {
    && PageShape(w.known, page, o.window)
    && forall id :: Owed(w, id) && InWindow(w.known[id].source, o.window) ==>
         || Accounts(page, id, w.known[id].source)
         || (o.lane == History
             && (Kept(w.chat, w.done, w.known[id]) || Elsewhere(w.chat.policy, w.known[id].source)))
         || (o.lane == Live && o.purpose == Due && w.chat.policy.dueGeneration != v.seen.dueGeneration)
  }

  ghost predicate VisitHolds(w: World, v: Visit) {
    var p := w.chat.policy;
    && v.at <= w.now
    && (v.page.Some? ==> v.chosen.Some?)
    && v.seen.revision <= p.revision
    && v.seen.scanGeneration <= p.scanGeneration && v.seen.dueGeneration <= p.dueGeneration
    && (p.revision == v.seen.revision ==> p.enabled == v.seen.enabled && p.hours == v.seen.hours)
    && (SameGeneration(p, v.seen) ==>
          && (v.chosen.None? ==> SnapshotHolds(p, v))
          && (v.chosen.Some? ==> WindowHolds(p, v, v.chosen.value))
          && (v.page.Some? ==> PageHolds(w, v, v.chosen.value, v.page.value)))
  }

  /** Only the visit that holds the lease can still write. */
  ghost predicate LeaseHolderHolds(w: World) {
    && (forall token :: token in w.visits ==> token in w.tokens)
    && (w.chat.policy.lease.Some? ==> w.chat.policy.lease.value.token in w.tokens)
    && (forall token :: token in w.visits ==>
          w.visits[token].seen.lease.Some? && w.visits[token].seen.lease.value.token == token)
    && (forall token :: token in w.visits && Leased(w.chat.policy, token) ==> VisitHolds(w, w.visits[token]))
    && (forall token :: token in w.visits && w.visits[token].page.Some? ==>
          && w.visits[token].chosen.Some?
          && PageShape(w.known, w.visits[token].page.value, w.visits[token].chosen.value.window))
  }

  ghost predicate Inv(w: World) {
    && WindowsPaired(w.chat.policy)
    && OldEnough(w.chat.policy, w.now)
    && LanesReady(w.chat.policy, w.now)
    && RowsMatch(w)
    && AllCovered(w) && SafetyPassed(w) && DuePassed(w)
    && LeaseHolderHolds(w)
  }

  // ---- quiet steps: the lanes stay as they are ----

  predicate SameLanes(p: Policy, q: Policy) {
    && p.enabled == q.enabled && p.hours == q.hours && p.revision == q.revision
    && p.history == q.history && p.safety == q.safety && p.due == q.due
    && p.scanGeneration == q.scanGeneration && p.dueGeneration == q.dueGeneration
    && p.deferred == q.deferred && p.historicalDeferred == q.historicalDeferred
  }

  /** Exclusions only grow. */
  predicate ExcludesMore(s: Chat, t: Chat) {
    && (forall id :: id in s.protectedMessages ==> id in t.protectedMessages)
    && s.heldAuthors <= t.heldAuthors && s.globalAuthors <= t.globalAuthors && s.globalMessages <= t.globalMessages
  }

  /** Rows keep their source; a row that goes was terminal and is remembered as done. */
  ghost predicate RowsKept(s: Chat, done: set<MessageId>, t: Chat, done': set<MessageId>) {
    && (forall id :: id in t.candidates ==> id in s.candidates && t.candidates[id].source == s.candidates[id].source)
    && (forall id :: id in s.candidates ==> id in t.candidates || id in done')
    && done <= done'
  }

  /** Only the store changed, and the lease is the same, gone, or a new visit's. */
  ghost predicate StoreOnly(w: World, w': World) {
    && w'.now == w.now && w'.known == w.known && w'.visible == w.visible && w'.late == w.late
    && w'.visits == w.visits && w.tokens <= w'.tokens
    && (w'.chat.policy.lease == w.chat.policy.lease || w'.chat.policy.lease.None?
        || (w'.chat.policy.lease.value.token !in w.tokens && w'.chat.policy.lease.value.token in w'.tokens))
  }

  lemma LanesStepVisits(w: World, w': World)
    requires Inv(w) && StoreOnly(w, w')
    requires SameLanes(w.chat.policy, w'.chat.policy.(deferred := w.chat.policy.deferred,
                                                      historicalDeferred := w.chat.policy.historicalDeferred))
    requires forall id :: Owed(w', id) <==> Owed(w, id)
    requires forall id :: Owed(w, id) && Kept(w.chat, w.done, w.known[id]) ==> Kept(w'.chat, w'.done, w.known[id])
    ensures LeaseHolderHolds(w')
  {
    forall t | t in w'.visits && Leased(w'.chat.policy, t)
      ensures VisitHolds(w', w'.visits[t])
    {
      assert VisitHolds(w, w.visits[t]);
    }
  }

  /** The lanes stay; what is kept stays kept. */
  lemma LanesStep(w: World, w': World)
    requires Inv(w) && StoreOnly(w, w')
    requires SameLanes(w.chat.policy, w'.chat.policy.(deferred := w.chat.policy.deferred,
                                                      historicalDeferred := w.chat.policy.historicalDeferred))
    requires RowsMatch(w') && OldEnough(w'.chat.policy, w'.now)
    requires forall id :: Owed(w, id) && Kept(w.chat, w.done, w.known[id]) ==> Kept(w'.chat, w'.done, w.known[id])
    ensures Inv(w')
  {
    assert forall id :: Owed(w', id) <==> Owed(w, id);
    LanesStepVisits(w, w');
  }

  lemma QuietStep(w: World, w': World)
    requires Inv(w) && StoreOnly(w, w')
    requires SameLanes(w.chat.policy, w'.chat.policy)
    requires ExcludesMore(w.chat, w'.chat)
    requires RowsKept(w.chat, w.done, w'.chat, w'.done)
    ensures Inv(w')
  {
    forall id | Owed(w, id) && Kept(w.chat, w.done, w.known[id])
      ensures Kept(w'.chat, w'.done, w.known[id])
    {
    }
    LanesStep(w, w');
  }

  /** History is sent back over a deferred range: pages in flight are stale, and nothing is lost. */
  lemma RewindStep(w: World, w': World)
    requires Inv(w) && StoreOnly(w, w')
    requires w'.chat.candidates == w.chat.candidates && w'.done == w.done && ExcludesMore(w.chat, w'.chat)
    requires var p, p' := w.chat.policy, w'.chat.policy;
      && p'.enabled == p.enabled && p'.hours == p.hours && p'.revision == p.revision
      && p'.safety == p.safety && p'.due == p.due && p'.dueGeneration == p.dueGeneration
      && p'.scanGeneration > p.scanGeneration
      && p'.history.cursor.Some? && !p'.history.complete
      && (p.history.cursor.Some? ==> p.history.cursor.value <= p'.history.cursor.value)
      && OldEnough(p', w.now)
      && (forall x :: Deferred(p, x) ==> Deferred(p', x) || x <= p'.history.cursor.value)
    ensures Inv(w')
  {
    assert forall id :: Owed(w', id) <==> Owed(w, id);
    forall id | Owed(w, id)
      ensures Base(w.chat, w.done, w.known[id]) ==> Base(w'.chat, w'.done, w'.known[id])
      ensures Covered(w.chat, w.done, w.known[id]) ==> Covered(w'.chat, w'.done, w'.known[id])
    {
    }
    forall t | t in w'.visits && Leased(w'.chat.policy, t)
      ensures VisitHolds(w', w'.visits[t])
    {
      assert VisitHolds(w, w.visits[t]);
    }
  }

  // ---- the chat's own events ----

  lemma TickKeeps(w: World, to: int)
    requires Inv(w) && w.now <= to
    ensures Inv(w.(now := to))
  {
    var w' := w.(now := to);
    assert forall id :: Owed(w', id) <==> Owed(w, id);
  }

  function Posted(w: World, m: Message, late: bool): World {
    w.(known := w.known[m.id := m], visible := w.visible + {m.id}, late := if late then w.late + {m.id} else w.late)
  }

  /** A message that just appeared is younger than everything a window or a cursor reaches. */
  lemma PostedPageHolds(w: World, m: Message, late: bool, v: Visit)
    requires Inv(w) && m.id !in w.known && (late || m.source > w.now - DAY)
    requires VisitHolds(w, v)
    ensures VisitHolds(Posted(w, m, late), v)
  {
    var w' := Posted(w, m, late);
    var p := w.chat.policy;
    if SameGeneration(p, v.seen) && v.page.Some? {
      var o, page := v.chosen.value, v.page.value;
      forall id | Owed(w', id) && InWindow(w'.known[id].source, o.window)
        ensures || Accounts(page, id, w'.known[id].source)
                || (o.lane == History
                    && (Kept(w'.chat, w'.done, w'.known[id]) || Elsewhere(w'.chat.policy, w'.known[id].source)))
                || (o.lane == Live && o.purpose == Due && p.dueGeneration != v.seen.dueGeneration)
      {
        if id != m.id {
          assert Owed(w, id);
        }
      }
    }
  }

  lemma PostedVisits(w: World, m: Message, late: bool)
    requires Inv(w) && m.id !in w.known && (late || m.source > w.now - DAY)
    ensures LeaseHolderHolds(Posted(w, m, late))
  {
    var w' := Posted(w, m, late);
    forall token | token in w'.visits && Leased(w'.chat.policy, token)
      ensures VisitHolds(w', w'.visits[token])
    {
      PostedPageHolds(w, m, late, w.visits[token]);
    }
  }

  lemma PostKeeps(w: World, m: Message, late: bool)
    requires Inv(w) && m.id !in w.known && (late || m.source > w.now - DAY)
    ensures Inv(Posted(w, m, late))
  {
    var w' := Posted(w, m, late);
    assert forall id :: Owed(w', id) && id != m.id ==> Owed(w, id) && w'.known[id] == w.known[id];
    assert Owed(w', m.id) ==> m.source > w.now - DAY;
    PostedVisits(w, m, late);
  }

  lemma VanishKeeps(w: World, id: MessageId)
    requires Inv(w)
    ensures Inv(w.(visible := w.visible - {id}))
  {
    var w' := w.(visible := w.visible - {id});
    assert forall i :: Owed(w', i) ==> Owed(w, i);
  }

  // ---- a visit's own steps ----

  /** Only what the visits remember changed: the rest of the invariant stands. */
  lemma VisitsOnly(w: World, w': World)
    requires Inv(w) && w' == w.(visits := w'.visits) && LeaseHolderHolds(w')
    ensures Inv(w')
  {
    assert forall id :: Owed(w', id) <==> Owed(w, id);
  }

  lemma LookKeeps(w: World, token: Token)
    requires Inv(w) && Active(w.chat.policy, token, w.now) && token in w.tokens
    ensures Inv(w.(visits := w.visits[token := Visit(w.now, w.chat.policy, None, None, None)]))
  {
    var w' := w.(visits := w.visits[token := Visit(w.now, w.chat.policy, None, None, None)]);
    assert forall id :: Owed(w', id) <==> Owed(w, id);
    forall t | t in w'.visits && Leased(w'.chat.policy, t)
      ensures VisitHolds(w', w'.visits[t])
    {
    }
  }

  /** What was peeked at plays no part in what a visit has to keep. */
  lemma PeekedHolds(w: World, w': World, v: Visit, first: Option<FirstSeen>)
    requires VisitHolds(w, v) && w' == w.(visits := w'.visits)
    ensures VisitHolds(w', v.(first := first)) && VisitHolds(w', v)
  {
    assert forall id :: Owed(w', id) <==> Owed(w, id);
  }

  lemma PeekKeeps(w: World, token: Token)
    requires Inv(w) && Can(w, Peek(token))
    ensures Inv(Do(w, Peek(token)))
  {
    var w' := Do(w, Peek(token));
    forall t | t in w'.visits && Leased(w'.chat.policy, t)
      ensures VisitHolds(w', w'.visits[t])
    {
      PeekedHolds(w, w', w.visits[t], w'.visits[token].first);
    }
    VisitsOnly(w, w');
  }

  lemma FetchedHolds(w: World, token: Token, page: seq<Message>)
    requires Inv(w) && Can(w, Fetch(token, page)) && Leased(w.chat.policy, token)
    ensures var v' := w.visits[token].(page := Some(page));
            VisitHolds(w.(visits := w.visits[token := v']), v')
  {
    var v := w.visits[token];
    var w' := w.(visits := w.visits[token := v.(page := Some(page))]);
    assert VisitHolds(w, v);
    assert forall id :: Owed(w', id) <==> Owed(w, id);
  }

  lemma FetchKeeps(w: World, token: Token, page: seq<Message>)
    requires Inv(w) && Can(w, Fetch(token, page))
    ensures Inv(w.(visits := w.visits[token := w.visits[token].(page := Some(page))]))
  {
    var w' := w.(visits := w.visits[token := w.visits[token].(page := Some(page))]);
    forall t | t in w'.visits && Leased(w'.chat.policy, t)
      ensures VisitHolds(w', w'.visits[t])
    {
      if t == token {
        FetchedHolds(w, token, page);
      } else {
        PeekedHolds(w, w', w.visits[t], None);
      }
    }
    VisitsOnly(w, w');
  }

  /** The state after a worker asked for a window and got one. */
  function WithWindow(w: World, s: Chat, token: Token, o: Opened): World
    requires token in w.visits
  {
    w.(chat := s, visits := w.visits[token := w.visits[token].(chosen := Some(o))])
  }

  lemma ResumeKeeps(w: World, token: Token, o: Opened)
    requires Inv(w) && token in w.visits && w.visits[token].chosen.None?
    requires Leased(w.chat.policy, token) && SameGeneration(w.chat.policy, w.visits[token].seen)
             ==> WindowHolds(w.chat.policy, w.visits[token], o)
    ensures Inv(WithWindow(w, w.chat, token, o))
  {
    var w' := WithWindow(w, w.chat, token, o);
    assert forall id :: Owed(w', id) <==> Owed(w, id);
    forall t | t in w'.visits && Leased(w'.chat.policy, t)
      ensures VisitHolds(w', w'.visits[t])
    {
      assert VisitHolds(w, w.visits[t]);
    }
  }

  /** A visit that just opened its window is the only one that can still write. */
  lemma OpenedVisits(w: World, s: Chat, token: Token, o: Opened)
    requires Inv(w) && token in w.visits && w.visits[token].chosen.None? && Leased(w.chat.policy, token)
    requires s == w.chat.(policy := w.chat.policy.(safety := s.policy.safety, due := s.policy.due))
    requires WindowHolds(s.policy, w.visits[token], o)
    ensures LeaseHolderHolds(WithWindow(w, s, token, o))
  {
    assert VisitHolds(w, w.visits[token]);
  }

  lemma OpenSafetyKeeps(w: World, token: Token, at: int)
    requires Inv(w) && token in w.visits && w.visits[token].chosen.None? && w.visits[token].at <= at <= w.now
    ensures var r := OpenSafety(w.chat, w.visits[token].seen, at, w.now);
            Inv(if r.1.None? then w.(chat := r.0) else WithWindow(w, r.0, token, Opened(Live, Safety, r.1.value)))
  {
    var v := w.visits[token];
    var p := w.chat.policy;
    var r := OpenSafety(w.chat, v.seen, at, w.now);
    if Leased(p, token) {
      assert VisitHolds(w, v);
    }
    if r.1.None? {
      assert w.(chat := r.0) == w;
    } else {
      var o := Opened(Live, Safety, r.1.value);
      if r.0 == w.chat {
        ResumeKeeps(w, token, o);
      } else {
        OpenSafetyMoves(w, token, at);
      }
    }
  }

  lemma OpenSafetyMoves(w: World, token: Token, at: int)
    requires Inv(w) && token in w.visits && w.visits[token].chosen.None? && w.visits[token].at <= at <= w.now
    requires var r := OpenSafety(w.chat, w.visits[token].seen, at, w.now);
             r.1.Some? && r.0 != w.chat
    ensures var r := OpenSafety(w.chat, w.visits[token].seen, at, w.now);
            Inv(WithWindow(w, r.0, token, Opened(Live, Safety, r.1.value)))
  {
    var v := w.visits[token];
    var r := OpenSafety(w.chat, v.seen, at, w.now);
    var w' := WithWindow(w, r.0, token, Opened(Live, Safety, r.1.value));
    assert VisitHolds(w, v);
    assert Leased(w.chat.policy, token) && SnapshotHolds(w.chat.policy, v);
    assert r.0.policy.safety.floor == w.chat.policy.safety.floor;
    OpenSafetyFrame(w.chat, v.seen, at, w.now);
    OpenedVisits(w, r.0, token, Opened(Live, Safety, r.1.value));
    assert forall id :: Owed(w', id) <==> Owed(w, id);
  }

  lemma OpenDueKeeps(w: World, token: Token, at: int, future: Option<int>)
    requires Inv(w) && token in w.visits && w.visits[token].chosen.None? && w.visits[token].at <= at <= w.now
    ensures var r := OpenDue(w.chat, w.visits[token].seen, at, future, w.now);
            Inv(if r.1.None? then w.(chat := r.0) else WithWindow(w, r.0, token, Opened(Live, Due, r.1.value)))
  {
    var v := w.visits[token];
    var p := w.chat.policy;
    var r := OpenDue(w.chat, v.seen, at, future, w.now);
    if Leased(p, token) {
      assert VisitHolds(w, v);
    }
    if r.1.None? {
      assert w.(chat := r.0) == w;
    } else {
      var o := Opened(Live, Due, r.1.value);
      if r.0.policy == p {
        assert r.0 == w.chat;
        ResumeKeeps(w, token, o);
      } else {
        OpenDueMoves(w, token, at, future);
      }
    }
  }

  /** The window opens on a snapshot that is still current. */
  lemma OpenDueMoves(w: World, token: Token, at: int, future: Option<int>)
    requires Inv(w) && token in w.visits && w.visits[token].chosen.None? && w.visits[token].at <= at <= w.now
    requires var r := OpenDue(w.chat, w.visits[token].seen, at, future, w.now);
             r.1.Some? && r.0.policy != w.chat.policy
    ensures var r := OpenDue(w.chat, w.visits[token].seen, at, future, w.now);
            Inv(WithWindow(w, r.0, token, Opened(Live, Due, r.1.value)))
  {
    var v := w.visits[token];
    var r := OpenDue(w.chat, v.seen, at, future, w.now);
    var w' := WithWindow(w, r.0, token, Opened(Live, Due, r.1.value));
    assert VisitHolds(w, v);
    assert Leased(w.chat.policy, token) && SnapshotHolds(w.chat.policy, v);
    OpenDueFrame(w.chat, v.seen, at, future, w.now);
    OpenedVisits(w, r.0, token, Opened(Live, Due, r.1.value));
    assert forall id :: Owed(w', id) <==> Owed(w, id);
    forall id | Owed(w, id)
      ensures Covered(w'.chat, w'.done, w'.known[id])
    {
      assert Covered(w.chat, w.done, w.known[id]);
    }
  }

  lemma OpenHistoryKeeps(w: World, token: Token, purpose: Purpose, at: int, future: Option<int>)
    requires Inv(w) && token in w.visits && w.visits[token].chosen.None? && w.visits[token].at <= at <= w.now
    ensures var r := OpenScan(w.chat, w.visits[token].seen, History, purpose, at, future, w.now);
            Inv(if r.1.None? then w.(chat := r.0) else WithWindow(w, r.0, token, Opened(History, purpose, r.1.value)))
  {
    var v := w.visits[token];
    var r := OpenScan(w.chat, v.seen, History, purpose, at, future, w.now);
    if r.1.None? {
      assert w.(chat := r.0) == w;
    } else {
      if Leased(w.chat.policy, token) {
        assert VisitHolds(w, v);
      }
      ResumeKeeps(w, token, Opened(History, purpose, r.1.value));
    }
  }

  // ---- taking a page in ----

  /** What a page leaves of one listed message: not due, excluded, deferred or journaled. */
  predicate Absorbed(s: Chat, now: int, taken: Intake, m: Message) {
    || m.source + Retention(s.policy.hours) > now
    || Excluded(s, m.id, m.author)
    || InSpan(m.source, taken.current) || InSpan(m.source, taken.historical)
    || m.id in taken.rows
  }

  /** Later messages only add to an intake. */
  ghost predicate Grows(a: Intake, b: Intake) {
    && (forall id :: id in a.rows ==> id in b.rows && b.rows[id] == a.rows[id])
    && (forall x :: InSpan(x, a.current) ==> InSpan(x, b.current))
    && (forall x :: InSpan(x, a.historical) ==> InSpan(x, b.historical))
  }

  /** Deferred ranges and journal rows hold only messages that are due. */
  predicate SpanDue(span: Option<Span>, age: int, now: int) {
    span.Some? ==> span.value.hi + age <= now
  }

  ghost predicate RowFrom(s: Chat, lane: Lane, now: int, page: seq<Message>, id: MessageId, row: Candidate) {
    exists k :: 0 <= k < |page| && page[k].id == id && row == NewRow(page[k], lane, now)
                && page[k].source + Retention(s.policy.hours) <= now
  }

  ghost predicate RowsFrom(s: Chat, lane: Lane, now: int, page: seq<Message>, rows: map<MessageId, Candidate>) {
    forall id :: id in rows && id !in s.candidates ==> RowFrom(s, lane, now, page, id, rows[id])
  }

  lemma TakeInStep(s: Chat, lane: Lane, now: int, acc: Intake, m: Message)
    ensures var taken := TakeIn(s, lane, now, acc, m);
      && Grows(acc, taken) && Absorbed(s, now, taken, m)
      && (SpanDue(acc.current, Retention(s.policy.hours), now) ==>
            SpanDue(taken.current, Retention(s.policy.hours), now))
      && (SpanDue(acc.historical, Retention(s.policy.hours), now) ==>
            SpanDue(taken.historical, Retention(s.policy.hours), now))
      && (forall id :: id in taken.rows && id !in acc.rows ==>
            id == m.id && taken.rows[id] == NewRow(m, lane, now) && m.source + Retention(s.policy.hours) <= now)
  {
  }

  lemma GrowsKeepsAbsorbed(s: Chat, now: int, a: Intake, b: Intake, m: Message)
    requires Grows(a, b) && Absorbed(s, now, a, m)
    ensures Absorbed(s, now, b, m)
  {
  }

  /** Every listed message is absorbed, existing rows stay, and new rows are copies of listed, due messages. */
  lemma {:induction false} TakeInAllAbsorbs(s: Chat, lane: Lane, now: int, page: seq<Message>)
    ensures var taken := TakeInAll(s, lane, now, page);
      && Grows(Intake(s.candidates, None, None), taken)
      && (forall k :: 0 <= k < |page| ==> Absorbed(s, now, taken, page[k]))
      && RowsFrom(s, lane, now, page, taken.rows)
      && SpanDue(taken.current, Retention(s.policy.hours), now)
      && SpanDue(taken.historical, Retention(s.policy.hours), now)
  {
    if page == [] {
    } else {
      var rest, last := page[..|page| - 1], page[|page| - 1];
      TakeInAllAbsorbs(s, lane, now, rest);
      var before := TakeInAll(s, lane, now, rest);
      TakeInStep(s, lane, now, before, last);
      var taken := TakeInAll(s, lane, now, page);
      forall k | 0 <= k < |page|
        ensures Absorbed(s, now, taken, page[k])
      {
        if k < |rest| {
          assert page[k] == rest[k];
          GrowsKeepsAbsorbed(s, now, before, taken, rest[k]);
        }
      }
      forall id | id in taken.rows && id !in s.candidates
        ensures RowFrom(s, lane, now, page, id, taken.rows[id])
      {
        if id in before.rows {
          assert RowFrom(s, lane, now, rest, id, before.rows[id]);
          var k :| 0 <= k < |rest| && rest[k].id == id && before.rows[id] == NewRow(rest[k], lane, now)
                   && rest[k].source + Retention(s.policy.hours) <= now;
          assert page[k] == rest[k];
        }
      }
    }
  }

  // ---- committing a page ----

  function Committed(w: World, token: Token): World
    requires token in w.visits && w.visits[token].chosen.Some? && w.visits[token].page.Some?
  {
    var v := w.visits[token];
    w.(chat := SavePage(w.chat, v.seen, v.chosen.value.lane, v.page.value, v.chosen.value.purpose, w.now),
       visits := w.visits - {token})
  }

  /** The page of this visit is about to take effect. */
  predicate TakesEffect(w: World, token: Token, lane: Lane, purpose: Purpose) {
    && token in w.visits && w.visits[token].chosen.Some? && w.visits[token].page.Some?
    && w.visits[token].chosen.value.lane == lane && w.visits[token].chosen.value.purpose == purpose
    && PageAccepted(w.chat, w.visits[token].seen, lane, purpose, w.now)
  }

  ghost predicate Committing(w: World, token: Token, lane: Lane, purpose: Purpose) {
    Inv(w) && TakesEffect(w, token, lane, purpose)
  }

  lemma WidenBelow(a: Option<Span>, b: Option<Span>, bound: int)
    requires (a.Some? ==> a.value.hi <= bound) && (b.Some? ==> b.value.hi <= bound)
    ensures Widen(a, b).Some? ==> Widen(a, b).value.hi <= bound
  {
  }

  lemma WidenCovers(a: Option<Span>, b: Option<Span>, x: int)
    requires InSpan(x, a) || InSpan(x, b)
    ensures InSpan(x, Widen(a, b))
  {
  }

  /** What an accepted page does to everything `Kept` looks at. */
  lemma CommitTakes(w: World, token: Token, lane: Lane, purpose: Purpose)
    requires Committing(w, token, lane, purpose)
    ensures var t, taken := Committed(w, token).chat, TakeInAll(w.chat, lane, w.now, w.visits[token].page.value);
      && t == w.chat.(policy := t.policy, candidates := taken.rows, future := t.future)
      && t.policy.deferred == Widen(w.chat.policy.deferred, taken.current)
      && t.policy.historicalDeferred == Widen(w.chat.policy.historicalDeferred, taken.historical)
  {
    var v := w.visits[token];
    TakenFrame(w.chat, lane, v.page.value, purpose, w.now);
  }

  lemma CommitKeepsKept(w: World, token: Token, lane: Lane, purpose: Purpose, id: MessageId)
    requires Committing(w, token, lane, purpose) && id in w.known && Kept(w.chat, w.done, w.known[id])
    ensures Kept(Committed(w, token).chat, w.done, w.known[id])
  {
    CommitTakes(w, token, lane, purpose);
    TakeInAllAbsorbs(w.chat, lane, w.now, w.visits[token].page.value);
  }

  /** Listed messages become kept unless they are not due; what was kept stays kept. */
  lemma CommitKeeps(w: World, token: Token, lane: Lane, purpose: Purpose, id: MessageId)
    requires Committing(w, token, lane, purpose)
    requires id in w.known
    ensures var w' := Committed(w, token);
      && (Kept(w.chat, w.done, w.known[id]) ==> Kept(w'.chat, w'.done, w'.known[id]))
      && (Listed(w.visits[token].page.value, id) ==>
            Kept(w'.chat, w'.done, w'.known[id]) || w.known[id].source + Retention(w.chat.policy.hours) > w.now)
  {
    var page := w.visits[token].page.value;
    if Kept(w.chat, w.done, w.known[id]) {
      CommitKeepsKept(w, token, lane, purpose, id);
    }
    if Listed(page, id) {
      CommitTakes(w, token, lane, purpose);
      TakeInAllAbsorbs(w.chat, lane, w.now, page);
      var taken := TakeInAll(w.chat, lane, w.now, page);
      var k :| 0 <= k < |page| && page[k].id == id;
      assert PageShape(w.known, page, w.visits[token].chosen.value.window);
      assert Absorbed(w.chat, w.now, taken, page[k]);
    }
  }

  lemma CommitRows(w: World, token: Token, lane: Lane, purpose: Purpose)
    requires Committing(w, token, lane, purpose)
    ensures RowsMatch(Committed(w, token))
  {
    var page := w.visits[token].page.value;
    var w' := Committed(w, token);
    TakeInAllAbsorbs(w.chat, lane, w.now, page);
    assert PageShape(w.known, page, w.visits[token].chosen.value.window);
    var rows := TakeInAll(w.chat, lane, w.now, page).rows;
    assert w'.chat.candidates == rows;
    forall id | id in rows
      ensures rows[id].source <= w.now - DAY && id in w.known && w.known[id].source == rows[id].source
    {
      if id !in w.chat.candidates {
        assert RowFrom(w.chat, lane, w.now, page, id, rows[id]);
      }
    }
  }

  lemma CommitSpans(w: World, token: Token, lane: Lane, purpose: Purpose)
    requires Committing(w, token, lane, purpose)
    ensures OldEnough(Committed(w, token).chat.policy.(history := w.chat.policy.history), w.now)
  {
    var page := w.visits[token].page.value;
    var p, taken := w.chat.policy, TakeInAll(w.chat, lane, w.now, page);
    TakeInAllAbsorbs(w.chat, lane, w.now, page);
    CommitTakes(w, token, lane, purpose);
    WidenBelow(p.deferred, taken.current, w.now - DAY);
    WidenBelow(p.historicalDeferred, taken.historical, w.now - DAY);
  }

  /** The other visits lost their lease; this one is over. */
  lemma CommitVisits(w: World, token: Token, lane: Lane, purpose: Purpose)
    requires Committing(w, token, lane, purpose)
    ensures LeaseHolderHolds(Committed(w, token))
  {
    var w' := Committed(w, token);
    assert Leased(w.chat.policy, token);
    assert w'.chat.policy.lease == w.chat.policy.lease;
  }

  lemma HistoryPageKeeps(w: World, token: Token, purpose: Purpose, id: MessageId)
    requires Committing(w, token, History, purpose) && Owed(w, id)
    ensures var w', source := Committed(w, token), w.known[id].source;
      && (InHistory(w.chat.policy, source) && !InHistory(w'.chat.policy, source) ==>
            || Base(w'.chat, w'.done, w.known[id])
            || source + Retention(w.chat.policy.hours) > w.now
            || Elsewhere(w.chat.policy, source))
      && (Kept(w.chat, w.done, w.known[id]) ==> Kept(w'.chat, w'.done, w.known[id]))
  {
    var v := w.visits[token];
    CommitKeeps(w, token, History, purpose, id);
    assert VisitHolds(w, v) && WindowHolds(w.chat.policy, v, v.chosen.value);
    if InHistory(w.chat.policy, w.known[id].source) {
      assert InWindow(w.known[id].source, v.chosen.value.window);
    }
  }

  lemma CommitHistory(w: World, token: Token, purpose: Purpose)
    requires Committing(w, token, History, purpose)
    ensures Inv(Committed(w, token))
  {
    var w' := Committed(w, token);
    var p, p' := w.chat.policy, w'.chat.policy;
    CommitRows(w, token, History, purpose);
    CommitSpans(w, token, History, purpose);
    CommitVisits(w, token, History, purpose);
    assert VisitHolds(w, w.visits[token]) && WindowHolds(p, w.visits[token], w.visits[token].chosen.value);
    assert forall id :: Owed(w', id) <==> Owed(w, id);
    assert p'.safety == p.safety && p'.due == p.due;
    forall id | Owed(w, id)
      ensures Covered(w.chat, w.done, w.known[id])
      ensures InHistory(p, w.known[id].source) && !InHistory(p', w.known[id].source) ==>
                || Base(w'.chat, w'.done, w.known[id])
                || w.known[id].source + Retention(p.hours) > w.now
                || Elsewhere(p, w.known[id].source)
      ensures Kept(w.chat, w.done, w.known[id]) ==> Kept(w'.chat, w'.done, w.known[id])
    {
      HistoryPageKeeps(w, token, purpose, id);
    }
  }

  lemma SafetyPageKeeps(w: World, token: Token, id: MessageId)
    requires Committing(w, token, Live, Safety) && Owed(w, id)
    ensures var w', p, page := Committed(w, token), w.chat.policy, w.visits[token].page.value;
      && (Base(w.chat, w.done, w.known[id]) ==> Base(w'.chat, w'.done, w.known[id]))
      && (Between(w.known[id].source, p.safety.floor, p.safety.upper) ==>
            || Base(w'.chat, w'.done, w.known[id])
            || (|page| == PAGE_SIZE && w.known[id].source <= page[PAGE_SIZE - 1].source))
  {
    var v := w.visits[token];
    CommitKeeps(w, token, Live, Safety, id);
    assert VisitHolds(w, v) && WindowHolds(w.chat.policy, v, v.chosen.value);
    assert PageHolds(w, v, v.chosen.value, v.page.value);
  }

  lemma SafetyPageCovers(w: World, token: Token)
    requires Committing(w, token, Live, Safety)
    ensures AllCovered(Committed(w, token)) && SafetyPassed(Committed(w, token)) && DuePassed(Committed(w, token))
  {
    var v := w.visits[token];
    var page := v.page.value;
    var w' := Committed(w, token);
    var p, p' := w.chat.policy, w'.chat.policy;
    assert VisitHolds(w, v) && WindowHolds(p, v, v.chosen.value) && PageHolds(w, v, v.chosen.value, page);
    assert forall id :: Owed(w', id) <==> Owed(w, id);
    assert p'.history == p.history;
    forall id | Owed(w, id)
      ensures Base(w.chat, w.done, w.known[id]) ==> Base(w'.chat, w'.done, w.known[id])
      ensures Between(w.known[id].source, p.safety.floor, p.safety.upper) ==>
                || Base(w'.chat, w'.done, w.known[id])
                || (|page| == PAGE_SIZE && w.known[id].source <= page[PAGE_SIZE - 1].source)
      ensures Covered(w.chat, w.done, w.known[id])
      ensures p.due.cursor.Some? && p.due.cursor.value < w.known[id].source
              ==> AboveSafety(p, w.known[id].source) || Base(w.chat, w.done, w.known[id])
    {
      SafetyPageKeeps(w, token, id);
    }
  }

  lemma SafetyWindowCloses(p: Policy, empty: bool, now: int)
    requires WindowsPaired(p) && LanesReady(p, now) && p.safety.upper.Some?
    ensures var q := AfterSafetyWindow(p, empty, now); WindowsPaired(q) && LanesReady(q, now) && q.history == p.history
  {
  }

  lemma SafetyCursorMoves(p: Policy, page: seq<Message>, now: int)
    requires WindowsPaired(p) && LanesReady(p, now)
    requires page != [] ==> Between(page[|page| - 1].source, p.safety.floor, p.safety.cursor)
    ensures var q := AfterSafetyPage(p, page, now); WindowsPaired(q) && LanesReady(q, now) && q.history == p.history
  {
  }

  /** A safety page moves the cursor inside its window, or closes it. */
  lemma SafetyTakenLanes(s: Chat, page: seq<Message>, now: int)
    requires WindowsPaired(s.policy) && LanesReady(s.policy, now) && s.policy.safety.cursor.Some?
    requires page != [] ==> Between(page[|page| - 1].source, s.policy.safety.floor, s.policy.safety.cursor)
    ensures var q := PageTaken(s, Live, page, Safety, now).policy;
      WindowsPaired(q) && LanesReady(q, now) && q.history == s.policy.history
  {
    var taken := TakeInAll(s, Live, now, page);
    var p := s.policy.(
      totals := s.policy.totals.(scanned := s.policy.totals.scanned + |page|),
      deferred := Widen(s.policy.deferred, taken.current),
      historicalDeferred := Widen(s.policy.historicalDeferred, taken.historical));
    assert WindowsPaired(p) && LanesReady(p, now);
    if Closes(page, p.safety.upper) {
      var empty := !p.safety.hadMessages && page == [];
      SafetyWindowCloses(p, empty, now);
      assert PageTaken(s, Live, page, Safety, now).policy == AfterSafetyWindow(p, empty, now);
    } else {
      SafetyCursorMoves(p, page, now);
      assert PageTaken(s, Live, page, Safety, now).policy == AfterSafetyPage(p, page, now);
    }
  }

  lemma SafetyPageLanes(w: World, token: Token)
    requires Committing(w, token, Live, Safety)
    ensures var q := Committed(w, token).chat.policy;
      WindowsPaired(q) && LanesReady(q, w.now) && q.history == w.chat.policy.history
  {
    var v := w.visits[token];
    var page := v.page.value;
    assert VisitHolds(w, v) && WindowHolds(w.chat.policy, v, v.chosen.value);
    assert page != [] ==> InWindow(page[|page| - 1].source, v.chosen.value.window);
    SafetyTakenLanes(w.chat, page, w.now);
  }

  lemma CommitSafety(w: World, token: Token)
    requires Committing(w, token, Live, Safety)
    ensures Inv(Committed(w, token))
  {
    SafetyPageCovers(w, token);
    SafetyPageLanes(w, token);
    CommitRows(w, token, Live, Safety);
    CommitSpans(w, token, Live, Safety);
    CommitVisits(w, token, Live, Safety);
  }

  lemma DuePageKeeps(w: World, token: Token, id: MessageId)
    requires Committing(w, token, Live, Due) && Owed(w, id)
    ensures var w', p, page := Committed(w, token), w.chat.policy, w.visits[token].page.value;
      && (Base(w.chat, w.done, w.known[id]) ==> Base(w'.chat, w'.done, w.known[id]))
      && (Between(w.known[id].source, p.due.floor, p.due.cursor) ==>
            || Base(w'.chat, w'.done, w.known[id])
            || (|page| == PAGE_SIZE && w.known[id].source <= page[PAGE_SIZE - 1].source))
  {
    var v := w.visits[token];
    CommitKeeps(w, token, Live, Due, id);
    assert VisitHolds(w, v) && WindowHolds(w.chat.policy, v, v.chosen.value);
    assert PageHolds(w, v, v.chosen.value, v.page.value);
  }

  lemma DuePageCovers(w: World, token: Token)
    requires Committing(w, token, Live, Due)
    ensures AllCovered(Committed(w, token)) && SafetyPassed(Committed(w, token)) && DuePassed(Committed(w, token))
  {
    var v := w.visits[token];
    var page := v.page.value;
    var w' := Committed(w, token);
    var p, p' := w.chat.policy, w'.chat.policy;
    assert VisitHolds(w, v) && WindowHolds(p, v, v.chosen.value) && PageHolds(w, v, v.chosen.value, page);
    assert forall id :: Owed(w', id) <==> Owed(w, id);
    assert p'.history == p.history && p'.safety == p.safety;
    forall id | Owed(w, id)
      ensures Base(w.chat, w.done, w.known[id]) ==> Base(w'.chat, w'.done, w.known[id])
      ensures Between(w.known[id].source, p.due.floor, p.due.cursor) ==>
                || Base(w'.chat, w'.done, w.known[id])
                || (|page| == PAGE_SIZE && w.known[id].source <= page[PAGE_SIZE - 1].source)
      ensures Covered(w.chat, w.done, w.known[id])
      ensures p.due.cursor.value < w.known[id].source
              ==> AboveSafety(p, w.known[id].source) || Base(w.chat, w.done, w.known[id])
    {
      DuePageKeeps(w, token, id);
    }
  }

  lemma CommitDue(w: World, token: Token)
    requires Committing(w, token, Live, Due)
    ensures Inv(Committed(w, token))
  {
    DuePageCovers(w, token);
    CommitRows(w, token, Live, Due);
    CommitSpans(w, token, Live, Due);
    CommitVisits(w, token, Live, Due);
    assert VisitHolds(w, w.visits[token]) && WindowHolds(w.chat.policy, w.visits[token], w.visits[token].chosen.value);
    assert Committed(w, token).chat.policy.history == w.chat.policy.history;
  }

  lemma CommitKeepsInv(w: World, token: Token)
    requires Inv(w) && token in w.visits && w.visits[token].chosen.Some? && w.visits[token].page.Some?
    ensures Inv(Committed(w, token))
  {
    var o := w.visits[token].chosen.value;
    if PageAccepted(w.chat, w.visits[token].seen, o.lane, o.purpose, w.now) {
      if o.lane == History {
        CommitHistory(w, token, o.purpose);
      } else if o.purpose == Safety {
        CommitSafety(w, token);
      } else {
        CommitDue(w, token);
      }
    } else {
      var w' := Committed(w, token);
      assert forall id :: Owed(w', id) <==> Owed(w, id);
      forall t | t in w'.visits && Leased(w'.chat.policy, t)
        ensures VisitHolds(w', w'.visits[t])
      {
        assert VisitHolds(w, w.visits[t]);
      }
    }
  }

  // ---- protection and parking ----

  /** The row a parked candidate leaves is inside the deferred range that replaces it. */
  lemma ParkedIsDeferred(w: World, id: MessageId, i: MessageId)
    requires RowsMatch(w) && i in w.known && Kept(w.chat, w.done, w.known[i])
    ensures Kept(DeferProtection(w.chat, id), w.done, w.known[i])
  {
    if id in w.chat.candidates {
      var row, source := w.chat.candidates[id], w.known[i].source;
      var at := Some(Span(row.source, row.source));
      if i == id {
        assert w.known[i].id == id && source == row.source;
        assert InSpan(source, at);
        WidenCovers(w.chat.policy.deferred, at, source);
        WidenCovers(w.chat.policy.historicalDeferred, at, source);
      } else {
        assert w.known[i].id == i;
        if InSpan(source, w.chat.policy.deferred) {
          WidenCovers(w.chat.policy.deferred, at, source);
        }
        if InSpan(source, w.chat.policy.historicalDeferred) {
          WidenCovers(w.chat.policy.historicalDeferred, at, source);
        }
      }
    }
  }

  lemma ParkedRows(w: World, id: MessageId)
    requires RowsMatch(w)
    ensures RowsMatch(w.(chat := DeferProtection(w.chat, id)))
  {
    DeferFrame(w.chat, id);
    var t := DeferProtection(w.chat, id);
    assert forall i :: i in t.candidates ==> i in w.chat.candidates && t.candidates[i] == w.chat.candidates[i];
  }

  lemma ParkedIsOld(s: Chat, id: MessageId, now: int)
    requires OldEnough(s.policy, now) && (id in s.candidates ==> s.candidates[id].source <= now - DAY)
    ensures OldEnough(DeferProtection(s, id).policy, now)
  {
    if id in s.candidates {
      var at := Some(Span(s.candidates[id].source, s.candidates[id].source));
      WidenBelow(s.policy.deferred, at, now - DAY);
      WidenBelow(s.policy.historicalDeferred, at, now - DAY);
    }
  }

  lemma AwaitKeeps(w: World, id: MessageId)
    requires Inv(w)
    ensures Inv(w.(chat := DeferProtection(w.chat, id)))
  {
    var w' := w.(chat := DeferProtection(w.chat, id));
    if w'.chat == w.chat {
      assert w' == w;
    } else {
      forall i | Owed(w, i) && Kept(w.chat, w.done, w.known[i])
        ensures Kept(w'.chat, w'.done, w.known[i])
      {
        ParkedIsDeferred(w, id, i);
      }
      ParkedRows(w, id);
      ParkedIsOld(w.chat, id, w.now);
      DeferFrame(w.chat, id);
      LanesStep(w, w');
    }
  }

  /** The sets and the snapshot of a protection write, before any range is released. */
  function Installed(s: Chat, input: Snapshot): Chat {
    s.(protectedMessages := AddKinds(s.protectedMessages, input.protectedIds, input.holdIds),
       heldAuthors := s.heldAuthors + input.holdAuthors,
       protectedBots := s.protectedBots + input.protectedBots,
       protection := Some(NextProtection(s.protection, input)))
  }

  lemma ReleaseCurrentKeeps(w: World, input: Snapshot)
    requires Inv(w)
    ensures Inv(w.(chat := w.chat.(policy := ReleaseCurrent(w.chat.policy, input, w.now))))
  {
    var w' := w.(chat := w.chat.(policy := ReleaseCurrent(w.chat.policy, input, w.now)));
    if w'.chat.policy == w.chat.policy {
      assert w' == w;
    } else {
      RewindStep(w, w');
    }
  }

  lemma ReleaseHistoricalKeeps(w: World, prior: Option<Protection>, input: Snapshot)
    requires Inv(w)
    ensures Inv(w.(chat := w.chat.(policy := ReleaseHistorical(w.chat.policy, prior, input, w.now))))
  {
    var w' := w.(chat := w.chat.(policy := ReleaseHistorical(w.chat.policy, prior, input, w.now)));
    if w'.chat.policy == w.chat.policy {
      assert w' == w;
    } else {
      RewindStep(w, w');
    }
  }

  lemma ProtectKeeps(w: World, input: Snapshot)
    requires Inv(w)
    ensures Inv(w.(chat := ApplyProtection(w.chat, input, w.now)))
  {
    if ProtectRefusal(w.chat.protection, input).None? {
      var w1 := w.(chat := Installed(w.chat, input));
      QuietStep(w, w1);
      ReleaseCurrentKeeps(w1, input);
      var w2 := w1.(chat := w1.chat.(policy := ReleaseCurrent(w1.chat.policy, input, w.now)));
      ReleaseHistoricalKeeps(w2, w.chat.protection, input);
      assert w.(chat := ApplyProtection(w.chat, input, w.now))
          == w2.(chat := w2.chat.(policy := ReleaseHistorical(w2.chat.policy, w.chat.protection, input, w.now)));
    } else {
      assert w.(chat := ApplyProtection(w.chat, input, w.now)) == w;
    }
  }

  // ---- webhooks ----

  /** Only the due lane moved: its floor is lower and its window is the same or gone. */
  ghost predicate DueLowered(s: Chat, t: Chat) {
    var p, p' := s.policy, t.policy;
    && SameLanes(p, p'.(due := p.due, dueGeneration := p.dueGeneration)) && p'.lease == p.lease
    && p'.dueGeneration > p.dueGeneration
    && p'.due.floor.Some? && (p.due.floor.Some? ==> p'.due.floor.value <= p.due.floor.value)
    && ((p'.due.cursor.None? && p'.due.upper.None? && !p'.due.gap)
        || (p'.due.cursor == p.due.cursor && p'.due.upper == p.due.upper && p'.due.gap == p.due.gap))
    && t.candidates == s.candidates && ExcludesMore(s, t)
  }

  lemma CompactLowersDue(s: Chat, now: int)
    ensures Compact(s, now) == s || DueLowered(s, Compact(s, now))
  {
  }

  lemma DueStep(w: World, t: Chat)
    requires Inv(w) && DueLowered(w.chat, t)
    ensures Inv(w.(chat := t))
  {
    var w' := w.(chat := t);
    assert forall id :: Owed(w', id) <==> Owed(w, id);
    forall id | Owed(w, id)
      ensures Covered(w.chat, w.done, w.known[id]) ==> Covered(w'.chat, w'.done, w'.known[id])
      ensures Base(w.chat, w.done, w.known[id]) ==> Base(w'.chat, w'.done, w'.known[id])
    {
    }
    forall token | token in w'.visits && Leased(w'.chat.policy, token)
      ensures VisitHolds(w', w'.visits[token])
    {
      assert VisitHolds(w, w.visits[token]);
    }
  }

  lemma CompactKeeps(w: World)
    requires Inv(w)
    ensures Inv(w.(chat := Compact(w.chat, w.now)))
  {
    CompactLowersDue(w.chat, w.now);
    if Compact(w.chat, w.now) == w.chat {
      assert w.(chat := Compact(w.chat, w.now)) == w;
    } else {
      DueStep(w, Compact(w.chat, w.now));
    }
  }

  /** The announced message joins the ones the policy owes. */
  function Announced(w: World, s: Chat, id: MessageId): World {
    w.(chat := s, late := w.late - {id})
  }

  /** A message that is not due yet is ahead of the safety floor and beyond every live window. */
  lemma YoungAnnounced(w: World, id: MessageId)
    requires Inv(w) && w.chat.policy.enabled && id in w.known
    requires w.known[id].source + Retention(w.chat.policy.hours) > w.now
    ensures Inv(Announced(w, w.chat, id))
  {
    var w' := Announced(w, w.chat, id);
    assert forall i :: Owed(w', i) && i != id ==> Owed(w, i);
    assert AboveSafety(w.chat.policy, w.known[id].source);
    forall t | t in w'.visits && Leased(w'.chat.policy, t)
      ensures VisitHolds(w', w'.visits[t])
    {
      assert VisitHolds(w, w.visits[t]);
    }
  }

  lemma NoteFutureKeeps(w: World, id: MessageId)
    requires Inv(w) && w.chat.policy.enabled && id in w.known
    requires w.known[id].source + Retention(w.chat.policy.hours) > w.now
    ensures Inv(Announced(w, NoteFuture(w.chat, w.known[id].source), id))
  {
    YoungAnnounced(w, id);
    QuietStep(Announced(w, w.chat, id), Announced(w, NoteFuture(w.chat, w.known[id].source), id));
  }

  lemma NoteDueLanes(w: World, id: MessageId)
    requires Inv(w) && w.chat.policy.enabled && id in w.known
    requires w.known[id].source + Retention(w.chat.policy.hours) <= w.now
    ensures var w' := Announced(w, NoteDue(w.chat, w.known[id].source, w.now), id);
            WindowsPaired(w'.chat.policy) && OldEnough(w'.chat.policy, w'.now) && LanesReady(w'.chat.policy, w'.now)
            && RowsMatch(w') && AllCovered(w') && SafetyPassed(w') && DuePassed(w')
  {
    var w' := Announced(w, NoteDue(w.chat, w.known[id].source, w.now), id);
    assert forall i :: Owed(w', i) && i != id ==> Owed(w, i);
    assert AboveDue(w'.chat.policy, w.known[id].source);
    forall i | Owed(w, i)
      ensures Covered(w.chat, w.done, w.known[i]) ==> Covered(w'.chat, w'.done, w'.known[i])
    {
    }
  }

  /** A page in flight either became stale, or its window does not reach the announced message. */
  lemma NoteDueVisit(w: World, id: MessageId, t: Token)
    requires Inv(w) && w.chat.policy.enabled && id in w.known
    requires w.known[id].source + Retention(w.chat.policy.hours) <= w.now
    requires t in w.visits && Leased(w.chat.policy, t)
    ensures VisitHolds(Announced(w, NoteDue(w.chat, w.known[id].source, w.now), id), w.visits[t])
  {
    var w' := Announced(w, NoteDue(w.chat, w.known[id].source, w.now), id);
    var v := w.visits[t];
    assert VisitHolds(w, v);
    assert forall i :: Owed(w', i) && i != id ==> Owed(w, i);
    assert AboveDue(w'.chat.policy, w.known[id].source) && w'.chat.policy.due.cursor.None?;
    if SameGeneration(w'.chat.policy, v.seen) && v.page.Some? {
      assert w'.chat.policy.safety == w.chat.policy.safety;
      assert PageHolds(w, v, v.chosen.value, v.page.value);
      forall i | Owed(w, i)
        ensures Elsewhere(w.chat.policy, w.known[i].source) ==> Elsewhere(w'.chat.policy, w.known[i].source)
      {
      }
    }
  }

  lemma NoteDueKeeps(w: World, id: MessageId)
    requires Inv(w) && w.chat.policy.enabled && id in w.known
    requires w.known[id].source + Retention(w.chat.policy.hours) <= w.now
    ensures Inv(Announced(w, NoteDue(w.chat, w.known[id].source, w.now), id))
  {
    var w' := Announced(w, NoteDue(w.chat, w.known[id].source, w.now), id);
    NoteDueLanes(w, id);
    forall t | t in w'.visits && Leased(w'.chat.policy, t)
      ensures VisitHolds(w', w'.visits[t])
    {
      NoteDueVisit(w, id, t);
    }
  }

  lemma IngestMessageKeeps(w: World, receipt: nat, id: MessageId)
    requires Inv(w) && id in w.known && receipt !in w.chat.receipts
    ensures Inv(w.(chat := IngestMessage(w.chat, receipt, Some(w.known[id].source), w.now),
                   late := if w.chat.policy.enabled then w.late - {id} else w.late))
  {
    var w1 := w.(chat := w.chat.(receipts := w.chat.receipts[receipt := w.now]));
    QuietStep(w, w1);
    if w.chat.policy.enabled {
      NoteMessageKeeps(w1, id);
    }
  }

  lemma NoteMessageKeeps(w: World, id: MessageId)
    requires Inv(w) && id in w.known && w.chat.policy.enabled
    ensures Inv(Announced(w, NoteMessage(w.chat, w.known[id].source, w.now), id))
  {
    CompactKeeps(w);
    var w2 := w.(chat := Compact(w.chat, w.now));
    assert w2.chat.policy.enabled && w2.chat.policy.hours == w.chat.policy.hours;
    if w.known[id].source + Retention(w.chat.policy.hours) > w.now {
      NoteFutureKeeps(w2, id);
    } else {
      NoteDueKeeps(w2, id);
    }
  }

  /** The rest of a webhook only closes a journal row and moves wakes. */
  lemma RemovalIsQuiet(s: Chat, done: set<MessageId>, id: MessageId, head: Option<int>, now: int)
    ensures var t := NoteRemoval(s, id, head, now);
            && SameLanes(s.policy, t.policy) && t.policy.lease == s.policy.lease
            && ExcludesMore(s, t) && RowsKept(s, done, t, done)
  {
    if id in s.candidates && !Terminal(s.candidates[id].state) {
      var r := RemovedRow(s, id, now);
      RescheduleFrame(r, head, now, false, 1000);
      assert RowsKept(s, done, r, done);
    }
  }

  lemma AfterMessageIsQuiet(w: World, removed: Option<MessageId>, botRemoved: bool, head: Option<int>)
    requires Inv(w)
    ensures var gone := if removed.Some? then NoteRemoval(w.chat, removed.value, head, w.now) else w.chat;
            Inv(w.(chat := if botRemoved then gone.(policy := gone.policy.(connection := Missing)) else gone))
  {
    var gone := w.chat;
    if removed.Some? {
      gone := NoteRemoval(w.chat, removed.value, head, w.now);
      RemovalIsQuiet(w.chat, w.done, removed.value, head, w.now);
    }
    QuietStep(w, w.(chat := gone));
    if botRemoved {
      QuietStep(w.(chat := gone), w.(chat := gone.(policy := gone.policy.(connection := Missing))));
    }
  }

  /** The message of a webhook, announced or not, with its receipt. */
  lemma ReceivedKeeps(w: World, id: Option<MessageId>, receipt: nat, source: Option<int>)
    requires Inv(w) && receipt !in w.chat.receipts
    requires id.Some? ==> id.value in w.known && source == Some(w.known[id.value].source)
    requires id.None? ==> source.None?
    ensures Inv(w.(chat := IngestMessage(w.chat, receipt, source, w.now),
                   late := if id.Some? && w.chat.policy.enabled then w.late - {id.value} else w.late))
  {
    if id.Some? {
      IngestMessageKeeps(w, receipt, id.value);
    } else {
      QuietStep(w, w.(chat := IngestMessage(w.chat, receipt, None, w.now)));
    }
  }

  lemma WebhookKeeps(w: World, id: Option<MessageId>, step: Step)
    requires Inv(w) && step.Webhook? && step.now == w.now
    requires id.Some? ==> id.value in w.known && step.source == Some(w.known[id.value].source)
    requires id.None? ==> step.source.None?
    ensures Inv(w.(chat := Apply(w.chat, step),
                   late := if id.Some? && w.chat.policy.enabled && step.receipt !in w.chat.receipts
                           then w.late - {id.value} else w.late))
  {
    if step.receipt in w.chat.receipts {
      assert Apply(w.chat, step) == w.chat;
    } else {
      ReceivedKeeps(w, id, step.receipt, step.source);
      var noted := w.(chat := IngestMessage(w.chat, step.receipt, step.source, w.now),
                      late := if id.Some? && w.chat.policy.enabled then w.late - {id.value} else w.late);
      AfterMessageIsQuiet(noted, step.removed, step.botRemoved, step.head);
    }
  }

  // ---- settings ----

  /**
    A restart around its cutoffs tiles the whole time line: history reaches up to its cursor and the
    safety lane starts no later than the next millisecond.
   */
  ghost predicate Tiled(p: Policy) {
    && p.history.cursor.Some? && !p.history.complete && p.safety.floor.Some?
    && p.safety.floor.value <= p.history.cursor.value + 1
  }

  lemma RestartStep(w: World, w': World)
    requires Inv(w)
    requires w'.now == w.now && w'.known == w.known && w'.visible == w.visible && w'.visits == w.visits
    requires w'.tokens == w.tokens
    requires var p, p' := w.chat.policy, w'.chat.policy;
      && p'.revision > p.revision && p'.scanGeneration >= p.scanGeneration && p'.dueGeneration >= p.dueGeneration
      && (p'.lease == p.lease || p'.lease.None?)
      && Tiled(p') && p'.safety.cursor.None? && p'.safety.upper.None?
      && p'.due.cursor.None? && p'.due.upper.None? && !p'.due.gap
      && OldEnough(p', w'.now) && LanesReady(p', w'.now)
    requires forall id :: id in w'.chat.candidates ==>
               id in w.chat.candidates && w'.chat.candidates[id].source == w.chat.candidates[id].source
    ensures Inv(w')
  {
    forall id | Owed(w', id)
      ensures Covered(w'.chat, w'.done, w'.known[id])
    {
    }
    forall t | t in w'.visits && Leased(w'.chat.policy, t)
      ensures VisitHolds(w', w'.visits[t])
    {
      assert VisitHolds(w, w.visits[t]);
    }
  }

  /** An ordinary save that leaves the lanes alone, or switches the policy off. */
  lemma PlainSaveStep(w: World, t: Chat)
    requires Inv(w) && t.candidates == w.chat.candidates && ExcludesMore(w.chat, t)
    requires var p, p' := w.chat.policy, t.policy;
      && p'.revision > p.revision && p'.lease == p.lease
      && SameLanes(p, p'.(enabled := p.enabled, hours := p.hours, revision := p.revision))
      && (p'.enabled ==> p.enabled && p'.hours == p.hours)
    ensures Inv(w.(chat := t))
  {
    var w' := w.(chat := t);
    assert forall id :: Owed(w', id) <==> Owed(w, id);
    forall id | Owed(w, id)
      ensures Base(w.chat, w.done, w.known[id]) ==> Base(w'.chat, w'.done, w'.known[id])
    {
    }
    forall token | token in w'.visits && Leased(w'.chat.policy, token)
      ensures VisitHolds(w', w'.visits[token])
    {
      assert VisitHolds(w, w.visits[token]);
    }
  }

  lemma AgedKeepsSources(s: Chat, body: SaveBody, parked: seq<MessageId>, woken: set<MessageId>, now: int)
    requires forall k :: 0 <= k < |parked| ==> parked[k] in s.candidates
    ensures var a := Aged(s, body, parked, woken, now);
      && (forall id :: id in a.candidates ==> id in s.candidates && a.candidates[id].source == s.candidates[id].source)
      && a == s.(candidates := a.candidates, future := a.future)
  {
  }

  lemma SavedPolicyRestarts(p: Policy, operation: nat, body: SaveBody, activation: nat, now: int)
    requires OldEnough(p, now)
    requires Restarts(p, body)
    ensures var q := SavedPolicy(p, operation, body, activation, now);
      && Tiled(q) && q.revision > p.revision && q.lease == p.lease
      && q.safety.cursor.None? && q.safety.upper.None? && q.due.cursor.None? && q.due.upper.None? && !q.due.gap
      && OldEnough(q, now) && LanesReady(q, now)
      && q.scanGeneration >= p.scanGeneration && q.dueGeneration > p.dueGeneration
  {
  }

  lemma SaveKeeps(w: World, step: Step)
    requires Inv(w) && step.SaveSettings? && step.now == w.now
    ensures Inv(w.(chat := Apply(w.chat, step), late := if Restarted(w.chat, step) then {} else w.late))
  {
    var s, t := w.chat, Apply(w.chat, step);
    if t == s {
      assert !Restarted(s, step);
      assert w.(chat := t, late := w.late) == w;
    } else {
      SaveShape(s, step);
      assert Restarted(s, step) <==> Restarts(s.policy, step.body);
      if Restarts(s.policy, step.body) {
        SaveRestartKeeps(w, step);
      } else {
        PlainSaveStep(w, t);
      }
    }
  }

  /** What a save that commits leaves. */
  lemma SaveShape(s: Chat, step: Step)
    requires step.SaveSettings? && Apply(s, step) != s
    ensures forall k :: 0 <= k < |step.parked| ==> step.parked[k] in s.candidates
    ensures Apply(s, step).policy == SavedPolicy(s.policy, step.operation, step.body, step.activation, step.now)
    ensures Apply(s, step) == Aged(s, step.body, step.parked, step.woken, step.now).(
      policy := Apply(s, step).policy, request := Apply(s, step).request, operations := Apply(s, step).operations)
    ensures !Restarts(s.policy, step.body) ==> Aged(s, step.body, step.parked, step.woken, step.now) == s
  {
  }

  lemma SaveRestartKeeps(w: World, step: Step)
    requires Inv(w) && step.SaveSettings? && step.now == w.now
    requires Apply(w.chat, step) != w.chat && Restarts(w.chat.policy, step.body)
    ensures Inv(w.(chat := Apply(w.chat, step), late := {}))
  {
    var s := w.chat;
    SaveShape(s, step);
    AgedKeepsSources(s, step.body, step.parked, step.woken, w.now);
    SavedPolicyRestarts(s.policy, step.operation, step.body, step.activation, w.now);
    RestartStep(w, w.(chat := Apply(s, step), late := {}));
  }

  lemma ConnectKeeps(w: World, step: Step)
    requires Inv(w) && step.Connect? && step.now == w.now && step.historyAt <= w.now && step.safetyAt <= w.now
    requires LeavesNoHole(w.chat.policy, step)
    ensures Inv(w.(chat := Apply(w.chat, step), late := if Restarted(w.chat, step) then {} else w.late))
  {
    var t := Apply(w.chat, step);
    if t == w.chat {
      assert w.(chat := t, late := w.late) == w;
    } else {
      var w' := w.(chat := t, late := {});
      RestartStep(w, w');
    }
  }

  // ---- every event ----

  lemma ReserveKeeps(w: World, step: Step)
    requires Inv(w) && step.ReserveVisit? && step.token !in w.tokens
    ensures Inv(w.(chat := Apply(w.chat, step), tokens := w.tokens + {step.token}))
  {
    QuietStep(w, w.(chat := Apply(w.chat, step), tokens := w.tokens + {step.token}));
  }

  lemma HousekeepKeeps(w: World, step: Step)
    requires Inv(w) && step.Housekeep?
    ensures var c := Apply(w.chat, step);
            Inv(w.(chat := c, done := w.done + (set id | id in w.chat.candidates && id !in c.candidates)))
  {
    var c := Apply(w.chat, step);
    QuietStep(w, w.(chat := c, done := w.done + (set id | id in w.chat.candidates && id !in c.candidates)));
  }

  ghost predicate Quiet(s: Chat, t: Chat) {
    && SameLanes(s.policy, t.policy) && (t.policy.lease == s.policy.lease || t.policy.lease.None?)
    && ExcludesMore(s, t)
    && (forall id :: id in t.candidates <==> id in s.candidates)
    && (forall id :: id in s.candidates ==> t.candidates[id].source == s.candidates[id].source)
  }

  /** The lanes, the exclusions and the lease stand still; rows only change in place. */
  lemma RowsQuiet(s: Chat, t: Chat)
    requires SameLanes(s.policy, t.policy) && ExcludesMore(s, t)
    requires t.policy.lease == s.policy.lease || t.policy.lease.None?
    requires t.candidates.Keys == s.candidates.Keys
    requires forall id :: id in s.candidates ==> t.candidates[id].source == s.candidates[id].source
    ensures Quiet(s, t)
  {
    assert forall id :: id in t.candidates <==> id in t.candidates.Keys;
  }

  lemma MarkIsQuiet(s: Chat, step: Step)
    requires step.Mark?
    ensures Quiet(s, Apply(s, step))
  {
    MarkFrame(s, step);
    RowsQuiet(s, Apply(s, step));
  }

  lemma ResolveIsQuiet(s: Chat, step: Step)
    requires step.Resolve?
    ensures Quiet(s, Apply(s, step))
  {
    ResolveFrame(s, step);
    RowsQuiet(s, Apply(s, step));
  }

  lemma RetryIsQuiet(s: Chat, step: Step)
    requires step.Retry?
    ensures Quiet(s, Apply(s, step))
  {
    RetryFrame(s, step);
    RowsQuiet(s, Apply(s, step));
  }

  lemma StepIsQuiet(s: Chat, step: Step)
    requires step.LeaseConnection? || step.EndConnection? || step.EndVisit? || step.Observe? || step.Mark?
             || step.Resolve? || step.Retry? || step.GlobalHolds?
    ensures Quiet(s, Apply(s, step))
  {
    match step
    case Mark(_, _, _, _, _, _, _, _, _, _) => MarkIsQuiet(s, step);
    case Resolve(_, _, _, _, _, _) => ResolveIsQuiet(s, step);
    case Retry(_, _, _, _, _, _) => RetryIsQuiet(s, step);
    case EndVisit(_, _, _, _, _) => EndVisitFrame(s, step);
    case Observe(_, _) => ObserveFrame(s, step);
    case GlobalHolds(_, _) => HoldsFrame(s, step);
    case LeaseConnection(_, _, _) => RequestFrame(s, step);
    case EndConnection(_, _, _, _) => RequestFrame(s, step);
  }

  lemma PlainQuiet(w: World, step: Step)
    requires Inv(w)
    requires step.LeaseConnection? || step.EndConnection? || step.EndVisit? || step.Observe? || step.Mark?
             || step.Resolve? || step.Retry? || step.GlobalHolds?
    ensures Inv(w.(chat := Apply(w.chat, step)))
  {
    StepIsQuiet(w.chat, step);
    QuietStep(w, w.(chat := Apply(w.chat, step)));
  }

  lemma TransactKeeps(w: World, step: Step)
    requires Inv(w) && PlainStep(w, step) && (step.Webhook? ==> step.source.None?)
    ensures Inv(Do(w, Transact(step)))
  {
    var w' := Do(w, Transact(step));
    match step
    case Protect(input, now) => ProtectKeeps(w, input);
    case SaveSettings(_, _, _, _, _, _, _) => SaveKeeps(w, step);
    case Connect(_, _, _, _, _, _, _, _) => ConnectKeeps(w, step);
    case Webhook(_, _, _, _, _, _) => WebhookKeeps(w, None, step);
    case ReserveVisit(_, _, _) => ReserveKeeps(w, step);
    case AwaitProtection(id) => AwaitKeeps(w, id);
    case Housekeep(_, _, _) => HousekeepKeeps(w, step);
    case _ => PlainQuiet(w, step);
  }

  lemma OutsideKeeps(w: World, e: Event)
    requires Inv(w) && Can(w, e) && (e.Tick? || e.Post? || e.PostLate? || e.Vanish?)
    ensures Inv(Do(w, e))
  {
    match e
    case Tick(to) => TickKeeps(w, to);
    case Post(m) => PostKeeps(w, m, false);
    case PostLate(m) => PostKeeps(w, m, true);
    case Vanish(id) => VanishKeeps(w, id);
  }

  lemma OpenKeeps(w: World, token: Token, lane: Lane, purpose: Purpose, at: int, future: Option<int>)
    requires Inv(w) && Can(w, Open(token, lane, purpose, at, future))
    ensures Inv(Do(w, Open(token, lane, purpose, at, future)))
  {
    if lane == History {
      OpenHistoryKeeps(w, token, purpose, at, future);
    } else if purpose == Safety {
      OpenSafetyKeeps(w, token, at);
    } else {
      OpenDueKeeps(w, token, at, future);
    }
  }

  lemma EventKeeps(w: World, e: Event)
    requires Inv(w) && Can(w, e)
    ensures Inv(Do(w, e))
  {
    match e
    case Transact(step) => TransactKeeps(w, step);
    case Announce(id, step) => WebhookKeeps(w, Some(id), step);
    case Look(token) => LookKeeps(w, token);
    case Peek(token) => PeekKeeps(w, token);
    case Open(token, lane, purpose, at, future) => OpenKeeps(w, token, lane, purpose, at, future);
    case Fetch(token, page) => FetchKeeps(w, token, page);
    case Commit(token) => CommitKeepsInv(w, token);
    case _ => OutsideKeeps(w, e);
  }

  lemma {:induction false} InvAlways(w: World, events: seq<Event>)
    requires Fresh(w)
    ensures Inv(Play(w, events))
  {
    if events == [] {
    } else {
      var n := |events| - 1;
      InvAlways(w, events[..n]);
      var before := Play(w, events[..n]);
      if Can(before, events[n]) {
        EventKeeps(before, events[n]);
      }
    }
  }

  /**
    In every run, whatever the interleaving of webhooks, saves, protection writes, expired leases and
    stale visits, an enabled policy accounts for every visible message it has been owed.
   */
  lemma CoverageFrontier(w: World, events: seq<Event>, id: MessageId)
    requires Fresh(w)
    requires var w' := Play(w, events); w'.chat.policy.enabled && Owed(w', id)
    ensures var w' := Play(w, events); Covered(w'.chat, w'.done, w'.known[id])
  {
    InvAlways(w, events);
  }

  /**
    When every lane that could still reach a message has finished, the message was journaled or is
    excluded: nothing that is due slips through.
   */
  lemma NothingSlipsThrough(w: World, events: seq<Event>, id: MessageId)
    requires Fresh(w)
    requires var w' := Play(w, events);
      && w'.chat.policy.enabled && Owed(w', id)
      && w'.chat.policy.history.complete && w'.chat.policy.due.floor.None?
      && !AboveSafety(w'.chat.policy, w'.known[id].source)
      && w'.chat.policy.deferred.None? && w'.chat.policy.historicalDeferred.None?
    ensures var w' := Play(w, events); Handled(w'.chat, w'.done, w'.known[id])
  {
    CoverageFrontier(w, events, id);
  }

  /**
    Optimistic scans refine a sequential scanner: whenever a fetched page takes effect, it was fetched
    for exactly the window and cursor the lane stores at that moment, and it answers for every owed
    message between them that no other lane took over.
   */
  lemma AcceptedPageMatches(w: World, events: seq<Event>, token: Token)
    requires Fresh(w)
    requires Can(Play(w, events), Commit(token))
    requires var w' := Play(w, events);
      PageAccepted(w'.chat, w'.visits[token].seen, w'.visits[token].chosen.value.lane,
                   w'.visits[token].chosen.value.purpose, w'.now)
    ensures var w' := Play(w, events);
      var p, v := w'.chat.policy, w'.visits[token];
      var o := v.chosen.value;
      && WindowHolds(p, v, o)
      && (o.lane == Live && o.purpose == Due ==> p.due.cursor == Some(o.window.upper))
      && PageHolds(w', v, o, v.page.value)
  {
    InvAlways(w, events);
    var w' := Play(w, events);
    assert VisitHolds(w', w'.visits[token]);
  }

  /** The page of this visit is about to close the safety window, and the owed message `id` lies in it. */
  ghost predicate ClosesSafetyOver(w: World, token: Token, id: MessageId) {
    && TakesEffect(w, token, Live, Safety)
    && Closes(w.visits[token].page.value, w.chat.policy.safety.upper)
    && Owed(w, id) && Between(w.known[id].source, w.chat.policy.safety.floor, w.chat.policy.safety.upper)
  }

  ghost predicate ClosesDueOver(w: World, token: Token, id: MessageId) {
    && TakesEffect(w, token, Live, Due)
    && Closes(w.visits[token].page.value, w.chat.policy.due.upper)
    && Owed(w, id) && Between(w.known[id].source, w.chat.policy.due.floor, w.chat.policy.due.upper)
  }

  lemma ClosingSafetyTakes(w: World, token: Token, id: MessageId)
    requires Inv(w) && ClosesSafetyOver(w, token, id)
    ensures var c := Committed(w, token);
      && c.chat.policy.safety.floor == Some(w.chat.policy.safety.upper.value + 1)
      && Base(c.chat, c.done, c.known[id])
  {
    SafetyPageKeeps(w, token, id);
  }

  lemma ClosingDueTakes(w: World, token: Token, id: MessageId)
    requires Inv(w) && ClosesDueOver(w, token, id)
    ensures var c := Committed(w, token);
      && c.chat.policy.due.floor.None? && c.chat.policy.safety == w.chat.policy.safety
      && (AboveSafety(c.chat.policy, c.known[id].source) || Base(c.chat, c.done, c.known[id]))
  {
    CommitDue(w, token);
    assert Owed(Committed(w, token), id);
  }

  /** A safety window that closes leaves none of its owed messages to the floor it moves past. */
  lemma ClosedSafetyWindowIsListed(w: World, events: seq<Event>, token: Token, id: MessageId)
    requires Fresh(w) && ClosesSafetyOver(Play(w, events), token, id)
    ensures var w' := Play(w, events);
      var c := Committed(w', token);
      && c.chat.policy.safety.floor == Some(w'.chat.policy.safety.upper.value + 1)
      && Base(c.chat, c.done, c.known[id])
  {
    InvAlways(w, events);
    ClosingSafetyTakes(Play(w, events), token, id);
  }

  /**
    A due window that closes gives its floor up, and each owed message it spanned is kept, in unfinished
    history, or ahead of the safety floor, which no longer depends on the due lane.
   */
  lemma ClosedDueWindowIsListed(w: World, events: seq<Event>, token: Token, id: MessageId)
    requires Fresh(w) && ClosesDueOver(Play(w, events), token, id)
    ensures var w' := Play(w, events);
      var c := Committed(w', token);
      && c.chat.policy.due.floor.None? && c.chat.policy.safety == w'.chat.policy.safety
      && (AboveSafety(c.chat.policy, c.known[id].source) || Base(c.chat, c.done, c.known[id]))
  {
    InvAlways(w, events);
    ClosingDueTakes(Play(w, events), token, id);
  }
}
