/**
  Two facts about the bounds of the lanes: in every run a due minute is consumed by the window it opens and
  never opens another, and an activation that reads the clock twice tiles the time line exactly when its
  readings agree.
 */
module DueProgress {
  import opened Wrappers
  import opened FutureMinutes
  import opened EraserTypes
  import opened Transactions
  import opened Steps
  import opened ScanWorld
  import opened Coverage

  // ---- a due minute is consumed ----

  /** The window that a ripe minute opens holds that whole minute. */
  lemma RipeMinuteIsInside(s: Chat, seen: Policy, at: int, now: int)
    requires Valid(s.future) && FirstAfter(s.future, GapMoment(seen)).Some?
    requires !seen.due.gap || seen.due.upper.Some?
    requires var x := FirstAfter(s.future, GapMoment(seen)).value;
      && MinuteDue(x, seen.hours) <= at
      && OpenDue(s, seen, at, Some(x), now).1.Some?
      && (seen.due.gap || seen.due.cursor.None? || seen.due.floor.None?)
    ensures var x := FirstAfter(s.future, GapMoment(seen)).value;
      var t := OpenDue(s, seen, at, Some(x), now).0;
      && t.policy.due.floor.Some? && t.policy.due.upper.Some?
      && Inside(x, t.policy.due.floor.value, t.policy.due.upper.value)
      && OpenDue(s, seen, at, Some(x), now).1 == Some(Window(t.policy.due.floor, t.policy.due.upper.value))
  {
  }

  lemma {:induction false} LaterRowsDoNotCount(t: Table, low: int, x: int)
    requires forall k :: 0 <= k < |t| ==> t[k].hour > HourOf(x)
    ensures RowsUpTo(t, low, x) == 0
    decreases |t|
  {
    if t == [] {
    } else {
      LaterRowsDoNotCount(t[1..], low, x);
    }
  }

  /** The first tracked minute is in the first row. */
  lemma FirstMinuteRow(t: Table, x: int)
    requires Valid(t) && FirstAfter(t, None) == Some(x)
    ensures t != [] && t[0].hour == HourOf(x)
  {
    FirstAfterIsLeast(t, None);
    var k := RowOf(t, x);
    if k > 0 {
      var i :| 0 <= i < 60 && t[0].bits[i];
      BitIsMinute(t, 0, i);
      HourGap(t[0].hour, t[k].hour);
    }
  }

  /** The page closes the due window it was fetched for. */
  predicate ClosesDue(s: Chat, seen: Policy, page: seq<Message>, now: int) {
    && PageAccepted(s, seen, Live, Due, now)
    && s.policy.due.floor.Some? && Closes(page, s.policy.due.upper)
  }

  /** Closing a due window removes the first tracked minute when it lies inside, and adds none. */
  lemma ClosingConsumesFirstMinute(s: Chat, seen: Policy, page: seq<Message>, x: int, now: int)
    requires Valid(s.future) && ClosesDue(s, seen, page, now)
    requires FirstAfter(s.future, None) == Some(x)
    requires Inside(x, s.policy.due.floor.value, s.policy.due.upper.value)
    ensures var t := SavePage(s, seen, Live, page, Due, now);
      && Valid(t.future) && !Has(t.future, x)
      && (forall y :: Has(t.future, y) ==> Has(s.future, y))
      && t.policy.due.floor.None? && !t.policy.due.due && !t.policy.due.gap
  {
    var low, high := s.policy.due.floor.value, s.policy.due.upper.value;
    FirstMinuteRow(s.future, x);
    forall k | 0 <= k < |s.future[1..]|
      ensures s.future[1..][k].hour > HourOf(x)
    {
      assert s.future[1..][k] == s.future[k + 1];
    }
    LaterRowsDoNotCount(s.future[1..], low, x);
    assert RowsUpTo(s.future, low, x) <= 1;
    ClearReaches(s.future, low, high, WALK_LIMIT, x);
    ClearIsSound(s.future, low, high, WALK_LIMIT);
  }

  // ---- runs: the due floor is never above a minute its window has to clear ----

  /** A worker opens a due window with the first tracked minute it read, on a clock it read before that. */
  predicate HonestOpen(w: World, e: Event) {
    e.Open? && e.lane == Live && e.purpose == Due && e.token in w.visits ==>
      var first := w.visits[e.token].first;
      first.Some? && e.future == first.value.minute && e.at <= first.value.at
  }

  ghost predicate HonestRun(w: World, events: seq<Event>) {
    forall n :: 0 <= n < |events| ==> HonestOpen(Play(w, events[..n]), events[n])
  }

  ghost predicate FloorBelowMinutes(s: Chat) {
    s.policy.due.floor.Some? && s.policy.due.upper.Some? ==>
      forall x :: Has(s.future, x) && End(x) <= s.policy.due.upper.value ==> s.policy.due.floor.value <= x
  }

  /** What was read is still the first of the minutes that had reached the retention age by then. */
  ghost predicate PeekHolds(w: World, v: Visit) {
    var p := w.chat.policy;
    v.first.Some? ==>
      && v.first.value.at <= w.now
      && (SameGeneration(p, v.seen) && p.dueGeneration == v.seen.dueGeneration && v.chosen.None? ==>
            forall x :: Has(w.chat.future, x) && Counts(x, GapMoment(v.seen))
                        && End(x) <= v.first.value.at - Retention(p.hours) ==>
                          v.first.value.minute.Some? && v.first.value.minute.value <= x)
  }

  ghost predicate PeeksHold(w: World) {
    forall token :: token in w.visits && Leased(w.chat.policy, token) ==> PeekHolds(w, w.visits[token])
  }

  ghost predicate SourcesPositive(w: World) {
    forall id :: id in w.known ==> w.known[id].source > 0
  }

  ghost predicate MinuteInv(w: World) {
    Inv(w) && Valid(w.chat.future) && SourcesPositive(w) && FloorBelowMinutes(w.chat) && PeeksHold(w)
  }

  predicate GenerationsGrow(p: Policy, q: Policy) {
    && p.revision <= q.revision && p.scanGeneration <= q.scanGeneration && p.dueGeneration <= q.dueGeneration
    && (p.revision == q.revision ==> p.enabled == q.enabled && p.hours == q.hours)
  }

  /** The due window stays, or loses its floor or its upper end; the floor only falls. */
  predicate DueNarrows(p: DueLane, q: DueLane) {
    && (q.upper.Some? ==> q.upper == p.upper)
    && (q.upper.Some? && q.floor.Some? ==> p.floor.Some? && q.floor.value <= p.floor.value)
  }

  /** Minutes appear only as ones that are not due yet, or together with new settings that drop the window. */
  ghost predicate NewMinutesYoung(s: Chat, t: Chat, now: int) {
    forall x :: Has(t.future, x) && !Has(s.future, x) ==>
      if t.policy.revision > s.policy.revision then t.policy.due.upper.None?
      else s.policy.enabled && End(x) > now - Retention(s.policy.hours)
  }

  /** What every transaction but the opening of a due window does to the due window and the bitmap. */
  ghost predicate MinuteStep(s: Chat, t: Chat, now: int) {
    && Valid(t.future) && GenerationsGrow(s.policy, t.policy)
    && DueNarrows(s.policy.due, t.policy.due) && NewMinutesYoung(s, t, now)
  }

  lemma SameMinutes(s: Chat, t: Chat, now: int)
    requires Valid(s.future) && t.future == s.future
    requires GenerationsGrow(s.policy, t.policy) && DueNarrows(s.policy.due, t.policy.due)
    ensures MinuteStep(s, t, now)
  {
  }

  lemma MinuteStepsCompose(s: Chat, t: Chat, u: Chat, now: int)
    requires MinuteStep(s, t, now) && MinuteStep(t, u, now)
    requires s.policy.revision == t.policy.revision == u.policy.revision
    ensures MinuteStep(s, u, now)
  {
    forall x | Has(u.future, x) && !Has(s.future, x)
      ensures s.policy.enabled && End(x) > now - Retention(s.policy.hours)
    {
      if !Has(t.future, x) {
        assert t.policy.enabled == s.policy.enabled && t.policy.hours == s.policy.hours;
      }
    }
  }

  // ---- each transaction is such a step ----

  /** A due window has a floor. */
  predicate DuePaired(p: Policy) {
    p.due.upper.Some? ==> p.due.floor.Some?
  }

  lemma CompactStep(s: Chat, now: int)
    requires Valid(s.future) && DuePaired(s.policy)
    ensures MinuteStep(s, Compact(s, now), now) && Compact(s, now).policy.revision == s.policy.revision
  {
    CompactNarrows(s, now);
    CompactOnlyDrops(s, now);
  }

  lemma CompactNarrows(s: Chat, now: int)
    requires DuePaired(s.policy)
    ensures var t := Compact(s, now);
      && GenerationsGrow(s.policy, t.policy) && t.policy.revision == s.policy.revision
      && DueNarrows(s.policy.due, t.policy.due)
  {
  }

  lemma CompactOnlyDrops(s: Chat, now: int)
    requires Valid(s.future)
    ensures Valid(Compact(s, now).future) && forall x :: Has(Compact(s, now).future, x) ==> Has(s.future, x)
  {
    var bound := now - Retention(s.policy.hours) - HOUR;
    if Expired(s.future, bound, COMPACT_LIMIT) != [] {
      CompactionIsCovered(s.future, bound, COMPACT_LIMIT);
    }
  }

  lemma NoteFutureStep(s: Chat, source: int, now: int)
    requires Valid(s.future) && s.policy.enabled && source > 0 && source + Retention(s.policy.hours) > now
    ensures MinuteStep(s, NoteFuture(s, source), now)
  {
    PutAddsMinute(s.future, source);
    MinuteFacts(source);
    assert End(MinuteOf(source)) > now - Retention(s.policy.hours);
  }

  lemma NoteMessageStep(s: Chat, source: int, now: int)
    requires Valid(s.future) && DuePaired(s.policy) && source > 0
    ensures MinuteStep(s, NoteMessage(s, source, now), now)
    ensures NoteMessage(s, source, now).policy.revision == s.policy.revision
  {
    if !s.policy.enabled {
      SameMinutes(s, s, now);
    } else {
      CompactStep(s, now);
      var c := Compact(s, now);
      assert c.policy.enabled && c.policy.hours == s.policy.hours;
      if source + Retention(s.policy.hours) > now {
        NoteFutureStep(c, source, now);
        MinuteStepsCompose(s, c, NoteFuture(c, source), now);
      } else {
        SameMinutes(c, NoteDue(c, source, now), now);
        MinuteStepsCompose(s, c, NoteDue(c, source, now), now);
      }
    }
  }

  lemma RemovalStep(s: Chat, removed: Option<MessageId>, botRemoved: bool, head: Option<int>, now: int)
    requires Valid(s.future)
    ensures var gone := if removed.Some? then NoteRemoval(s, removed.value, head, now) else s;
            var t := if botRemoved then gone.(policy := gone.policy.(connection := Missing)) else gone;
            MinuteStep(s, t, now) && t.policy.revision == s.policy.revision
  {
    var gone := if removed.Some? then NoteRemoval(s, removed.value, head, now) else s;
    if removed.Some? {
      RemovalIsQuiet(s, {}, removed.value, head, now);
      RemovalFrame(s, removed.value, head, now);
    }
    SameMinutes(s, if botRemoved then gone.(policy := gone.policy.(connection := Missing)) else gone, now);
  }

  lemma ReceivedStep(s: Chat, receipt: nat, source: Option<int>, now: int)
    requires Valid(s.future) && DuePaired(s.policy) && receipt !in s.receipts && (source.Some? ==> source.value > 0)
    ensures var t := IngestMessage(s, receipt, source, now);
            MinuteStep(s, t, now) && t.policy.revision == s.policy.revision
  {
    var noted := s.(receipts := s.receipts[receipt := now]);
    SameMinutes(s, noted, now);
    if source.Some? {
      NoteMessageStep(noted, source.value, now);
      MinuteStepsCompose(s, noted, NoteMessage(noted, source.value, now), now);
    }
  }

  lemma WebhookStep(s: Chat, step: Step)
    requires Valid(s.future) && DuePaired(s.policy) && step.Webhook? && (step.source.Some? ==> step.source.value > 0)
    ensures MinuteStep(s, Apply(s, step), step.now)
  {
    if step.receipt in s.receipts {
      SameMinutes(s, s, step.now);
    } else {
      ReceivedStep(s, step.receipt, step.source, step.now);
      var noted := IngestMessage(s, step.receipt, step.source, step.now);
      RemovalStep(noted, step.removed, step.botRemoved, step.head, step.now);
      MinuteStepsCompose(s, noted, Apply(s, step), step.now);
    }
  }

  lemma SaveStep(s: Chat, step: Step)
    requires Valid(s.future) && step.SaveSettings?
    requires forall id :: id in s.candidates ==> s.candidates[id].source > 0
    ensures MinuteStep(s, Apply(s, step), step.now)
  {
    var t := Apply(s, step);
    if t == s {
      SameMinutes(s, s, step.now);
    } else {
      SaveShape(s, step);
      var a := Aged(s, step.body, step.parked, step.woken, step.now);
      if Restarts(s.policy, step.body) {
        AgedValid(s, step);
        assert t.policy.revision > s.policy.revision && t.policy.due.upper.None?;
      } else {
        SameMinutes(s, t, step.now);
      }
    }
  }

  lemma AgedValid(s: Chat, step: Step)
    requires Valid(s.future) && step.SaveSettings?
    requires forall id :: id in s.candidates ==> s.candidates[id].source > 0
    requires forall k :: 0 <= k < |step.parked| ==> step.parked[k] in s.candidates
    ensures Valid(Aged(s, step.body, step.parked, step.woken, step.now).future)
  {
    PutAllAddsMinutes(s.future, SourcesOf(s.candidates, step.parked));
  }

  lemma ProtectStep(s: Chat, step: Step)
    requires Valid(s.future) && step.Protect?
    ensures MinuteStep(s, Apply(s, step), step.now)
  {
    ProtectFrame(s, step);
    SameMinutes(s, Apply(s, step), step.now);
  }

  lemma ConnectStep(s: Chat, step: Step)
    requires Valid(s.future) && step.Connect?
    ensures MinuteStep(s, Apply(s, step), step.now)
  {
    SameMinutes(s, Apply(s, step), step.now);
  }

  /** Transactions that leave the lanes and the bitmap alone. */
  lemma QuietStepMinutes(s: Chat, step: Step, now: int)
    requires Valid(s.future)
    requires step.LeaseConnection? || step.EndConnection? || step.EndVisit? || step.Observe? || step.Mark?
             || step.Resolve? || step.Retry? || step.GlobalHolds?
    ensures MinuteStep(s, Apply(s, step), now)
  {
    StepIsQuiet(s, step);
    QuietKeepsFuture(s, step);
    SameMinutes(s, Apply(s, step), now);
  }

  lemma QuietKeepsFuture(s: Chat, step: Step)
    requires step.LeaseConnection? || step.EndConnection? || step.EndVisit? || step.Observe? || step.Mark?
             || step.Resolve? || step.Retry? || step.GlobalHolds?
    ensures Apply(s, step).future == s.future
  {
    match step
    case Mark(_, _, _, _, _, _, _, _, _, _) => MarkFrame(s, step);
    case Resolve(_, _, _, _, _, _) => ResolveFrame(s, step);
    case Retry(_, _, _, _, _, _) => RetryFrame(s, step);
    case EndVisit(_, _, _, _, _) => EndVisitFrame(s, step);
    case Observe(_, _) => ObserveFrame(s, step);
    case GlobalHolds(_, _) => HoldsFrame(s, step);
    case LeaseConnection(_, _, _) => RequestFrame(s, step);
    case EndConnection(_, _, _, _) => RequestFrame(s, step);
  }

  lemma SmallStepMinutes(s: Chat, step: Step, now: int)
    requires Valid(s.future) && (step.ReserveVisit? || step.AwaitProtection? || step.Housekeep?)
    ensures MinuteStep(s, Apply(s, step), now)
  {
    match step {
      case ReserveVisit(_, _, _) => ReserveFrame(s, step);
      case AwaitProtection(_) => AwaitFrame(s, step);
      case Housekeep(_, _, _) => HousekeepFrame(s, step);
    }
    SameMinutes(s, Apply(s, step), now);
  }

  lemma TransactMinutes(w: World, step: Step)
    requires MinuteInv(w) && PlainStep(w, step) && (step.Webhook? && step.source.Some? ==> step.source.value > 0)
    ensures MinuteStep(w.chat, Apply(w.chat, step), w.now)
  {
    var s := w.chat;
    match step
    case Protect(_, _) => ProtectStep(s, step);
    case SaveSettings(_, _, _, _, _, _, _) => SaveStep(s, step);
    case Connect(_, _, _, _, _, _, _, _) => ConnectStep(s, step);
    case Webhook(_, _, _, _, _, _) => WebhookStep(s, step);
    case ReserveVisit(_, _, _) => SmallStepMinutes(s, step, w.now);
    case AwaitProtection(_) => SmallStepMinutes(s, step, w.now);
    case Housekeep(_, _, _) => SmallStepMinutes(s, step, w.now);
    case _ => QuietStepMinutes(s, step, w.now);
  }

  lemma CommitMinutes(w: World, token: Token)
    requires MinuteInv(w) && Can(w, Commit(token))
    ensures MinuteStep(w.chat, Committed(w, token).chat, w.now)
  {
    var v := w.visits[token];
    var o, page := v.chosen.value, v.page.value;
    var s, t := w.chat, Committed(w, token).chat;
    if PageAccepted(s, v.seen, o.lane, o.purpose, w.now) {
      TakenFrame(s, o.lane, page, o.purpose, w.now);
      if t.future != s.future {
        ClearIsSound(s.future, s.policy.due.floor.value, s.policy.due.upper.value, WALK_LIMIT);
      }
      TakenNarrows(s, o.lane, page, o.purpose, w.now);
    } else {
      SameMinutes(s, s, w.now);
    }
  }

  lemma PageNarrows(p: Policy, lane: Lane, page: seq<Message>, purpose: Purpose, now: int)
    ensures var q := AfterPage(p, lane, page, purpose, now);
      DueNarrows(p.due, q.due) && p.scanGeneration <= q.scanGeneration && p.dueGeneration <= q.dueGeneration
  {
  }

  lemma TakenNarrows(s: Chat, lane: Lane, page: seq<Message>, purpose: Purpose, now: int)
    ensures var t := PageTaken(s, lane, page, purpose, now);
      GenerationsGrow(s.policy, t.policy) && DueNarrows(s.policy.due, t.policy.due)
  {
    TakenFrame(s, lane, page, purpose, now);
    var taken := TakeInAll(s, lane, now, page);
    var p := s.policy.(totals := s.policy.totals.(scanned := s.policy.totals.scanned + |page|),
                       deferred := Widen(s.policy.deferred, taken.current),
                       historicalDeferred := Widen(s.policy.historicalDeferred, taken.historical));
    PageNarrows(p, lane, page, purpose, now);
    assert PageTaken(s, lane, page, purpose, now).policy == AfterPage(p, lane, page, purpose, now);
  }

  // ---- the invariant is kept ----

  /** The store took such a step, no visit changed, and the lease is the same, gone, or a new visit's. */
  ghost predicate StepsMinutes(w: World, w': World) {
    && Inv(w') && SourcesPositive(w') && w.now <= w'.now && MinuteStep(w.chat, w'.chat, w.now)
    && (forall token :: token in w'.visits && Leased(w'.chat.policy, token) ==>
          token in w.visits && w'.visits[token] == w.visits[token] && Leased(w.chat.policy, token))
  }

  lemma PeekSurvives(w: World, w': World, token: Token)
    requires MinuteInv(w) && StepsMinutes(w, w')
    requires token in w'.visits && Leased(w'.chat.policy, token)
    ensures PeekHolds(w', w'.visits[token])
  {
    var v := w.visits[token];
    var p, q := w.chat.policy, w'.chat.policy;
    assert VisitHolds(w, v) && PeekHolds(w, v);
    if v.first.Some? && SameGeneration(q, v.seen) && q.dueGeneration == v.seen.dueGeneration && v.chosen.None? {
      assert q.revision == p.revision;
      forall x | Has(w'.chat.future, x) && Counts(x, GapMoment(v.seen))
                 && End(x) <= v.first.value.at - Retention(q.hours)
        ensures v.first.value.minute.Some? && v.first.value.minute.value <= x
      {
        assert Has(w.chat.future, x);
      }
    }
  }

  lemma StepKeepsMinutes(w: World, w': World)
    requires MinuteInv(w) && StepsMinutes(w, w')
    ensures MinuteInv(w')
  {
    forall token | token in w'.visits && Leased(w'.chat.policy, token)
      ensures PeekHolds(w', w'.visits[token])
    {
      PeekSurvives(w, w', token);
    }
    var p, q := w.chat.policy, w'.chat.policy;
    if q.due.floor.Some? && q.due.upper.Some? {
      forall x | Has(w'.chat.future, x) && End(x) <= q.due.upper.value
        ensures q.due.floor.value <= x
      {
        assert Has(w.chat.future, x);
      }
    }
  }

  lemma LookMinutes(w: World, token: Token)
    requires MinuteInv(w) && Can(w, Look(token)) && Inv(Do(w, Look(token)))
    ensures MinuteInv(Do(w, Look(token)))
  {
    var w' := Do(w, Look(token));
    forall t | t in w'.visits && Leased(w'.chat.policy, t)
      ensures PeekHolds(w', w'.visits[t])
    {
    }
  }

  lemma PeekMinutes(w: World, token: Token)
    requires MinuteInv(w) && Can(w, Peek(token)) && Inv(Do(w, Peek(token)))
    ensures MinuteInv(Do(w, Peek(token)))
  {
    var w' := Do(w, Peek(token));
    FirstAfterIsLeast(w.chat.future, GapMoment(w.visits[token].seen));
    forall t | t in w'.visits && Leased(w'.chat.policy, t)
      ensures PeekHolds(w', w'.visits[t])
    {
      assert t == token || PeekHolds(w, w.visits[t]);
    }
  }

  lemma FetchMinutes(w: World, token: Token, page: seq<Message>)
    requires MinuteInv(w) && Can(w, Fetch(token, page)) && Inv(Do(w, Fetch(token, page)))
    ensures MinuteInv(Do(w, Fetch(token, page)))
  {
    var w' := Do(w, Fetch(token, page));
    forall t | t in w'.visits && Leased(w'.chat.policy, t)
      ensures PeekHolds(w', w'.visits[t])
    {
      assert PeekHolds(w, w.visits[t]);
    }
  }

  /** The new floor is at or below every tracked minute that ends within the new window. */
  lemma OpenedFloorIsBelow(w: World, token: Token, at: int, future: Option<int>, x: int)
    requires MinuteInv(w) && HonestOpen(w, Open(token, Live, Due, at, future))
    requires Can(w, Open(token, Live, Due, at, future))
    requires OpenDue(w.chat, w.visits[token].seen, at, future, w.now).0 != w.chat
    requires var t := OpenDue(w.chat, w.visits[token].seen, at, future, w.now).0;
             t.policy.due.upper.Some? && Has(t.future, x) && End(x) <= t.policy.due.upper.value
    ensures var t := OpenDue(w.chat, w.visits[token].seen, at, future, w.now).0;
            t.policy.due.floor.Some? && t.policy.due.floor.value <= x
  {
    var v := w.visits[token];
    var p := w.chat.policy;
    assert Leased(p, token) && VisitHolds(w, v) && PeekHolds(w, v);
    assert SnapshotHolds(p, v) && SameDue(p.due, v.seen.due);
    if Counts(x, GapMoment(v.seen)) {
      assert future.Some? && future.value <= x;
    } else {
      assert p.due.gap && End(x) <= p.due.upper.value;
    }
  }

  lemma OpenedFloors(w: World, e: Event)
    requires MinuteInv(w) && e.Open? && Can(w, e) && HonestOpen(w, e)
    ensures FloorBelowMinutes(Do(w, e).chat)
  {
    var r := OpenScan(w.chat, w.visits[e.token].seen, e.lane, e.purpose, e.at, e.future, w.now);
    OpenedPolicy(w, e);
    assert Do(w, e).chat == r.0;
    if e.lane == Live && e.purpose == Due && r.0 != w.chat {
      forall x | Has(r.0.future, x) && End(x) <= r.0.policy.due.upper.value
        ensures r.0.policy.due.floor.value <= x
      {
        OpenedFloorIsBelow(w, e.token, e.at, e.future, x);
      }
    } else {
      OpenMoves(w.chat, w.visits[e.token].seen, e.lane, e.purpose, e.at, e.future, w.now);
    }
  }

  lemma OpenMinutes(w: World, e: Event)
    requires MinuteInv(w) && e.Open? && Can(w, e) && HonestOpen(w, e) && Inv(Do(w, e))
    ensures MinuteInv(Do(w, e))
  {
    OpenedPolicy(w, e);
    OpenedFloors(w, e);
    OpenedPeeks(w, e);
  }

  lemma OpenedPolicy(w: World, e: Event)
    requires e.Open? && Can(w, e)
    ensures var q := Do(w, e).chat.policy;
            q == w.chat.policy.(safety := q.safety, due := q.due) && Do(w, e).chat.future == w.chat.future
  {
    OpenFrame(w.chat, w.visits[e.token].seen, e.lane, e.purpose, e.at, e.future, w.now);
  }

  lemma OpenedPeeks(w: World, e: Event)
    requires MinuteInv(w) && e.Open? && Can(w, e)
    ensures PeeksHold(Do(w, e))
  {
    var w' := Do(w, e);
    OpenedPolicy(w, e);
    forall t | t in w'.visits && Leased(w'.chat.policy, t)
      ensures PeekHolds(w', w'.visits[t])
    {
      assert PeekHolds(w, w.visits[t]);
    }
  }

  /** A transaction never gives its lease to a visit that is already under way. */
  lemma TransactLease(w: World, step: Step)
    requires Inv(w) && PlainStep(w, step)
    ensures var q := Apply(w.chat, step).policy;
      q.lease == w.chat.policy.lease || q.lease.None? || q.lease.value.token !in w.visits
  {
    match step
    case Webhook(_, _, _, _, _, _) => WebhookFrame(w.chat, step);
    case Retry(_, _, _, _, _, _) => RetryFrame(w.chat, step);
    case EndVisit(_, _, _, _, _) => EndVisitFrame(w.chat, step);
    case Protect(_, _) => ProtectFrame(w.chat, step);
    case SaveSettings(_, _, _, _, _, _, _) => SettingsLease(w.chat, step);
    case Connect(_, _, _, _, _, _, _, _) => SettingsLease(w.chat, step);
    case ReserveVisit(_, _, _) => ReserveFrame(w.chat, step);
    case AwaitProtection(_) => AwaitFrame(w.chat, step);
    case Housekeep(_, _, _) => HousekeepFrame(w.chat, step);
    case Mark(_, _, _, _, _, _, _, _, _, _) => MarkFrame(w.chat, step);
    case Resolve(_, _, _, _, _, _) => ResolveFrame(w.chat, step);
    case Observe(_, _) => ObserveFrame(w.chat, step);
    case GlobalHolds(_, _) => HoldsFrame(w.chat, step);
    case LeaseConnection(_, _, _) => RequestFrame(w.chat, step);
    case EndConnection(_, _, _, _) => RequestFrame(w.chat, step);
  }

  lemma SettingsLease(s: Chat, step: Step)
    requires step.SaveSettings? || step.Connect?
    ensures Apply(s, step).policy.lease == s.policy.lease || Apply(s, step).policy.lease.None?
  {
  }

  lemma TransactKeepsMinutes(w: World, step: Step, w': World)
    requires MinuteInv(w) && PlainStep(w, step) && (step.Webhook? && step.source.Some? ==> step.source.value > 0)
    requires Inv(w') && w'.chat == Apply(w.chat, step) && w'.now == w.now && w'.known == w.known
    requires w'.visits == w.visits
    ensures MinuteInv(w')
  {
    TransactStepsMinutes(w, step, w');
    StepKeepsMinutes(w, w');
  }

  lemma TransactStepsMinutes(w: World, step: Step, w': World)
    requires MinuteInv(w) && PlainStep(w, step) && (step.Webhook? && step.source.Some? ==> step.source.value > 0)
    requires Inv(w') && w'.chat == Apply(w.chat, step) && w'.now == w.now && w'.known == w.known
    requires w'.visits == w.visits
    ensures StepsMinutes(w, w')
  {
    TransactMinutes(w, step);
    TransactLease(w, step);
  }

  lemma CommitKeepsMinutes(w: World, token: Token)
    requires MinuteInv(w) && Can(w, Commit(token)) && Inv(Do(w, Commit(token)))
    ensures MinuteInv(Do(w, Commit(token)))
  {
    CommitStepsMinutes(w, token);
    StepKeepsMinutes(w, Do(w, Commit(token)));
  }

  lemma CommitStepsMinutes(w: World, token: Token)
    requires MinuteInv(w) && Can(w, Commit(token)) && Inv(Do(w, Commit(token)))
    ensures StepsMinutes(w, Do(w, Commit(token)))
  {
    CommitMinutes(w, token);
    assert Do(w, Commit(token)) == Committed(w, token);
    CommittedLease(w, token);
  }

  lemma CommittedLease(w: World, token: Token)
    requires Can(w, Commit(token))
    ensures Committed(w, token).chat.policy.lease == w.chat.policy.lease
  {
    var v := w.visits[token];
    TakenFrame(w.chat, v.chosen.value.lane, v.page.value, v.chosen.value.purpose, w.now);
  }

  /** The clock and the server leave the store alone. */
  lemma OutsideKeepsMinutes(w: World, e: Event)
    requires MinuteInv(w) && Can(w, e) && (e.Tick? || e.Post? || e.PostLate? || e.Vanish?) && Inv(Do(w, e))
    ensures MinuteInv(Do(w, e))
  {
    var w' := Do(w, e);
    SameMinutes(w.chat, w.chat, w.now);
    StepKeepsMinutes(w, w');
  }

  /** The steps of a visit. */
  lemma VisitMinutes(w: World, e: Event)
    requires MinuteInv(w) && Can(w, e) && HonestOpen(w, e) && Inv(Do(w, e))
    requires e.Look? || e.Peek? || e.Open? || e.Fetch? || e.Commit?
    ensures MinuteInv(Do(w, e))
  {
    match e
    case Look(token) => LookMinutes(w, token);
    case Peek(token) => PeekMinutes(w, token);
    case Open(_, _, _, _, _) => OpenMinutes(w, e);
    case Fetch(token, page) => FetchMinutes(w, token, page);
    case Commit(token) => CommitKeepsMinutes(w, token);
  }

  lemma EventMinutes(w: World, e: Event)
    requires MinuteInv(w) && Can(w, e) && HonestOpen(w, e)
    ensures MinuteInv(Do(w, e))
  {
    EventKeeps(w, e);
    if e.Transact? || e.Announce? {
      TransactKeepsMinutes(w, e.step, Do(w, e));
    } else if e.Tick? || e.Post? || e.PostLate? || e.Vanish? {
      OutsideKeepsMinutes(w, e);
    } else {
      VisitMinutes(w, e);
    }
  }

  lemma {:induction false} MinuteInvAlways(w: World, events: seq<Event>)
    requires Fresh(w) && HonestRun(w, events)
    ensures MinuteInv(Play(w, events))
  {
    if events == [] {
    } else {
      var n := |events| - 1;
      HonestPrefix(w, events, n);
      MinuteInvAlways(w, events[..n]);
      if Can(Play(w, events[..n]), events[n]) {
        EventMinutes(Play(w, events[..n]), events[n]);
      }
    }
  }

  lemma HonestPrefix(w: World, events: seq<Event>, n: nat)
    requires HonestRun(w, events) && n <= |events|
    ensures HonestRun(w, events[..n])
  {
    forall k | 0 <= k < n
      ensures HonestOpen(Play(w, events[..n][..k]), events[..n][k])
    {
      assert events[..n][..k] == events[..k];
    }
  }

  // ---- what a closing window takes off the bitmap ----

  /**
    In every run, a due window that closes takes the minutes it spans off the bitmap: every tracked minute
    that ends by its upper end and whose hour is among the first that one page may clear, and so always the
    first tracked minute. Nothing is added.
   */
  lemma ClosingTakesSpannedMinutes(w: World, events: seq<Event>, token: Token, x: int)
    requires Fresh(w) && HonestRun(w, events)
    requires var w' := Play(w, events);
      && TakesEffect(w', token, Live, Due)
      && ClosesDue(w'.chat, w'.visits[token].seen, w'.visits[token].page.value, w'.now)
      && Has(w'.chat.future, x) && End(x) <= w'.chat.policy.due.upper.value
      && (FirstAfter(w'.chat.future, None) == Some(x)
          || RowsUpTo(w'.chat.future, w'.chat.policy.due.floor.value, x) <= WALK_LIMIT)
    ensures var w' := Play(w, events);
      var t := Committed(w', token).chat;
      !Has(t.future, x) && forall y :: Has(t.future, y) ==> Has(w'.chat.future, y)
  {
    MinuteInvAlways(w, events);
    var w' := Play(w, events);
    var v := w'.visits[token];
    var s := w'.chat;
    var low, high := s.policy.due.floor.value, s.policy.due.upper.value;
    assert Inside(x, low, high);
    if FirstAfter(s.future, None) == Some(x) {
      ClosingConsumesFirstMinute(s, v.seen, v.page.value, x, w'.now);
    } else {
      ClearReaches(s.future, low, high, WALK_LIMIT, x);
      ClearIsSound(s.future, low, high, WALK_LIMIT);
    }
  }

  // ---- the minute that opened a window ----

  /**
    What stays true after a ripe minute `x` opened a window on the reading `since`, until the settings
    change: no tracked minute is earlier than `x` or, once `gone`, `x` itself is not tracked.
   */
  ghost predicate SinceOpening(w: World, r: nat, h: Hours, since: int, x: int, gone: bool) {
    var p := w.chat.policy;
    && since <= w.now && End(x) <= since - Retention(h) && r <= p.revision
    && (p.revision == r ==>
          && p.hours == h
          && (p.due.upper.Some? ==> since - Retention(h) <= p.due.upper.value)
          && (forall token :: token in w.visits && Leased(p, token) && w.visits[token].chosen.None?
                ==> since <= w.visits[token].at)
          && (if gone then !Has(w.chat.future, x) else forall y :: Has(w.chat.future, y) ==> x <= y))
  }

  /** A transaction or a page: new minutes are too young to be `x` or to come before it. */
  lemma StepKeepsSince(w: World, w': World, r: nat, h: Hours, since: int, x: int, gone: bool)
    requires SinceOpening(w, r, h, since, x, gone) && StepsMinutes(w, w')
    ensures SinceOpening(w', r, h, since, x, gone)
  {
    var p, q := w.chat.policy, w'.chat.policy;
    if q.revision == r {
      assert p.revision == r && q.hours == h;
      forall y | Has(w'.chat.future, y) && !Has(w.chat.future, y)
        ensures x < y
      {
        assert End(y) > w.now - Retention(h);
      }
    }
  }

  /** A due window that opens later does so on a later reading. */
  lemma OpenedReaches(w: World, e: Event, r: nat, h: Hours, since: int, x: int, gone: bool)
    requires MinuteInv(w) && e.Open? && Can(w, e) && SinceOpening(w, r, h, since, x, gone)
    requires w.chat.policy.revision == r && Do(w, e).chat.policy.due.upper.Some?
    ensures since - Retention(h) <= Do(w, e).chat.policy.due.upper.value
  {
    var v := w.visits[e.token];
    OpenMoves(w.chat, v.seen, e.lane, e.purpose, e.at, e.future, w.now);
    if Do(w, e).chat.policy.due != w.chat.policy.due {
      assert Leased(w.chat.policy, e.token) && VisitHolds(w, v);
      assert v.seen.hours == h && since <= v.at <= e.at;
    }
  }

  lemma OpenKeepsSince(w: World, e: Event, r: nat, h: Hours, since: int, x: int, gone: bool)
    requires MinuteInv(w) && e.Open? && Can(w, e) && SinceOpening(w, r, h, since, x, gone)
    ensures SinceOpening(Do(w, e), r, h, since, x, gone)
  {
    OpenedPolicy(w, e);
    if w.chat.policy.revision == r && Do(w, e).chat.policy.due.upper.Some? {
      OpenedReaches(w, e, r, h, since, x, gone);
    }
  }

  lemma VisitKeepsSince(w: World, e: Event, r: nat, h: Hours, since: int, x: int, gone: bool)
    requires SinceOpening(w, r, h, since, x, gone) && Can(w, e)
    requires e.Tick? || e.Post? || e.PostLate? || e.Vanish? || e.Look? || e.Peek? || e.Fetch?
    ensures SinceOpening(Do(w, e), r, h, since, x, gone)
  {
  }

  /** A transaction or a page, as a whole event. */
  lemma StoreKeepsSince(w: World, e: Event, r: nat, h: Hours, since: int, x: int, gone: bool)
    requires MinuteInv(w) && Can(w, e) && SinceOpening(w, r, h, since, x, gone) && Inv(Do(w, e))
    requires e.Transact? || e.Announce? || e.Commit?
    ensures SinceOpening(Do(w, e), r, h, since, x, gone)
  {
    if e.Commit? {
      CommitStepsMinutes(w, e.token);
    } else {
      TransactStepsMinutes(w, e.step, Do(w, e));
    }
    StepKeepsSince(w, Do(w, e), r, h, since, x, gone);
  }

  lemma EventKeepsSince(w: World, e: Event, r: nat, h: Hours, since: int, x: int, gone: bool)
    requires MinuteInv(w) && Can(w, e) && SinceOpening(w, r, h, since, x, gone)
    ensures SinceOpening(Do(w, e), r, h, since, x, gone)
  {
    if e.Transact? || e.Announce? || e.Commit? {
      EventKeeps(w, e);
      StoreKeepsSince(w, e, r, h, since, x, gone);
    } else if e.Open? {
      OpenKeepsSince(w, e, r, h, since, x, gone);
    } else {
      VisitKeepsSince(w, e, r, h, since, x, gone);
    }
  }

  ghost function RevisionAt(w: World, events: seq<Event>, k: nat): nat
    requires k <= |events|
  {
    Play(w, events[..k]).chat.policy.revision
  }

  ghost predicate SinceAt(w: World, events: seq<Event>, k: nat, r: nat, h: Hours, since: int, x: int, gone: bool)
    requires k <= |events|
  {
    SinceOpening(Play(w, events[..k]), r, h, since, x, gone)
  }

  lemma NextKeepsSince(w: World, events: seq<Event>, k: nat, r: nat, h: Hours, since: int, x: int, gone: bool)
    requires Fresh(w) && HonestRun(w, events) && k < |events| && SinceAt(w, events, k, r, h, since, x, gone)
    ensures SinceAt(w, events, k + 1, r, h, since, x, gone)
  {
    HonestPrefix(w, events, k);
    MinuteInvAlways(w, events[..k]);
    PlaySnoc(w, events, k);
    AfterKeepsSince(Play(w, events[..k]), events[k], r, h, since, x, gone);
  }

  lemma {:induction false} RunKeepsSince(w: World, events: seq<Event>, n: nat, k: nat,
                                         r: nat, h: Hours, since: int, x: int, gone: bool)
    requires Fresh(w) && HonestRun(w, events) && n <= k <= |events| && SinceAt(w, events, n, r, h, since, x, gone)
    ensures SinceAt(w, events, k, r, h, since, x, gone)
    decreases k
  {
    if n < k {
      RunKeepsSince(w, events, n, k - 1, r, h, since, x, gone);
      NextKeepsSince(w, events, k - 1, r, h, since, x, gone);
    }
  }

  lemma EventGrows(w: World, e: Event)
    requires MinuteInv(w) && Can(w, e)
    ensures w.chat.policy.revision <= Do(w, e).chat.policy.revision
  {
    if e.Transact? || e.Announce? || e.Commit? {
      EventKeeps(w, e);
      if e.Commit? {
        CommitStepsMinutes(w, e.token);
      } else {
        TransactStepsMinutes(w, e.step, Do(w, e));
      }
    } else if e.Open? {
      OpenedPolicy(w, e);
    }
  }

  lemma NextGrows(w: World, events: seq<Event>, k: nat)
    requires Fresh(w) && HonestRun(w, events) && k < |events|
    ensures RevisionAt(w, events, k) <= RevisionAt(w, events, k + 1)
  {
    HonestPrefix(w, events, k);
    MinuteInvAlways(w, events[..k]);
    PlaySnoc(w, events, k);
    if Can(Play(w, events[..k]), events[k]) {
      EventGrows(Play(w, events[..k]), events[k]);
    }
  }

  lemma {:induction false} RevisionsGrow(w: World, events: seq<Event>, n: nat, k: nat)
    requires Fresh(w) && HonestRun(w, events) && n <= k <= |events|
    ensures RevisionAt(w, events, n) <= RevisionAt(w, events, k)
    decreases k
  {
    if n < k {
      RevisionsGrow(w, events, n, k - 1);
      NextGrows(w, events, k - 1);
    }
  }

  lemma AfterKeepsSince(w: World, e: Event, r: nat, h: Hours, since: int, x: int, gone: bool)
    requires MinuteInv(w) && SinceOpening(w, r, h, since, x, gone)
    ensures SinceOpening(After(w, e), r, h, since, x, gone)
  {
    if Can(w, e) {
      EventKeepsSince(w, e, r, h, since, x, gone);
    }
  }

  /** The event opens a due window for the ripe minute `x`, with no gap retained. */
  predicate OpensFor(w: World, e: Event, x: int) {
    && e.Open? && e.lane == Live && e.purpose == Due && e.token in w.visits && w.visits[e.token].chosen.None?
    && w.visits[e.token].at <= e.at <= w.now
    && !w.visits[e.token].seen.due.gap && e.future == Some(x) && MinuteDue(x, w.visits[e.token].seen.hours) <= e.at
    && OpenDue(w.chat, w.visits[e.token].seen, e.at, e.future, w.now).0 != w.chat
  }

  lemma OpeningStarts(w: World, e: Event, x: int)
    requires MinuteInv(w) && HonestOpen(w, e) && OpensFor(w, e, x)
    ensures SinceOpening(Do(w, e), w.chat.policy.revision, w.chat.policy.hours, e.at, x, false)
  {
    var v := w.visits[e.token];
    OpenedPolicy(w, e);
    assert Leased(w.chat.policy, e.token) && VisitHolds(w, v) && PeekHolds(w, v);
    var w' := Do(w, e);
    forall y | Has(w'.chat.future, y)
      ensures x <= y
    {
      if End(y) <= v.first.value.at - Retention(w.chat.policy.hours) {
        assert Counts(y, GapMoment(v.seen));
      }
    }
  }

  /** The page that closes a due window at the same settings takes `x` off, if it is still there. */
  lemma ClosingTakesOpener(w: World, token: Token, r: nat, h: Hours, since: int, x: int)
    requires MinuteInv(w) && SinceOpening(w, r, h, since, x, false) && w.chat.policy.revision == r
    requires TakesEffect(w, token, Live, Due)
    requires ClosesDue(w.chat, w.visits[token].seen, w.visits[token].page.value, w.now)
    ensures !Has(Committed(w, token).chat.future, x)
  {
    var v, s := w.visits[token], w.chat;
    if Has(s.future, x) {
      FirstAfterIsLeast(s.future, None);
      assert FirstAfter(s.future, None) == Some(x);
      ClosingConsumesFirstMinute(s, v.seen, v.page.value, x, w.now);
    } else {
      ClearIsSound(s.future, s.policy.due.floor.value, s.policy.due.upper.value, WALK_LIMIT);
    }
  }

  predicate ClosesDueAt(w: World, token: Token) {
    && TakesEffect(w, token, Live, Due)
    && ClosesDue(w.chat, w.visits[token].seen, w.visits[token].page.value, w.now)
  }

  lemma OpeningStartsRun(w: World, events: seq<Event>, n: nat, x: int)
    requires Fresh(w) && HonestRun(w, events) && n < |events|
    requires OpensFor(Play(w, events[..n]), events[n], x)
    ensures SinceAt(w, events, n + 1, RevisionAt(w, events, n), HoursAt(w, events, n), events[n].at, x, false)
    ensures RevisionAt(w, events, n + 1) == RevisionAt(w, events, n)
  {
    HonestPrefix(w, events, n);
    MinuteInvAlways(w, events[..n]);
    OpeningStarts(Play(w, events[..n]), events[n], x);
    OpenedPolicy(Play(w, events[..n]), events[n]);
    PlaySnoc(w, events, n);
  }

  ghost function HoursAt(w: World, events: seq<Event>, k: nat): Hours
    requires k <= |events|
  {
    Play(w, events[..k]).chat.policy.hours
  }

  lemma TakenStaysOpen(w: World, token: Token, r: nat, h: Hours, since: int, x: int)
    requires MinuteInv(w) && SinceOpening(w, r, h, since, x, false) && w.chat.policy.revision == r
    requires ClosesDueAt(w, token)
    ensures SinceOpening(After(w, Commit(token)), r, h, since, x, true)
  {
    ClosingTakesOpener(w, token, r, h, since, x);
    EventKeepsSince(w, Commit(token), r, h, since, x, false);
  }

  /** The closing page at the same settings: afterwards the minute is gone. */
  lemma ClosingTakesAt(w: World, events: seq<Event>, m: nat, token: Token, r: nat, h: Hours, since: int, x: int)
    requires Fresh(w) && HonestRun(w, events) && m < |events| && SinceAt(w, events, m, r, h, since, x, false)
    requires events[m] == Commit(token) && ClosesDueAt(Play(w, events[..m]), token) && RevisionAt(w, events, m) == r
    ensures SinceAt(w, events, m + 1, r, h, since, x, true)
  {
    HonestPrefix(w, events, m);
    MinuteInvAlways(w, events[..m]);
    TakenStaysOpen(Play(w, events[..m]), token, r, h, since, x);
    PlaySnoc(w, events, m);
  }

  lemma SinceMeansGone(w: World, events: seq<Event>, k: nat, r: nat, h: Hours, since: int, x: int)
    requires k <= |events| && SinceAt(w, events, k, r, h, since, x, true) && RevisionAt(w, events, k) == r
    ensures !Has(Play(w, events[..k]).chat.future, x)
  {
  }

  /** From the opening on, to a closing at the same settings, and beyond. */
  lemma GoneFrom(w: World, events: seq<Event>, n: nat, m: nat, k: nat, token: Token, r: nat, h: Hours, since: int,
                 x: int)
    requires Fresh(w) && HonestRun(w, events) && n <= m < k <= |events| && SinceAt(w, events, n, r, h, since, x, false)
    requires events[m] == Commit(token) && ClosesDueAt(Play(w, events[..m]), token) && RevisionAt(w, events, m) == r
    ensures SinceAt(w, events, k, r, h, since, x, true)
  {
    RunKeepsSince(w, events, n, m, r, h, since, x, false);
    ClosingTakesAt(w, events, m, token, r, h, since, x);
    RunKeepsSince(w, events, m + 1, k, r, h, since, x, true);
  }

  /**
    In every run, once a ripe minute has opened a due window and a due window has closed after that, the
    minute is off the bitmap and stays off it, for as long as the settings are not changed: the same bit
    cannot open the scan again.
   */
  lemma DueMinuteIsConsumed(w: World, events: seq<Event>, n: nat, m: nat, k: nat, token: Token, x: int)
    requires Fresh(w) && HonestRun(w, events) && n < m < k <= |events|
    requires OpensFor(Play(w, events[..n]), events[n], x)
    requires events[m] == Commit(token) && ClosesDueAt(Play(w, events[..m]), token)
    requires Play(w, events[..k]).chat.policy.revision == Play(w, events[..n]).chat.policy.revision
    ensures !Has(Play(w, events[..k]).chat.future, x)
  {
    var r, h, since := RevisionAt(w, events, n), HoursAt(w, events, n), events[n].at;
    OpeningStartsRun(w, events, n, x);
    RevisionsGrow(w, events, n + 1, m);
    RevisionsGrow(w, events, m, k);
    GoneFrom(w, events, n + 1, m, k, token, r, h, since, x);
    SinceMeansGone(w, events, k, r, h, since, x);
  }

  // ---- two clock readings of one activation ----

  /** Every possible source time is reached by the history lane or by the safety lane. */
  ghost predicate LanesTile(p: Policy) {
    forall source: int :: AboveSafety(p, source) || InHistory(p, source)
  }

  /**
    The two statements of the activation read the clock for themselves. No source time is left between
    the lanes exactly when the safety floor lands at most one past the history cursor.
   */
  lemma ActivationTilesIff(s: Chat, token: Token, proofExpiresAt: int, activation: nat,
                           lowAt: int, historyAt: int, safetyAt: int, now: int)
    requires MayActivate(s, token, proofExpiresAt, true, now)
    ensures var t := ActivateConnection(s, token, proofExpiresAt, true, activation, lowAt, historyAt, safetyAt, now);
      && t.policy.enabled
      && (LanesTile(t.policy) <==> ActivationFloor(s.policy, safetyAt) <= ActivationCursor(s.policy, historyAt) + 1)
  {
    var t := ActivateConnection(s, token, proofExpiresAt, true, activation, lowAt, historyAt, safetyAt, now);
    var missed := ActivationCursor(s.policy, historyAt) + 1;
    assert t.policy.safety.floor == Some(ActivationFloor(s.policy, safetyAt));
    assert t.policy.history.cursor == Some(ActivationCursor(s.policy, historyAt));
    if ActivationFloor(s.policy, safetyAt) > missed {
      assert !AboveSafety(t.policy, missed) && !InHistory(t.policy, missed);
    }
  }

  /** One reading for both always tiles. */
  lemma EqualReadingsTile(s: Chat, token: Token, proofExpiresAt: int, activation: nat, at: int, now: int)
    requires MayActivate(s, token, proofExpiresAt, true, now)
    ensures LanesTile(ActivateConnection(s, token, proofExpiresAt, true, activation, at, at, at, now).policy)
  {
    ActivationTilesIff(s, token, proofExpiresAt, activation, at, at, at, now);
  }

  /** A settings save uses one cutoff for both lanes, so enabling always tiles. */
  lemma SaveTiles(s: Chat, operation: nat, body: SaveBody, activation: nat, now: int)
    requires Restarts(s.policy, body)
    ensures LanesTile(SavedPolicy(s.policy, operation, body, activation, now))
  {
  }
}
