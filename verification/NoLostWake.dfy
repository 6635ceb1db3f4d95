/**
  No lost wake: with no lease recorded, the ordinary schedule rests at the far end of time only
  when there is nothing to do. A visit that crashed leaves its lease behind, and with it the one
  way a wake can be missing: `CrashLosesWakeIff` says after which pages.
 */
module NoLostWake {
  import opened Wrappers
  import opened FutureMinutes
  import opened EraserTypes
  import opened Shielding
  import opened Transactions
  import opened Steps
  import opened ScanWorld
  import opened Coverage

  /** A minute that a retained gap window already reaches does not count as work. */
  predicate Blocked(p: Policy, x: int) {
    p.due.gap && p.due.upper.Some? && End(x) <= p.due.upper.value
  }

  predicate DueRunnable(p: Policy) {
    !p.due.gap && p.due.floor.Some? && (p.due.due || p.due.cursor.Some?)
  }

  /** Nothing pending, no tracked minute outside a blocked gap, no unfinished history, no due window to run. */
  ghost predicate Idle(s: Chat) {
    && (forall id :: id in s.candidates ==> s.candidates[id].state != Pending)
    && (forall x :: Has(s.future, x) ==> Blocked(s.policy, x))
    && (s.policy.history.complete || s.policy.history.gap)
    && !DueRunnable(s.policy)
  }

  predicate Asleep(p: Policy) {
    p.normalNextAt >= NO_WORK_AT
  }

  /** The schedule rests only when there is nothing to do: while no lease is recorded, or with `always` at any time. */
  ghost predicate Wakeful(s: Chat, always: bool) {
    (always || s.policy.lease.None?) && Asleep(s.policy) ==> Idle(s)
  }

  // ---- times stay before the end of the calendar ----

  const HORIZON: int := NO_WORK_AT - 8 * DAY

  /** No clock, wait or retry deadline of the event reaches the year 9999. */
  ghost predicate Timely(w: World, e: Event) {
    match e
    case Tick(to) => to <= HORIZON
    case Transact(step) =>
      && (step.Resolve? || step.EndVisit? ==> step.now + Max(1000, step.waitMs) < NO_WORK_AT)
      && (step.Mark? ==> step.mark + 10_000 < NO_WORK_AT)
    case _ => true
  }

  ghost predicate TimelyRun(w: World, events: seq<Event>) {
    w.now <= HORIZON && forall n :: 0 <= n < |events| ==> Timely(Play(w, events[..n]), events[n])
  }

  ghost predicate FutureBounded(s: Chat, now: int) {
    Valid(s.future) && forall x :: Has(s.future, x) ==> x <= now + MINUTE
  }

  ghost predicate RowsTimely(s: Chat) {
    forall id :: id in s.candidates ==> s.candidates[id].nextAttemptAt < NO_WORK_AT
  }

  /** What every transaction has to keep, seen from the rows alone. */
  ghost predicate RowsGood(s: Chat, now: int, always: bool) {
    Wakeful(s, always) && FutureBounded(s, now) && RowsTimely(s)
  }

  ghost predicate TimesBounded(w: World) {
    && w.now <= HORIZON
    && (forall id :: id in w.known ==> Plausible(w.known[id].source, w.now))
    && FutureBounded(w.chat, w.now)
    && RowsTimely(w.chat)
  }

  ghost predicate WakeInv(w: World, always: bool) {
    Inv(w) && TimesBounded(w) && Wakeful(w.chat, always)
  }

  // ---- rescheduling ----

  /** After a reschedule the schedule rests only when the chat is idle. */
  lemma RescheduleRests(s: Chat, head: Option<int>, now: int, failed: bool, waitMs: int)
    requires IsHead(s, head) && Valid(s.future)
    requires s.policy.due.gap ==> s.policy.due.upper.Some?
    requires forall id :: id in s.candidates && s.candidates[id].state == Pending
                          ==> EffectiveDue(s.candidates[id], s.policy.hours) < NO_WORK_AT
    requires forall x :: Has(s.future, x) ==> MinuteDue(x, s.policy.hours) < NO_WORK_AT
    requires now + Max(1000, waitMs) < NO_WORK_AT
    ensures Asleep(Reschedule(s, head, now, failed, waitMs).policy) ==> Idle(s)
  {
    var after := GapMoment(s.policy);
    FirstAfterIsLeast(s.future, after);
    var t := Reschedule(s, head, now, failed, waitMs);
    if Asleep(t.policy) {
      assert head.None?;
      assert PendingIds(s.candidates) == {};
      assert HasCapacity(s);
      assert FirstAfter(s.future, after).None?;
      forall x | Has(s.future, x)
        ensures Blocked(s.policy, x)
      {
      }
    }
  }

  /** Whether a chat is idle depends on its rows, its minutes and the two lanes of ordinary work only. */
  lemma SameWork(s: Chat, t: Chat)
    requires t.candidates == s.candidates && t.future == s.future
    requires t.policy.due == s.policy.due && t.policy.history == s.policy.history
    ensures Idle(t) <==> Idle(s)
  {
  }

  lemma DueBeforeEnd(s: Chat, now: int)
    requires FutureBounded(s, now) && RowsTimely(s) && now <= HORIZON
    requires forall id :: id in s.candidates ==> s.candidates[id].source <= now
    ensures forall id :: id in s.candidates ==> EffectiveDue(s.candidates[id], s.policy.hours) < NO_WORK_AT
    ensures forall x :: Has(s.future, x) ==> MinuteDue(x, s.policy.hours) < NO_WORK_AT
  {
  }

  /** Rescheduling changes only wakes, so idleness is the same before and after. */
  lemma RescheduleWakeful(s: Chat, head: Option<int>, now: int, failed: bool, waitMs: int)
    requires IsHead(s, head) && FutureBounded(s, now) && RowsTimely(s)
    requires s.policy.due.gap ==> s.policy.due.upper.Some?
    requires forall id :: id in s.candidates ==> s.candidates[id].source <= now
    requires now <= HORIZON && now + Max(1000, waitMs) < NO_WORK_AT
    ensures Idle(Reschedule(s, head, now, failed, waitMs)) <==> Idle(s)
    ensures Asleep(Reschedule(s, head, now, failed, waitMs).policy) ==> Idle(s)
  {
    DueBeforeEnd(s, now);
    RescheduleRests(s, head, now, failed, waitMs);
    RescheduleFrame(s, head, now, failed, waitMs);
    SameWork(s, Reschedule(s, head, now, failed, waitMs));
  }

  // ---- transactions ----

  /** A step that leaves the schedule, the lease and the lanes alone keeps an idle chat idle. */
  lemma StillWakeful(s: Chat, t: Chat, always: bool)
    requires Wakeful(s, always)
    requires t.policy.normalNextAt == s.policy.normalNextAt && t.policy.lease == s.policy.lease
    requires t.policy.due == s.policy.due && t.policy.history == s.policy.history && t.future == s.future
    requires forall id :: id in t.candidates && t.candidates[id].state == Pending
                          ==> id in s.candidates && s.candidates[id].state == Pending
    ensures Wakeful(t, always)
  {
  }

  lemma SettleWakeful(w: World, step: Step, always: bool)
    requires WakeInv(w, always) && step.Resolve? && step.now == w.now && Timely(w, Transact(step))
    ensures Wakeful(Apply(w.chat, step), always) && RowsTimely(Apply(w.chat, step))
  {
    var t := Apply(w.chat, step);
    if t != w.chat {
      var row := t.candidates[step.id];
      assert row.source == w.chat.candidates[step.id].source <= w.now - DAY;
      if step.to == Pending {
        assert EffectiveDue(row, w.chat.policy.hours) < NO_WORK_AT;
      } else {
        StillWakeful(w.chat, t, always);
      }
    }
  }

  lemma ProtectWakeful(w: World, input: Snapshot, always: bool)
    requires WakeInv(w, always)
    ensures Wakeful(ApplyProtection(w.chat, input, w.now), always)
  {
    var s := w.chat;
    var p1 := ReleaseCurrent(s.policy, input, w.now);
    var p2 := ReleaseHistorical(p1, s.protection, input, w.now);
    if ProtectRefusal(s.protection, input).None? && p2 == s.policy {
      StillWakeful(s, ApplyProtection(s, input, w.now), always);
    }
  }

  lemma CompactWakeful(s: Chat, now: int, always: bool)
    requires RowsGood(s, now, always) && GapHasWindow(s) && now <= HORIZON
    ensures RowsGood(Compact(s, now), now, always) && GapHasWindow(Compact(s, now))
  {
    var bound := now - Retention(s.policy.hours) - HOUR;
    var rows := Expired(s.future, bound, COMPACT_LIMIT);
    if rows != [] {
      CompactionIsCovered(s.future, bound, COMPACT_LIMIT);
      var t := Compact(s, now);
      assert t.future == s.future[|rows|..];
      assert Asleep(t.policy) ==> Asleep(s.policy);
    }
  }

  lemma NoteFutureWakeful(s: Chat, source: int, now: int, always: bool)
    requires Wakeful(s, always) && FutureBounded(s, now) && Plausible(source, now) && now <= HORIZON
    requires s.policy.due.gap ==> s.policy.due.upper.Some?
    ensures Wakeful(NoteFuture(s, source), always) && FutureBounded(NoteFuture(s, source), now)
  {
    PutAddsMinute(s.future, source);
    MinuteFacts(source);
    var t := NoteFuture(s, source);
    if Asleep(t.policy) && t.policy.lease.None? {
      assert Blocked(s.policy, MinuteOf(source));
    }
  }

  ghost predicate GapHasWindow(s: Chat) {
    s.policy.due.gap ==> s.policy.due.upper.Some?
  }

  lemma NoteDueWakeful(s: Chat, source: int, now: int, always: bool)
    requires FutureBounded(s, now) && RowsTimely(s) && now <= HORIZON
    ensures RowsGood(NoteDue(s, source, now), now, always) && GapHasWindow(NoteDue(s, source, now))
  {
  }

  lemma NoteCompactedWakeful(c: Chat, source: int, now: int, always: bool)
    requires RowsGood(c, now, always) && GapHasWindow(c) && Plausible(source, now) && now <= HORIZON
    ensures var t :=
              if source + Retention(c.policy.hours) > now then NoteFuture(c, source) else NoteDue(c, source, now);
            RowsGood(t, now, always) && GapHasWindow(t) && t.candidates == c.candidates
  {
    if source + Retention(c.policy.hours) > now {
      NoteFutureWakeful(c, source, now, always);
    } else {
      NoteDueWakeful(c, source, now, always);
    }
  }

  lemma NoteMessageWakeful(s: Chat, source: int, now: int, always: bool)
    requires RowsGood(s, now, always) && GapHasWindow(s) && Plausible(source, now) && now <= HORIZON
    ensures var t := NoteMessage(s, source, now);
            RowsGood(t, now, always) && GapHasWindow(t) && t.candidates == s.candidates
  {
    if s.policy.enabled {
      var c := Compact(s, now);
      CompactWakeful(s, now, always);
      assert c.candidates == s.candidates && c.policy.hours == s.policy.hours;
      NoteCompactedWakeful(c, source, now, always);
    }
  }

  lemma RemovalWakeful(s: Chat, id: MessageId, head: Option<int>, now: int, always: bool)
    requires Wakeful(s, always) && FutureBounded(s, now) && RowsTimely(s) && now <= HORIZON
    requires s.policy.due.gap ==> s.policy.due.upper.Some?
    requires forall i :: i in s.candidates ==> s.candidates[i].source <= now
    requires id in s.candidates ==> IsHead(RemovedRow(s, id, now), head)
    ensures Wakeful(NoteRemoval(s, id, head, now), always) && RowsTimely(NoteRemoval(s, id, head, now))
    ensures NoteRemoval(s, id, head, now).future == s.future
  {
    if id in s.candidates && !Terminal(s.candidates[id].state) {
      var r := RemovedRow(s, id, now);
      if s.candidates[id].state == Pending {
        RescheduleWakeful(r, head, now, false, 1000);
      } else {
        StillWakeful(s, r, always);
      }
    }
  }

  lemma MessageWakeful(s: Chat, receipt: nat, source: Option<int>, now: int, always: bool)
    requires RowsGood(s, now, always) && GapHasWindow(s) && now <= HORIZON && receipt !in s.receipts
    requires source.Some? ==> Plausible(source.value, now)
    ensures var t := IngestMessage(s, receipt, source, now);
            RowsGood(t, now, always) && GapHasWindow(t) && t.candidates == s.candidates
  {
    var noted := s.(receipts := s.receipts[receipt := now]);
    StillWakeful(s, noted, always);
    if source.Some? {
      NoteMessageWakeful(noted, source.value, now, always);
    }
  }

  lemma WebhookWakeful(w: World, step: Step, always: bool)
    requires WakeInv(w, always) && step.Webhook? && step.now == w.now && Enabled(w.chat, step)
    requires step.source.Some? ==> Plausible(step.source.value, w.now)
    ensures RowsGood(Apply(w.chat, step), w.now, always)
  {
    if step.receipt !in w.chat.receipts {
      var noted := IngestMessage(w.chat, step.receipt, step.source, w.now);
      MessageWakeful(w.chat, step.receipt, step.source, w.now, always);
      var gone := if step.removed.Some? then NoteRemoval(noted, step.removed.value, step.head, w.now) else noted;
      if step.removed.Some? {
        RemovalWakeful(noted, step.removed.value, step.head, w.now, always);
      }
      assert RowsGood(gone, w.now, always);
      if step.botRemoved {
        StillWakeful(gone, gone.(policy := gone.policy.(connection := Missing)), always);
      }
    }
  }

  lemma PutAllBounded(t: Table, sources: seq<int>, now: int)
    requires Valid(t) && (forall x :: Has(t, x) ==> x <= now + MINUTE)
    requires forall k :: 0 <= k < |sources| ==> Plausible(sources[k], now)
    ensures Valid(PutAll(t, sources)) && forall x :: Has(PutAll(t, sources), x) ==> x <= now + MINUTE
  {
    PutAllAddsMinutes(t, sources);
    forall x | Has(PutAll(t, sources), x)
      ensures x <= now + MINUTE
    {
      if !Has(t, x) {
        var k :| 0 <= k < |sources| && x == MinuteOf(sources[k]);
        MinuteFacts(sources[k]);
      }
    }
  }

  lemma AgedBounded(w: World, step: Step)
    requires Inv(w) && TimesBounded(w) && step.SaveSettings? && step.now == w.now
    requires forall k :: 0 <= k < |step.parked| ==> step.parked[k] in w.chat.candidates
    ensures var a := Aged(w.chat, step.body, step.parked, step.woken, w.now); FutureBounded(a, w.now) && RowsTimely(a)
  {
    var s := w.chat;
    var a := Aged(s, step.body, step.parked, step.woken, w.now);
    AgedKeepsSources(s, step.body, step.parked, step.woken, w.now);
    if a.future != s.future {
      var sources := SourcesOf(s.candidates, step.parked);
      forall k | 0 <= k < |sources|
        ensures Plausible(sources[k], w.now)
      {
        assert step.parked[k] in w.known;
      }
      PutAllBounded(s.future, sources, w.now);
    }
  }

  lemma SaveWakeful(w: World, step: Step, always: bool)
    requires WakeInv(w, always) && step.SaveSettings? && step.now == w.now
    ensures RowsGood(Apply(w.chat, step), w.now, always)
  {
    var s, t := w.chat, Apply(w.chat, step);
    if t != s {
      AgedBounded(w, step);
      var a := Aged(s, step.body, step.parked, step.woken, w.now);
      assert t.policy.normalNextAt == w.now && t.future == a.future && t.candidates == a.candidates;
    }
  }

  lemma RetryWakeful(w: World, step: Step, always: bool)
    requires WakeInv(w, always) && step.Retry? && step.now == w.now && Enabled(w.chat, step)
    ensures RowsGood(Apply(w.chat, step), w.now, always)
  {
    var s := w.chat;
    if MayRetry(s, step.id, step.revision, step.activation, step.updatedAt) {
      var r := Reopened(s, step.id, step.now);
      RescheduleWakeful(r, step.head, step.now, false, 1000);
    }
  }

  lemma EndVisitWakeful(w: World, step: Step, always: bool)
    requires WakeInv(w, always) && step.EndVisit? && step.now == w.now && Enabled(w.chat, step)
    requires Timely(w, Transact(step))
    ensures RowsGood(Apply(w.chat, step), w.now, always)
  {
    if Leased(w.chat.policy, step.token) {
      EndedVisitRests(w.chat, step.token, step.head, step.now, step.failed, step.waitMs);
    }
  }

  /** A visit that ends leaves the schedule at rest only in an idle chat. */
  lemma EndedVisitRests(s: Chat, token: Token, head: Option<int>, now: int, failed: bool, waitMs: int)
    requires IsHead(s, head) && FutureBounded(s, now) && RowsTimely(s) && Leased(s.policy, token)
    requires s.policy.due.gap ==> s.policy.due.upper.Some?
    requires forall id :: id in s.candidates ==> s.candidates[id].source <= now
    requires now <= HORIZON && now + Max(1000, waitMs) < NO_WORK_AT
    ensures var t := FinishVisit(s, token, head, failed, waitMs, now);
      && t.candidates == s.candidates && t.future == s.future && t.policy.lease.None?
      && (Asleep(t.policy) ==> Idle(t))
  {
    var r := Reschedule(s, head, now, failed, waitMs);
    RescheduleWakeful(s, head, now, failed, waitMs);
    RescheduleFrame(s, head, now, failed, waitMs);
    SameWork(s, r.(policy := r.policy.(lease := None)));
  }

  /** Steps that only take pending rows away. */
  ghost predicate OnlyFewerPending(s: Chat, t: Chat) {
    && t.future == s.future && t.policy.normalNextAt == s.policy.normalNextAt && t.policy.lease == s.policy.lease
    && t.policy.due == s.policy.due && t.policy.history == s.policy.history
    && (forall id :: id in t.candidates ==>
          (id in s.candidates && t.candidates[id] == s.candidates[id])
          || (t.candidates[id].state != Pending && t.candidates[id].nextAttemptAt < NO_WORK_AT))
  }

  lemma FewerPendingWakeful(s: Chat, t: Chat, now: int, always: bool)
    requires RowsGood(s, now, always) && OnlyFewerPending(s, t)
    ensures RowsGood(t, now, always)
  {
    StillWakeful(s, t, always);
  }

  lemma MarkWakeful(w: World, step: Step, always: bool)
    requires WakeInv(w, always) && step.Mark? && Timely(w, Transact(step))
    ensures RowsGood(Apply(w.chat, step), w.now, always)
  {
    FewerPendingWakeful(w.chat, Apply(w.chat, step), w.now, always);
  }

  lemma AwaitWakeful(w: World, step: Step, always: bool)
    requires WakeInv(w, always) && step.AwaitProtection?
    ensures RowsGood(Apply(w.chat, step), w.now, always)
  {
    AwaitFrame(w.chat, step);
    assert OnlyFewerPending(w.chat, Apply(w.chat, step));
    FewerPendingWakeful(w.chat, Apply(w.chat, step), w.now, always);
  }

  lemma HousekeepWakeful(w: World, step: Step, always: bool)
    requires WakeInv(w, always) && step.Housekeep?
    ensures RowsGood(Apply(w.chat, step), w.now, always)
  {
    FewerPendingWakeful(w.chat, Apply(w.chat, step), w.now, always);
  }

  lemma OtherWakeful(w: World, step: Step, always: bool)
    requires WakeInv(w, always) && PlainStep(w, step)
    requires step.LeaseConnection? || step.EndConnection? || step.Connect? || step.ReserveVisit? || step.Observe?
             || step.GlobalHolds?
    ensures RowsGood(Apply(w.chat, step), w.now, always)
  {
    var t := Apply(w.chat, step);
    OthersKeepRows(w.chat, step);
    if !step.Connect? && !step.ReserveVisit? {
      StillWakeful(w.chat, t, always);
    }
  }

  lemma OthersKeepRows(s: Chat, step: Step)
    requires step.LeaseConnection? || step.EndConnection? || step.Connect? || step.ReserveVisit? || step.Observe?
             || step.GlobalHolds?
    ensures Apply(s, step).future == s.future && Apply(s, step).candidates == s.candidates
  {
    match step
    case LeaseConnection(_, _, _) => RequestFrame(s, step);
    case EndConnection(_, _, _, _) => RequestFrame(s, step);
    case Connect(_, _, _, _, _, _, _, _) => ConnectFrame(s, step);
    case ReserveVisit(_, _, _) => ReserveFrame(s, step);
    case Observe(_, _) => ObserveFrame(s, step);
    case GlobalHolds(_, _) => HoldsFrame(s, step);
  }

  lemma TransactWakeful(w: World, step: Step, always: bool)
    requires WakeInv(w, always) && PlainStep(w, step) && Timely(w, Transact(step))
    requires step.Webhook? ==> step.source.None?
    ensures RowsGood(Apply(w.chat, step), w.now, always)
  {
    match step
    case Protect(input, now) => ProtectWakeful(w, input, always);
    case SaveSettings(_, _, _, _, _, _, _) => SaveWakeful(w, step, always);
    case Webhook(_, _, _, _, _, _) => WebhookWakeful(w, step, always);
    case EndVisit(_, _, _, _, _) => EndVisitWakeful(w, step, always);
    case Resolve(_, _, _, _, _, _) => SettleWakeful(w, step, always);
    case Retry(_, _, _, _, _, _) => RetryWakeful(w, step, always);
    case Mark(_, _, _, _, _, _, _, _, _, _) => MarkWakeful(w, step, always);
    case AwaitProtection(_) => AwaitWakeful(w, step, always);
    case Housekeep(_, _, _) => HousekeepWakeful(w, step, always);
    case _ => OtherWakeful(w, step, always);
  }

  // ---- scans run under a lease ----

  /** The opening of a window, or a page, leaves an idle chat idle. */
  ghost predicate ScanKeepsRest(w: World, e: Event) {
    (e.Open? || e.Commit?) && Can(w, e) && Asleep(w.chat.policy) && Idle(w.chat) ==> Idle(Do(w, e).chat)
  }

  /** A scan writes only under a lease, and leaves the wakes of ordinary work alone. */
  lemma OpenWakeful(w: World, e: Event, always: bool)
    requires WakeInv(w, always) && e.Open? && Can(w, e) && (always ==> ScanKeepsRest(w, e))
    ensures RowsGood(Do(w, e).chat, w.now, always)
  {
    var s, t := w.chat, Do(w, e).chat;
    OpenFrame(s, w.visits[e.token].seen, e.lane, e.purpose, e.at, e.future, w.now);
    OpenMoves(s, w.visits[e.token].seen, e.lane, e.purpose, e.at, e.future, w.now);
    assert t.future == s.future && t.candidates == s.candidates;
    assert t.policy.lease == s.policy.lease && t.policy.normalNextAt == s.policy.normalNextAt;
    if t.policy.due == s.policy.due {
      SameWork(s, t);
    }
  }

  lemma CommitWakeful(w: World, token: Token, always: bool)
    requires WakeInv(w, always) && Can(w, Commit(token)) && (always ==> ScanKeepsRest(w, Commit(token)))
    ensures RowsGood(Committed(w, token).chat, w.now, always)
  {
    var v := w.visits[token];
    var o, page := v.chosen.value, v.page.value;
    if PageAccepted(w.chat, v.seen, o.lane, o.purpose, w.now) {
      CommitTimes(w, token);
      TakenFrame(w.chat, o.lane, page, o.purpose, w.now);
      PageKeepsWake(w.chat, o.lane, page, o.purpose, w.now);
      assert Committed(w, token) == Do(w, Commit(token));
    }
  }

  lemma PageKeepsWake(s: Chat, lane: Lane, page: seq<Message>, purpose: Purpose, now: int)
    ensures PageTaken(s, lane, page, purpose, now).policy.normalNextAt == s.policy.normalNextAt
  {
  }

  /** New rows are due at once, and a closing window only clears minutes. */
  lemma CommitTimes(w: World, token: Token)
    requires WakeInv(w, false) && Can(w, Commit(token))
    ensures FutureBounded(Committed(w, token).chat, w.now) && RowsTimely(Committed(w, token).chat)
  {
    var v := w.visits[token];
    var o, page := v.chosen.value, v.page.value;
    if PageAccepted(w.chat, v.seen, o.lane, o.purpose, w.now) {
      TakeInAllAbsorbs(w.chat, o.lane, w.now, page);
      CommitRowsTimely(w, o.lane, page, o.purpose);
      if PageTaken(w.chat, o.lane, page, o.purpose, w.now).future != w.chat.future {
        ClearIsSound(w.chat.future, w.chat.policy.due.floor.value, w.chat.policy.due.upper.value, WALK_LIMIT);
      }
    }
  }

  lemma CommitRowsTimely(w: World, lane: Lane, page: seq<Message>, purpose: Purpose)
    requires RowsTimely(w.chat) && w.now <= HORIZON
    ensures RowsTimely(PageTaken(w.chat, lane, page, purpose, w.now))
  {
    TakeInAllAbsorbs(w.chat, lane, w.now, page);
    var rows := TakeInAll(w.chat, lane, w.now, page).rows;
    assert PageTaken(w.chat, lane, page, purpose, w.now).candidates == rows;
    forall id | id in rows
      ensures rows[id].nextAttemptAt < NO_WORK_AT
    {
      assert id in w.chat.candidates || RowFrom(w.chat, lane, w.now, page, id, rows[id]);
    }
  }

  /** What is left of the invariant when the store stays good and no message is too far ahead. */
  lemma StoreWakeful(w: World, w': World, always: bool)
    requires WakeInv(w, always) && Inv(w') && RowsGood(w'.chat, w.now, always)
    requires w'.now == w.now && w'.known == w.known
    ensures WakeInv(w', always)
  {
  }

  lemma VisitWakeful(w: World, e: Event, always: bool)
    requires WakeInv(w, always) && Can(w, e) && (always ==> ScanKeepsRest(w, e)) && Inv(Do(w, e))
    requires e.Look? || e.Peek? || e.Open? || e.Fetch? || e.Commit?
    ensures WakeInv(Do(w, e), always)
  {
    if e.Open? {
      OpenWakeful(w, e, always);
      StoreWakeful(w, Do(w, e), always);
    } else if e.Commit? {
      PageWakeful(w, e.token, always);
    } else {
      ReadWakeful(w, e, always);
    }
  }

  lemma PageWakeful(w: World, token: Token, always: bool)
    requires WakeInv(w, always) && Can(w, Commit(token)) && Inv(Do(w, Commit(token)))
    requires always ==> ScanKeepsRest(w, Commit(token))
    ensures WakeInv(Do(w, Commit(token)), always)
  {
    CommitWakeful(w, token, always);
    StoreWakeful(w, Do(w, Commit(token)), always);
  }

  lemma ReadWakeful(w: World, e: Event, always: bool)
    requires WakeInv(w, always) && Can(w, e) && Inv(Do(w, e)) && (e.Look? || e.Peek? || e.Fetch?)
    ensures WakeInv(Do(w, e), always)
  {
  }

  lemma OutsideWakeful(w: World, e: Event, always: bool)
    requires WakeInv(w, always) && Can(w, e) && Timely(w, e) && Inv(Do(w, e))
    requires e.Tick? || e.Post? || e.PostLate? || e.Vanish?
    ensures WakeInv(Do(w, e), always)
  {
  }

  lemma EventWakeful(w: World, e: Event, always: bool)
    requires WakeInv(w, always) && Can(w, e) && Timely(w, e) && (always ==> ScanKeepsRest(w, e))
    ensures WakeInv(Do(w, e), always)
  {
    EventKeeps(w, e);
    if e.Transact? {
      TransactWakeful(w, e.step, always);
      StoreWakeful(w, Do(w, e), always);
    } else if e.Announce? {
      WebhookWakeful(w, e.step, always);
      StoreWakeful(w, Do(w, e), always);
    } else if e.Tick? || e.Post? || e.PostLate? || e.Vanish? {
      OutsideWakeful(w, e, always);
    } else {
      VisitWakeful(w, e, always);
    }
  }

  lemma TimelyPrefix(w: World, events: seq<Event>, n: nat)
    requires TimelyRun(w, events) && n <= |events|
    ensures TimelyRun(w, events[..n])
  {
    forall k | 0 <= k < n
      ensures Timely(Play(w, events[..n][..k]), events[..n][k])
    {
      assert events[..n][..k] == events[..k];
    }
  }

  lemma {:induction false} WakeInvAlways(w: World, events: seq<Event>)
    requires Fresh(w) && TimelyRun(w, events)
    ensures WakeInv(Play(w, events), false)
  {
    if events == [] {
    } else {
      var n := |events| - 1;
      TimelyPrefix(w, events, n);
      WakeInvAlways(w, events[..n]);
      if Can(Play(w, events[..n]), events[n]) {
        EventWakeful(Play(w, events[..n]), events[n], false);
      }
    }
  }

  /**
    In every run: with no lease recorded and the schedule at rest, nothing is pending, no tracked minute
    is outside a blocked gap, history is finished or blocked, and the due lane has no window to run.
   */
  lemma NoWakeIsLost(w: World, events: seq<Event>)
    requires Fresh(w) && TimelyRun(w, events)
    requires var s := Play(w, events).chat; s.policy.lease.None? && s.policy.normalNextAt == NO_WORK_AT
    ensures Idle(Play(w, events).chat)
  {
    WakeInvAlways(w, events);
  }

  // ---- the lease a crash leaves behind ----

  /** An expired lease is not a held one: the next reservation would take it. */
  predicate LeaseExpired(p: Policy, now: int) {
    p.lease.Some? && p.lease.value.until < now
  }

  /** Nobody works on the chat, something is pending, and no ordinary reservation will ever pick it up. */
  ghost predicate WakeLost(s: Chat, now: int) {
    && LeaseExpired(s.policy, now) && !Idle(s)
    && forall token, t :: now <= t < NO_WORK_AT ==> Reserve(s, token, Due, t) == s
  }

  // ---- exactly which pages lose the wake ----

  /** Some message of the page becomes a new journal row. */
  predicate AdmitsNew(s: Chat, page: seq<Message>, now: int) {
    exists k :: 0 <= k < |page| && Judge(s, page[k], now) == Admit && page[k].id !in s.candidates
  }

  /**
    The page closes a safety window that settles the retained gap, or forgets its upper end, and work was
    waiting behind it.
   */
  predicate SettlesGap(s: Chat, page: seq<Message>) {
    var p := s.policy;
    && Closes(page, p.safety.upper) && p.due.gap
    && (WithinWindow(p.due.gapAt, p.safety.floor, p.safety.upper) || p.due.floor.None?)
    && (s.future != [] || (p.due.floor.Some? && (p.due.due || p.due.cursor.Some?)))
  }

  lemma {:induction false} NewRowsIff(s: Chat, lane: Lane, now: int, page: seq<Message>)
    ensures AdmitsNew(s, page, now) <==> exists id :: id in TakeInAll(s, lane, now, page).rows && id !in s.candidates
  {
    if page != [] {
      var n := |page| - 1;
      NewRowsIff(s, lane, now, page[..n]);
      var before, m := TakeInAll(s, lane, now, page[..n]).rows, page[n];
      assert AdmitsNew(s, page, now) <==>
             AdmitsNew(s, page[..n], now) || (Judge(s, m, now) == Admit && m.id !in s.candidates) by {
        if k :| 0 <= k < |page| && Judge(s, page[k], now) == Admit && page[k].id !in s.candidates {
          assert k < n ==> page[..n][k] == page[k];
        }
        if k :| 0 <= k < n && Judge(s, page[..n][k], now) == Admit && page[..n][k].id !in s.candidates {
          assert page[k] == page[..n][k];
        }
      }
      TakeInStep(s, lane, now, TakeInAll(s, lane, now, page[..n]), m);
    }
  }

  /** A valid table without minutes has no rows. */
  lemma NoMinutesNoRows(t: Table)
    requires Valid(t) && t != []
    ensures exists x :: Has(t, x)
  {
    assert ValidRow(t[0]);
    var i :| 0 <= i < 60 && t[0].bits[i];
    BitIsMinute(t, 0, i);
  }

  lemma PendingAfterPage(s: Chat, purpose: Purpose, page: seq<Message>, now: int)
    requires Idle(s)
    ensures (exists id :: id in PageTaken(s, Live, page, purpose, now).candidates
                          && PageTaken(s, Live, page, purpose, now).candidates[id].state == Pending)
            <==> AdmitsNew(s, page, now)
  {
    NewRowsIff(s, Live, now, page);
    TakeInAllAbsorbs(s, Live, now, page);
    var rows := TakeInAll(s, Live, now, page).rows;
    assert PageTaken(s, Live, page, purpose, now).candidates == rows;
    forall id | id in rows
      ensures rows[id].state == Pending <==> id !in s.candidates
    {
      if id !in s.candidates {
        assert RowFrom(s, Live, now, page, id, rows[id]);
      }
    }
  }

  /** What a safety page does to the due lane: nothing, unless it closes its window. */
  lemma DueAfterSafetyPage(s: Chat, page: seq<Message>, now: int)
    ensures var t, p := PageTaken(s, Live, page, Safety, now), s.policy;
      && t.future == s.future && t.policy.history == p.history
      && t.policy.due.floor == p.due.floor && t.policy.due.due == p.due.due
      && (if Closes(page, p.safety.upper) then
            && t.policy.due.gap == (p.due.gap && !WithinWindow(p.due.gapAt, p.safety.floor, p.safety.upper))
            && t.policy.due.cursor == (if p.due.floor.None? then None else p.due.cursor)
            && t.policy.due.upper == (if p.due.floor.None? then None else p.due.upper)
          else t.policy.due == p.due)
  {
  }

  /** The lanes an idle chat is left with after a safety page: still nothing to run, unless a gap was settled. */
  lemma LanesAfterSafetyPage(s: Chat, page: seq<Message>, now: int)
    requires Idle(s) && Valid(s.future)
    ensures var t := PageTaken(s, Live, page, Safety, now);
      && t.future == s.future && t.policy.history == s.policy.history
      && (SettlesGap(s, page) <==> DueRunnable(t.policy) || exists x :: Has(t.future, x) && !Blocked(t.policy, x))
  {
    DueAfterSafetyPage(s, page, now);
    var t := PageTaken(s, Live, page, Safety, now);
    if s.future != [] {
      NoMinutesNoRows(s.future);
      var x :| Has(s.future, x);
      assert Has(t.future, x) && Blocked(s.policy, x);
    }
  }

  /**
    A visit of an idle, sleeping chat that dies right after its safety page loses the ordinary wake exactly
    when the page put a new row into the journal or settled a gap that held work back.
   */
  lemma CrashLosesWakeIff(s: Chat, seen: Policy, page: seq<Message>, now: int, later: int)
    requires PageAccepted(s, seen, Live, Safety, now) && Idle(s) && Valid(s.future) && Asleep(s.policy)
    requires s.policy.lease.value.until < later
    ensures WakeLost(SavePage(s, seen, Live, page, Safety, now), later)
            <==> AdmitsNew(s, page, now) || SettlesGap(s, page)
  {
    var t := PageTaken(s, Live, page, Safety, now);
    PendingAfterPage(s, Safety, page, now);
    LanesAfterSafetyPage(s, page, now);
    TakenFrame(s, Live, page, Safety, now);
    assert t.policy.normalNextAt == s.policy.normalNextAt;
    assert forall token, at :: later <= at < NO_WORK_AT ==> Reserve(t, token, Due, at) == t;
  }
}
