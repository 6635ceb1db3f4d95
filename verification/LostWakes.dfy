/**
  The run-level half of the lost wake: in every run, the ordinary schedule rests over work that waits only
  after a safety page that admitted a new row or settled a gap, with nothing but crashed visits since; and
  a safety visit that does end restores the wake.
 */
module LostWakes {
  import opened Wrappers
  import opened FutureMinutes
  import opened EraserTypes
  import opened Transactions
  import opened Steps
  import opened ScanWorld
  import opened Coverage
  import opened NoLostWake
  import opened DueProgress

  /** Work waits and the ordinary schedule will never come to it. */
  ghost predicate Overslept(s: Chat) {
    Asleep(s.policy) && !Idle(s)
  }

  /** A safety page that leaves work to an ordinary schedule at rest. */
  predicate LosesWake(w: World, e: Event) {
    && e.Commit? && TakesEffect(w, e.token, Live, Safety)
    && (AdmitsNew(w.chat, w.visits[e.token].page.value, w.now) || SettlesGap(w.chat, w.visits[e.token].page.value))
  }

  // ---- while the due generation stands, no minute leaves the bitmap ----

  ghost predicate KeepsMinutes(s: Chat, t: Chat) {
    t.policy.revision == s.policy.revision && t.policy.dueGeneration == s.policy.dueGeneration ==>
      forall x :: Has(s.future, x) ==> Has(t.future, x)
  }

  lemma CompactKeepsMinutes(s: Chat, now: int)
    ensures var c := Compact(s, now);
      c == s || (c.policy.dueGeneration == s.policy.dueGeneration + 1 && c.policy.revision == s.policy.revision)
  {
  }

  lemma NoteFutureKeepsMinutes(s: Chat, source: int)
    requires Valid(s.future) && source > 0
    ensures KeepsMinutes(s, NoteFuture(s, source))
    ensures NoteFuture(s, source).policy.dueGeneration == s.policy.dueGeneration
  {
    PutAddsMinute(s.future, source);
  }

  lemma MessageKeepsMinutes(s: Chat, source: int, now: int)
    requires Valid(s.future) && source > 0
    ensures KeepsMinutes(s, NoteMessage(s, source, now))
    ensures NoteMessage(s, source, now).policy.dueGeneration >= s.policy.dueGeneration
  {
    if s.policy.enabled {
      var c := Compact(s, now);
      CompactOnlyDrops(s, now);
      CompactKeepsMinutes(s, now);
      if source + Retention(s.policy.hours) > now {
        NoteFutureKeepsMinutes(c, source);
      } else {
        assert NoteDue(c, source, now).policy.dueGeneration == c.policy.dueGeneration + 1;
      }
    }
  }

  lemma WebhookKeepsMinutes(s: Chat, step: Step)
    requires Valid(s.future) && step.Webhook? && (step.source.Some? ==> step.source.value > 0)
    ensures KeepsMinutes(s, Apply(s, step))
  {
    if step.receipt !in s.receipts {
      var s0 := s.(receipts := s.receipts[step.receipt := step.now]);
      var noted := IngestMessage(s, step.receipt, step.source, step.now);
      if step.source.Some? {
        MessageKeepsMinutes(s0, step.source.value, step.now);
      }
      assert KeepsMinutes(s, noted) && noted.policy.dueGeneration >= s.policy.dueGeneration;
      if step.removed.Some? {
        RemovalIsQuiet(noted, {}, step.removed.value, step.head, step.now);
        RemovalFrame(noted, step.removed.value, step.head, step.now);
      }
    }
  }

  lemma TransactKeepsTracked(w: World, step: Step)
    requires MinuteInv(w) && PlainStep(w, step) && (step.Webhook? && step.source.Some? ==> step.source.value > 0)
    ensures KeepsMinutes(w.chat, Apply(w.chat, step))
  {
    var s := w.chat;
    match step
    case Webhook(_, _, _, _, _, _) => WebhookKeepsMinutes(s, step);
    case SaveSettings(_, _, _, _, _, _, _) => SaveKeepsTracked(s, step);
    case Connect(_, _, _, _, _, _, _, _) =>
    case Protect(_, _) =>
    case ReserveVisit(_, _, _) =>
    case AwaitProtection(_) =>
    case Housekeep(_, _, _) =>
    case _ => QuietKeepsFuture(s, step);
  }

  lemma SaveKeepsTracked(s: Chat, step: Step)
    requires step.SaveSettings?
    ensures KeepsMinutes(s, Apply(s, step))
  {
    if Apply(s, step) != s {
      assert Apply(s, step).policy.revision == s.policy.revision + 1;
    }
  }

  lemma PageKeepsTracked(s: Chat, lane: Lane, page: seq<Message>, purpose: Purpose, now: int)
    ensures KeepsMinutes(s, PageTaken(s, lane, page, purpose, now))
  {
  }

  // ---- the minute a worker peeked at is still tracked ----

  ghost predicate PeekTracked(w: World, v: Visit) {
    v.first.Some? && v.first.value.minute.Some? && v.chosen.None?
    && SameGeneration(w.chat.policy, v.seen) && w.chat.policy.dueGeneration == v.seen.dueGeneration ==>
      Has(w.chat.future, v.first.value.minute.value) && Counts(v.first.value.minute.value, GapMoment(v.seen))
  }

  ghost predicate PeeksTracked(w: World) {
    forall token :: token in w.visits && Leased(w.chat.policy, token) ==> PeekTracked(w, w.visits[token])
  }

  lemma StepKeepsTracked(w: World, w': World)
    requires MinuteInv(w) && StepsMinutes(w, w') && KeepsMinutes(w.chat, w'.chat) && PeeksTracked(w)
    ensures PeeksTracked(w')
  {
    forall token | token in w'.visits && Leased(w'.chat.policy, token)
      ensures PeekTracked(w', w'.visits[token])
    {
      var v := w.visits[token];
      assert VisitHolds(w, v) && PeekTracked(w, v);
    }
  }

  lemma OpenKeepsTracked(w: World, e: Event)
    requires e.Open? && Can(w, e) && PeeksTracked(w)
    ensures PeeksTracked(Do(w, e))
  {
    OpenedPolicy(w, e);
    var w' := Do(w, e);
    forall t | t in w'.visits && Leased(w'.chat.policy, t)
      ensures PeekTracked(w', w'.visits[t])
    {
      assert PeekTracked(w, w.visits[t]);
    }
  }

  lemma ReadKeepsTracked(w: World, e: Event)
    requires (e.Look? || e.Peek? || e.Fetch?) && Can(w, e) && PeeksTracked(w) && Valid(w.chat.future)
    ensures PeeksTracked(Do(w, e))
  {
    if e.Peek? {
      FirstAfterIsLeast(w.chat.future, GapMoment(w.visits[e.token].seen));
    }
    var w' := Do(w, e);
    forall t | t in w'.visits && Leased(w'.chat.policy, t)
      ensures PeekTracked(w', w'.visits[t])
    {
      assert t == e.token || PeekTracked(w, w.visits[t]);
      assert e.token in w.visits && !e.Look? ==> PeekTracked(w, w.visits[e.token]) || e.token != t;
    }
  }

  lemma StoreKeepsTracked(w: World, step: Step, w': World)
    requires MinuteInv(w) && PlainStep(w, step) && (step.Webhook? && step.source.Some? ==> step.source.value > 0)
    requires Inv(w') && w'.chat == Apply(w.chat, step) && w'.now == w.now && w'.known == w.known
    requires w'.visits == w.visits
    requires PeeksTracked(w)
    ensures PeeksTracked(w')
  {
    TransactKeepsTracked(w, step);
    TransactStepsMinutes(w, step, w');
    StepKeepsTracked(w, w');
  }

  lemma OutsideKeepsTracked(w: World, e: Event)
    requires MinuteInv(w) && Can(w, e) && (e.Tick? || e.Post? || e.PostLate? || e.Vanish?) && Inv(Do(w, e))
    requires PeeksTracked(w)
    ensures PeeksTracked(Do(w, e))
  {
    SameMinutes(w.chat, w.chat, w.now);
    StepKeepsTracked(w, Do(w, e));
  }

  lemma PageStepKeepsTracked(w: World, token: Token)
    requires MinuteInv(w) && Can(w, Commit(token)) && Inv(Do(w, Commit(token))) && PeeksTracked(w)
    ensures PeeksTracked(Do(w, Commit(token)))
  {
    CommitStepsMinutes(w, token);
    CommitKeepsTracked(w, token);
    StepKeepsTracked(w, Do(w, Commit(token)));
  }

  lemma EventKeepsTracked(w: World, e: Event)
    requires MinuteInv(w) && Can(w, e) && HonestOpen(w, e) && PeeksTracked(w)
    ensures PeeksTracked(Do(w, e))
  {
    EventKeeps(w, e);
    if e.Transact? || e.Announce? {
      StoreKeepsTracked(w, e.step, Do(w, e));
    } else if e.Commit? {
      PageStepKeepsTracked(w, e.token);
    } else if e.Open? {
      OpenKeepsTracked(w, e);
    } else if e.Tick? || e.Post? || e.PostLate? || e.Vanish? {
      OutsideKeepsTracked(w, e);
    } else {
      ReadKeepsTracked(w, e);
    }
  }

  lemma CommitKeepsTracked(w: World, token: Token)
    requires Can(w, Commit(token))
    ensures KeepsMinutes(w.chat, Do(w, Commit(token)).chat)
  {
    var v := w.visits[token];
    PageKeepsTracked(w.chat, v.chosen.value.lane, v.page.value, v.chosen.value.purpose, w.now);
  }

  lemma {:induction false} TrackedAlways(w: World, events: seq<Event>)
    requires Fresh(w) && HonestRun(w, events)
    ensures PeeksTracked(Play(w, events))
  {
    if events != [] {
      var n := |events| - 1;
      HonestPrefix(w, events, n);
      TrackedAlways(w, events[..n]);
      MinuteInvAlways(w, events[..n]);
      if Can(Play(w, events[..n]), events[n]) {
        EventKeepsTracked(Play(w, events[..n]), events[n]);
      }
    }
  }

  // ---- what a scan can do to an idle chat ----

  /** An idle chat has no due window to open: the first minute that counts would be work. */
  lemma IdleOpensNoDue(w: World, token: Token, at: int, future: Option<int>)
    requires MinuteInv(w) && PeeksTracked(w) && Can(w, Open(token, Live, Due, at, future)) && Idle(w.chat)
    requires HonestOpen(w, Open(token, Live, Due, at, future))
    ensures OpenDue(w.chat, w.visits[token].seen, at, future, w.now).0 == w.chat
  {
    var v, p := w.visits[token], w.chat.policy;
    if SameScan(p, v.seen, w.now) && p.dueGeneration == v.seen.dueGeneration {
      assert Leased(p, token) && VisitHolds(w, v) && PeekTracked(w, v);
      assert SnapshotHolds(p, v) && SameDue(p.due, v.seen.due);
    }
  }

  lemma IdleOpen(w: World, e: Event)
    requires MinuteInv(w) && PeeksTracked(w) && e.Open? && Can(w, e) && HonestOpen(w, e) && Idle(w.chat)
    ensures Idle(Do(w, e).chat)
  {
    var t := Do(w, e).chat;
    OpenFrame(w.chat, w.visits[e.token].seen, e.lane, e.purpose, e.at, e.future, w.now);
    OpenMoves(w.chat, w.visits[e.token].seen, e.lane, e.purpose, e.at, e.future, w.now);
    if e.lane == Live && e.purpose == Due {
      IdleOpensNoDue(w, e.token, e.at, e.future);
    }
    SameWork(w.chat, t);
  }

  /** In an idle chat only a safety page can take effect. */
  lemma IdleTakesSafetyOnly(w: World, token: Token)
    requires Inv(w) && Can(w, Commit(token)) && Idle(w.chat)
    requires var o := w.visits[token].chosen.value;
             PageAccepted(w.chat, w.visits[token].seen, o.lane, o.purpose, w.now)
    ensures w.visits[token].chosen.value.lane == Live && w.visits[token].chosen.value.purpose == Safety
  {
    assert VisitHolds(w, w.visits[token]);
    assert WindowHolds(w.chat.policy, w.visits[token], w.visits[token].chosen.value);
  }

  lemma IdleCommit(w: World, token: Token)
    requires Inv(w) && Valid(w.chat.future) && Can(w, Commit(token)) && Idle(w.chat) && !LosesWake(w, Commit(token))
    ensures Idle(Do(w, Commit(token)).chat)
  {
    var v := w.visits[token];
    var o, page := v.chosen.value, v.page.value;
    if PageAccepted(w.chat, v.seen, o.lane, o.purpose, w.now) {
      IdleTakesSafetyOnly(w, token);
      PendingAfterPage(w.chat, Safety, page, w.now);
      LanesAfterSafetyPage(w.chat, page, w.now);
    }
  }

  lemma ScanRests(w: World, e: Event)
    requires MinuteInv(w) && PeeksTracked(w) && HonestOpen(w, e) && !LosesWake(w, e)
    ensures ScanKeepsRest(w, e)
  {
    if (e.Open? || e.Commit?) && Can(w, e) && Idle(w.chat) {
      if e.Open? {
        IdleOpen(w, e);
      } else {
        IdleCommit(w, e.token);
      }
    }
  }

  // ---- over runs ----

  /** The one event that turns a chat that is not overslept into one that is. */
  lemma OversleepsOnPage(w: World, e: Event)
    requires WakeInv(w, false) && MinuteInv(w) && PeeksTracked(w) && Timely(w, e) && HonestOpen(w, e)
    requires !Overslept(w.chat) && Overslept(After(w, e).chat)
    ensures LosesWake(w, e)
  {
    if !LosesWake(w, e) {
      ScanRests(w, e);
      EventWakeful(w, e, true);
    }
  }

  lemma InvAt(w: World, events: seq<Event>, n: nat)
    requires Fresh(w) && TimelyRun(w, events) && HonestRun(w, events) && n <= |events|
    ensures WakeInv(Play(w, events[..n]), false) && MinuteInv(Play(w, events[..n]))
    ensures PeeksTracked(Play(w, events[..n]))
  {
    TimelyPrefix(w, events, n);
    HonestPrefix(w, events, n);
    WakeInvAlways(w, events[..n]);
    MinuteInvAlways(w, events[..n]);
    TrackedAlways(w, events[..n]);
  }

  lemma FreshIsAwake(w: World)
    requires Fresh(w)
    ensures !Overslept(w.chat)
  {
  }

  /** Overslept after the first `k` events, with a lease recorded. */
  ghost predicate OversleptAt(w: World, events: seq<Event>, k: nat)
    requires k <= |events|
  {
    Overslept(Play(w, events[..k]).chat) && Play(w, events[..k]).chat.policy.lease.Some?
  }

  lemma OversleptIsLeased(w: World, events: seq<Event>, m: nat)
    requires Fresh(w) && TimelyRun(w, events) && HonestRun(w, events) && m <= |events|
    requires Overslept(Play(w, events[..m]).chat)
    ensures m > 0 && OversleptAt(w, events, m)
  {
    InvAt(w, events, m);
    FreshIsAwake(w);
  }

  /** Overslept at `m`: either the event before put the chat to sleep, or it was overslept before that too. */
  lemma OversleptBefore(w: World, events: seq<Event>, m: nat)
    requires Fresh(w) && TimelyRun(w, events) && HonestRun(w, events) && 0 < m <= |events|
    requires OversleptAt(w, events, m)
    ensures OversleptAt(w, events, m - 1) || LosesWake(Play(w, events[..m - 1]), events[m - 1])
  {
    var before := Play(w, events[..m - 1]);
    if Overslept(before.chat) {
      OversleptIsLeased(w, events, m - 1);
    } else {
      PlaySnoc(w, events, m - 1);
      InvAt(w, events, m - 1);
      OversleepsOnPage(before, events[m - 1]);
    }
  }

  lemma AwakeAtStart(w: World, events: seq<Event>)
    requires Fresh(w)
    ensures !OversleptAt(w, events, 0)
  {
    FreshIsAwake(w);
    assert events[..0] == [];
  }

  /** The last moment before `m` at which the chat was not overslept. */
  lemma SleepStarts(w: World, events: seq<Event>, m: nat) returns (n: nat)
    requires Fresh(w) && m <= |events| && OversleptAt(w, events, m)
    ensures n < m && !OversleptAt(w, events, n) && forall k :: n < k <= m ==> OversleptAt(w, events, k)
  {
    AwakeAtStart(w, events);
    n := m - 1;
    while OversleptAt(w, events, n)
      invariant n < m && forall k :: n < k <= m ==> OversleptAt(w, events, k)
      decreases n
    {
      n := n - 1;
    }
  }

  /**
    In every run: a chat that is overslept was put to sleep by a safety page that admitted a new row or
    settled a gap, and from that page on it has been overslept, with a lease recorded, at every moment.
   */
  lemma OversleptSincePage(w: World, events: seq<Event>, m: nat) returns (n: nat)
    requires Fresh(w) && TimelyRun(w, events) && HonestRun(w, events) && m <= |events|
    requires Overslept(Play(w, events[..m]).chat)
    ensures n < m && LosesWake(Play(w, events[..n]), events[n])
    ensures forall k :: n < k <= m ==> OversleptAt(w, events, k)
  {
    OversleptIsLeased(w, events, m);
    n := SleepStarts(w, events, m);
    OversleptBefore(w, events, n + 1);
  }

  /** A visit that ends, whatever it was for, leaves no chat overslept: the next safety visit restores the wake. */
  lemma EndedVisitRestores(w: World, events: seq<Event>, step: Step)
    requires Fresh(w) && TimelyRun(w, events + [Transact(step)])
    requires var w' := Play(w, events); step.EndVisit? && PlainStep(w', step) && Leased(w'.chat.policy, step.token)
    ensures !Overslept(Play(w, events + [Transact(step)]).chat)
  {
    var all := events + [Transact(step)];
    assert all[..|events|] == events;
    WakeInvAlways(w, all);
  }

  /** An expired lease does not keep a safety visit out, so an overslept chat is visited once its safety time comes. */
  lemma SafetyVisitComes(s: Chat, token: Token, now: int)
    requires s.policy.enabled && Reachable(s.policy) && LeaseExpired(s.policy, now) && s.policy.safetyNextAt <= now
    ensures Leased(Reserve(s, token, Safety, now).policy, token)
  {
  }
}
