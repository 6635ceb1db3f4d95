/**
  The store together with what surrounds it: the clock, the messages visible in the chat, the
  workers' visits with their snapshots, windows and fetched pages, and the webhooks. Any number
  of visits may be in flight; each lease token belongs to one visit.
 */
module ScanWorld {
  import opened Wrappers
  import opened FutureMinutes
  import opened EraserTypes
  import opened Transactions
  import opened Steps

  datatype Opened = Opened(lane: Lane, purpose: Purpose, window: Window)

  /** The first tracked minute that a worker read, and when. */
  datatype FirstSeen = FirstSeen(at: int, minute: Option<int>)

  /**
    What one worker holds between its store calls: a snapshot taken at `at`, then the first tracked minute,
    then a window, then a page.
   */
  datatype Visit = Visit(
    at: int, seen: Policy, first: Option<FirstSeen>, chosen: Option<Opened>, page: Option<seq<Message>>)

  /**
    `known` is every message ever posted, `visible` the ones the chat still shows, `late` those that
    appeared with an old time and whose webhook has not been processed by an enabled policy yet.
    `done` is the ids whose journal row was terminal when it was purged.
   */
  datatype World = World(
    chat: Chat, now: int, known: map<MessageId, Message>, visible: set<MessageId>,
    late: set<MessageId>, done: set<MessageId>, visits: map<Token, Visit>, tokens: set<Token>)

  datatype Event =
    | Tick(to: int)
    | Post(m: Message)
    | PostLate(m: Message)
    | Vanish(id: MessageId)
    | Transact(step: Step)
    | Announce(id: MessageId, step: Step)
    | Look(token: Token)
    | Peek(token: Token)
    | Open(token: Token, lane: Lane, purpose: Purpose, at: int, future: Option<int>)
    | Fetch(token: Token, page: seq<Message>)
    | Commit(token: Token)

  predicate InWindow(source: int, window: Window) {
    source <= window.upper && (window.lower.Some? ==> window.lower.value <= source)
  }

  predicate Listed(page: seq<Message>, id: MessageId) {
    exists k :: 0 <= k < |page| && page[k].id == id
  }

  /** The page answers for a message: it lists it, or it is full and ends at or above it. */
  predicate Accounts(page: seq<Message>, id: MessageId, source: int) {
    Listed(page, id) || (|page| == PAGE_SIZE && source <= page[PAGE_SIZE - 1].source)
  }

  /** What the client checks of every page before anyone sees it. */
  ghost predicate PageShape(known: map<MessageId, Message>, page: seq<Message>, window: Window) {
    && |page| <= PAGE_SIZE
    && (forall k :: 0 <= k < |page| ==>
          InWindow(page[k].source, window) && page[k].id in known && known[page[k].id] == page[k])
    && (forall j, k :: 0 <= j < k < |page| ==> page[j].source >= page[k].source)
  }

  /** The server's answer: the newest messages of the window, at most a hundred. */
  ghost predicate IsPage(w: World, page: seq<Message>, window: Window) {
    && PageShape(w.known, page, window)
    && forall id :: id in w.visible && id in w.known && InWindow(w.known[id].source, window)
                    ==> Accounts(page, id, w.known[id].source)
  }

  predicate Timed(step: Step) {
    step.Protect? || step.SaveSettings? || step.Webhook? || step.ReserveVisit? || step.EndVisit?
    || step.Connect? || step.Resolve? || step.Retry? || step.Housekeep?
  }

  /** The two clock readings of an activation put the safety floor at most one past the history cursor. */
  predicate LeavesNoHole(p: Policy, step: Step)
    requires step.Connect?
  {
    ActivationFloor(p, step.safetyAt) <= ActivationCursor(p, step.historyAt) + 1
  }

  /** Transactions other than the ones visits make; their clock readings agree with the world's. */
  ghost predicate PlainStep(w: World, step: Step) {
    && Enabled(w.chat, step)
    && !step.OpenWindow? && !step.AcceptPage?
    && (Timed(step) ==> step.now == w.now)
    && (step.ReserveVisit? ==> step.token !in w.tokens)
    && (step.Connect? ==> step.historyAt <= w.now && step.safetyAt <= w.now && LeavesNoHole(w.chat.policy, step))
  }

  /** The times the message parser accepts. */
  predicate Plausible(source: int, now: int) {
    0 < source <= now + MINUTE
  }

  ghost predicate Can(w: World, e: Event) {
    match e
    case Tick(to) => w.now <= to
    case Post(m) => m.id !in w.known && w.now - DAY < m.source && Plausible(m.source, w.now)
    case PostLate(m) => m.id !in w.known && Plausible(m.source, w.now)
    case Vanish(id) => true
    case Transact(step) => PlainStep(w, step) && (step.Webhook? ==> step.source.None?)
    case Announce(id, step) =>
      PlainStep(w, step) && step.Webhook? && id in w.known && step.source == Some(w.known[id].source)
    case Look(token) => Active(w.chat.policy, token, w.now) && token in w.tokens
    case Peek(token) => token in w.visits && w.visits[token].chosen.None?
    case Open(token, lane, purpose, at, future) =>
      token in w.visits && w.visits[token].chosen.None? && w.visits[token].at <= at <= w.now
    case Fetch(token, page) =>
      token in w.visits && w.visits[token].chosen.Some? && w.visits[token].page.None?
      && IsPage(w, page, w.visits[token].chosen.value.window)
    case Commit(token) => token in w.visits && w.visits[token].chosen.Some? && w.visits[token].page.Some?
  }

  /** The step switched the policy on or moved its period, so every lane starts over. */
  predicate Restarted(s: Chat, step: Step) {
    (step.SaveSettings? && Apply(s, step) != s && Apply(s, step).policy.dueGeneration != s.policy.dueGeneration)
    || (step.Connect? && Apply(s, step) != s)
  }

  ghost function Do(w: World, e: Event): World
    requires Can(w, e)
  {
    match e
    case Tick(to) => w.(now := to)
    case Post(m) => w.(known := w.known[m.id := m], visible := w.visible + {m.id})
    case PostLate(m) => w.(known := w.known[m.id := m], visible := w.visible + {m.id}, late := w.late + {m.id})
    case Vanish(id) => w.(visible := w.visible - {id})
    case Transact(step) =>
      var c := Apply(w.chat, step);
      w.(chat := c,
         late := if Restarted(w.chat, step) then {} else w.late,
         done := if step.Housekeep? then w.done + (set id | id in w.chat.candidates && id !in c.candidates) else w.done,
         tokens := if step.ReserveVisit? then w.tokens + {step.token} else w.tokens)
    case Announce(id, step) =>
      w.(chat := Apply(w.chat, step),
         late := if w.chat.policy.enabled && step.receipt !in w.chat.receipts then w.late - {id} else w.late)
    case Look(token) => w.(visits := w.visits[token := Visit(w.now, w.chat.policy, None, None, None)])
    case Peek(token) =>
      var v := w.visits[token];
      var first := FirstAfter(w.chat.future, GapMoment(v.seen));
      w.(visits := w.visits[token := v.(first := Some(FirstSeen(w.now, first)))])
    case Open(token, lane, purpose, at, future) =>
      var v := w.visits[token];
      var r := OpenScan(w.chat, v.seen, lane, purpose, at, future, w.now);
      if r.1.None? then w.(chat := r.0)
      else w.(chat := r.0, visits := w.visits[token := v.(chosen := Some(Opened(lane, purpose, r.1.value)))])
    case Fetch(token, page) => w.(visits := w.visits[token := w.visits[token].(page := Some(page))])
    case Commit(token) =>
      var v := w.visits[token];
      w.(chat := SavePage(w.chat, v.seen, v.chosen.value.lane, v.page.value, v.chosen.value.purpose, w.now),
         visits := w.visits - {token})
  }

  /** Events that cannot happen change nothing. */
  ghost function After(w: World, e: Event): World {
    if Can(w, e) then Do(w, e) else w
  }

  ghost function Play(w: World, events: seq<Event>): World {
    if events == [] then w else After(Play(w, events[..|events| - 1]), events[|events| - 1])
  }

  lemma PlaySnoc(w: World, events: seq<Event>, k: nat)
    requires k < |events|
    ensures Play(w, events[..k + 1]) == After(Play(w, events[..k]), events[k])
  {
    assert events[..k + 1][..k] == events[..k];
  }

  /** A chat whose policy row was just created, at least a week after the epoch of the clock. */
  ghost predicate Fresh(w: World) {
    && w.chat == NEW_CHAT && w.now >= 7 * DAY
    && w.known == map[] && w.visible == {} && w.late == {} && w.done == {} && w.visits == map[] && w.tokens == {}
  }
}
