/**
  A paged scan of a chat that does not change: pages of the newest hundred messages at or below an
  inclusive cursor, the cursor moving to the oldest message of each page.
 */
module PagedScan {
  import opened Wrappers
  import opened EraserTypes
  import opened Transactions

  /** The chat's messages, newest first. */
  ghost predicate NewestFirst(server: seq<Message>) {
    forall j, k :: 0 <= j < k < |server| ==> server[j].source >= server[k].source
  }

  /** How many messages are newer than the cursor. */
  function Above(server: seq<Message>, cursor: int): (n: nat)
    ensures n <= |server|
  {
    if server == [] || server[0].source <= cursor then 0 else 1 + Above(server[1..], cursor)
  }

  /** The newest hundred messages at or below the cursor. */
  function PageAt(server: seq<Message>, cursor: int): (page: seq<Message>)
    ensures |page| <= PAGE_SIZE
  {
    var rest := server[Above(server, cursor)..];
    if |rest| <= PAGE_SIZE then rest else rest[..PAGE_SIZE]
  }

  lemma {:induction false} AboveSplits(server: seq<Message>, cursor: int)
    requires NewestFirst(server)
    ensures forall k :: 0 <= k < Above(server, cursor) ==> server[k].source > cursor
    ensures forall k :: Above(server, cursor) <= k < |server| ==> server[k].source <= cursor
  {
    if server == [] || server[0].source <= cursor {
    } else {
      AboveSplits(server[1..], cursor);
    }
  }

  /** A hundred messages share one millisecond at or below the cursor. */
  ghost predicate CrowdedAt(server: seq<Message>, cursor: int, i: nat) {
    i + PAGE_SIZE <= |server| && server[i].source == server[i + PAGE_SIZE - 1].source && server[i].source <= cursor
  }

  ghost predicate Crowded(server: seq<Message>, cursor: int) {
    exists i :: CrowdedAt(server, cursor, i)
  }

  /** All messages at or below `from` that are newer than `to` were listed. */
  ghost predicate ListedDownTo(server: seq<Message>, listed: set<MessageId>, from: int, to: int) {
    forall k :: 0 <= k < |server| && to < server[k].source <= from ==> server[k].id in listed
  }

  /** A page shows everything between the cursor and its last message. */
  lemma PageIsNewest(server: seq<Message>, cursor: int, k: nat)
    requires NewestFirst(server) && k < |server| && server[k].source <= cursor
    ensures var page := PageAt(server, cursor);
            server[k] in page || (|page| == PAGE_SIZE && server[k].source <= page[PAGE_SIZE - 1].source)
  {
    AboveSplits(server, cursor);
    var page, n := PageAt(server, cursor), Above(server, cursor);
    if k < n + |page| {
      assert page[k - n] == server[k];
    } else {
      assert page[PAGE_SIZE - 1] == server[n + PAGE_SIZE - 1];
    }
  }

  /** No full page steps over a crowded millisecond. */
  lemma CrowdStops(server: seq<Message>, cursor: int, i: nat)
    requires NewestFirst(server) && CrowdedAt(server, cursor, i)
    ensures var page := PageAt(server, cursor);
            |page| == PAGE_SIZE && CrowdedAt(server, page[PAGE_SIZE - 1].source, i)
  {
    AboveSplits(server, cursor);
    var n := Above(server, cursor);
    assert n <= i;
    assert PageAt(server, cursor)[PAGE_SIZE - 1] == server[n + PAGE_SIZE - 1];
    assert server[n + PAGE_SIZE - 1].source >= server[i + PAGE_SIZE - 1].source;
  }

  /** A page equal to the one before it, whose oldest message is its cursor, lies in one millisecond. */
  lemma RepeatIsCrowded(server: seq<Message>, cursor: int, before: seq<Message>)
    requires NewestFirst(server)
    requires var page := PageAt(server, cursor);
      && |page| == PAGE_SIZE && SignatureOf(page) == SignatureOf(before) && Oldest(before) == Some(cursor)
    ensures Crowded(server, cursor)
  {
    AboveSplits(server, cursor);
    var page, n := PageAt(server, cursor), Above(server, cursor);
    assert |before| == |SignatureOf(before)| == PAGE_SIZE;
    assert SignatureOf(page)[PAGE_SIZE - 1] == SignatureOf(before)[PAGE_SIZE - 1];
    assert page[PAGE_SIZE - 1].source == cursor;
    assert page[0] == server[n] && page[PAGE_SIZE - 1] == server[n + PAGE_SIZE - 1];
    assert CrowdedAt(server, cursor, n);
  }

  function IdsOf(page: seq<Message>): set<MessageId> {
    set k | 0 <= k < |page| :: page[k].id
  }

  lemma IdsHave(page: seq<Message>, m: Message)
    requires m in page
    ensures m.id in IdsOf(page)
  {
    var k :| 0 <= k < |page| && page[k] == m;
  }

  /** The lowest value the cursor can reach. */
  function Lowest(server: seq<Message>, from: int): int {
    if server == [] then from else Min(from, server[|server| - 1].source)
  }

  /** A short page lists everything that is left, so no millisecond is crowded. */
  lemma ShortPageEnds(server: seq<Message>, listed: set<MessageId>, from: int, cursor: int)
    requires NewestFirst(server) && cursor <= from && ListedDownTo(server, listed, from, cursor)
    requires |PageAt(server, cursor)| < PAGE_SIZE
    ensures !Crowded(server, cursor)
    ensures forall k :: 0 <= k < |server| && server[k].source <= from ==>
              server[k].id in listed + IdsOf(PageAt(server, cursor))
  {
    var page := PageAt(server, cursor);
    if Crowded(server, cursor) {
      var i :| CrowdedAt(server, cursor, i);
      CrowdStops(server, cursor, i);
    }
    forall k | 0 <= k < |server| && server[k].source <= from
      ensures server[k].id in listed + IdsOf(page)
    {
      if server[k].source <= cursor {
        PageIsNewest(server, cursor, k);
        IdsHave(page, server[k]);
      }
    }
  }

  /** A full page moves the cursor to its oldest message and keeps the listing gapless. */
  lemma FullPageMoves(server: seq<Message>, listed: set<MessageId>, from: int, cursor: int)
    requires NewestFirst(server) && cursor <= from && ListedDownTo(server, listed, from, cursor)
    requires |PageAt(server, cursor)| == PAGE_SIZE
    ensures var page := PageAt(server, cursor);
      var next := page[PAGE_SIZE - 1].source;
      && Lowest(server, from) <= next <= cursor
      && ListedDownTo(server, listed + IdsOf(page), from, next)
      && (Crowded(server, cursor) ==> Crowded(server, next))
  {
    AboveSplits(server, cursor);
    var page, n := PageAt(server, cursor), Above(server, cursor);
    var next := page[PAGE_SIZE - 1].source;
    assert page[PAGE_SIZE - 1] == server[n + PAGE_SIZE - 1];
    forall k | 0 <= k < |server| && next < server[k].source <= from
      ensures server[k].id in listed + IdsOf(page)
    {
      if server[k].source <= cursor {
        PageIsNewest(server, cursor, k);
        IdsHave(page, server[k]);
      }
    }
    if Crowded(server, cursor) {
      var i :| CrowdedAt(server, cursor, i);
      CrowdStops(server, cursor, i);
    }
  }

  /** What a loop knows while its lane is neither finished nor blocked. */
  ghost predicate Scanning(server: seq<Message>, listed: set<MessageId>, from: int,
                           cursor: Option<int>, signature: Option<Signature>, before: seq<Message>)
  {
    && cursor.Some? && Lowest(server, from) <= cursor.value <= from
    && ListedDownTo(server, listed, from, cursor.value)
    && (Crowded(server, from) ==> Crowded(server, cursor.value))
    && (signature.Some? ==> signature.value == SignatureOf(before) && Oldest(before) == cursor)
  }

  /** Everything at or below the first cursor was listed. */
  ghost predicate AllListed(server: seq<Message>, listed: set<MessageId>, from: int) {
    forall k :: 0 <= k < |server| && server[k].source <= from ==> server[k].id in listed
  }

  predicate Repeats(server: seq<Message>, cursor: int, signature: Option<Signature>) {
    |PageAt(server, cursor)| == PAGE_SIZE && signature == Some(SignatureOf(PageAt(server, cursor)))
  }

  /** One page: a short one ends the listing, a repeated one shows a crowded millisecond, any other moves on. */
  lemma PageTurns(server: seq<Message>, listed: set<MessageId>, from: int, cursor: int,
                  signature: Option<Signature>, before: seq<Message>)
    requires NewestFirst(server) && Scanning(server, listed, from, Some(cursor), signature, before)
    ensures var page := PageAt(server, cursor);
      var more := listed + IdsOf(page);
      && (|page| < PAGE_SIZE ==> AllListed(server, more, from) && !Crowded(server, from))
      && (Repeats(server, cursor, signature) ==> Crowded(server, from))
      && (|page| == PAGE_SIZE ==>
            Scanning(server, more, from, Oldest(page), Some(SignatureOf(page)), page))
  {
    var page := PageAt(server, cursor);
    if |page| < PAGE_SIZE {
      ShortPageEnds(server, listed, from, cursor);
    } else {
      FullPageMoves(server, listed, from, cursor);
      if Repeats(server, cursor, signature) {
        RepeatIsCrowded(server, cursor, before);
        var i :| CrowdedAt(server, cursor, i);
        assert CrowdedAt(server, from, i);
      }
    }
  }

  /** The cursor falls, or the next page repeats this one. */
  lemma PageProgresses(server: seq<Message>, cursor: int)
    requires NewestFirst(server) && |PageAt(server, cursor)| == PAGE_SIZE
    ensures var next := PageAt(server, cursor)[PAGE_SIZE - 1].source;
      next < cursor || (next == cursor && Repeats(server, next, Some(SignatureOf(PageAt(server, cursor)))))
  {
    AboveSplits(server, cursor);
    assert PageAt(server, cursor)[PAGE_SIZE - 1] == server[Above(server, cursor) + PAGE_SIZE - 1];
  }

  /**
    The history lane run to its end, each page stored as the page transaction stores it. It always
    ends. It ends complete, having listed every message at or below its first cursor, exactly when no
    hundred of them share a millisecond; otherwise it ends in a gap.
   */
  method ScanHistory(start: Policy, server: seq<Message>) returns (p: Policy, listed: set<MessageId>)
    requires NewestFirst(server)
    requires start.history.cursor.Some? && start.history.signature.None? && !start.history.complete
    requires !start.history.gap
    ensures p.history.complete != p.history.gap
    ensures p.history.gap <==> Crowded(server, start.history.cursor.value)
    ensures p.history.complete ==> AllListed(server, listed, start.history.cursor.value)
  {
    ghost var from := start.history.cursor.value;
    p, listed := start, {};
    ghost var before: seq<Message> := [];
    while !p.history.complete && !p.history.gap
      invariant !(p.history.complete && p.history.gap)
      invariant p.history.gap ==> Crowded(server, from)
      invariant p.history.complete ==> !Crowded(server, from) && AllListed(server, listed, from)
      invariant !p.history.complete && !p.history.gap ==>
                  Scanning(server, listed, from, p.history.cursor, p.history.signature, before)
      decreases !p.history.complete && !p.history.gap,
                p.history.cursor.GetOr(from) - Lowest(server, from),
                !Repeats(server, p.history.cursor.GetOr(from), p.history.signature)
    {
      var cursor := p.history.cursor.value;
      var page := PageAt(server, cursor);
      PageTurns(server, listed, from, cursor, p.history.signature, before);
      if |page| == PAGE_SIZE {
        PageProgresses(server, cursor);
      }
      p := AfterHistory(p, page);
      listed := listed + IdsOf(page);
      before := page;
    }
  }

  // ---- windows with a lower bound ----

  /** The messages at or above the lower bound, still newest first. */
  function Within(server: seq<Message>, low: int): seq<Message> {
    server[..Above(server, low - 1)]
  }

  lemma WithinIsWindow(server: seq<Message>, low: int)
    requires NewestFirst(server)
    ensures NewestFirst(Within(server, low))
    ensures forall k :: 0 <= k < |Within(server, low)| ==>
              server[k].source >= low && Within(server, low)[k] == server[k]
    ensures forall k :: |Within(server, low)| <= k < |server| ==> server[k].source < low
  {
    AboveSplits(server, low - 1);
  }

  /** Every message of the closed window was listed. */
  ghost predicate WindowListed(server: seq<Message>, listed: set<MessageId>, low: int, high: int) {
    forall k :: 0 <= k < |server| && low <= server[k].source <= high ==> server[k].id in listed
  }

  lemma AllListedIsWindow(server: seq<Message>, listed: set<MessageId>, low: int, high: int)
    requires NewestFirst(server) && AllListed(Within(server, low), listed, high)
    ensures WindowListed(server, listed, low, high)
  {
    WithinIsWindow(server, low);
    forall k | 0 <= k < |server| && low <= server[k].source <= high
      ensures server[k].id in listed
    {
      assert Within(server, low)[k] == server[k];
    }
  }

  /** The pages of a window lie inside it. */
  lemma PageInside(server: seq<Message>, low: int, cursor: int)
    requires NewestFirst(server) && |PageAt(Within(server, low), cursor)| == PAGE_SIZE
    ensures low <= PageAt(Within(server, low), cursor)[PAGE_SIZE - 1].source <= cursor
  {
    WithinIsWindow(server, low);
    var inside := Within(server, low);
    AboveSplits(inside, cursor);
    assert PageAt(inside, cursor)[PAGE_SIZE - 1] == inside[Above(inside, cursor) + PAGE_SIZE - 1];
  }

  /** As `OpenSafety` leaves the lane. */
  predicate SafetyOpened(p: Policy) {
    p.safety.floor.Some? && p.safety.upper.Some? && p.safety.cursor == p.safety.upper
    && p.safety.signature.None? && !p.safety.gap
  }

  /** The window as the loop finds it: closed with everything listed, blocked by a crowd, or part done. */
  ghost predicate SafetyState(start: Policy, p: Policy, window: seq<Message>, listed: set<MessageId>,
                              before: seq<Message>)
    requires SafetyOpened(start)
  {
    var low, from := start.safety.floor.value, start.safety.upper.value;
    if p.safety.upper.None? then
      !p.safety.gap && p.safety.floor == Some(from + 1) && !Crowded(window, from) && AllListed(window, listed, from)
    else
      && p.safety.upper == start.safety.upper && p.safety.floor == start.safety.floor
      && if p.safety.gap then
           && Crowded(window, from) && p.safety.gapAt.Some?
           && (start.safety.gapAt.None? ==> low <= p.safety.gapAt.value <= from)
         else
           && p.safety.gapAt == start.safety.gapAt
           && Scanning(window, listed, from, p.safety.cursor, p.safety.signature, before)
  }

  predicate SafetyRuns(p: Policy) {
    p.safety.upper.Some? && !p.safety.gap
  }

  /** One page of a safety window, as the lane records it. */
  lemma SafetyTurn(start: Policy, server: seq<Message>, p: Policy, listed: set<MessageId>, before: seq<Message>,
                   now: int)
    requires NewestFirst(server) && SafetyOpened(start) && SafetyRuns(p)
    requires SafetyState(start, p, Within(server, start.safety.floor.value), listed, before)
    ensures var window := Within(server, start.safety.floor.value);
      var page := PageAt(window, p.safety.cursor.value);
      SafetyState(start, AfterPage(p, Live, page, Safety, now), window, listed + IdsOf(page), page)
  {
    var low, from := start.safety.floor.value, start.safety.upper.value;
    var window, cursor := Within(server, low), p.safety.cursor.value;
    WithinIsWindow(server, low);
    var page := PageAt(window, cursor);
    PageTurns(window, listed, from, cursor, p.safety.signature, before);
    if |page| == PAGE_SIZE {
      PageInside(server, low, cursor);
      assert AfterPage(p, Live, page, Safety, now) == AfterSafetyPage(p, page, now);
    }
  }

  /** The window ends, or the cursor falls, or the next page repeats this one. */
  lemma SafetyTurnsForward(server: seq<Message>, p: Policy, from: int, low: int, now: int)
    requires NewestFirst(server) && SafetyRuns(p) && p.safety.cursor.Some?
    ensures var window := Within(server, low);
      var q := AfterPage(p, Live, PageAt(window, p.safety.cursor.value), Safety, now);
      SafetyRuns(q) ==>
        && q.safety.cursor.Some?
        && (|| q.safety.cursor.value < p.safety.cursor.value
            || (q.safety.cursor == p.safety.cursor
                && Repeats(window, q.safety.cursor.value, q.safety.signature)
                && !Repeats(window, p.safety.cursor.value, p.safety.signature)))
  {
    WithinIsWindow(server, low);
    var window := Within(server, low);
    var page := PageAt(window, p.safety.cursor.value);
    if |page| == PAGE_SIZE {
      PageProgresses(window, p.safety.cursor.value);
      assert AfterPage(p, Live, page, Safety, now) == AfterSafetyPage(p, page, now);
    }
  }

  /**
    A safety window run to its end. Without a hundred messages in one millisecond of the window it closes:
    everything in it was listed and the floor moves one past it. Otherwise it stops in a gap, keeps its
    bounds, and the gap it has on record lies inside them unless an older one was already recorded.
   */
  method ScanSafety(start: Policy, server: seq<Message>) returns (p: Policy, listed: set<MessageId>)
    requires NewestFirst(server) && SafetyOpened(start)
    ensures p.safety.gap <==> Crowded(Within(server, start.safety.floor.value), start.safety.upper.value)
    ensures !p.safety.gap ==>
              && p.safety.upper.None? && p.safety.floor == Some(start.safety.upper.value + 1)
              && WindowListed(server, listed, start.safety.floor.value, start.safety.upper.value)
    ensures p.safety.gap ==>
              && p.safety.upper == start.safety.upper && p.safety.floor == start.safety.floor && p.safety.gapAt.Some?
              && (start.safety.gapAt.None? ==> Between(p.safety.gapAt.value, start.safety.floor, start.safety.upper))
  {
    ghost var low, from := start.safety.floor.value, start.safety.upper.value;
    var window := Within(server, start.safety.floor.value);
    p, listed := start, {};
    ghost var before: seq<Message> := [];
    while p.safety.upper.Some? && !p.safety.gap
      invariant SafetyState(start, p, window, listed, before)
      decreases SafetyRuns(p),
                p.safety.cursor.GetOr(from) - Lowest(window, from),
                !Repeats(window, p.safety.cursor.GetOr(from), p.safety.signature)
    {
      var now: int := *;
      var page := PageAt(window, p.safety.cursor.value);
      SafetyTurn(start, server, p, listed, before, now);
      SafetyTurnsForward(server, p, from, low, now);
      p := AfterPage(p, Live, page, Safety, now);
      listed := listed + IdsOf(page);
      before := page;
    }
    if !p.safety.gap {
      AllListedIsWindow(server, listed, low, from);
    }
  }

  /** As `OpenDue` leaves the lane. */
  predicate DueOpened(p: Policy) {
    p.due.floor.Some? && p.due.upper.Some? && p.due.cursor == p.due.upper && p.due.signature.None? && !p.due.gap
  }

  /** The window as the loop finds it: closed with everything listed, blocked by a crowd, or part done. */
  ghost predicate DueState(start: Policy, p: Policy, window: seq<Message>, listed: set<MessageId>, before: seq<Message>)
    requires DueOpened(start)
  {
    var low, from := start.due.floor.value, start.due.upper.value;
    if p.due.upper.None? then
      !p.due.gap && p.due.floor.None? && !p.due.due && !Crowded(window, from) && AllListed(window, listed, from)
    else
      && p.due.upper == start.due.upper && p.due.floor == start.due.floor
      && if p.due.gap then
           && Crowded(window, from) && p.due.gapAt.Some?
           && (start.due.gapAt.None? ==> low <= p.due.gapAt.value <= from)
         else
           && p.due.gapAt == start.due.gapAt
           && Scanning(window, listed, from, p.due.cursor, p.due.signature, before)
  }

  predicate DueRuns(p: Policy) {
    p.due.upper.Some? && !p.due.gap
  }

  /** One page of a due window, as the lane records it. */
  lemma DueTurn(start: Policy, server: seq<Message>, p: Policy, listed: set<MessageId>, before: seq<Message>, now: int)
    requires NewestFirst(server) && DueOpened(start) && DueRuns(p)
    requires DueState(start, p, Within(server, start.due.floor.value), listed, before)
    ensures var window := Within(server, start.due.floor.value);
      var page := PageAt(window, p.due.cursor.value);
      DueState(start, AfterPage(p, Live, page, Due, now), window, listed + IdsOf(page), page)
  {
    var low, from := start.due.floor.value, start.due.upper.value;
    var window, cursor := Within(server, low), p.due.cursor.value;
    WithinIsWindow(server, low);
    var page := PageAt(window, cursor);
    PageTurns(window, listed, from, cursor, p.due.signature, before);
    if |page| == PAGE_SIZE {
      PageInside(server, low, cursor);
      assert AfterPage(p, Live, page, Due, now) == AfterDuePage(p, page);
    }
  }

  /** The window ends, or the cursor falls, or the next page repeats this one. */
  lemma DueTurnsForward(server: seq<Message>, p: Policy, from: int, low: int, now: int)
    requires NewestFirst(server) && DueRuns(p) && p.due.cursor.Some? && p.due.floor.Some?
    ensures var window := Within(server, low);
      var q := AfterPage(p, Live, PageAt(window, p.due.cursor.value), Due, now);
      DueRuns(q) ==>
        && q.due.cursor.Some?
        && (|| q.due.cursor.value < p.due.cursor.value
            || (q.due.cursor == p.due.cursor
                && Repeats(window, q.due.cursor.value, q.due.signature)
                && !Repeats(window, p.due.cursor.value, p.due.signature)))
  {
    WithinIsWindow(server, low);
    var window := Within(server, low);
    var page := PageAt(window, p.due.cursor.value);
    if |page| == PAGE_SIZE {
      PageProgresses(window, p.due.cursor.value);
      assert AfterPage(p, Live, page, Due, now) == AfterDuePage(p, page);
    }
  }

  /**
    A due window run to its end: it closes with everything in it listed and gives its floor up, or it stops
    in a gap, exactly when the window is crowded.
   */
  method ScanDue(start: Policy, server: seq<Message>) returns (p: Policy, listed: set<MessageId>)
    requires NewestFirst(server) && DueOpened(start)
    ensures p.due.gap <==> Crowded(Within(server, start.due.floor.value), start.due.upper.value)
    ensures !p.due.gap ==>
              && p.due.floor.None? && p.due.upper.None? && !p.due.due
              && WindowListed(server, listed, start.due.floor.value, start.due.upper.value)
    ensures p.due.gap ==>
              && p.due.upper == start.due.upper && p.due.floor == start.due.floor && p.due.gapAt.Some?
              && (start.due.gapAt.None? ==> Between(p.due.gapAt.value, start.due.floor, start.due.upper))
  {
    ghost var low, from := start.due.floor.value, start.due.upper.value;
    var window := Within(server, start.due.floor.value);
    p, listed := start, {};
    ghost var before: seq<Message> := [];
    while p.due.upper.Some? && !p.due.gap
      invariant DueState(start, p, window, listed, before)
      decreases DueRuns(p),
                p.due.cursor.GetOr(from) - Lowest(window, from),
                !Repeats(window, p.due.cursor.GetOr(from), p.due.signature)
    {
      var now: int := *;
      var page := PageAt(window, p.due.cursor.value);
      DueTurn(start, server, p, listed, before, now);
      DueTurnsForward(server, p, from, low, now);
      p := AfterPage(p, Live, page, Due, now);
      listed := listed + IdsOf(page);
      before := page;
    }
    if !p.due.gap {
      AllListedIsWindow(server, listed, low, from);
    }
  }
}
