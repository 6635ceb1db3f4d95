/**
  The store itself: the rows of one chat as fields that each transaction updates in place. Every method
  is one transaction, proved to leave exactly the rows its function in `Transactions` describes, so what
  is proved about runs of those functions holds of runs of these methods. Query results that need an
  order over the journal, clock readings and fresh identifiers are arguments.
 */
module EraserStore {
  import opened Wrappers
  import F = FutureMinutes
  import opened EraserTypes
  import S = Shielding
  import T = Transactions
  import Q = QueryPages

  /** What the parser and the bitmap guarantee: a well-formed table and no negative times. */
  ghost predicate Sound(s: Chat) {
    F.Valid(s.future) && SoundRows(s.candidates)
  }

  ghost predicate SoundRows(rows: map<MessageId, Candidate>) {
    forall id :: id in rows ==> rows[id].source >= 0
  }

  lemma PutSound(rows: map<MessageId, Candidate>, id: MessageId, row: Candidate)
    requires SoundRows(rows) && row.source >= 0
    ensures SoundRows(rows[id := row])
  {
  }

  ghost predicate SoundPage(page: seq<Message>) {
    forall k :: 0 <= k < |page| ==> page[k].source >= 0
  }

  function InsertAll(rows: map<MessageId, Candidate>, lane: Lane, now: int, admitted: seq<Message>)
    : map<MessageId, Candidate>
  {
    if admitted == [] then rows
    else
      var r := InsertAll(rows, lane, now, admitted[..|admitted| - 1]);
      var m := admitted[|admitted| - 1];
      if m.id in r then r else r[m.id := T.NewRow(m, lane, now)]
  }

  lemma InsertOne(rows: map<MessageId, Candidate>, lane: Lane, now: int, admitted: seq<Message>, m: Message)
    ensures var r := InsertAll(rows, lane, now, admitted);
            InsertAll(rows, lane, now, admitted + [m]) == if m.id in r then r else r[m.id := T.NewRow(m, lane, now)]
  {
    assert (admitted + [m])[..|admitted|] == admitted;
  }

  lemma {:induction false} InsertedSound(rows: map<MessageId, Candidate>, lane: Lane, now: int, admitted: seq<Message>)
    requires SoundRows(rows) && SoundPage(admitted)
    ensures SoundRows(InsertAll(rows, lane, now, admitted))
  {
    if admitted != [] {
      var n := |admitted| - 1;
      InsertedSound(rows, lane, now, admitted[..n]);
      PutSound(InsertAll(rows, lane, now, admitted[..n]), admitted[n].id, T.NewRow(admitted[n], lane, now));
    }
  }

  /** A snapshot that is ready and certifies nothing. */
  const READY: Option<Protection> := Some(Protection(0, None, true, None, None))

  function Members(ids: seq<nat>): set<nat> {
    set k | 0 <= k < |ids| :: ids[k]
  }

  lemma MembersGrow(ids: seq<nat>, k: nat)
    requires k < |ids|
    ensures Members(ids[..k + 1]) == Members(ids[..k]) + {ids[k]}
  {
    assert ids[..k + 1] == ids[..k] + [ids[k]];
    forall id
      ensures id in Members(ids[..k + 1]) <==> id in Members(ids[..k]) || id == ids[k]
    {
      if id in Members(ids[..k]) {
        var j :| 0 <= j < k && ids[..k][j] == id;
        assert ids[..k + 1][j] == id;
      }
      assert ids[..k + 1][k] == ids[k];
    }
  }

  /** Every row of a purge page is purgeable, so the purge deletes exactly the pages. */
  lemma PurgeDeletes(s: Chat, ids: seq<MessageId>, keys: seq<nat>, locked: set<MessageId>, lockedReceipts: set<nat>,
                     limit: nat, receiptLimit: nat, now: int)
    requires Q.FirstPage(T.PurgeKeys(s.candidates, locked, now), limit, ids)
    requires Q.FirstPage(T.ForgetKeys(s.receipts, lockedReceipts, now), receiptLimit, keys)
    ensures T.Purge(s, Members(ids), Members(keys), now) == s.(
              candidates := map id | id in s.candidates && id !in Members(ids) :: s.candidates[id],
              receipts := map r | r in s.receipts && r !in Members(keys) :: s.receipts[r])
    ensures Sound(s) ==> Sound(T.Purge(s, Members(ids), Members(keys), now))
  {
    forall id | id in Members(ids)
      ensures id in s.candidates && T.Purgeable(s.candidates[id], now)
    {
      var k :| 0 <= k < |ids| && ids[k] == id;
      assert ids[k] in T.PurgeKeys(s.candidates, locked, now);
    }
    forall r | r in Members(keys)
      ensures r in s.receipts && T.Forgettable(s.receipts[r], now)
    {
      var k :| 0 <= k < |keys| && keys[k] == r;
      assert keys[k] in T.ForgetKeys(s.receipts, lockedReceipts, now);
    }
  }

  /** Waking one more row of the page changes that row only, and it is still as it was. */
  lemma WakesOneMore(s: Chat, page: seq<MessageId>, k: nat, cutoff: int, now: int)
    requires k < |page| && Q.Ascending(T.WakeKeys(s.candidates, cutoff), page)
    ensures var before := T.WakeDeferrals(s, Members(page[..k]), cutoff, now).candidates;
      var after := T.WakeDeferrals(s, Members(page[..k + 1]), cutoff, now).candidates;
      var id := page[k];
      && id in s.candidates && id in before && before[id] == s.candidates[id]
      && after == if before[id].nextAttemptAt > now
                  then before[id := before[id].(nextAttemptAt := now, updatedAt := now)] else before
  {
    MembersGrow(page, k);
    assert page[k] in T.WakeKeys(s.candidates, cutoff);
    assert page[k] !in Members(page[..k]) by {
      assert forall j :: 0 <= j < k ==> page[..k][j] == page[j] != page[k];
    }
  }

  lemma WakeKeepsSound(s: Chat, ids: set<MessageId>, cutoff: int, now: int)
    requires Sound(s)
    ensures Sound(T.WakeDeferrals(s, ids, cutoff, now))
  {
  }

  /** Deletes the keys one after the other. */
  method DeleteKeys<V>(m: map<nat, V>, ids: seq<nat>) returns (r: map<nat, V>)
    requires forall k :: 0 <= k < |ids| ==> ids[k] in m
    requires forall j, k :: 0 <= j < k < |ids| ==> ids[j] != ids[k]
    ensures r == map id | id in m && id !in Members(ids) :: m[id]
    ensures |r| == |m| - |ids|
  {
    r := m;
    var k := 0;
    while k < |ids|
      invariant 0 <= k <= |ids|
      invariant forall id :: id in r <==> id in m && forall j :: 0 <= j < k ==> ids[j] != id
      invariant forall id :: id in r ==> r[id] == m[id]
      invariant |r| == |m| - k
    {
      var before := r;
      r := map id | id in before && id != ids[k] :: before[id];
      assert r.Keys == before.Keys - {ids[k]};
      k := k + 1;
    }
    forall id
      ensures id in Members(ids) <==> exists j :: 0 <= j < |ids| && ids[j] == id
    {
    }
  }

  class Store {
    const executionEnabled: bool
    var policy: Policy
    var candidates: map<MessageId, Candidate>
    var future: F.Table
    var protection: Option<Protection>
    var protectedMessages: map<MessageId, Kind>
    var heldAuthors: set<UserId>
    var protectedBots: set<UserId>
    var globalAuthors: set<UserId>
    var globalMessages: set<MessageId>
    var receipts: map<nat, int>
    var operations: map<nat, Operation>
    var request: Option<ConnectionRequest>

    function Contents(): Chat
      reads this
    {
      Chat(policy, candidates, future, protection, protectedMessages, heldAuthors, protectedBots,
           globalAuthors, globalMessages, receipts, operations, request)
    }

    ghost predicate Valid()
      reads this
    {
      Sound(Contents())
    }

    constructor (execution: bool)
      ensures Contents() == NEW_CHAT && executionEnabled == execution && Valid()
    {
      executionEnabled := execution;
      policy := NEW_POLICY;
      candidates := map[];
      future := [];
      protection := None;
      protectedMessages := map[];
      heldAuthors, protectedBots, globalAuthors, globalMessages := {}, {}, {}, {};
      receipts := map[];
      operations := map[];
      request := None;
    }

    // ---- queries ----

    /** The due time of the earliest pending candidate. */
    method PendingHead() returns (head: Option<int>)
      ensures T.IsHead(Contents(), head)
    {
      head := None;
      var rest := candidates.Keys;
      while rest != {}
        invariant rest <= candidates.Keys
        invariant head.None? ==>
          forall id :: id in candidates && id !in rest ==> candidates[id].state != Pending
        invariant head.Some? ==>
          && (exists id :: id in candidates && candidates[id].state == Pending
                           && T.EffectiveDue(candidates[id], policy.hours) == head.value)
          && (forall id :: id in candidates && id !in rest && candidates[id].state == Pending
                           ==> head.value <= T.EffectiveDue(candidates[id], policy.hours))
        decreases rest
      {
        var id :| id in rest;
        if candidates[id].state == Pending {
          head := Some(LeastWith(head, T.EffectiveDue(candidates[id], policy.hours)));
        }
        rest := rest - {id};
      }
    }

    method BufferSize() returns (count: nat)
      ensures count == |T.PendingIds(candidates)|
    {
      count := |T.PendingIds(candidates)|;
    }

    /** The visit's own read: only under a live lease of an enabled, reachable chat. */
    method ActivePolicy(token: Token, now: int) returns (seen: Option<Policy>)
      ensures seen == if T.Active(policy, token, now) then Some(policy) else None
    {
      if policy.enabled && policy.connection != Missing && policy.connection != NoAccess
         && policy.lease.Some? && policy.lease.value.token == token && policy.lease.value.until > now {
        seen := Some(policy);
      } else {
        seen := None;
      }
    }

    // ---- scheduling ----

    /** While a gap is retained, only minutes past its upper end count. */
    method FirstMinute() returns (first: Option<int>)
      requires F.Valid(future)
      ensures first == F.FirstAfter(future, T.GapMoment(policy))
    {
      first := F.FirstFutureMinute(future, if policy.due.gap then policy.due.upper else None);
    }

    method NormalTarget(head: Option<int>, capacity: bool, now: int) returns (target: Option<int>)
      requires F.Valid(future) && (capacity <==> T.HasCapacity(Contents()))
      ensures target == T.NormalTarget(Contents(), head, now)
    {
      var first := FirstMinute();
      var dueScan := capacity
        && ((!policy.history.complete && !policy.history.gap)
            || (first.Some? && T.MinuteDue(first.value, policy.hours) <= now)
            || (!policy.due.gap && policy.due.floor.Some? && (policy.due.due || policy.due.cursor.Some?)));
      target := head;
      if capacity && first.Some? {
        target := Some(LeastWith(target, T.MinuteDue(first.value, policy.hours)));
      }
      if dueScan {
        target := Some(LeastWith(target, now));
      }
    }

    method Reschedule(head: Option<int>, now: int, failed: bool, waitMs: int)
      requires Valid()
      modifies this
      ensures Contents() == T.Reschedule(old(Contents()), head, now, failed, waitMs) && Valid()
    {
      var size := BufferSize();
      var capacity := size <= CHAT_BUFFER - PAGE_SIZE;
      var target := NormalTarget(head, capacity, now);
      var normalAt := if target.Some? then Max(now + 1000, target.value) else NO_WORK_AT;
      var safetyAt := policy.safetyNextAt;
      if !capacity {
        safetyAt := Max(safetyAt, now + T.SAFETY_DELAYS[0]);
      }
      if capacity && policy.safety.cursor.Some? && !policy.safety.gap {
        safetyAt := now + 1000;
      }
      if failed {
        var retryAt := now + Max(1000, waitMs);
        normalAt := Max(normalAt, retryAt);
        safetyAt := Max(safetyAt, retryAt);
      }
      policy := policy.(normalNextAt := normalAt, safetyNextAt := safetyAt);
    }

    method Reserve(token: Token, purpose: Purpose, now: int) returns (leased: bool)
      modifies this
      ensures Contents() == T.Reserve(old(Contents()), token, purpose, now)
      ensures leased <==>
              Contents() == old(Contents()).(policy := old(policy).(lease := Some(Lease(token, now + 60_000))))
                          && old(policy).enabled && T.Reachable(old(policy))
                          && (if purpose == Safety then old(policy).safetyNextAt else old(policy).normalNextAt) <= now
                          && (old(policy).lease.None? || old(policy).lease.value.until < now)
    {
      var at := if purpose == Safety then policy.safetyNextAt else policy.normalNextAt;
      leased := policy.enabled && policy.connection != Missing && policy.connection != NoAccess && at <= now
                && (policy.lease.None? || policy.lease.value.until < now);
      if leased {
        policy := policy.(lease := Some(Lease(token, now + 60_000)));
      }
    }

    /** The head is read under the same lock, so a stale visit cannot overwrite a newer wake. */
    method FinishVisit(token: Token, failed: bool, waitMs: int, now: int) returns (ghost head: Option<int>)
      requires Valid()
      modifies this
      ensures T.IsHead(old(Contents()), head)
      ensures Contents() == T.FinishVisit(old(Contents()), token, head, failed, waitMs, now) && Valid()
    {
      var first := PendingHead();
      head := first;
      if policy.lease.None? || policy.lease.value.token != token {
        return;
      }
      Reschedule(first, now, failed, waitMs);
      policy := policy.(lease := None);
    }

    method SetConnection(status: Connection, explicit: bool)
      modifies this
      ensures Contents() == T.SetConnection(old(Contents()), status, explicit)
    {
      if status != Connected || explicit || (policy.connection != Missing && policy.connection != NoAccess) {
        policy := policy.(connection := status);
      }
    }

    // ---- scanning ----

    method OpenScan(seen: Policy, lane: Lane, purpose: Purpose, at: int, firstSeen: Option<int>, now: int)
      returns (window: Option<T.Window>)
      modifies this
      ensures (Contents(), window) == T.OpenScan(old(Contents()), seen, lane, purpose, at, firstSeen, now)
    {
      var cutoff := at - Retention(seen.hours);
      if lane == History {
        if purpose == Safety || seen.history.complete || seen.history.gap {
          return None;
        }
        return Some(T.Window(None, seen.history.cursor.GetOr(cutoff)));
      }
      if purpose == Safety {
        var floor := if seen.safety.floor.Some? then seen.safety.floor.value else seen.due.low.GetOr(cutoff + 1);
        if floor > cutoff {
          return None;
        }
        if seen.safety.cursor.Some? && !seen.safety.gap {
          return Some(T.Window(Some(floor), seen.safety.cursor.value));
        }
        if !T.SameScan(policy, seen, now) {
          return None;
        }
        policy := policy.(safety := policy.safety.(
          floor := Some(floor), upper := Some(cutoff), cursor := Some(cutoff),
          signature := None, hadMessages := false, gap := false));
        return Some(T.Window(Some(floor), cutoff));
      }
      var ripe := firstSeen.Some? && T.MinuteDue(firstSeen.value, seen.hours) <= at;
      if seen.due.gap && !ripe {
        return None;
      }
      var knownDue := (seen.due.due && seen.due.floor.Some?) || ripe;
      if !knownDue && (seen.due.cursor.None? || seen.due.floor.None?) {
        return None;
      }
      var floor := LeastOf(seen.due.floor, firstSeen);
      if floor.None? || floor.value > cutoff {
        return None;
      }
      if !seen.due.gap && seen.due.cursor.Some? && seen.due.floor.Some? {
        return Some(T.Window(floor, seen.due.cursor.value));
      }
      if !T.SameScan(policy, seen, now) || policy.dueGeneration != seen.dueGeneration {
        return None;
      }
      policy := policy.(due := policy.due.(
        low := Some(LeastWith(policy.due.low, floor.value)), floor := floor,
        upper := Some(cutoff), cursor := Some(cutoff), signature := None, gap := false));
      return Some(T.Window(floor, cutoff));
    }

    /** The loop over a page's messages: what is admitted, and the two ranges that protection defers. */
    method SortMessages(lane: Lane, page: seq<Message>, now: int)
      returns (admitted: seq<Message>, current: Option<Span>, historical: Option<Span>)
      requires SoundPage(page)
      ensures SoundPage(admitted)
      ensures T.TakeInAll(Contents(), lane, now, page)
              == T.Intake(InsertAll(candidates, lane, now, admitted), current, historical)
    {
      admitted, current, historical := [], None, None;
      var k := 0;
      while k < |page|
        invariant 0 <= k <= |page| && SoundPage(admitted)
        invariant T.TakeInAll(Contents(), lane, now, page[..k])
                  == T.Intake(InsertAll(candidates, lane, now, admitted), current, historical)
      {
        var m := page[k];
        assert page[..k + 1][..k] == page[..k];
        if m.source + Retention(policy.hours) > now || m.id in protectedMessages || m.author in heldAuthors
           || m.author in globalAuthors || m.id in globalMessages {
        } else {
          var gap := S.ProtectionGap(m.isBot, m.source, m.author in protectedBots, protection);
          if gap == S.CurrentGap {
            current := Some(Span(LeastWith(Low(current), m.source), GreatestWith(High(current), m.source)));
          } else if gap == S.HistoryGap {
            historical := Some(Span(LeastWith(Low(historical), m.source), GreatestWith(High(historical), m.source)));
          } else {
            InsertOne(candidates, lane, now, admitted, m);
            admitted := admitted + [m];
          }
        }
        k := k + 1;
      }
      assert page[..k] == page;
    }

    /** A row that is already in the journal is left as it is. */
    method InsertRows(lane: Lane, admitted: seq<Message>, now: int)
      requires SoundRows(candidates) && SoundPage(admitted)
      modifies this`candidates
      ensures candidates == InsertAll(old(candidates), lane, now, admitted) && SoundRows(candidates)
    {
      InsertedSound(candidates, lane, now, admitted);
      var k := 0;
      while k < |admitted|
        invariant 0 <= k <= |admitted|
        invariant candidates == InsertAll(old(candidates), lane, now, admitted[..k])
      {
        var m := admitted[k];
        assert admitted[..k + 1] == admitted[..k] + [m];
        InsertOne(old(candidates), lane, now, admitted[..k], m);
        if m.id !in candidates {
          candidates := candidates[m.id := T.NewRow(m, lane, now)];
        }
        k := k + 1;
      }
      assert admitted[..k] == admitted;
    }

    /** A due window that closes takes the minutes inside it off the bitmap. */
    method ClearClosed(lane: Lane, page: seq<Message>, purpose: Purpose)
      requires F.Valid(future)
      modifies this`future
      ensures future == if lane == Live && purpose == Due && T.Closes(page, policy.due.upper) && policy.due.floor.Some?
                        then F.Clear(old(future), policy.due.floor.value, policy.due.upper.value, F.WALK_LIMIT)
                        else old(future)
      ensures F.Valid(future)
    {
      if lane == Live && purpose == Due && |page| < PAGE_SIZE && policy.due.upper.Some? && policy.due.floor.Some? {
        future := F.ClearCoveredMinutes(future, policy.due.floor.value, policy.due.upper.value);
      }
    }

    method SavePage(seen: Policy, lane: Lane, page: seq<Message>, purpose: Purpose, now: int)
      requires Valid() && SoundPage(page)
      modifies this
      ensures Contents() == T.SavePage(old(Contents()), seen, lane, page, purpose, now) && Valid()
    {
      if !T.SameScan(policy, seen, now)
         || (lane == Live && purpose == Due && policy.dueGeneration != seen.dueGeneration) {
        return;
      }
      var size := BufferSize();
      if size > CHAT_BUFFER - PAGE_SIZE {
        return;
      }
      TakePage(lane, page, purpose, now);
    }

    method TakePage(lane: Lane, page: seq<Message>, purpose: Purpose, now: int)
      requires Valid() && SoundPage(page)
      modifies this
      ensures Contents() == T.PageTaken(old(Contents()), lane, page, purpose, now) && Valid()
    {
      Journal(lane, page, now);
      ClearClosed(lane, page, purpose);
      MoveLane(lane, page, purpose, now);
    }

    /** The rows a page adds, and what the policy notes about it. */
    method Journal(lane: Lane, page: seq<Message>, now: int)
      requires SoundRows(candidates) && SoundPage(page)
      modifies this`candidates, this`policy
      ensures SoundRows(candidates)
      ensures var taken := T.TakeInAll(old(Contents()), lane, now, page);
        && candidates == taken.rows
        && policy == old(policy).(
             totals := old(policy).totals.(scanned := old(policy).totals.scanned + |page|),
             deferred := Widen(old(policy).deferred, taken.current),
             historicalDeferred := Widen(old(policy).historicalDeferred, taken.historical))
    {
      var admitted, current, historical := SortMessages(lane, page, now);
      InsertRows(lane, admitted, now);
      NotePage(|page|, current, historical);
    }

    method NotePage(scanned: nat, current: Option<Span>, historical: Option<Span>)
      modifies this`policy
      ensures policy == old(policy).(
                totals := old(policy).totals.(scanned := old(policy).totals.scanned + scanned),
                deferred := Widen(old(policy).deferred, current),
                historicalDeferred := Widen(old(policy).historicalDeferred, historical))
    {
      policy := policy.(totals := policy.totals.(scanned := policy.totals.scanned + scanned));
      if current.Some? {
        policy := policy.(deferred := Widen(policy.deferred, current));
      }
      if historical.Some? {
        policy := policy.(historicalDeferred := Widen(policy.historicalDeferred, historical));
      }
    }

    /** The last writes of a page: the cursor, the end of its window, and the generation of its lane. */
    method MoveLane(lane: Lane, page: seq<Message>, purpose: Purpose, now: int)
      modifies this`policy
      ensures policy == T.AfterPage(old(policy), lane, page, purpose, now)
    {
      var short := |page| < PAGE_SIZE;
      if lane == History {
        MoveHistory(page);
      } else if purpose == Safety && short && policy.safety.upper.Some? {
        EndSafety(!policy.safety.hadMessages && |page| == 0, now);
      } else if purpose == Safety {
        MoveSafety(page, now);
      } else if short && policy.due.upper.Some? && policy.due.floor.Some? {
        EndDue();
      } else {
        MoveDue(page);
      }
      if lane == Live && purpose == Due {
        policy := policy.(dueGeneration := policy.dueGeneration + 1);
      } else {
        policy := policy.(scanGeneration := policy.scanGeneration + 1);
      }
    }

    method MoveHistory(page: seq<Message>)
      modifies this`policy
      ensures policy.(scanGeneration := policy.scanGeneration + 1) == T.AfterHistory(old(policy), page)
    {
      var signature := T.SignatureOf(page);
      var repeated := |page| == PAGE_SIZE && policy.history.signature == Some(signature);
      if page != [] {
        policy := policy.(history := policy.history.(cursor := Some(page[|page| - 1].source)));
      }
      policy := policy.(history := policy.history.(
        complete := |page| < PAGE_SIZE, gap := repeated, signature := Some(signature)));
    }

    /** A window with a recorded gap inside settles it; the delay grows with the run of empty windows. */
    method EndSafety(empty: bool, now: int)
      requires policy.safety.upper.Some?
      modifies this`policy
      ensures policy.(scanGeneration := policy.scanGeneration + 1) == T.AfterSafetyWindow(old(policy), empty, now)
    {
      var streak := if empty then Min(policy.safety.emptyStreak + 1, |T.SAFETY_DELAYS|) else 0;
      var delay := T.SAFETY_DELAYS[Max(0, streak - 1)];
      var gapAt := policy.safety.gapAt;
      var covered := gapAt.Some? && Between(gapAt.value, policy.safety.floor, policy.safety.upper);
      var due := DueAfterSafety();
      policy := policy.(
        safety := SafetyLane(Some(policy.safety.upper.value + 1), None, None, None, false, false,
                             if covered then None else gapAt, streak),
        due := due, safetyNextAt := now + delay);
    }

    /** The due lane after a safety window: a gap inside is settled, and without a floor nothing is open. */
    method DueAfterSafety() returns (due: DueLane)
      requires policy.safety.upper.Some?
      ensures forall empty, now :: due == T.AfterSafetyWindow(policy, empty, now).due
    {
      var low, high := policy.safety.floor, policy.safety.upper.value;
      due := policy.due;
      due := due.(low := Some(if due.floor.Some? then Min(high + 1, due.floor.value) else high + 1));
      if low.Some? && due.gapAt.Some? && low.value <= due.gapAt.value <= high {
        due := due.(gap := false, gapAt := None);
      }
      if due.floor.None? {
        due := due.(cursor := None, upper := None, signature := None);
      }
    }

    method MoveSafety(page: seq<Message>, now: int)
      modifies this`policy
      ensures policy.(scanGeneration := policy.scanGeneration + 1) == T.AfterSafetyPage(old(policy), page, now)
    {
      var signature := T.SignatureOf(page);
      var repeated := |page| == PAGE_SIZE && policy.safety.signature == Some(signature);
      if page != [] {
        policy := policy.(safety := policy.safety.(cursor := Some(page[|page| - 1].source), hadMessages := true));
      }
      policy := policy.(safety := policy.safety.(signature := Some(signature)));
      if repeated {
        policy := policy.(safety := policy.safety.(gap := true), safetyNextAt := now + 6 * F.HOUR);
        if policy.safety.gapAt.None? {
          policy := policy.(safety := policy.safety.(gapAt := policy.safety.cursor));
        }
      }
    }

    method EndDue()
      requires policy.due.upper.Some? && policy.due.floor.Some?
      modifies this`policy
      ensures policy.(dueGeneration := policy.dueGeneration + 1) == T.AfterDueWindow(old(policy))
    {
      var due := policy.due;
      if policy.safety.floor.Some? {
        due := due.(low := policy.safety.floor);
      }
      if due.gapAt.Some? && due.floor.value <= due.gapAt.value <= due.upper.value {
        due := due.(gapAt := None);
      }
      policy := policy.(due := due.(
        floor := None, upper := None, cursor := None, signature := None, due := false, gap := false));
    }

    method MoveDue(page: seq<Message>)
      modifies this`policy
      ensures policy.(dueGeneration := policy.dueGeneration + 1) == T.AfterDuePage(old(policy), page)
    {
      var signature := T.SignatureOf(page);
      var repeated := |page| == PAGE_SIZE && policy.due.signature == Some(signature);
      if page != [] {
        policy := policy.(due := policy.due.(cursor := Some(page[|page| - 1].source)));
      }
      policy := policy.(due := policy.due.(signature := Some(signature)));
      if repeated {
        policy := policy.(due := policy.due.(gap := true));
        if policy.due.gapAt.None? {
          policy := policy.(due := policy.due.(gapAt := policy.due.cursor));
        }
      }
    }

    // ---- the journal ----

    method AssertAndMarkDispatch(id: MessageId, ticket: T.Ticket, token: Token, checkedAt: int, pinAt: int,
                                 begin: int, now: int, mark: int, uuid: DispatchId)
      returns (result: Result<DispatchId, T.DispatchError>)
      requires Valid()
      modifies this
      ensures (Contents(), result) == T.Dispatch(old(Contents()), executionEnabled, id, ticket, token,
                                                 checkedAt, pinAt, begin, now, mark, uuid)
      ensures Valid()
    {
      if !executionEnabled || !policy.enabled || policy.connection == Missing || policy.connection == NoAccess
         || policy.lease.None? || policy.lease.value.token != token || policy.lease.value.until <= begin
         || policy.lease.value.until <= now || now - checkedAt >= 30_000 || now - pinAt >= 5000 {
        return Failure(T.GuardChanged);
      }
      if id !in candidates {
        return Failure(T.GuardChanged);
      }
      var row := candidates[id];
      if row.state != Pending || row.dispatch != ticket.dispatch || row.nextAttemptAt > now
         || row.source + Retention(policy.hours) > now {
        return Failure(T.GuardChanged);
      }
      if id in protectedMessages || row.author in heldAuthors || row.author in globalAuthors || id in globalMessages {
        return Failure(T.IsProtected);
      }
      var gap := S.ProtectionGap(row.isBot, row.source, row.author in protectedBots, protection);
      if gap != S.NoGap {
        return Failure(T.ProtectionPending);
      }
      if Min(checkedAt + 30_000, pinAt + 5000) <= mark || policy.lease.value.until <= mark {
        return Failure(T.GuardChanged);
      }
      candidates := candidates[id := row.(state := Dispatching, dispatch := Some(uuid), attempts := row.attempts + 1,
                                          updatedAt := mark, nextAttemptAt := mark + 10_000)];
      return Success(uuid);
    }

    /** Whether the row is still the exact attempt the caller holds, and the outcome is one it allows. */
    method SettleAllowed(id: MessageId, ticket: T.Ticket, to: State, code: Outcome) returns (ok: bool)
      ensures ok <==> id in candidates && T.MaySettle(candidates[id], ticket, to, code)
    {
      if id !in candidates || candidates[id].state == Deleted || candidates[id].state == Protected {
        return false;
      }
      var row := candidates[id];
      if row.dispatch != ticket.dispatch {
        return false;
      }
      if ticket.dispatch.Some? && (ticket.state == Dispatching || ticket.state == Uncertain) {
        if (row.state != Dispatching && row.state != Uncertain) || to == Protected || to == Review {
          return false;
        }
        return to != Pending || (ticket.state == Dispatching && code == RateLimited);
      }
      return row.state == Pending && ticket.state == Pending && (to == Pending || to == Protected || to == Review);
    }

    method Settle(id: MessageId, ticket: T.Ticket, to: State, code: Outcome, waitMs: int, now: int)
      requires Valid()
      modifies this
      ensures Contents() == T.Settle(old(Contents()), id, ticket, to, code, waitMs, now) && Valid()
    {
      var ok := SettleAllowed(id, ticket, to, code);
      if !ok {
        return;
      }
      var row := candidates[id].(state := to, outcome := Some(code), updatedAt := now, nextAttemptAt := now + waitMs);
      PutSound(candidates, id, row);
      candidates := candidates[id := row];
      BookSettled(row, to);
    }

    /** A retry pulls the wake, and an end is counted. */
    method BookSettled(row: Candidate, to: State)
      modifies this`policy
      ensures policy == old(policy).(
                totals := T.CountSettled(old(policy).totals, to),
                normalNextAt := if to == Pending
                                then Min(old(policy).normalNextAt, T.EffectiveDue(row, old(policy).hours))
                                else old(policy).normalNextAt)
    {
      if to == Pending {
        policy := policy.(normalNextAt := Min(policy.normalNextAt,
                                              Max(row.nextAttemptAt, row.source + Retention(policy.hours))));
      }
      if to == Deleted {
        policy := policy.(totals := policy.totals.(
          deleted := policy.totals.deleted + 1, acknowledged := policy.totals.acknowledged + 1));
      }
      if to == Protected {
        policy := policy.(totals := policy.totals.(skipped := policy.totals.skipped + 1));
      }
    }

    method RetryReview(id: MessageId, revision: nat, activation: nat, updatedAt: int, now: int)
      returns (ok: bool, ghost head: Option<int>)
      requires Valid()
      modifies this
      ensures ok <==> T.MayRetry(old(Contents()), id, revision, activation, updatedAt)
      ensures ok ==> T.IsHead(T.Reopened(old(Contents()), id, now), head)
      ensures Contents() == T.RetryReview(old(Contents()), id, revision, activation, updatedAt, head, now) && Valid()
    {
      head := None;
      ok := policy.revision == revision && policy.activation == activation && id in candidates
            && candidates[id].state == Review && candidates[id].attempts == 0 && candidates[id].dispatch.None?
            && candidates[id].updatedAt == updatedAt;
      if !ok {
        return;
      }
      candidates := candidates[id := candidates[id].(
        state := Pending, nextAttemptAt := now, outcome := None, updatedAt := now)];
      assert Contents() == T.Reopened(old(Contents()), id, now);
      var first := PendingHead();
      head := first;
      Reschedule(first, now, false, 1000);
    }

    method DeferProtection(id: MessageId)
      requires Valid()
      modifies this
      ensures Contents() == T.DeferProtection(old(Contents()), id) && Valid()
    {
      if id !in candidates || candidates[id].state != Pending {
        return;
      }
      var row := candidates[id];
      var gap := S.ProtectionGap(row.isBot, row.source, row.author in protectedBots, protection);
      if gap == S.NoGap {
        return;
      }
      var at := Some(Span(row.source, row.source));
      if gap == S.HistoryGap {
        policy := policy.(historicalDeferred := Widen(policy.historicalDeferred, at));
      } else {
        policy := policy.(deferred := Widen(policy.deferred, at));
      }
      candidates := map i | i in candidates && i != id :: candidates[i];
    }

    method InstallHolds(authors: set<UserId>, messages: set<MessageId>)
      modifies this
      ensures Contents() == T.InstallHolds(old(Contents()), authors, messages)
    {
      globalAuthors := globalAuthors + authors;
      globalMessages := globalMessages + messages;
    }

    /**
      One page of housekeeping: the oldest purgeable rows and receipts that nobody else holds, up to the
      limits, leave the store.
     */
    method PurgePage(limit: nat, receiptLimit: nat, locked: set<MessageId>, lockedReceipts: set<nat>, now: int)
      returns (gone: nat, forgotten: nat, ghost ids: seq<MessageId>, ghost keys: seq<nat>)
      requires Valid()
      modifies this
      ensures Q.FirstPage(T.PurgeKeys(old(candidates), locked, now), limit, ids) && gone == |ids|
      ensures Q.FirstPage(T.ForgetKeys(old(receipts), lockedReceipts, now), receiptLimit, keys) && forgotten == |keys|
      ensures Contents() == T.Purge(old(Contents()), Members(ids), Members(keys), now) && Valid()
      ensures gone == |old(candidates)| - |candidates| && forgotten == |old(receipts)| - |receipts|
    {
      ghost var s := Contents();
      gone, ids := PurgeRows(limit, locked, now);
      forgotten, keys := PurgeReceipts(receiptLimit, lockedReceipts, now);
      PurgeDeletes(s, ids, keys, locked, lockedReceipts, limit, receiptLimit, now);
    }

    method PurgeRows(limit: nat, locked: set<MessageId>, now: int) returns (gone: nat, ghost ids: seq<MessageId>)
      modifies this`candidates
      ensures Q.FirstPage(T.PurgeKeys(old(candidates), locked, now), limit, ids)
      ensures candidates == map id | id in old(candidates) && id !in Members(ids) :: old(candidates)[id]
      ensures gone == |ids| == |old(candidates)| - |candidates|
    {
      var page := Q.Select(T.PurgeKeys(candidates, locked, now), limit);
      candidates := DeleteKeys(candidates, page);
      gone, ids := |page|, page;
    }

    method PurgeReceipts(limit: nat, locked: set<nat>, now: int) returns (forgotten: nat, ghost keys: seq<nat>)
      modifies this`receipts
      ensures Q.FirstPage(T.ForgetKeys(old(receipts), locked, now), limit, keys)
      ensures receipts == map r | r in old(receipts) && r !in Members(keys) :: old(receipts)[r]
      ensures forgotten == |keys| == |old(receipts)| - |receipts|
    {
      var page := Q.Select(T.ForgetKeys(receipts, locked, now), limit);
      receipts := DeleteKeys(receipts, page);
      forgotten, keys := |page|, page;
    }

    // ---- protection ----

    method ProtectConflict(input: S.Snapshot) returns (refusal: Option<S.ProtectError>)
      ensures refusal == S.ProtectRefusal(protection, input)
    {
      if protection.Some? && protection.value.revision > input.revision {
        return Some(S.RevisionConflict);
      }
      if !S.EvidenceMatches(input) {
        return Some(S.EvidenceConflict);
      }
      var floor := if input.complete then input.botHistoryFrom else None;
      var anchor := S.AnchorOf(protection);
      if anchor.Some? && floor.Some? && floor.value < anchor.value && input.evidence.None? {
        return Some(S.EvidenceRequired);
      }
      return None;
    }

    /** Exclusions are only ever added, and a hold is never turned back into a plain protection. */
    method AddExclusions(input: S.Snapshot)
      modifies this`protectedMessages, this`heldAuthors, this`protectedBots
      ensures protectedMessages == S.AddKinds(old(protectedMessages), input.protectedIds, input.holdIds)
      ensures heldAuthors == old(heldAuthors) + input.holdAuthors
      ensures protectedBots == old(protectedBots) + input.protectedBots
    {
      protectedMessages := map id | id in protectedMessages.Keys + input.protectedIds ::
        if id in protectedMessages then protectedMessages[id] else ProtectedKind;
      protectedMessages := map id | id in protectedMessages.Keys + input.holdIds ::
        if id in input.holdIds then HoldKind else protectedMessages[id];
      heldAuthors := heldAuthors + input.holdAuthors;
      protectedBots := protectedBots + input.protectedBots;
    }

    /** Sends history back to the end of a deferred range, and makes every page in flight stale. */
    method RewindHistory(to: int, now: int)
      modifies this`policy
      ensures policy == S.Rewind(old(policy), to, false, now)
    {
      var cursor := to;
      if policy.history.cursor.Some? && policy.history.cursor.value > to {
        cursor := policy.history.cursor.value;
      }
      if policy.history.cursor.None? && to < 0 {
        cursor := 0;
      }
      policy := policy.(scanGeneration := policy.scanGeneration + 1, normalNextAt := now);
      policy := policy.(history := policy.history.(cursor := Some(cursor), complete := false, signature := None));
    }

    /** Sends history back over the deferred ranges that the new snapshot covers. */
    method ReleaseRanges(prior: Option<Protection>, input: S.Snapshot, now: int)
      modifies this`policy
      ensures policy == S.ReleaseHistorical(S.ReleaseCurrent(old(policy), input, now), prior, input, now)
    {
      var floor := if input.complete then input.botHistoryFrom else None;
      if input.complete && input.completeThrough.Some? && policy.deferred.Some?
         && policy.deferred.value.hi <= input.completeThrough.value {
        RewindHistory(policy.deferred.value.hi, now);
        policy := policy.(deferred := None, history := policy.history.(gap := false));
      }
      if floor.Some?
         && (prior.None? || prior.value.botHistoryFrom.None? || floor.value < prior.value.botHistoryFrom.value)
         && policy.historicalDeferred.Some? && policy.historicalDeferred.value.hi >= floor.value {
        RewindHistory(policy.historicalDeferred.value.hi, now);
        policy := policy.(historicalDeferred := None);
      }
    }

    method Protect(input: S.Snapshot, now: int) returns (refusal: Option<S.ProtectError>)
      modifies this
      ensures refusal == S.ProtectRefusal(old(protection), input)
      ensures Contents() == S.ApplyProtection(old(Contents()), input, now)
    {
      refusal := ProtectConflict(input);
      if refusal.Some? {
        return;
      }
      var prior := protection;
      AddExclusions(input);
      protection := Some(S.NextProtection(prior, input));
      ReleaseRanges(prior, input, now);
    }

    // ---- webhooks ----

    /** Only a minute that ends past the blocked upper end can reopen a retained gap. */
    method ReopensGap(expired: F.Table, upper: int) returns (wake: bool)
      ensures wake <==> F.ReachesPast(expired, upper)
    {
      wake := false;
      var k := 0;
      while k < |expired| && !wake
        invariant 0 <= k <= |expired|
        invariant wake ==> F.ReachesPast(expired, upper)
        invariant !wake ==> forall j :: 0 <= j < k ==> !EndsPast(expired[j], upper)
      {
        wake := EndsPast(expired[k], upper);
        k := k + 1;
      }
    }

    method ExpiredHours(now: int) returns (expired: F.Table, floor: int)
      requires F.Valid(future)
      ensures expired == F.Expired(future, now - Retention(policy.hours) - F.HOUR, F.COMPACT_LIMIT)
      ensures F.Valid(future[|expired|..])
      ensures expired != [] ==> floor == F.FirstBit(expired[0], None, 0).GetOr(expired[0].hour)
    {
      var bound := now - Retention(policy.hours) - F.HOUR;
      expired, floor := F.Expired(future, bound, F.COMPACT_LIMIT), 0;
      if expired != [] {
        F.CompactionIsCovered(future, bound, F.COMPACT_LIMIT);
        var first := F.FirstInRow(expired[0], None);
        floor := first.GetOr(expired[0].hour);
      }
    }

    /** The lower bound and the wake are handed over before the expired rows go. */
    method CompactExpiredHours(now: int)
      requires Valid()
      modifies this
      ensures Contents() == T.Compact(old(Contents()), now) && Valid()
    {
      var expired, floor := ExpiredHours(now);
      if expired == [] {
        return;
      }
      var wake := !policy.due.gap;
      if policy.due.gap && policy.due.upper.Some? {
        wake := ReopensGap(expired, policy.due.upper.value);
      }
      PassToDue(floor, wake, now);
      future := future[|expired|..];
    }

    /** The due lane takes the floor over; only a wake reopens a retained gap and pulls the schedule. */
    method PassToDue(floor: int, wake: bool, now: int)
      modifies this`policy
      ensures policy == T.HandOver(old(policy), floor, wake, now)
    {
      var due := policy.due;
      due := due.(low := Some(LeastWith(due.low, floor)), floor := Some(LeastWith(due.floor, floor)), due := true);
      if wake {
        due := due.(gap := false, upper := None, cursor := None, signature := None);
        if policy.normalNextAt > now {
          policy := policy.(normalNextAt := now);
        }
      }
      policy := policy.(due := due, dueGeneration := policy.dueGeneration + 1);
    }

    method PutFutureMinute(source: int)
      requires Valid() && source >= 0
      modifies this`future
      ensures future == F.Put(old(future), source) && Valid()
    {
      F.PutAddsMinute(future, source);
      future := F.Put(future, source);
    }

    method NoteFuture(source: int)
      requires Valid() && source >= 0
      modifies this
      ensures Contents() == T.NoteFuture(old(Contents()), source) && Valid()
    {
      PutFutureMinute(source);
      var dueAt := F.MinuteOf(source) + F.MINUTE + Retention(policy.hours);
      if policy.normalNextAt > dueAt
         && (!policy.due.gap || (policy.due.upper.Some? && F.End(F.MinuteOf(source)) > policy.due.upper.value)) {
        policy := policy.(normalNextAt := dueAt);
      }
    }

    method NoteDue(source: int, now: int)
      requires Valid()
      modifies this
      ensures Contents() == T.NoteDue(old(Contents()), source, now) && Valid()
    {
      var hit := Between(source, policy.safety.floor, policy.safety.upper);
      policy := policy.(
        due := policy.due.(low := Some(LeastWith(policy.due.low, source)), due := true,
                           floor := Some(LeastWith(policy.due.floor, source)),
                           cursor := None, upper := None, signature := None, gap := false),
        dueGeneration := policy.dueGeneration + 1, normalNextAt := now);
      if hit {
        policy := policy.(
          scanGeneration := policy.scanGeneration + 1,
          safety := policy.safety.(cursor := policy.safety.upper, signature := None, gap := false),
          safetyNextAt := now);
      }
    }

    method NoteMessage(source: int, now: int)
      requires Valid() && source >= 0
      modifies this
      ensures Contents() == T.NoteMessage(old(Contents()), source, now) && Valid()
    {
      if !policy.enabled {
        return;
      }
      CompactExpiredHours(now);
      if source + Retention(policy.hours) > now {
        NoteFuture(source);
      } else {
        NoteDue(source, now);
      }
    }

    method NoteRemoval(id: MessageId, now: int) returns (ghost head: Option<int>)
      requires Valid()
      modifies this
      ensures id in old(candidates) ==> T.IsHead(T.RemovedRow(old(Contents()), id, now), head)
      ensures Contents() == T.NoteRemoval(old(Contents()), id, head, now) && Valid()
    {
      head := None;
      if id !in candidates {
        return;
      }
      var previous := candidates[id].state;
      ghost var removed := T.RemovedRow(old(Contents()), id, now);
      if previous == Deleted || previous == Protected {
        head := HeadOf(removed);
        return;
      }
      candidates := candidates[id := candidates[id].(
        state := Deleted, outcome := Some(RemovedReceipt), updatedAt := now)];
      policy := policy.(totals := policy.totals.(
        deleted := policy.totals.deleted + 1, removalReceipt := policy.totals.removalReceipt + 1));
      assert Contents() == removed;
      var first := PendingHead();
      head := first;
      if previous == Pending {
        Reschedule(first, now, false, 1000);
      }
    }

    method Ingest(receipt: nat, source: Option<int>, removed: Option<MessageId>, botRemoved: bool, now: int)
      returns (ghost head: Option<int>)
      requires Valid() && (source.Some? ==> source.value >= 0)
      modifies this
      ensures Contents() == T.Ingest(old(Contents()), receipt, source, removed, botRemoved, head, now) && Valid()
      ensures receipt !in old(receipts) && removed.Some? ==>
        var noted := T.IngestMessage(old(Contents()), receipt, source, now);
        removed.value in noted.candidates ==> T.IsHead(T.RemovedRow(noted, removed.value, now), head)
    {
      head := None;
      if receipt in receipts {
        return;
      }
      receipts := receipts[receipt := now];
      if source.Some? {
        NoteMessage(source.value, now);
      }
      assert Contents() == T.IngestMessage(old(Contents()), receipt, source, now);
      if removed.Some? {
        head := NoteRemoval(removed.value, now);
      }
      if botRemoved {
        policy := policy.(connection := Missing);
      }
    }

    // ---- settings ----

    /** Selects the page of young candidates, puts their minutes and drops their rows. */
    method ParkYoungCandidates(hours: Hours, now: int) returns (ghost parked: seq<MessageId>)
      requires Valid()
      modifies this`future, this`candidates
      ensures T.ParkPage(old(Contents()), hours, parked, now)
      ensures forall k :: 0 <= k < |parked| ==> parked[k] in old(candidates)
      ensures Contents() == T.Park(old(Contents()), parked) && Valid()
    {
      var ids := Q.Select(T.ParkKeys(candidates, hours, now), CHAT_BUFFER);
      var sources := T.SourcesOf(candidates, ids);
      F.PutAllAddsMinutes(future, sources);
      future := F.ParkMinutes(future, sources);
      candidates := map id | id in candidates && id !in ids :: candidates[id];
      parked := ids;
    }

    /** Selects the page of age deferrals and wakes those that still wait. */
    method WakeAgeDeferrals(cutoff: int, now: int) returns (ghost ids: seq<MessageId>)
      requires Valid()
      modifies this`candidates
      ensures Q.FirstPage(T.WakeKeys(old(candidates), cutoff), CHAT_BUFFER, ids)
      ensures Contents() == T.WakeDeferrals(old(Contents()), Members(ids), cutoff, now) && Valid()
    {
      var page := Q.Select(T.WakeKeys(candidates, cutoff), CHAT_BUFFER);
      ids := page;
      var k := 0;
      while k < |page|
        invariant 0 <= k <= |page|
        invariant candidates == T.WakeDeferrals(old(Contents()), Members(page[..k]), cutoff, now).candidates
      {
        WakesOneMore(old(Contents()), page, k, cutoff, now);
        var c := candidates[page[k]];
        if c.nextAttemptAt > now {
          candidates := candidates[page[k] := c.(nextAttemptAt := now, updatedAt := now)];
        }
        k := k + 1;
      }
      assert page[..k] == page;
      WakeKeepsSound(old(Contents()), Members(page), cutoff, now);
    }

    method SaveConflict(body: SaveBody) returns (refusal: Option<T.SaveError>)
      ensures refusal == T.SaveRefusal(Contents(), body, executionEnabled)
    {
      if body.expectedRevision != policy.revision {
        return Some(T.StaleRevision);
      }
      if body.enabled {
        if !executionEnabled {
          return Some(T.Unavailable);
        }
        if protection.None? || !protection.value.ready {
          return Some(T.NotReady);
        }
      }
      return None;
    }

    /** Every lane starts over around the cutoffs; recorded gaps keep the floors below them. */
    method RestartLanes(lowCut: int, historyCut: int, safetyCut: int, now: int)
      modifies this`policy
      ensures policy == T.Restart(old(policy), lowCut, historyCut, safetyCut, now)
    {
      var dueGap, safetyGap := policy.due.gapAt, policy.safety.gapAt;
      var low := LeastWith(safetyGap, LeastWith(dueGap, lowCut + 1));
      var floor := LeastWith(safetyGap, LeastWith(dueGap, safetyCut + 1));
      var cursor := policy.history.cursor.GetOr(0);
      policy := policy.(
        due := DueLane(Some(low), None, None, None, None, false, false, dueGap),
        dueGeneration := policy.dueGeneration + 1,
        safety := SafetyLane(Some(floor), None, None, None, false, false, safetyGap, policy.safety.emptyStreak),
        safetyNextAt := now);
      cursor := if cursor < historyCut then historyCut else cursor;
      policy := policy.(history := HistoryLane(Some(cursor), false, false, None));
    }

    method WriteSettings(operation: nat, body: SaveBody, activation: nat, now: int)
      modifies this`policy
      ensures policy == T.SavedPolicy(old(policy), operation, body, activation, now)
    {
      var was := policy;
      var enabled := body.enabled && !body.connectWhenReady;
      var cutoff := now - Retention(body.hours);
      if enabled && (!was.enabled || body.hours != was.hours) {
        RestartLanes(cutoff, cutoff, cutoff, now);
      }
      policy := policy.(enabled := enabled, hours := body.hours, revision := was.revision + 1,
                        lastOperation := Some(operation), normalNextAt := now);
      if was.enabled != enabled {
        policy := policy.(activation := activation);
      }
    }

    /** A longer period parks what it makes too young; a shorter one wakes old age deferrals. */
    method MoveAged(body: SaveBody, hours: Hours, now: int)
      returns (ghost parked: seq<MessageId>, ghost woken: set<MessageId>)
      requires Valid()
      modifies this`future, this`candidates
      ensures Valid() && forall k :: 0 <= k < |parked| ==> parked[k] in old(candidates)
      ensures T.Enables(body) && body.hours > hours ==> T.ParkPage(old(Contents()), body.hours, parked, now)
      ensures T.Enables(body) && body.hours < hours ==>
        exists ids :: Q.FirstPage(T.WakeKeys(old(candidates), now - Retention(body.hours)), CHAT_BUFFER, ids)
                      && woken == Members(ids)
      ensures Contents() == if T.Enables(body) && body.hours > hours then T.Park(old(Contents()), parked)
                            else if T.Enables(body) && body.hours < hours
                            then T.WakeDeferrals(old(Contents()), woken, now - Retention(body.hours), now)
                            else old(Contents())
    {
      var enabled := body.enabled && !body.connectWhenReady;
      parked, woken := [], {};
      if enabled && body.hours > hours {
        parked := ParkYoungCandidates(body.hours, now);
      }
      if enabled && body.hours < hours {
        ghost var ids := WakeAgeDeferrals(now - Retention(body.hours), now);
        woken := Members(ids);
      }
    }

    /** One settings write, with the pages it moves selected under its own lock. */
    method Update(operation: nat, body: SaveBody, activation: nat, now: int)
      returns (result: Result<Response, T.SaveError>, ghost parked: seq<MessageId>, ghost woken: set<MessageId>)
      requires Valid()
      modifies this
      ensures forall k :: 0 <= k < |parked| ==> parked[k] in old(candidates)
      ensures (Contents(), result)
              == T.Save(old(Contents()), operation, body, executionEnabled, activation, parked, woken, now)
      ensures result.Success? && operation !in old(operations) && T.Enables(body) && body.hours > old(policy).hours ==>
                T.ParkPage(old(Contents()), body.hours, parked, now)
      ensures Valid()
    {
      parked, woken := [], {};
      if body.connectWhenReady && !body.enabled {
        result := Failure(T.InvalidPolicy);
        return;
      }
      if operation in operations {
        result := if operations[operation].body == body then Success(operations[operation].response)
                  else Failure(T.OperationConflict);
        return;
      }
      var refusal := SaveConflict(body);
      if refusal.Some? {
        result := Failure(refusal.value);
        return;
      }
      var was := policy;
      parked, woken := Commit(operation, body, activation, now);
      request := T.SavedRequest(request, operation, body, was.revision + 1, now);
      operations := operations[operation := Operation(body, T.ResponseOf(policy))];
      result := Success(T.ResponseOf(policy));
    }

    /** The policy first, then the candidates its new period moves. */
    method Commit(operation: nat, body: SaveBody, activation: nat, now: int)
      returns (ghost parked: seq<MessageId>, ghost woken: set<MessageId>)
      requires Valid()
      modifies this`policy, this`future, this`candidates
      ensures Valid() && forall k :: 0 <= k < |parked| ==> parked[k] in old(candidates)
      ensures T.Enables(body) && body.hours > old(policy).hours ==> T.ParkPage(old(Contents()), body.hours, parked, now)
      ensures Contents() == T.Aged(old(Contents()), body, parked, woken, now).(
                policy := T.SavedPolicy(old(policy), operation, body, activation, now))
    {
      var was := policy;
      WriteSettings(operation, body, activation, now);
      parked, woken := MoveAged(body, was.hours, now);
    }

    method ReserveConnection(token: Token, now: int)
      modifies this
      ensures Contents() == T.ReserveConnection(old(Contents()), token, executionEnabled, now)
    {
      if !executionEnabled || request.None? || request.value.status != RequestPending {
        return;
      }
      var r := request.value;
      if r.expiresAt <= now {
        request := Some(r.(status := RequestExpired, lease := None));
      } else if r.nextAttemptAt <= now && (r.lease.None? || r.lease.value.until <= now) {
        request := Some(r.(lease := Some(Lease(token, Min(r.expiresAt, now + 60_000)))));
      }
    }

    /**
      Whether the worker may go on with its opt-in: exactly when an activation at this moment would lack
      nothing but the proofs it is collecting and a ready protection snapshot.
     */
    method LiveRequest(token: Token, now: int) returns (live: bool)
      ensures live <==> T.MayActivate(Contents().(protection := READY), token, now + 1, executionEnabled, now)
      ensures protection.Some? && protection.value.ready ==>
                (live <==> exists proof :: T.MayActivate(Contents(), token, proof, executionEnabled, now))
    {
      if !executionEnabled || request.None? || policy.enabled {
        return false;
      }
      var r := request.value;
      live := r.status == RequestPending && r.policyRevision == policy.revision && r.expiresAt > now
              && r.lease.Some? && r.lease.value.token == token && r.lease.value.until > now;
      if live && protection.Some? && protection.value.ready {
        assert T.MayActivate(Contents(), token, now + 1, executionEnabled, now);
      }
    }

    method FinishConnection(token: Token, cancelled: bool, waitMs: int, now: int)
      modifies this
      ensures Contents() == T.FinishConnection(old(Contents()), token, cancelled, waitMs, now)
    {
      if request.None? || request.value.status != RequestPending
         || request.value.lease.None? || request.value.lease.value.token != token {
        return;
      }
      var r := request.value;
      request := Some(r.(
        status := if r.expiresAt <= now then RequestExpired else if cancelled then RequestCancelled else RequestPending,
        nextAttemptAt := Min(r.expiresAt, now + Max(1000, waitMs)), lease := None));
    }

    method ActivateConnection(token: Token, proofExpiresAt: int, activation: nat,
                              lowAt: int, historyAt: int, safetyAt: int, now: int) returns (activated: bool)
      modifies this
      ensures activated <==> T.MayActivate(old(Contents()), token, proofExpiresAt, executionEnabled, now)
      ensures Contents() == T.ActivateConnection(old(Contents()), token, proofExpiresAt, executionEnabled, activation,
                                                 lowAt, historyAt, safetyAt, now)
    {
      if !executionEnabled || policy.enabled {
        return false;
      }
      if request.None? || request.value.lease.None? || request.value.lease.value.token != token
         || request.value.status != RequestPending || request.value.policyRevision != policy.revision
         || request.value.expiresAt <= now || request.value.lease.value.until <= now || proofExpiresAt <= now {
        return false;
      }
      if protection.None? || !protection.value.ready {
        return false;
      }
      var age := Retention(policy.hours);
      RestartLanes(lowAt - age, historyAt - age, safetyAt - age, now);
      policy := policy.(enabled := true, revision := policy.revision + 1, connection := Connected,
                        activation := activation, lease := None, normalNextAt := now);
      request := Some(request.value.(status := RequestActivated, lease := None));
      return true;
    }
  }

  function Low(s: Option<Span>): Option<int> { if s.Some? then Some(s.value.lo) else None }
  function High(s: Option<Span>): Option<int> { if s.Some? then Some(s.value.hi) else None }
  function GreatestWith(a: Option<int>, x: int): int { if a.Some? then Max(a.value, x) else x }

  predicate EndsPast(row: F.Row, upper: int) {
    row.hour + (F.LastBit(row.bits, 60) + 1) * F.MINUTE - 1 > upper
  }

  /** The head that a query over the rows would find; it exists because the rows are finitely many. */
  ghost function HeadOf(s: Chat): (head: Option<int>)
    ensures T.IsHead(s, head)
  {
    HeadExists(s, T.PendingIds(s.candidates));
    var head :| T.IsHead(s, head);
    head
  }

  predicate DueBefore(s: Chat, a: MessageId, b: MessageId)
    requires a in s.candidates && b in s.candidates
  {
    T.EffectiveDue(s.candidates[a], s.policy.hours) <= T.EffectiveDue(s.candidates[b], s.policy.hours)
  }

  lemma {:induction false} LeastPending(s: Chat, ids: set<MessageId>) returns (first: MessageId)
    requires ids != {} && forall id :: id in ids ==> id in s.candidates
    ensures first in ids && forall id :: id in ids ==> DueBefore(s, first, id)
    decreases ids
  {
    var one :| one in ids;
    var rest := ids - {one};
    first := one;
    if rest != {} {
      var other := LeastPending(s, rest);
      if DueBefore(s, other, one) {
        first := other;
      }
    }
    assert forall id :: id in ids ==> id == one || id in rest;
  }

  lemma HeadExists(s: Chat, ids: set<MessageId>)
    requires ids == T.PendingIds(s.candidates)
    ensures exists head :: T.IsHead(s, head)
  {
    if ids == {} {
      assert forall id :: id in s.candidates && s.candidates[id].state == Pending ==> id in ids;
      assert T.IsHead(s, None);
    } else {
      var first := LeastPending(s, ids);
      assert forall id :: id in s.candidates && s.candidates[id].state == Pending ==> DueBefore(s, first, id);
      assert T.IsHead(s, Some(T.EffectiveDue(s.candidates[first], s.policy.hours)));
    }
  }
}
