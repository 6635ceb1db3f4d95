/**
  The durable cooldown: a persisted deadline that only moves later, and the process-local
  `pendingDurableUntil` that keeps admission closed until an observed deadline is persisted. The calls
  `acquire` and `cooldown` of one process interleave at every await, and any write may fail.
 */
module DurableCooldown {
  const MAX_SAFE_INTEGER := 9007199254740991
  const SHORTEST_MS := 1000
  const REDUCED_MS := 60000

  function Max(a: nat, b: nat): nat { if a < b then b else a }

  /** GREATEST of the stored deadline and a new one; 0 stands for no row. */
  function Extended(notBefore: nat, now: nat, ms: nat): nat { Max(notBefore, now + ms) }

  function Remaining(notBefore: nat, now: nat): nat { if notBefore > now then notBefore - now else 0 }

  predicate ValidDuration(ms: int) { SHORTEST_MS <= ms <= MAX_SAFE_INTEGER }

  /** The row of the bot in `eraser_rate_limits`. */
  class DurableRateLimit {
    var notBefore: nat

    constructor ()
      ensures notBefore == 0
    {
      notBefore := 0;
    }

    method RemainingMs(now: nat) returns (left: nat)
      ensures left == 0 <==> notBefore <= now
      ensures left > 0 ==> now + left == notBefore
    {
      left := if notBefore > now then notBefore - now else 0;
    }

    method Extend(ms: int, now: nat) returns (ok: bool)
      modifies this
      ensures ok <==> ValidDuration(ms)
      ensures !ok ==> notBefore == old(notBefore)
      ensures ok ==> notBefore == Extended(old(notBefore), now, ms) && notBefore >= now + ms
    {
      if ms < SHORTEST_MS || ms > MAX_SAFE_INTEGER {
        return false;
      }
      if notBefore < now + ms {
        notBefore := now + ms;
      }
      return true;
    }
  }

  /** What one acknowledged write settles: everything observed up to its own deadline. */
  function Acknowledged(pending: nat, deadline: nat): nat { if pending <= deadline then 0 else pending }

  /** How long the write before an admission must ask for, so that it reaches the pending deadline. */
  function CatchUp(pending: nat, now: nat): nat {
    if pending > now + SHORTEST_MS then pending - now else SHORTEST_MS
  }

  /** The fields of one process; each method is a stretch of code that runs without an await. */
  class HttpLimiter {
    var reducedUntil: nat
    var pendingDurableUntil: nat

    constructor ()
      ensures reducedUntil == 0 && pendingDurableUntil == 0
    {
      reducedUntil, pendingDurableUntil := 0, 0;
    }

    /** The first stretch of `checkDurable`: what to write before reading, if anything. */
    method CheckStarts(now: nat) returns (write: bool, deadline: nat, ms: nat)
      ensures write <==> pendingDurableUntil != 0
      ensures write ==> deadline == pendingDurableUntil && ms == CatchUp(pendingDurableUntil, now)
      ensures write ==> now + ms >= deadline && ms >= SHORTEST_MS
    {
      write, deadline, ms := pendingDurableUntil != 0, pendingDurableUntil, SHORTEST_MS;
      if deadline > now + SHORTEST_MS {
        ms := deadline - now;
      }
    }

    /** The stretch after a successful write, in `checkDurable` and in `cooldown` alike. */
    method WriteReturned(deadline: nat)
      modifies this
      ensures pendingDurableUntil == Acknowledged(old(pendingDurableUntil), deadline)
      ensures reducedUntil == old(reducedUntil)
    {
      if pendingDurableUntil <= deadline {
        pendingDurableUntil := 0;
      }
    }

    /** The first stretch of `cooldown`, before it waits for both stores. */
    method CooldownStarts(now: nat, ms: int) returns (deadline: nat, duration: nat)
      modifies this
      ensures duration >= SHORTEST_MS && duration >= ms && (duration == SHORTEST_MS || duration == ms)
      ensures deadline == now + duration
      ensures pendingDurableUntil == Max(old(pendingDurableUntil), deadline) && pendingDurableUntil != 0
      ensures reducedUntil == now + REDUCED_MS
    {
      reducedUntil := now + REDUCED_MS;
      duration := if ms > SHORTEST_MS then ms else SHORTEST_MS;
      deadline := now + duration;
      if pendingDurableUntil < deadline {
        pendingDurableUntil := deadline;
      }
    }
  }

  // ---- the interleavings ----

  datatype Phase =
    | Writing(deadline: nat, ms: nat, written: bool)
    | ReadSent
    | ReadDone(left: nat)

  /** `seen` is the number of deadlines the process had observed when the current check began. */
  datatype Call =
    | Check(last: bool, seen: nat, phase: Phase)
    | AtGate
    | Sleeping
    | Returned(seen: nat)
    | Saving(until: nat, duration: nat, saved: bool)
    | Ended

  datatype World = World(now: nat, notBefore: nat, pending: nat, observed: seq<nat>, calls: map<nat, Call>)

  datatype Event =
    | Tick(ms: nat)
    | Acquire(c: nat)
    | Cooldown(c: nat, duration: nat)
    | Write(c: nat)
    | WriteAck(c: nat)
    | ReadRow(c: nat)
    | ReadAck(c: nat)
    | GateAnswer(c: nat, wait: int)
    | Wake(c: nat)
    | Fail(c: nat)
    | OtherProcess(ms: nat)

  predicate Can(w: World, e: Event) {
    match e
    case Tick(ms) => true
    case OtherProcess(ms) => true
    case Acquire(c) => c !in w.calls
    case Cooldown(c, duration) => c !in w.calls && duration >= SHORTEST_MS
    case Write(c) =>
      c in w.calls && match w.calls[c] {
        case Check(last, seen, Writing(deadline, ms, written)) => !written && ms <= MAX_SAFE_INTEGER
        case Saving(until, duration, saved) => !saved && duration <= MAX_SAFE_INTEGER
        case _ => false
      }
    case WriteAck(c) =>
      c in w.calls && match w.calls[c] {
        case Check(last, seen, Writing(deadline, ms, written)) => written
        case Saving(until, duration, saved) => saved
        case _ => false
      }
    case ReadRow(c) => c in w.calls && w.calls[c].Check? && w.calls[c].phase.ReadSent?
    case ReadAck(c) => c in w.calls && w.calls[c].Check? && w.calls[c].phase.ReadDone?
    case GateAnswer(c, wait) => c in w.calls && w.calls[c].AtGate?
    case Wake(c) => c in w.calls && w.calls[c].Sleeping?
    case Fail(c) => c in w.calls && !w.calls[c].Returned?
  }

  function Put(w: World, c: nat, call: Call): World { w.(calls := w.calls[c := call]) }

  function CheckBegun(w: World, last: bool): Call {
    Check(last, |w.observed|,
          if w.pending != 0 then Writing(w.pending, CatchUp(w.pending, w.now), false) else ReadSent)
  }

  function Do(w: World, e: Event): World
    requires Can(w, e)
  {
    match e
    case Tick(ms) => w.(now := w.now + ms)
    case OtherProcess(ms) => w.(notBefore := Extended(w.notBefore, w.now, ms))
    case Acquire(c) => Put(w, c, CheckBegun(w, false))
    case Cooldown(c, duration) =>
      Put(w.(observed := w.observed + [w.now + duration], pending := Max(w.pending, w.now + duration)),
          c, Saving(w.now + duration, duration, false))
    case Write(c) => (
      match w.calls[c]
      case Check(last, seen, Writing(deadline, ms, written)) =>
        Put(w.(notBefore := Extended(w.notBefore, w.now, ms)), c, Check(last, seen, Writing(deadline, ms, true)))
      case Saving(until, duration, saved) =>
        Put(w.(notBefore := Extended(w.notBefore, w.now, duration)), c, Saving(until, duration, true)))
    case WriteAck(c) => (
      match w.calls[c]
      case Check(last, seen, Writing(deadline, ms, written)) =>
        Put(w.(pending := Acknowledged(w.pending, deadline)), c, Check(last, seen, ReadSent))
      case Saving(until, duration, saved) =>
        Put(w.(pending := Acknowledged(w.pending, until)), c, Ended))
    case ReadRow(c) => Put(w, c, w.calls[c].(phase := ReadDone(Remaining(w.notBefore, w.now))))
    case ReadAck(c) =>
      var call := w.calls[c];
      Put(w, c, if call.phase.left > 0 then Ended else if call.last then Returned(call.seen) else AtGate)
    case GateAnswer(c, wait) =>
      Put(w, c, if wait < 0 then Ended else if wait > 0 then Sleeping else CheckBegun(w, true))
    case Wake(c) => Put(w, c, CheckBegun(w, false))
    case Fail(c) => Put(w, c, Ended)
  }

  function After(w: World, e: Event): World { if Can(w, e) then Do(w, e) else w }

  function Play(w: World, events: seq<Event>): World {
    if events == [] then w else After(Play(w, events[..|events| - 1]), events[|events| - 1])
  }

  /** A process that has just started; what others persisted before is already in the row. */
  function Start(now: nat, notBefore: nat): World { World(now, notBefore, 0, [], map[]) }

  // ---- the invariant ----

  ghost predicate AllSaved(w: World, count: nat) {
    count <= |w.observed| && forall i :: 0 <= i < count ==> w.observed[i] <= w.notBefore
  }

  ghost predicate AllPassed(w: World, count: nat) {
    count <= |w.observed| && forall i :: 0 <= i < count ==> w.observed[i] <= w.now
  }

  ghost predicate Guarded(w: World) {
    forall i :: 0 <= i < |w.observed| ==>
      w.observed[i] <= w.notBefore || (w.pending != 0 && w.observed[i] <= w.pending)
  }

  ghost predicate CallSound(w: World, call: Call) {
    match call
    case Check(last, seen, Writing(deadline, ms, written)) =>
      && w.now + ms >= deadline
      && seen <= |w.observed|
      && (written ==> deadline <= w.notBefore)
      && (forall i :: 0 <= i < seen ==> w.observed[i] <= w.notBefore || w.observed[i] <= deadline)
    case Check(last, seen, ReadSent) => AllSaved(w, seen)
    case Check(last, seen, ReadDone(left)) => AllSaved(w, seen) && (left == 0 ==> AllPassed(w, seen))
    case Returned(seen) => AllSaved(w, seen) && AllPassed(w, seen)
    case Saving(until, duration, saved) => w.now + duration >= until && (saved ==> until <= w.notBefore)
    case _ => true
  }

  ghost predicate Inv(w: World) {
    Guarded(w) && forall c :: c in w.calls ==> CallSound(w, w.calls[c])
  }

  /** A call that the event does not touch stays sound: the clock, the row and the list only grow. */
  lemma SoundnessLasts(w: World, t: World, call: Call)
    requires CallSound(w, call) && w.now <= t.now && w.notBefore <= t.notBefore && w.observed <= t.observed
    ensures CallSound(t, call)
  {
  }

  lemma CheckBeginsSound(w: World, last: bool)
    requires Guarded(w)
    ensures CallSound(w, CheckBegun(w, last))
  {
  }

  /** The event is one of the call's own. */
  predicate Touches(e: Event, c: nat) {
    match e
    case Tick(_) => false
    case OtherProcess(_) => false
    case _ => e.c == c
  }

  /** Observing raises what is pending, and an acknowledged write only drops what it has persisted. */
  lemma EventGuards(w: World, e: Event)
    requires Inv(w) && Can(w, e)
    ensures Guarded(Do(w, e))
  {
    if e.WriteAck? {
      assert CallSound(w, w.calls[e.c]);
    }
  }

  /** The call an event belongs to stays sound. */
  lemma ActorStaysSound(w: World, e: Event, c: nat)
    requires Inv(w) && Can(w, e) && Touches(e, c)
    ensures c in Do(w, e).calls && CallSound(Do(w, e), Do(w, e).calls[c])
  {
    CheckBeginsSound(w, false);
    CheckBeginsSound(w, true);
    assert c in w.calls ==> CallSound(w, w.calls[c]);
  }

  lemma OthersStaySound(w: World, e: Event, c: nat)
    requires Inv(w) && Can(w, e) && !Touches(e, c) && c in Do(w, e).calls
    ensures CallSound(Do(w, e), Do(w, e).calls[c])
  {
    SoundnessLasts(w, Do(w, e), w.calls[c]);
  }

  lemma EventKeeps(w: World, e: Event)
    requires Inv(w) && Can(w, e)
    ensures Inv(Do(w, e))
  {
    EventGuards(w, e);
    forall c | c in Do(w, e).calls
      ensures CallSound(Do(w, e), Do(w, e).calls[c])
    {
      if Touches(e, c) {
        ActorStaysSound(w, e, c);
      } else {
        OthersStaySound(w, e, c);
      }
    }
  }

  lemma {:induction false} InvAlways(now: nat, notBefore: nat, events: seq<Event>)
    ensures Inv(Play(Start(now, notBefore), events))
  {
    if events != [] {
      InvAlways(now, notBefore, events[..|events| - 1]);
      var w, e := Play(Start(now, notBefore), events[..|events| - 1]), events[|events| - 1];
      if Can(w, e) {
        EventKeeps(w, e);
      }
    }
  }

  /** Whenever nothing is pending, every deadline the process has observed is persisted. */
  lemma NothingPendingMeansSaved(now: nat, notBefore: nat, events: seq<Event>, i: nat)
    requires i < |Play(Start(now, notBefore), events).observed|
    ensures var w := Play(Start(now, notBefore), events);
      w.observed[i] <= w.notBefore || (w.pending != 0 && w.observed[i] <= w.pending)
  {
    InvAlways(now, notBefore, events);
  }

  /** The call passed the gate at event `k`, when `seen` deadlines had been observed. */
  ghost predicate PassedGate(w: World, events: seq<Event>, c: nat, k: nat, seen: nat) {
    k < |events| && events[k] == GateAnswer(c, 0) && Can(Play(w, events[..k]), events[k])
    && |Play(w, events[..k]).observed| == seen
  }

  lemma {:induction false} LastCheckFollowsGate(w: World, events: seq<Event>, c: nat)
    requires w.calls == map[] && c in Play(w, events).calls
    requires var call := Play(w, events).calls[c]; call.Returned? || (call.Check? && call.last)
    ensures exists k: nat :: PassedGate(w, events, c, k, Play(w, events).calls[c].seen)
  {
    var n := |events| - 1;
    var before, e := Play(w, events[..n]), events[n];
    if Can(before, e) && e == GateAnswer(c, 0) {
      assert PassedGate(w, events, c, n, |before.observed|);
    } else {
      LastCheckFollowsGate(w, events[..n], c);
      var k: nat :| PassedGate(w, events[..n], c, k, before.calls[c].seen);
      assert events[..n][..k] == events[..k];
      assert PassedGate(w, events, c, k, before.calls[c].seen);
    }
  }

  lemma {:induction false} ObservedGrows(w: World, events: seq<Event>, k: nat)
    requires k <= |events|
    ensures Play(w, events[..k]).observed <= Play(w, events).observed
  {
    if k == |events| {
      assert events[..k] == events;
    } else {
      ObservedGrows(w, events[..|events| - 1], k);
      assert events[..|events| - 1][..k] == events[..k];
    }
  }

  /**
    When an `acquire` returns, the gate had admitted it at some event `k` of the run, and every deadline the
    process had observed by then is persisted and over, whatever interleaved and whatever failed.
   */
  lemma ReturnMeansPassed(now: nat, notBefore: nat, events: seq<Event>, c: nat)
    requires c in Play(Start(now, notBefore), events).calls
    requires Play(Start(now, notBefore), events).calls[c].Returned?
    ensures var w := Play(Start(now, notBefore), events);
      exists k: nat :: k < |events| && events[k] == GateAnswer(c, 0)
        && Play(Start(now, notBefore), events[..k]).observed <= w.observed
        && forall i :: 0 <= i < |Play(Start(now, notBefore), events[..k]).observed| ==>
             w.observed[i] <= w.notBefore && w.observed[i] <= w.now
  {
    var start := Start(now, notBefore);
    InvAlways(now, notBefore, events);
    LastCheckFollowsGate(start, events, c);
    var w := Play(start, events);
    var k: nat :| PassedGate(start, events, c, k, w.calls[c].seen);
    ObservedGrows(start, events, k);
    assert CallSound(w, w.calls[c]);
  }

  // ---- exactly when a call returns ----

  /** Event `k` of the run happened, and was the call's own. */
  ghost predicate Acts(w: World, events: seq<Event>, c: nat, k: nat)
    requires k < |events|
  {
    Touches(events[k], c) && Can(Play(w, events[..k]), events[k])
  }

  /** Event `r` is the call's read of the row in its last check. */
  ghost predicate ReadsLast(w: World, events: seq<Event>, c: nat, r: nat) {
    r < |events| && events[r] == ReadRow(c) && Acts(w, events, c, r) && Play(w, events[..r]).calls[c].last
  }

  ghost predicate RestsBetween(w: World, events: seq<Event>, c: nat, r: nat, m: nat) {
    r <= m <= |events| && forall k :: r < k < m ==> !Acts(w, events, c, k)
  }

  ghost predicate RowOverAt(w: World, events: seq<Event>, r: nat)
    requires r <= |events|
  {
    Play(w, events[..r]).notBefore <= Play(w, events[..r]).now
  }

  lemma PlayLast(w: World, events: seq<Event>, k: nat)
    requires k < |events|
    ensures Play(w, events[..k + 1]) == After(Play(w, events[..k]), events[k])
  {
    assert events[..k + 1][..k] == events[..k];
  }

  /** Between its own events a call stays as it is. */
  lemma OthersLeaveCall(w: World, e: Event, c: nat)
    requires c in w.calls && !(Touches(e, c) && Can(w, e))
    ensures c in After(w, e).calls && After(w, e).calls[c] == w.calls[c]
  {
  }

  lemma {:induction false} ReadStays(w: World, events: seq<Event>, c: nat, r: nat, m: nat)
    requires ReadsLast(w, events, c, r) && r < m && RestsBetween(w, events, c, r, m)
    ensures var before, after := Play(w, events[..r]), Play(w, events[..m]);
      && c in before.calls && before.calls[c].Check? && c in after.calls
      && after.calls[c] == Check(true, before.calls[c].seen, ReadDone(Remaining(before.notBefore, before.now)))
    decreases m
  {
    PlayLast(w, events, m - 1);
    if r < m - 1 {
      ReadStays(w, events, c, r, m - 1);
      assert !Acts(w, events, c, m - 1);
      OthersLeaveCall(Play(w, events[..m - 1]), events[m - 1], c);
    }
  }

  /** A call returns from its last check exactly when the row it read there was over at that moment. */
  lemma ReturnIffRowWasOver(w: World, events: seq<Event>, c: nat, r: nat, m: nat)
    requires ReadsLast(w, events, c, r) && r < m < |events| && RestsBetween(w, events, c, r, m)
    requires events[m] == ReadAck(c)
    ensures c in Play(w, events[..m + 1]).calls
    ensures Play(w, events[..m + 1]).calls[c].Returned? <==> RowOverAt(w, events, r)
  {
    ReadStays(w, events, c, r, m);
    PlayLast(w, events, m);
  }

  /** A call on its way out of the last check has such a read behind it. */
  lemma {:induction false} AnswerHasItsRead(w: World, events: seq<Event>, c: nat)
    requires w.calls == map[] && c in Play(w, events).calls
    requires var call := Play(w, events).calls[c]; call.Check? && call.last && call.phase.ReadDone?
    ensures exists r: nat :: ReadsLast(w, events, c, r) && RestsBetween(w, events, c, r, |events|)
  {
    var n := |events| - 1;
    PlayLast(w, events, n);
    assert events[..n + 1] == events;
    if Acts(w, events, c, n) {
      assert ReadsLast(w, events, c, n) && RestsBetween(w, events, c, n, |events|);
    } else {
      AnswerHasItsRead(w, events[..n], c);
      var r: nat :| ReadsLast(w, events[..n], c, r) && RestsBetween(w, events[..n], c, r, n);
      ReadInLonger(w, events, c, r, n);
    }
  }

  lemma ReadInLonger(w: World, events: seq<Event>, c: nat, r: nat, n: nat)
    requires n < |events| && ReadsLast(w, events[..n], c, r) && RestsBetween(w, events[..n], c, r, n)
    ensures ReadsLast(w, events, c, r) && RestsBetween(w, events, c, r, n)
    ensures !Acts(w, events, c, n) ==> RestsBetween(w, events, c, r, n + 1)
  {
    assert events[..n][..r] == events[..r];
    forall k | r < k < n
      ensures !Acts(w, events, c, k)
    {
      assert events[..n][..k] == events[..k];
      assert !Acts(w, events[..n], c, k);
    }
  }

  /** Event `r` read the row and event `m` took the answer, with nothing of the call between or after. */
  ghost predicate ReturnedFrom(w: World, events: seq<Event>, c: nat, r: nat, m: nat) {
    && r < m < |events| && events[m] == ReadAck(c) && Acts(w, events, c, m)
    && ReadsLast(w, events, c, r) && RestsBetween(w, events, c, r, m) && RestsBetween(w, events, c, m, |events|)
  }

  /** Every returned call has its last read and its answer in the run. */
  lemma {:induction false} ReturnHasItsRead(w: World, events: seq<Event>, c: nat)
    requires w.calls == map[] && c in Play(w, events).calls && Play(w, events).calls[c].Returned?
    ensures exists r: nat, m: nat :: ReturnedFrom(w, events, c, r, m)
  {
    var n := |events| - 1;
    PlayLast(w, events, n);
    assert events[..n + 1] == events;
    if Acts(w, events, c, n) {
      AnswerHasItsRead(w, events[..n], c);
      var r: nat :| ReadsLast(w, events[..n], c, r) && RestsBetween(w, events[..n], c, r, n);
      ReadInLonger(w, events, c, r, n);
      assert ReturnedFrom(w, events, c, r, n);
    } else {
      ReturnHasItsRead(w, events[..n], c);
      var r: nat, m: nat :| ReturnedFrom(w, events[..n], c, r, m);
      ReturnInLonger(w, events, c, r, m, n);
    }
  }

  lemma ReturnInLonger(w: World, events: seq<Event>, c: nat, r: nat, m: nat, n: nat)
    requires n == |events| - 1 && ReturnedFrom(w, events[..n], c, r, m) && !Acts(w, events, c, n)
    ensures ReturnedFrom(w, events, c, r, m)
  {
    assert events[..n][..r] == events[..r] && events[..n][..m] == events[..m];
    forall k | r < k < n && k != m
      ensures !Acts(w, events, c, k)
    {
      assert events[..n][..k] == events[..k];
      assert !Acts(w, events[..n], c, k);
    }
  }

  lemma {:induction false} TimeGrows(w: World, events: seq<Event>, k: nat)
    requires k <= |events|
    ensures Play(w, events[..k]).now <= Play(w, events).now
  {
    if k == |events| {
      assert events[..k] == events;
    } else {
      TimeGrows(w, events[..|events| - 1], k);
      assert events[..|events| - 1][..k] == events[..k];
    }
  }

  /**
    What a returned call leaves behind, exactly. The row it read last was over, so a deadline persisted by
    then has passed; and a deadline that is still ahead was not persisted by then, or not even observed.
   */
  lemma ReturnWaitsForWhatWasPersisted(now: nat, notBefore: nat, events: seq<Event>, c: nat)
    requires c in Play(Start(now, notBefore), events).calls
    requires Play(Start(now, notBefore), events).calls[c].Returned?
    ensures var w, start := Play(Start(now, notBefore), events), Start(now, notBefore);
      exists r: nat, m: nat :: ReturnedFrom(start, events, c, r, m) && RowOverAt(start, events, r)
        && forall i :: 0 <= i < |w.observed| && w.observed[i] > w.now ==>
             i >= |Play(start, events[..r]).observed| || w.observed[i] > Play(start, events[..r]).notBefore
  {
    var start := Start(now, notBefore);
    ReturnHasItsRead(start, events, c);
    var r: nat, m: nat :| ReturnedFrom(start, events, c, r, m);
    ReturnOutcomeStays(start, events, c, r, m);
    ReturnIffRowWasOver(start, events, c, r, m);
    TimeGrows(start, events, r);
  }

  /** The call is as its answer left it. */
  lemma {:induction false} ReturnOutcomeStays(w: World, events: seq<Event>, c: nat, r: nat, m: nat)
    requires ReturnedFrom(w, events, c, r, m)
    ensures c in Play(w, events[..m + 1]).calls && c in Play(w, events).calls
    ensures Play(w, events).calls[c] == Play(w, events[..m + 1]).calls[c]
  {
    ReturnIffRowWasOver(w, events, c, r, m);
    CallRests(w, events, c, m, |events|);
    assert events[..|events|] == events;
  }

  lemma {:induction false} CallRests(w: World, events: seq<Event>, c: nat, m: nat, n: nat)
    requires m < n <= |events| && RestsBetween(w, events, c, m, n) && c in Play(w, events[..m + 1]).calls
    ensures c in Play(w, events[..n]).calls && Play(w, events[..n]).calls[c] == Play(w, events[..m + 1]).calls[c]
    decreases n
  {
    if m + 1 < n {
      CallRests(w, events, c, m, n - 1);
      PlayLast(w, events, n - 1);
      assert !Acts(w, events, c, n - 1);
      OthersLeaveCall(Play(w, events[..n - 1]), events[n - 1], c);
    }
  }

  /**
    The other direction: a call about to read goes on to return with a deadline still ahead of it exactly
    when the row is over and that deadline is ahead, which means that it is not persisted yet.
   */
  lemma MissedIff(w: World, c: nat, i: nat)
    requires c in w.calls && w.calls[c].Check? && w.calls[c].last && w.calls[c].phase.ReadSent?
    requires i < |w.observed|
    ensures var t := After(After(w, ReadRow(c)), ReadAck(c));
      && c in t.calls
      && (t.calls[c].Returned? && t.observed[i] > t.now <==> w.notBefore <= w.now < w.observed[i])
      && (w.notBefore <= w.now < w.observed[i] ==> w.observed[i] > w.notBefore)
  {
  }

  /** A deadline observed after the gate answered and persisted before the last read is waited for. */
  lemma PersistedDeadlineIsAwaited()
    ensures var w := Play(Start(0, 0), TO_GATE + PERSISTED_IN_TIME);
      1 in w.calls && w.calls[1].Ended? && w.observed == [5000]
  {
    ReachesGate();
    PlayThree(AT_LAST_CHECK, Cooldown(2, 5000), Write(2), ReadRow(1));
    PlayStep(AT_LAST_CHECK, [Cooldown(2, 5000), Write(2), ReadRow(1)], ReadAck(1));
    assert [Cooldown(2, 5000), Write(2), ReadRow(1)] + [ReadAck(1)] == PERSISTED_IN_TIME;
    PlayOn(Start(0, 0), TO_GATE, PERSISTED_IN_TIME);
  }

  /** One whose write is still under way when the row is read is not. */
  lemma LateDeadlineIsMissed()
    ensures var w := Play(Start(0, 0), TO_GATE + WRITTEN_TOO_LATE);
      1 in w.calls && w.calls[1].Returned? && w.observed == [5000] && w.now == 0
  {
    ReachesGate();
    PlayThree(AT_LAST_CHECK, Cooldown(2, 5000), ReadRow(1), ReadAck(1));
    PlayOn(Start(0, 0), TO_GATE, WRITTEN_TOO_LATE);
  }

  const TO_GATE := [Acquire(1), ReadRow(1), ReadAck(1), GateAnswer(1, 0)]
  const PERSISTED_IN_TIME := [Cooldown(2, 5000), Write(2), ReadRow(1), ReadAck(1)]
  const WRITTEN_TOO_LATE := [Cooldown(2, 5000), ReadRow(1), ReadAck(1)]
  const AT_LAST_CHECK := World(0, 0, 0, [], map[1 := Check(true, 0, ReadSent)])

  lemma ReachesGate()
    ensures Play(Start(0, 0), TO_GATE) == AT_LAST_CHECK
  {
    PlayThree(Start(0, 0), Acquire(1), ReadRow(1), ReadAck(1));
    PlayStep(Start(0, 0), [Acquire(1), ReadRow(1), ReadAck(1)], GateAnswer(1, 0));
    assert [Acquire(1), ReadRow(1), ReadAck(1)] + [GateAnswer(1, 0)] == TO_GATE;
  }

  lemma PlayThree(w: World, a: Event, b: Event, c: Event)
    ensures Play(w, [a, b, c]) == After(After(After(w, a), b), c)
  {
    PlayStep(w, [], a);
    PlayStep(w, [a], b);
    PlayStep(w, [a, b], c);
    assert [] + [a] == [a] && [a] + [b] == [a, b] && [a, b] + [c] == [a, b, c];
  }

  lemma {:induction false} PlayOn(w: World, first: seq<Event>, more: seq<Event>)
    ensures Play(w, first + more) == Play(Play(w, first), more)
  {
    if more == [] {
      assert first + more == first;
    } else {
      PlayOn(w, first, more[..|more| - 1]);
      assert (first + more)[..|first + more| - 1] == first + more[..|more| - 1];
    }
  }

  lemma PlayStep(w: World, events: seq<Event>, e: Event)
    ensures Play(w, events + [e]) == After(Play(w, events), e)
  {
    assert (events + [e])[..|events|] == events;
  }
}
