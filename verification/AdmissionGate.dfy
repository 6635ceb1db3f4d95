/**
  The admission gate that every HTTP attempt of every process passes: two Redis scripts over the keys
  `cooldown`, `next`, one key per chat and `safety`, all on the Redis clock.
 */
module AdmissionGate {
  import opened Wrappers

  const WINDOW_MS := 1000
  const KEY_TTL_MS := 60000
  const LONGEST_COOLDOWN_MS := 86400000

  /** A stored value; Redis may forget it at any moment from `expiresAt` on. */
  datatype Entry = Entry(value: nat, expiresAt: nat)

  datatype Keys = Keys(cooldown: Option<Entry>, next: Option<Entry>, chats: map<nat, Entry>, safety: Option<Entry>)

  const NO_KEYS := Keys(None, None, map[], None)

  function Max(a: nat, b: nat): nat { if a < b then b else a }
  function Min(a: nat, b: nat): nat { if a < b then a else b }

  function Read(e: Option<Entry>): nat { if e.Some? then e.value.value else 0 }

  function ReadChat(keys: Keys, chat: Option<nat>): nat {
    if chat.Some? && chat.value in keys.chats then keys.chats[chat.value].value else 0
  }

  function ReadSafety(keys: Keys, safety: bool): nat { if safety then Read(keys.safety) else 0 }

  /** The first moment at which every key the request depends on lets it pass. */
  function OpensAt(keys: Keys, chat: Option<nat>, safety: bool): nat {
    Max(Max(Read(keys.cooldown), Read(keys.next)), Max(ReadChat(keys, chat), ReadSafety(keys, safety)))
  }

  /** 0 admits; a positive answer is a wait; a negative one is a long cooldown that releases the worker. */
  function Answer(keys: Keys, now: nat, chat: Option<nat>, safety: bool): int {
    if Read(keys.cooldown) > now + 1000 then now - Read(keys.cooldown)
    else if OpensAt(keys, chat, safety) > now then OpensAt(keys, chat, safety) - now
    else 0
  }

  function Admitted(keys: Keys, now: nat, gap: nat, chat: Option<nat>, safety: bool): Keys {
    keys.(
      next := Some(Entry(now + gap, now + KEY_TTL_MS)),
      chats := if chat.Some? then keys.chats[chat.value := Entry(now + WINDOW_MS, now + KEY_TTL_MS)] else keys.chats,
      safety := if safety then Some(Entry(now + WINDOW_MS, now + KEY_TTL_MS)) else keys.safety)
  }

  function CooledDown(keys: Keys, now: nat, ms: nat): Keys {
    if now + ms > Read(keys.cooldown) then keys.(cooldown := Some(Entry(now + ms, now + ms + KEY_TTL_MS)))
    else keys
  }

  /** A process slows down to half its rate for a minute after a cooldown. */
  function EffectiveRps(rps: nat, reduced: bool): (r: nat)
    requires rps >= 1
    ensures 1 <= r <= rps
  {
    if reduced then Max(1, rps / 2) else rps
  }

  function Gap(rps: nat): (gap: nat)
    requires rps >= 1
    ensures 1 <= gap <= WINDOW_MS
    ensures WINDOW_MS <= rps * gap < WINDOW_MS + rps
  {
    GapTiles(rps);
    (WINDOW_MS + rps - 1) / rps
  }

  lemma GapTiles(rps: nat)
    requires rps >= 1
    ensures 1 <= (WINDOW_MS + rps - 1) / rps <= WINDOW_MS
    ensures WINDOW_MS <= rps * ((WINDOW_MS + rps - 1) / rps) < WINDOW_MS + rps
  {
    var q := (WINDOW_MS + rps - 1) / rps;
    assert q * rps + (WINDOW_MS + rps - 1) % rps == WINDOW_MS + rps - 1;
    assert rps * WINDOW_MS >= WINDOW_MS + rps - 1 by { assert (rps - 1) * (WINDOW_MS - 1) >= 0; }
    Cancel(rps, q, WINDOW_MS);
    Cancel(rps, 1, q);
  }

  lemma Monotone(a: int, x: int, y: int)
    requires a >= 0 && x <= y
    ensures a * x <= a * y
  {
    assert a * (y - x) >= 0;
    assert a * (y - x) == a * y - a * x;
  }

  lemma Cancel(a: int, x: int, y: int)
    requires a >= 1 && a * x < a * y + a
    ensures x <= y
  {
    assert a * (y + 1) == a * y + a;
    if x > y {
      Monotone(a, y + 1, x);
    }
  }

  lemma FewGaps(gap: nat, rps: nat, count: nat)
    requires gap >= 1 && (count >= 1 ==> (count - 1) * gap < rps * gap)
    ensures count <= rps
  {
    if count >= 1 {
      assert gap * (rps - 1) + gap == rps * gap;
      assert gap * (count - 1) == (count - 1) * gap;
      Cancel(gap, count - 1, rps - 1);
    }
  }

  lemma SlowerGapIsWider(slow: nat, fast: nat)
    requires 1 <= slow <= fast
    ensures Gap(slow) >= Gap(fast)
  {
    Monotone(Gap(slow), slow, fast);
    Cancel(fast, Gap(fast), Gap(slow));
  }

  // ---- the scripts on the stored keys ----

  class Redis {
    var now: nat
    var cooldown: Option<Entry>
    var next: Option<Entry>
    var chats: map<nat, Entry>
    var safety: Option<Entry>

    function Contents(): Keys
      reads this
    {
      Keys(cooldown, next, chats, safety)
    }

    constructor (clock: nat)
      ensures Contents() == NO_KEYS && now == clock
    {
      now, cooldown, next, chats, safety := clock, None, None, map[], None;
    }

    /** ADMIT_HTTP_LUA: returns early without a write unless the request passes now. */
    method AdmitHttp(gap: nat, chat: Option<nat>, probe: bool) returns (wait: int)
      modifies this
      ensures now == old(now)
      ensures wait == Answer(old(Contents()), now, chat, probe)
      ensures Contents() == if wait == 0 then Admitted(old(Contents()), now, gap, chat, probe) else old(Contents())
    {
      var held := Read(cooldown);
      if held > now + 1000 {
        return now - held;
      }
      var at := Max(held, Read(next));
      if chat.Some? && chat.value in chats {
        at := Max(at, chats[chat.value].value);
      }
      if probe {
        at := Max(at, Read(safety));
      }
      if at > now {
        return at - now;
      }
      next := Some(Entry(now + gap, now + KEY_TTL_MS));
      if chat.Some? {
        chats := chats[chat.value := Entry(now + WINDOW_MS, now + KEY_TTL_MS)];
      }
      if probe {
        safety := Some(Entry(now + WINDOW_MS, now + KEY_TTL_MS));
      }
      return 0;
    }

    /** COOLDOWN_LUA: the deadline only ever moves later. */
    method Cooldown(ms: nat) returns (deadline: nat)
      modifies this
      ensures now == old(now)
      ensures deadline == Max(now + ms, Read(old(Contents()).cooldown))
      ensures Contents() == CooledDown(old(Contents()), now, ms)
    {
      var was := Read(cooldown);
      deadline := Max(now + ms, was);
      if now + ms > was {
        cooldown := Some(Entry(now + ms, now + ms + KEY_TTL_MS));
      }
    }
  }

  /** Waiting exactly as long as told, with nothing happening meanwhile, passes; any shorter wait does not. */
  lemma WaitIsExact(keys: Keys, now: nat, chat: Option<nat>, safety: bool, later: nat)
    requires now <= later && Answer(keys, now, chat, safety) >= 0
    ensures Answer(keys, later, chat, safety) == 0 <==> later >= now + Answer(keys, now, chat, safety)
  {
  }

  // ---- runs of the gate ----

  /** `heard` counts the cooldowns the gate had received when it admitted the attempt. */
  datatype Admission = Admission(at: nat, chat: Option<nat>, safety: bool, heard: nat)

  datatype World = World(now: nat, keys: Keys, log: seq<Admission>, deadlines: seq<nat>)

  /** Any process may ask at any time, each with its own rate of at most `maxRps`. */
  datatype Event =
    | Tick(ms: nat)
    | Ask(rps: nat, reduced: bool, chat: Option<nat>, safety: bool)
    | Cool(ms: nat)
    | ForgetCooldown
    | ForgetNext
    | ForgetChat(gone: nat)
    | ForgetSafety

  predicate Expired(w: World, e: Option<Entry>) { e.Some? && e.value.expiresAt <= w.now }

  predicate Can(w: World, maxRps: nat, e: Event) {
    match e
    case Tick(ms) => true
    case Ask(rps, reduced, chat, safety) => 1 <= rps <= maxRps
    case Cool(ms) => true
    case ForgetCooldown => Expired(w, w.keys.cooldown)
    case ForgetNext => Expired(w, w.keys.next)
    case ForgetChat(gone) => gone in w.keys.chats && w.keys.chats[gone].expiresAt <= w.now
    case ForgetSafety => Expired(w, w.keys.safety)
  }

  function Passed(w: World, gap: nat, chat: Option<nat>, safety: bool): World {
    w.(keys := Admitted(w.keys, w.now, gap, chat, safety),
       log := w.log + [Admission(w.now, chat, safety, |w.deadlines|)])
  }

  function Do(w: World, maxRps: nat, e: Event): World
    requires Can(w, maxRps, e)
  {
    match e
    case Tick(ms) => w.(now := w.now + ms)
    case Ask(rps, reduced, chat, safety) =>
      if Answer(w.keys, w.now, chat, safety) != 0 then w
      else Passed(w, Gap(EffectiveRps(rps, reduced)), chat, safety)
    case Cool(ms) =>
      var duration := Min(Max(1000, ms), LONGEST_COOLDOWN_MS);
      w.(keys := CooledDown(w.keys, w.now, duration), deadlines := w.deadlines + [w.now + duration])
    case ForgetCooldown => w.(keys := w.keys.(cooldown := None))
    case ForgetNext => w.(keys := w.keys.(next := None))
    case ForgetChat(gone) => w.(keys := w.keys.(chats := map c | c in w.keys.chats && c != gone :: w.keys.chats[c]))
    case ForgetSafety => w.(keys := w.keys.(safety := None))
  }

  function Play(w: World, maxRps: nat, events: seq<Event>): World {
    if events == [] then w
    else
      var before := Play(w, maxRps, events[..|events| - 1]);
      if Can(before, maxRps, events[|events| - 1]) then Do(before, maxRps, events[|events| - 1]) else before
  }

  function Start(now: nat): World { World(now, NO_KEYS, [], []) }

  // ---- the invariant ----

  /** Nothing passes before `bar`: the moment is over, or the key is still there and says so. */
  predicate Bars(now: nat, e: Option<Entry>, bar: nat) { bar <= now || (e.Some? && e.value.value >= bar) }

  predicate OutlivesItself(e: Option<Entry>) { e.Some? ==> e.value.value <= e.value.expiresAt }

  function ChatEntry(keys: Keys, chat: nat): Option<Entry> {
    if chat in keys.chats then Some(keys.chats[chat]) else None
  }

  ghost predicate KeysOutlive(keys: Keys) {
    && OutlivesItself(keys.cooldown) && OutlivesItself(keys.next) && OutlivesItself(keys.safety)
    && forall c :: c in keys.chats ==> keys.chats[c].value <= keys.chats[c].expiresAt
  }

  ghost predicate NextBars(w: World, gap: nat) {
    forall i :: 0 <= i < |w.log| ==> w.log[i].at <= w.now && Bars(w.now, w.keys.next, w.log[i].at + gap)
  }

  ghost predicate ChatBars(w: World) {
    forall i :: 0 <= i < |w.log| && w.log[i].chat.Some? ==>
      Bars(w.now, ChatEntry(w.keys, w.log[i].chat.value), w.log[i].at + WINDOW_MS)
  }

  ghost predicate SafetyBars(w: World) {
    forall i :: 0 <= i < |w.log| && w.log[i].safety ==> Bars(w.now, w.keys.safety, w.log[i].at + WINDOW_MS)
  }

  ghost predicate CooldownBars(w: World) {
    forall k :: 0 <= k < |w.deadlines| ==> Bars(w.now, w.keys.cooldown, w.deadlines[k])
  }

  ghost predicate KeysBar(w: World, gap: nat) {
    NextBars(w, gap) && ChatBars(w) && SafetyBars(w) && CooldownBars(w)
  }

  ghost predicate NextSpaced(w: World, gap: nat) {
    forall i :: 0 < i < |w.log| ==> w.log[i].at >= w.log[i - 1].at + gap
  }

  ghost predicate ChatSpaced(w: World) {
    forall i, j :: 0 <= i < j < |w.log| && w.log[i].chat.Some? && w.log[i].chat == w.log[j].chat ==>
      w.log[j].at >= w.log[i].at + WINDOW_MS
  }

  ghost predicate SafetySpaced(w: World) {
    forall i, j :: 0 <= i < j < |w.log| && w.log[i].safety && w.log[j].safety ==>
      w.log[j].at >= w.log[i].at + WINDOW_MS
  }

  ghost predicate DeadlinesPassed(w: World) {
    forall i :: 0 <= i < |w.log| ==>
      w.log[i].heard <= |w.deadlines| && forall k :: 0 <= k < w.log[i].heard ==> w.log[i].at >= w.deadlines[k]
  }

  ghost predicate LogSpaced(w: World, gap: nat) {
    NextSpaced(w, gap) && ChatSpaced(w) && SafetySpaced(w) && DeadlinesPassed(w)
  }

  ghost predicate Inv(w: World, gap: nat)
  {
    KeysOutlive(w.keys) && KeysBar(w, gap) && LogSpaced(w, gap)
  }

  lemma PassedKeepsBars(w: World, spacing: nat, gap: nat, chat: Option<nat>, safety: bool)
    requires Inv(w, spacing) && spacing <= gap <= WINDOW_MS && Answer(w.keys, w.now, chat, safety) == 0
    ensures KeysOutlive(Passed(w, gap, chat, safety).keys) && KeysBar(Passed(w, gap, chat, safety), spacing)
  {
    var t := Passed(w, gap, chat, safety);
    assert OpensAt(w.keys, chat, safety) <= w.now;
    assert NextBars(t, spacing);
    assert ChatBars(t);
    assert SafetyBars(t);
    assert CooldownBars(t);
  }

  lemma PassedKeepsChats(w: World, gap: nat, chat: Option<nat>, safety: bool)
    requires ChatBars(w) && ChatSpaced(w) && ReadChat(w.keys, chat) <= w.now
    ensures ChatSpaced(Passed(w, gap, chat, safety))
  {
    forall i | 0 <= i < |w.log| && w.log[i].chat.Some? && w.log[i].chat == chat
      ensures w.log[i].at + WINDOW_MS <= w.now
    {
      assert Bars(w.now, ChatEntry(w.keys, w.log[i].chat.value), w.log[i].at + WINDOW_MS);
    }
  }

  lemma PassedKeepsSpacing(w: World, spacing: nat, gap: nat, chat: Option<nat>, safety: bool)
    requires KeysBar(w, spacing) && LogSpaced(w, spacing)
    requires ReadChat(w.keys, chat) <= w.now && ReadSafety(w.keys, safety) <= w.now
    requires Read(w.keys.cooldown) <= w.now && Read(w.keys.next) <= w.now
    ensures LogSpaced(Passed(w, gap, chat, safety), spacing)
  {
    var t := Passed(w, gap, chat, safety);
    PassedKeepsChats(w, gap, chat, safety);
    assert NextSpaced(t, spacing);
    assert SafetySpaced(t);
    assert DeadlinesPassed(t);
  }

  /** The log is untouched and deadlines are only added. */
  lemma SameLogSpaced(w: World, t: World, gap: nat)
    requires LogSpaced(w, gap) && t.log == w.log && w.deadlines <= t.deadlines
    ensures LogSpaced(t, gap)
  {
  }

  lemma ClockKeeps(w: World, maxRps: nat, spacing: nat, e: Event)
    requires Inv(w, spacing) && Can(w, maxRps, e) && !e.Ask? && !e.Cool?
    ensures Inv(Do(w, maxRps, e), spacing)
  {
    var t := Do(w, maxRps, e);
    assert NextBars(t, spacing);
    assert ChatBars(t);
    assert SafetyBars(t);
    assert CooldownBars(t);
    SameLogSpaced(w, t, spacing);
  }

  lemma CoolBars(w: World, maxRps: nat, ms: nat)
    requires CooldownBars(w)
    ensures CooldownBars(Do(w, maxRps, Cool(ms)))
  {
  }

  lemma CoolKeeps(w: World, maxRps: nat, spacing: nat, ms: nat)
    requires Inv(w, spacing)
    ensures Inv(Do(w, maxRps, Cool(ms)), spacing)
  {
    var t := Do(w, maxRps, Cool(ms));
    assert NextBars(t, spacing) && ChatBars(t) && SafetyBars(t);
    CoolBars(w, maxRps, ms);
    SameLogSpaced(w, t, spacing);
  }

  lemma EventKeeps(w: World, maxRps: nat, spacing: nat, e: Event)
    requires Inv(w, spacing) && Can(w, maxRps, e)
    requires e.Ask? ==> spacing <= Gap(EffectiveRps(e.rps, e.reduced))
    ensures Inv(Do(w, maxRps, e), spacing)
  {
    if e.Cool? {
      CoolKeeps(w, maxRps, spacing, e.ms);
    } else if !e.Ask? {
      ClockKeeps(w, maxRps, spacing, e);
    } else if Answer(w.keys, w.now, e.chat, e.safety) == 0 {
      var gap := Gap(EffectiveRps(e.rps, e.reduced));
      PassedKeepsBars(w, spacing, gap, e.chat, e.safety);
      assert OpensAt(w.keys, e.chat, e.safety) <= w.now;
      PassedKeepsSpacing(w, spacing, gap, e.chat, e.safety);
    }
  }

  lemma {:induction false} InvAlways(now: nat, maxRps: nat, events: seq<Event>)
    requires maxRps >= 1
    ensures Inv(Play(Start(now), maxRps, events), Gap(maxRps))
  {
    if events != [] {
      var n := |events| - 1;
      InvAlways(now, maxRps, events[..n]);
      var before := Play(Start(now), maxRps, events[..n]);
      var e := events[n];
      if Can(before, maxRps, e) {
        if e.Ask? {
          SlowerGapIsWider(EffectiveRps(e.rps, e.reduced), maxRps);
        }
        EventKeeps(before, maxRps, Gap(maxRps), e);
      }
    }
  }

  // ---- the bounds ----

  /** The admissions in the half-open window of a second that begins at `from`. */
  function CountFrom(log: seq<Admission>, from: nat): nat {
    if log == [] then 0
    else CountFrom(log[..|log| - 1], from) + if from <= log[|log| - 1].at < from + WINDOW_MS then 1 else 0
  }

  /** `n` counted admissions span at least `n - 1` gaps, and the last counted one is inside the window. */
  lemma {:induction false} CountedSpread(log: seq<Admission>, from: nat, gap: nat)
    requires gap >= 1 && forall i :: 0 < i < |log| ==> log[i].at >= log[i - 1].at + gap
    ensures CountFrom(log, from) >= 1 ==> log != [] && log[|log| - 1].at >= from + (CountFrom(log, from) - 1) * gap
    ensures CountFrom(log, from) >= 1 ==> (CountFrom(log, from) - 1) * gap < WINDOW_MS
  {
    if log != [] {
      var shorter := log[..|log| - 1];
      CountedSpread(shorter, from, gap);
      var c := CountFrom(shorter, from);
      if c >= 1 {
        assert log[|log| - 1].at >= shorter[|shorter| - 1].at + gap;
        assert (c - 1) * gap + gap == c * gap;
      }
    }
  }

  lemma SpacedLogFits(log: seq<Admission>, maxRps: nat, from: nat)
    requires maxRps >= 1 && forall i :: 0 < i < |log| ==> log[i].at >= log[i - 1].at + Gap(maxRps)
    ensures CountFrom(log, from) <= maxRps
  {
    CountedSpread(log, from, Gap(maxRps));
    FewGaps(Gap(maxRps), maxRps, CountFrom(log, from));
  }

  /**
    In every run, in every second-long window wherever it begins, all processes together are admitted at
    most `maxRps` times, though keys expire and every process may slow down on its own.
   */
  lemma RateBound(now: nat, maxRps: nat, events: seq<Event>, from: nat)
    requires maxRps >= 1
    ensures CountFrom(Play(Start(now), maxRps, events).log, from) <= maxRps
  {
    InvAlways(now, maxRps, events);
    SpacedLogFits(Play(Start(now), maxRps, events).log, maxRps, from);
  }

  /** Two DELETEs of one chat, or two safety probes, are a second apart; nothing passes before a known cooldown. */
  lemma SpacingBound(now: nat, maxRps: nat, events: seq<Event>)
    requires maxRps >= 1
    ensures var w := Play(Start(now), maxRps, events);
      && (forall i, j :: 0 <= i < j < |w.log| && w.log[i].chat.Some? && w.log[i].chat == w.log[j].chat ==>
            w.log[j].at >= w.log[i].at + WINDOW_MS)
      && (forall i, j :: 0 <= i < j < |w.log| && w.log[i].safety && w.log[j].safety ==>
            w.log[j].at >= w.log[i].at + WINDOW_MS)
      && (forall i :: 0 <= i < |w.log| ==> w.log[i].heard <= |w.deadlines|)
      && (forall i, k :: 0 <= i < |w.log| && 0 <= k < w.log[i].heard ==> w.log[i].at >= w.deadlines[k])
  {
    InvAlways(now, maxRps, events);
  }
}
