/**
  The readers-writer fence between holds and dispatches, below the level of whole transactions:
  every lock, query, write and commit is a step of its own, and any number of dispatch
  transactions and hold requests of all chats interleave.
 */
module HoldFence {

  /** A journal row is named by its chat and its message. */
  datatype Key = Key(chat: nat, message: nat)

  datatype Effect = Waiting | Outstanding | Settled

  datatype Row = Row(author: nat, effect: Effect)

  /** A dispatch transaction: shared lock, row lock, exclusion query, write; it ends by commit or abort. */
  datatype DispatchPhase = Locked | RowRead | Cleared | Written

  datatype DispatchTx = DispatchTx(key: Key, phase: DispatchPhase)

  /** A hold request: exclusive lock, insert, commit, then two queries outside the transaction. */
  datatype HoldPhase = Requested | Exclusive | Inserted | Installed | AuthorsClear | Succeeded | RefusedHold

  datatype HoldTx = HoldTx(authors: set<nat>, messages: set<Key>, phase: HoldPhase)

  /** `heldAuthors` and `heldMessages` are the committed holds, `rows` the committed journal. */
  datatype Db = Db(
    rows: map<Key, Row>, heldAuthors: set<nat>, heldMessages: set<Key>,
    dispatches: map<nat, DispatchTx>, holds: map<nat, HoldTx>)

  datatype Event =
    // a dispatch transaction
    | LockShared(tx: nat, key: Key)
    | ReadRow(tx: nat)
    | ReadExclusions(tx: nat)
    | WriteMark(tx: nat)
    | CommitMark(tx: nat)
    | Abort(tx: nat)
    // a hold request
    | Request(h: nat, authors: set<nat>, messages: set<Key>)
    | LockExclusive(h: nat)
    | InsertHolds(h: nat)
    | CommitHolds(h: nat)
    | QueryAuthors(h: nat)
    | QueryMessages(h: nat)
    // everything else that writes the journal
    | Insert(key: Key, author: nat)
    | Settle(key: Key, effect: Effect)
    | Forget(key: Key)

  predicate Held(db: Db, key: Key) {
    key in db.heldMessages || (key in db.rows && db.rows[key].author in db.heldAuthors)
  }

  /** A dispatch transaction between its row lock and its end keeps every other writer off the row. */
  predicate RowLocked(db: Db, key: Key) {
    exists tx :: tx in db.dispatches && db.dispatches[tx].key == key && db.dispatches[tx].phase != Locked
  }

  predicate ExclusivelyLocked(db: Db) {
    exists h :: h in db.holds && (db.holds[h].phase == Exclusive || db.holds[h].phase == Inserted)
  }

  predicate InPhase(db: Db, tx: nat, phase: DispatchPhase) {
    tx in db.dispatches && db.dispatches[tx].phase == phase
  }

  predicate HoldAt(db: Db, h: nat, phase: HoldPhase) {
    h in db.holds && db.holds[h].phase == phase
  }

  function SetPhase(db: Db, tx: nat, phase: DispatchPhase): Db
    requires tx in db.dispatches
  {
    db.(dispatches := db.dispatches[tx := db.dispatches[tx].(phase := phase)])
  }

  function SetHold(db: Db, h: nat, phase: HoldPhase): Db
    requires h in db.holds
  {
    db.(holds := db.holds[h := db.holds[h].(phase := phase)])
  }

  predicate AuthorPending(db: Db, authors: set<nat>) {
    exists key :: key in db.rows && db.rows[key].author in authors && db.rows[key].effect == Outstanding
  }

  predicate MessagePending(db: Db, messages: set<Key>) {
    exists key :: key in db.rows && key in messages && db.rows[key].effect == Outstanding
  }

  predicate Can(db: Db, e: Event) {
    match e
    case LockShared(tx, key) => tx !in db.dispatches && !ExclusivelyLocked(db)
    case ReadRow(tx) =>
      InPhase(db, tx, Locked) && !RowLocked(db, db.dispatches[tx].key)
      && db.dispatches[tx].key in db.rows && db.rows[db.dispatches[tx].key].effect == Waiting
    case ReadExclusions(tx) => InPhase(db, tx, RowRead) && !Held(db, db.dispatches[tx].key)
    case WriteMark(tx) => InPhase(db, tx, Cleared)
    case CommitMark(tx) => InPhase(db, tx, Written)
    case Abort(tx) => tx in db.dispatches
    case Request(h, authors, messages) => h !in db.holds
    case LockExclusive(h) => HoldAt(db, h, Requested) && db.dispatches == map[] && !ExclusivelyLocked(db)
    case InsertHolds(h) => HoldAt(db, h, Exclusive)
    case CommitHolds(h) => HoldAt(db, h, Inserted)
    case QueryAuthors(h) => HoldAt(db, h, Installed)
    case QueryMessages(h) => HoldAt(db, h, AuthorsClear)
    case Insert(key, author) => key !in db.rows
    case Settle(key, effect) =>
      key in db.rows && !RowLocked(db, key) && (effect == Outstanding ==> db.rows[key].effect == Outstanding)
    case Forget(key) => key in db.rows && !RowLocked(db, key) && db.rows[key].effect != Outstanding
  }

  function Do(db: Db, e: Event): Db
    requires Can(db, e)
  {
    match e
    case LockShared(tx, key) => db.(dispatches := db.dispatches[tx := DispatchTx(key, Locked)])
    case ReadRow(tx) => SetPhase(db, tx, RowRead)
    case ReadExclusions(tx) => SetPhase(db, tx, Cleared)
    case WriteMark(tx) => SetPhase(db, tx, Written)
    case CommitMark(tx) =>
      var key := db.dispatches[tx].key;
      db.(dispatches := db.dispatches - {tx},
          rows := if key in db.rows then db.rows[key := db.rows[key].(effect := Outstanding)] else db.rows)
    case Abort(tx) => db.(dispatches := db.dispatches - {tx})
    case Request(h, authors, messages) => db.(holds := db.holds[h := HoldTx(authors, messages, Requested)])
    case LockExclusive(h) => SetHold(db, h, Exclusive)
    case InsertHolds(h) => SetHold(db, h, Inserted)
    case CommitHolds(h) =>
      SetHold(db, h, Installed).(heldAuthors := db.heldAuthors + db.holds[h].authors,
                                 heldMessages := db.heldMessages + db.holds[h].messages)
    case QueryAuthors(h) =>
      SetHold(db, h, if AuthorPending(db, db.holds[h].authors) then RefusedHold else AuthorsClear)
    case QueryMessages(h) =>
      SetHold(db, h, if MessagePending(db, db.holds[h].messages) then RefusedHold else Succeeded)
    case Insert(key, author) => db.(rows := db.rows[key := Row(author, Waiting)])
    case Settle(key, effect) => db.(rows := db.rows[key := db.rows[key].(effect := effect)])
    case Forget(key) => db.(rows := map k | k in db.rows && k != key :: db.rows[k])
  }

  function After(db: Db, e: Event): Db {
    if Can(db, e) then Do(db, e) else db
  }

  function Play(db: Db, events: seq<Event>): Db {
    if events == [] then db else After(Play(db, events[..|events| - 1]), events[|events| - 1])
  }

  // ---- the invariant ----

  /** A transaction past its exclusion query works on a present row that no committed hold covers. */
  ghost predicate PastQueryIsFree(db: Db) {
    forall tx :: tx in db.dispatches && (db.dispatches[tx].phase == Cleared || db.dispatches[tx].phase == Written) ==>
      db.dispatches[tx].key in db.rows && !Held(db, db.dispatches[tx].key)
  }

  ghost predicate LockedRowsPresent(db: Db) {
    forall tx :: tx in db.dispatches && db.dispatches[tx].phase != Locked ==> db.dispatches[tx].key in db.rows
  }

  ghost predicate FenceHolds(db: Db) {
    ExclusivelyLocked(db) ==> db.dispatches == map[]
  }

  predicate HasInstalled(phase: HoldPhase) {
    phase == Installed || phase == AuthorsClear || phase == Succeeded || phase == RefusedHold
  }

  ghost predicate HoldsInstalled(db: Db) {
    forall h :: h in db.holds && HasInstalled(db.holds[h].phase) ==>
      db.holds[h].authors <= db.heldAuthors && db.holds[h].messages <= db.heldMessages
  }

  ghost predicate ChecksStand(db: Db) {
    && (forall h :: h in db.holds && (db.holds[h].phase == AuthorsClear || db.holds[h].phase == Succeeded) ==>
          !AuthorPending(db, db.holds[h].authors))
    && (forall h :: h in db.holds && db.holds[h].phase == Succeeded ==> !MessagePending(db, db.holds[h].messages))
  }

  ghost predicate Inv(db: Db) {
    PastQueryIsFree(db) && LockedRowsPresent(db) && FenceHolds(db) && HoldsInstalled(db) && ChecksStand(db)
  }

  lemma CommitMarkKeeps(db: Db, tx: nat)
    requires Inv(db) && InPhase(db, tx, Written)
    ensures Inv(Do(db, CommitMark(tx)))
  {
    var key := db.dispatches[tx].key;
    var t := Do(db, CommitMark(tx));
    assert !Held(db, key);
    assert t.holds == db.holds;
    forall h | h in t.holds && HasInstalled(t.holds[h].phase)
      ensures AuthorPending(t, t.holds[h].authors) ==> AuthorPending(db, db.holds[h].authors)
      ensures MessagePending(t, t.holds[h].messages) ==> MessagePending(db, db.holds[h].messages)
    {
      assert db.rows[key].author !in db.holds[h].authors && key !in db.holds[h].messages;
    }
  }

  /** The rows only lost outstanding effects, so every check that passed still stands. */
  lemma RowsKeepChecks(db: Db, t: Db)
    requires ChecksStand(db) && t.holds == db.holds
    requires forall k :: k in t.rows && t.rows[k].effect == Outstanding ==>
               k in db.rows && db.rows[k].author == t.rows[k].author && db.rows[k].effect == Outstanding
    ensures ChecksStand(t)
  {
    forall h | h in t.holds
      ensures AuthorPending(t, t.holds[h].authors) ==> AuthorPending(db, db.holds[h].authors)
      ensures MessagePending(t, t.holds[h].messages) ==> MessagePending(db, db.holds[h].messages)
    {
    }
  }

  lemma JournalKeeps(db: Db, e: Event)
    requires Inv(db) && Can(db, e) && (e.Insert? || e.Settle? || e.Forget?)
    ensures Inv(Do(db, e))
  {
    var t := Do(db, e);
    RowsKeepChecks(db, t);
    assert ExclusivelyLocked(t) ==> ExclusivelyLocked(db);
  }

  lemma DispatchKeeps(db: Db, e: Event)
    requires Inv(db) && Can(db, e)
    requires e.LockShared? || e.ReadRow? || e.ReadExclusions? || e.WriteMark? || e.Abort?
    ensures Inv(Do(db, e))
  {
    var t := Do(db, e);
    RowsKeepChecks(db, t);
    assert ExclusivelyLocked(t) ==> ExclusivelyLocked(db);
  }

  lemma HoldKeeps(db: Db, e: Event)
    requires Inv(db) && Can(db, e)
    requires e.Request? || e.LockExclusive? || e.InsertHolds? || e.CommitHolds?
    ensures Inv(Do(db, e))
  {
    var t := Do(db, e);
    assert t.rows == db.rows;
    assert forall a: set<nat> :: AuthorPending(t, a) <==> AuthorPending(db, a);
    assert forall m: set<Key> :: MessagePending(t, m) <==> MessagePending(db, m);
    if e.InsertHolds? || e.CommitHolds? {
      assert db.holds[e.h].phase == Exclusive || db.holds[e.h].phase == Inserted;
      assert ExclusivelyLocked(db);
    }
    if e.Request? {
      assert ExclusivelyLocked(t) ==> ExclusivelyLocked(db);
    }
  }

  lemma QueryKeeps(db: Db, e: Event)
    requires Inv(db) && Can(db, e) && (e.QueryAuthors? || e.QueryMessages?)
    ensures Inv(Do(db, e))
  {
    var t := Do(db, e);
    assert t.rows == db.rows;
    assert forall a: set<nat> :: AuthorPending(t, a) <==> AuthorPending(db, a);
    assert forall m: set<Key> :: MessagePending(t, m) <==> MessagePending(db, m);
    assert ExclusivelyLocked(t) ==> ExclusivelyLocked(db);
  }

  lemma EventKeeps(db: Db, e: Event)
    requires Inv(db) && Can(db, e)
    ensures Inv(Do(db, e))
  {
    if e.CommitMark? {
      CommitMarkKeeps(db, e.tx);
    } else if e.Insert? || e.Settle? || e.Forget? {
      JournalKeeps(db, e);
    } else if e.QueryAuthors? || e.QueryMessages? {
      QueryKeeps(db, e);
    } else if e.Request? || e.LockExclusive? || e.InsertHolds? || e.CommitHolds? {
      HoldKeeps(db, e);
    } else {
      DispatchKeeps(db, e);
    }
  }

  predicate Fresh(db: Db) {
    db.dispatches == map[] && db.holds == map[]
  }

  lemma {:induction false} InvAlways(db: Db, events: seq<Event>)
    requires Fresh(db)
    ensures Inv(Play(db, events))
  {
    if events == [] {
    } else {
      var n := |events| - 1;
      InvAlways(db, events[..n]);
      if Can(Play(db, events[..n]), events[n]) {
        EventKeeps(Play(db, events[..n]), events[n]);
      }
    }
  }

  /** The row belongs to the hold, by its author or by its exact name. */
  predicate CoveredBy(db: Db, hold: HoldTx, key: Key) {
    key in hold.messages || (key in db.rows && db.rows[key].author in hold.authors)
  }

  /**
    Once a hold request has succeeded, in every continuation of every interleaving, no row it covers has
    an outstanding DELETE and no dispatch transaction has passed its guard on such a row.
   */
  lemma HoldFenceStands(db: Db, events: seq<Event>, h: nat, key: Key)
    requires Fresh(db)
    requires var t := Play(db, events); h in t.holds && t.holds[h].phase == Succeeded && CoveredBy(t, t.holds[h], key)
    ensures var t := Play(db, events);
      && (key in t.rows ==> t.rows[key].effect != Outstanding)
      && (forall tx :: tx in t.dispatches && t.dispatches[tx].key == key ==>
            t.dispatches[tx].phase == Locked || t.dispatches[tx].phase == RowRead)
  {
    InvAlways(db, events);
    var t := Play(db, events);
    assert !AuthorPending(t, t.holds[h].authors) && !MessagePending(t, t.holds[h].messages);
  }

  /** A success is final: the request stays succeeded with the same authors and messages. */
  lemma {:induction false} SuccessIsFinal(db: Db, events: seq<Event>, h: nat)
    requires h in db.holds && db.holds[h].phase == Succeeded
    ensures h in Play(db, events).holds && Play(db, events).holds[h] == db.holds[h]
  {
    if events == [] {
    } else {
      SuccessIsFinal(db, events[..|events| - 1], h);
    }
  }

  /**
    A refusal keeps the holds: whatever was outstanding is left to be settled, and still nothing new is
    marked on a covered row.
   */
  lemma RefusalKeepsHolds(db: Db, events: seq<Event>, h: nat, tx: nat)
    requires Fresh(db)
    requires var t := Play(db, events); h in t.holds && HasInstalled(t.holds[h].phase) && InPhase(t, tx, Written)
    ensures var t := Play(db, events); !CoveredBy(t, t.holds[h], t.dispatches[tx].key)
  {
    InvAlways(db, events);
  }
}
