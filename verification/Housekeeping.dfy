/** Maintenance: bounded pages of old terminal rows and old receipts, under a page budget that adapts. */
module Housekeeping {
  import opened EraserTypes
  import ES = EraserStore
  import Q = QueryPages
  import T = Transactions

  const TERMINAL_PURGE_BATCH: nat := 500
  const WEBHOOK_PURGE_BATCH: nat := 1000
  const MAX_ROUNDS: nat := 16
  const PASS_BUDGET_MS: nat := 1000

  /** What one page meets: its clock, the time spent so far, the rows others hold, and whether it fails. */
  datatype Round = Round(now: int, spent: nat, locked: set<MessageId>, lockedReceipts: set<nat>, fails: bool)

  /** The rounds a pass has before it; the clock does not go back. */
  ghost predicate Rounds(rounds: seq<Round>, last: int) {
    && |rounds| == MAX_ROUNDS
    && (forall j, k :: 0 <= j < k < |rounds| ==> rounds[j].now <= rounds[k].now)
    && (forall k :: 0 <= k < |rounds| ==> rounds[k].now <= last)
  }

  predicate HeldSomewhere(rounds: seq<Round>, id: MessageId) {
    exists k :: 0 <= k < |rounds| && id in rounds[k].locked
  }

  predicate ReceiptHeldSomewhere(rounds: seq<Round>, r: nat) {
    exists k :: 0 <= k < |rounds| && r in rounds[k].lockedReceipts
  }

  /** Rows and receipts only leave, and only when old enough at `last`. */
  ghost predicate OnlyOldLeft(before: Chat, after: Chat, last: int) {
    && after == before.(candidates := after.candidates, receipts := after.receipts)
    && (forall id :: id in after.candidates ==>
          id in before.candidates && after.candidates[id] == before.candidates[id])
    && (forall id :: id in before.candidates && id !in after.candidates ==> T.Purgeable(before.candidates[id], last))
    && (forall r :: r in after.receipts ==> r in before.receipts && after.receipts[r] == before.receipts[r])
    && (forall r :: r in before.receipts && r !in after.receipts ==> T.Forgettable(before.receipts[r], last))
  }

  /** What was old when the pass began is gone, unless someone else held it. */
  ghost predicate RowsCleared(s: Chat, rounds: seq<Round>)
    requires rounds != []
  {
    forall id :: id in s.candidates && T.Purgeable(s.candidates[id], rounds[0].now) ==> HeldSomewhere(rounds, id)
  }

  ghost predicate ReceiptsCleared(s: Chat, rounds: seq<Round>)
    requires rounds != []
  {
    forall r :: r in s.receipts && T.Forgettable(s.receipts[r], rounds[0].now) ==> ReceiptHeldSomewhere(rounds, r)
  }

  lemma PurgedLater(first: Chat, s: Chat, ids: set<MessageId>, keys: set<nat>, now: int, last: int)
    requires OnlyOldLeft(first, s, last) && now <= last
    ensures OnlyOldLeft(first, T.Purge(s, ids, keys, now), last)
  {
    var t := T.Purge(s, ids, keys, now);
    forall id | id in first.candidates && id !in t.candidates
      ensures T.Purgeable(first.candidates[id], last)
    {
      assert id in s.candidates ==> s.candidates[id] == first.candidates[id];
    }
    forall r | r in first.receipts && r !in t.receipts
      ensures T.Forgettable(first.receipts[r], last)
    {
      assert r in s.receipts ==> s.receipts[r] == first.receipts[r];
    }
  }

  /** A short page had room for every old row that nobody held. */
  lemma ShortPageClearsRows(s: Chat, ids: seq<MessageId>, keys: set<nat>, rounds: seq<Round>, k: nat, limit: nat,
                            last: int)
    requires Rounds(rounds, last) && k < |rounds|
    requires Q.FirstPage(T.PurgeKeys(s.candidates, rounds[k].locked, rounds[k].now), limit, ids) && |ids| < limit
    ensures RowsCleared(T.Purge(s, ES.Members(ids), keys, rounds[k].now), rounds)
  {
    var t := T.Purge(s, ES.Members(ids), keys, rounds[k].now);
    forall id | id in t.candidates && T.Purgeable(t.candidates[id], rounds[0].now)
      ensures HeldSomewhere(rounds, id)
    {
      assert T.Purgeable(s.candidates[id], rounds[k].now);
      assert id in T.PurgeKeys(s.candidates, rounds[k].locked, rounds[k].now) ==> Q.Listed(ids, id);
    }
  }

  lemma ShortPageClearsReceipts(s: Chat, ids: set<MessageId>, keys: seq<nat>, rounds: seq<Round>, k: nat, limit: nat,
                                last: int)
    requires Rounds(rounds, last) && k < |rounds|
    requires Q.FirstPage(T.ForgetKeys(s.receipts, rounds[k].lockedReceipts, rounds[k].now), limit, keys)
    requires |keys| < limit
    ensures ReceiptsCleared(T.Purge(s, ids, ES.Members(keys), rounds[k].now), rounds)
  {
    var t := T.Purge(s, ids, ES.Members(keys), rounds[k].now);
    forall r | r in t.receipts && T.Forgettable(t.receipts[r], rounds[0].now)
      ensures ReceiptHeldSomewhere(rounds, r)
    {
      assert T.Forgettable(s.receipts[r], rounds[k].now);
      assert r in T.ForgetKeys(s.receipts, rounds[k].lockedReceipts, rounds[k].now) ==> Q.Listed(keys, r);
    }
  }

  lemma PurgeKeepsCleared(s: Chat, ids: set<MessageId>, keys: set<nat>, rounds: seq<Round>, now: int)
    requires rounds != []
    ensures RowsCleared(s, rounds) ==> RowsCleared(T.Purge(s, ids, keys, now), rounds)
    ensures ReceiptsCleared(s, rounds) ==> ReceiptsCleared(T.Purge(s, ids, keys, now), rounds)
  {
    var t := T.Purge(s, ids, keys, now);
    assert forall id :: id in t.candidates ==> id in s.candidates && t.candidates[id] == s.candidates[id];
    assert forall r :: r in t.receipts ==> r in s.receipts && t.receipts[r] == s.receipts[r];
  }

  /** What one page does to the pass: what ran short is cleared, and what was cleared stays so. */
  lemma PageClears(s: Chat, t: Chat, ids: seq<MessageId>, keys: seq<nat>, rounds: seq<Round>, k: nat,
                   limit: nat, receiptLimit: nat, last: int)
    requires Rounds(rounds, last) && k < |rounds|
    requires Q.FirstPage(T.PurgeKeys(s.candidates, rounds[k].locked, rounds[k].now), limit, ids)
    requires Q.FirstPage(T.ForgetKeys(s.receipts, rounds[k].lockedReceipts, rounds[k].now), receiptLimit, keys)
    requires t == T.Purge(s, ES.Members(ids), ES.Members(keys), rounds[k].now)
    ensures RowsCleared(s, rounds) || |ids| < limit ==> RowsCleared(t, rounds)
    ensures ReceiptsCleared(s, rounds) || |keys| < receiptLimit ==> ReceiptsCleared(t, rounds)
  {
    PurgeKeepsCleared(s, ES.Members(ids), ES.Members(keys), rounds, rounds[k].now);
    if |ids| < limit {
      ShortPageClearsRows(s, ids, ES.Members(keys), rounds, k, limit, last);
    }
    if |keys| < receiptLimit {
      ShortPageClearsReceipts(s, ES.Members(ids), keys, rounds, k, receiptLimit, last);
    }
  }

  class Maintenance {
    var running: bool
    var pageBudget: nat
    var completedRounds: nat
    var candidateRows: int
    var receiptRows: int
    var totalCandidates: int
    var totalReceipts: int
    var budgetExhausted: bool

    predicate Valid()
      reads this
    {
      1 <= pageBudget <= MAX_ROUNDS
    }

    constructor ()
      ensures Valid() && !running && totalCandidates == 0 && totalReceipts == 0
    {
      running, pageBudget, completedRounds := false, 1, 0;
      candidateRows, receiptRows, totalCandidates, totalReceipts := 0, 0, 0, 0;
      budgetExhausted := false;
    }

    /** The counters agree with what has left the store since `start`, when the totals were `c` and `r`. */
    ghost predicate Booked(store: ES.Store, start: Chat, c: int, r: int, last: int)
      reads this, store
    {
      && store.Valid() && OnlyOldLeft(start, store.Contents(), last)
      && candidateRows == |start.candidates| - |store.candidates| == totalCandidates - c
      && receiptRows == |start.receipts| - |store.receipts| == totalReceipts - r
      && candidateRows <= TERMINAL_PURGE_BATCH * completedRounds
      && receiptRows <= WEBHOOK_PURGE_BATCH * completedRounds
    }

    /** One page, counted; a kind that ran short before is not asked for again. */
    method Page(store: ES.Store, rounds: seq<Round>, candidatesDone: bool, receiptsDone: bool,
                ghost start: Chat, ghost c: int, ghost r: int, ghost last: int)
      returns (rowsShort: bool, receiptsShort: bool)
      requires Rounds(rounds, last) && completedRounds < |rounds| && Booked(store, start, c, r, last)
      requires candidatesDone ==> RowsCleared(store.Contents(), rounds)
      requires receiptsDone ==> ReceiptsCleared(store.Contents(), rounds)
      modifies this`completedRounds, this`candidateRows, this`receiptRows
      modifies this`totalCandidates, this`totalReceipts, store
      ensures Booked(store, start, c, r, last) && completedRounds == old(completedRounds) + 1
      ensures candidatesDone || rowsShort ==> RowsCleared(store.Contents(), rounds)
      ensures receiptsDone || receiptsShort ==> ReceiptsCleared(store.Contents(), rounds)
    {
      var round := rounds[completedRounds];
      var limit := if candidatesDone then 0 else TERMINAL_PURGE_BATCH;
      var receiptLimit := if receiptsDone then 0 else WEBHOOK_PURGE_BATCH;
      ghost var s, k := store.Contents(), completedRounds;
      var gone, forgotten;
      ghost var ids, keys;
      gone, forgotten, ids, keys := store.PurgePage(limit, receiptLimit, round.locked, round.lockedReceipts, round.now);
      PurgedLater(start, s, ES.Members(ids), ES.Members(keys), round.now, last);
      PageClears(s, store.Contents(), ids, keys, rounds, k, limit, receiptLimit, last);
      completedRounds := completedRounds + 1;
      candidateRows, totalCandidates := candidateRows + gone, totalCandidates + gone;
      receiptRows, totalReceipts := receiptRows + forgotten, totalReceipts + forgotten;
      rowsShort, receiptsShort := gone < TERMINAL_PURGE_BATCH, forgotten < WEBHOOK_PURGE_BATCH;
    }

    /** The loop over pages; it stops at the budget, at the time limit, or when both kinds ran short. */
    method Pages(store: ES.Store, rounds: seq<Round>, ghost last: int, ghost start: Chat, ghost c: int, ghost r: int)
      returns (failed: bool, candidatesDone: bool, receiptsDone: bool)
      requires Valid() && Rounds(rounds, last) && Booked(store, start, c, r, last) && completedRounds == 0
      modifies this`completedRounds, this`candidateRows, this`receiptRows
      modifies this`totalCandidates, this`totalReceipts, store
      ensures Booked(store, start, c, r, last) && completedRounds <= pageBudget
      ensures candidatesDone ==> RowsCleared(store.Contents(), rounds)
      ensures receiptsDone ==> ReceiptsCleared(store.Contents(), rounds)
    {
      failed, candidatesDone, receiptsDone := false, false, false;
      while completedRounds < pageBudget && rounds[completedRounds].spent < PASS_BUDGET_MS
        invariant completedRounds <= pageBudget && Booked(store, start, c, r, last)
        invariant candidatesDone ==> RowsCleared(store.Contents(), rounds)
        invariant receiptsDone ==> ReceiptsCleared(store.Contents(), rounds)
        decreases pageBudget - completedRounds
      {
        if rounds[completedRounds].fails {
          failed := true;
          break;
        }
        var rowsShort, receiptsShort := Page(store, rounds, candidatesDone, receiptsDone, start, c, r, last);
        candidatesDone, receiptsDone := candidatesDone || rowsShort, receiptsDone || receiptsShort;
        if candidatesDone && receiptsDone {
          break;
        }
      }
    }

    /** The budget for the next pass, from how this one went. */
    method Adapt(failed: bool, elapsed: nat)
      requires Valid() && completedRounds <= pageBudget
      modifies this`pageBudget
      ensures Valid()
      ensures failed || elapsed >= 750 ==> pageBudget == Max(1, old(pageBudget) / 2)
      ensures !failed && elapsed < 750 && budgetExhausted ==> pageBudget == Min(MAX_ROUNDS, old(pageBudget) * 2)
      ensures !failed && elapsed < 750 && !budgetExhausted ==>
                completedRounds <= 2 * pageBudget && pageBudget <= Max(1, (completedRounds + 1) / 2)
    {
      if failed || elapsed >= 750 {
        pageBudget := Max(1, pageBudget / 2);
      } else if budgetExhausted {
        pageBudget := Min(MAX_ROUNDS, pageBudget * 2);
      } else {
        pageBudget := Max(1, (completedRounds + 1) / 2);
      }
    }

    /**
      A whole pass. Only terminal rows and receipts older than seven days leave, at most a batch of each for
      every round, everything else stays as it was, and the totals count exactly what left. A pass that was
      not cut short leaves nothing behind that was old when it began, except what others held.
     */
    method Run(store: ES.Store, locked: bool, rounds: seq<Round>, elapsed: nat, ghost last: int) returns (failed: bool)
      requires Valid() && store.Valid() && Rounds(rounds, last)
      modifies this, store
      ensures Valid() && store.Valid() && running == old(running)
      ensures OnlyOldLeft(old(store.Contents()), store.Contents(), last)
      ensures totalCandidates - old(totalCandidates) == |old(store.candidates)| - |store.candidates|
      ensures totalReceipts - old(totalReceipts) == |old(store.receipts)| - |store.receipts|
      ensures old(running) || !locked ==> store.Contents() == old(store.Contents())
      ensures !old(running) ==> |old(store.candidates)| - |store.candidates| <= TERMINAL_PURGE_BATCH * completedRounds
      ensures !old(running) && locked && !failed && !budgetExhausted ==>
                RowsCleared(store.Contents(), rounds) && ReceiptsCleared(store.Contents(), rounds)
    {
      failed := false;
      if running {
        return;
      }
      running, candidateRows, receiptRows, completedRounds, budgetExhausted := true, 0, 0, 0, false;
      if locked {
        var candidatesDone, receiptsDone;
        failed, candidatesDone, receiptsDone :=
          Pages(store, rounds, last, store.Contents(), totalCandidates, totalReceipts);
        failed := failed || completedRounds == 0;
        budgetExhausted := !failed && (!candidatesDone || !receiptsDone);
        Adapt(failed, elapsed);
      }
      running := false;
    }
  }
}
