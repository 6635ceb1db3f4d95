/**
  The counters of the policy row against the journal: every row that becomes terminal is counted
  exactly once, and the deleted total is always the sum of its three kinds of confirmation.
 */
module Ledger {
  import opened Wrappers
  import opened EraserTypes
  import opened Transactions
  import opened Steps
  import opened AtMostOnce

  /** The rows a step brought into a state. */
  function NewlyIn(s: Chat, t: Chat, state: State): set<MessageId> {
    set id | id in t.candidates && t.candidates[id].state == state
             && !(id in s.candidates && s.candidates[id].state == state)
  }

  predicate Balanced(t: Totals) {
    t.deleted == t.historicalUnknown + t.acknowledged + t.removalReceipt
  }

  /** The same counters, as far as outcomes go. */
  predicate SameOutcomes(a: Totals, b: Totals) {
    a.deleted == b.deleted && a.historicalUnknown == b.historicalUnknown && a.acknowledged == b.acknowledged
    && a.removalReceipt == b.removalReceipt && a.skipped == b.skipped
  }

  ghost predicate NoneFinished(s: Chat, t: Chat) {
    && SameOutcomes(s.policy.totals, t.policy.totals)
    && (forall id :: id in t.candidates && Terminal(t.candidates[id].state) ==>
          id in s.candidates && s.candidates[id].state == t.candidates[id].state)
    && (forall id :: id in s.candidates && Terminal(s.candidates[id].state) && id in t.candidates ==>
          t.candidates[id].state == s.candidates[id].state)
  }

  /** One step's effect on the books. */
  ghost predicate Booked(s: Chat, t: Chat) {
    var a, b := s.policy.totals, t.policy.totals;
    && b.deleted == a.deleted + |NewlyIn(s, t, Deleted)|
    && b.skipped == a.skipped + |NewlyIn(s, t, Protected)|
    && b.historicalUnknown == a.historicalUnknown
    && b.acknowledged - a.acknowledged + b.removalReceipt - a.removalReceipt == b.deleted - a.deleted
    && a.acknowledged <= b.acknowledged && a.removalReceipt <= b.removalReceipt
    && (forall id :: id in s.candidates && Terminal(s.candidates[id].state) && id in t.candidates ==>
          t.candidates[id].state == s.candidates[id].state)
  }

  lemma NoneFinishedIsBooked(s: Chat, t: Chat)
    requires NoneFinished(s, t)
    ensures Booked(s, t)
  {
    assert NewlyIn(s, t, Deleted) == {};
    assert NewlyIn(s, t, Protected) == {};
  }

  lemma SettleIsBooked(s: Chat, step: Step)
    requires step.Resolve?
    ensures Booked(s, Apply(s, step))
  {
    var t := Apply(s, step);
    if t == s {
      NoneFinishedIsBooked(s, s);
    } else {
      var row := s.candidates[step.id];
      assert forall id :: id in t.candidates && id != step.id ==>
                            id in s.candidates && t.candidates[id] == s.candidates[id];
      assert NewlyIn(s, t, Deleted) == if step.to == Deleted then {step.id} else {};
      assert NewlyIn(s, t, Protected) == if step.to == Protected then {step.id} else {};
    }
  }

  lemma RemovalIsBooked(s: Chat, id: MessageId, head: Option<int>, now: int)
    ensures Booked(s, NoteRemoval(s, id, head, now))
  {
    var t := NoteRemoval(s, id, head, now);
    if id !in s.candidates || Terminal(s.candidates[id].state) {
      NoneFinishedIsBooked(s, s);
    } else {
      var r := RemovedRow(s, id, now);
      RescheduleFrame(r, head, now, false, 1000);
      assert t.candidates == r.candidates && t.policy.totals == r.policy.totals;
      assert NewlyIn(s, t, Deleted) == {id};
      assert NewlyIn(s, t, Protected) == {};
    }
  }

  lemma WebhookIsBooked(s: Chat, step: Step)
    requires step.Webhook?
    ensures Booked(s, Apply(s, step))
  {
    var noted := IngestMessage(s, step.receipt, step.source, step.now);
    MessageFrame(s, step.receipt, step.source, step.now);
    var t := Apply(s, step);
    if step.receipt in s.receipts || step.removed.None? {
      assert t.candidates == s.candidates && t.policy.totals == s.policy.totals;
      NoneFinishedIsBooked(s, t);
    } else {
      var gone := NoteRemoval(noted, step.removed.value, step.head, step.now);
      RemovalIsBooked(noted, step.removed.value, step.head, step.now);
      assert t.candidates == gone.candidates && t.policy.totals == gone.policy.totals;
      assert NewlyIn(s, t, Deleted) == NewlyIn(noted, gone, Deleted);
      assert NewlyIn(s, t, Protected) == NewlyIn(noted, gone, Protected);
    }
  }

  lemma RetryIsBooked(s: Chat, step: Step)
    requires step.Retry?
    ensures Booked(s, Apply(s, step))
  {
    var t := Apply(s, step);
    if t != s {
      var r := Reopened(s, step.id, step.now);
      RescheduleFrame(r, step.head, step.now, false, 1000);
      assert t.candidates == r.candidates && t.policy.totals == s.policy.totals;
    }
    NoneFinishedIsBooked(s, t);
  }

  lemma EndVisitIsBooked(s: Chat, step: Step)
    requires step.EndVisit?
    ensures Booked(s, Apply(s, step))
  {
    RescheduleFrame(s, step.head, step.now, step.failed, step.waitMs);
    NoneFinishedIsBooked(s, Apply(s, step));
  }

  lemma RowStepsAreBooked(s: Chat, step: Step)
    requires step.Mark? || step.AwaitProtection? || step.Housekeep?
    ensures Booked(s, Apply(s, step))
  {
    match step {
      case Mark(_, _, _, _, _, _, _, _, _, _) => MarkFinishesNone(s, step);
      case AwaitProtection(_) => AwaitFrame(s, step);
      case Housekeep(_, _, _) => HousekeepFrame(s, step);
    }
    NoneFinishedIsBooked(s, Apply(s, step));
  }

  lemma MarkFinishesNone(s: Chat, step: Step)
    requires step.Mark?
    ensures NoneFinished(s, Apply(s, step)) && Apply(s, step).policy == s.policy
  {
  }

  lemma SaveIsBooked(s: Chat, step: Step)
    requires step.SaveSettings? && Enabled(s, step)
    ensures Booked(s, Apply(s, step))
  {
    SaveFrame(s, step);
    AgedFinishesNone(s, step);
    assert NoneFinished(s, Apply(s, step));
    NoneFinishedIsBooked(s, Apply(s, step));
  }

  lemma AgedFinishesNone(s: Chat, step: Step)
    requires step.SaveSettings? && Enabled(s, step)
    ensures var a := Aged(s, step.body, step.parked, step.woken, step.now);
      forall id :: id in a.candidates ==> id in s.candidates && a.candidates[id].state == s.candidates[id].state
  {
  }

  lemma AcceptIsBooked(s: Chat, step: Step)
    requires step.AcceptPage?
    ensures Booked(s, Apply(s, step))
  {
    var t := Apply(s, step);
    TakeInAddsPending(s, step.lane, step.now, step.page);
    PageFrame(s, step);
    assert SameOutcomes(s.policy.totals, t.policy.totals);
    NoneFinishedIsBooked(s, t);
  }

  lemma PolicyStepIsBooked(s: Chat, step: Step)
    requires step.Protect? || step.LeaseConnection? || step.EndConnection? || step.Connect? || step.ReserveVisit?
             || step.Observe? || step.OpenWindow? || step.GlobalHolds?
    ensures Booked(s, Apply(s, step))
  {
    PolicyStepsKeepRows(s, step);
    NoneFinishedIsBooked(s, Apply(s, step));
  }

  lemma StepIsBooked(s: Chat, step: Step)
    requires Enabled(s, step)
    ensures Booked(s, Apply(s, step))
  {
    match step
    case SaveSettings(_, _, _, _, _, _, _) => SaveIsBooked(s, step);
    case Webhook(_, _, _, _, _, _) => WebhookIsBooked(s, step);
    case AcceptPage(_, _, _, _, _) => AcceptIsBooked(s, step);
    case Resolve(_, _, _, _, _, _) => SettleIsBooked(s, step);
    case Mark(_, _, _, _, _, _, _, _, _, _) => RowStepsAreBooked(s, step);
    case AwaitProtection(_) => RowStepsAreBooked(s, step);
    case Housekeep(_, _, _) => RowStepsAreBooked(s, step);
    case Retry(_, _, _, _, _, _) => RetryIsBooked(s, step);
    case EndVisit(_, _, _, _, _) => EndVisitIsBooked(s, step);
    case _ => PolicyStepIsBooked(s, step);
  }

  // ---- whole runs ----

  ghost predicate EnabledRun(s: Chat, steps: seq<Step>) {
    forall n :: 0 <= n < |steps| ==> Enabled(Run(s, steps[..n]), steps[n])
  }

  /** How often a row was brought into a state along a run. */
  ghost function Arrivals(s: Chat, steps: seq<Step>, state: State): nat {
    if steps == [] then 0
    else
      var n := |steps| - 1;
      Arrivals(s, steps[..n], state) + |NewlyIn(Run(s, steps[..n]), Run(s, steps), state)|
  }

  lemma EnabledPrefix(s: Chat, steps: seq<Step>, n: nat)
    requires EnabledRun(s, steps) && n <= |steps|
    ensures EnabledRun(s, steps[..n])
  {
    forall k | 0 <= k < n
      ensures Enabled(Run(s, steps[..n][..k]), steps[..n][k])
    {
      assert steps[..n][..k] == steps[..k];
    }
  }

  /**
    Over every run, however acknowledgements, receipts and repeats interleave, the deleted and skipped
    counters grow by exactly the arrivals in those states, the confirmations add up to the deleted total,
    and the part of unknown provenance never moves, so the database's own correction finds nothing to do.
   */
  lemma {:induction false} CountsFollowJournal(s: Chat, steps: seq<Step>)
    requires EnabledRun(s, steps) && Balanced(s.policy.totals)
    ensures var a, b := s.policy.totals, Run(s, steps).policy.totals;
      && b.deleted == a.deleted + Arrivals(s, steps, Deleted)
      && b.skipped == a.skipped + Arrivals(s, steps, Protected)
      && Balanced(b)
      && b.historicalUnknown == a.historicalUnknown
  {
    if steps == [] {
    } else {
      var n := |steps| - 1;
      EnabledPrefix(s, steps, n);
      CountsFollowJournal(s, steps[..n]);
      StepIsBooked(Run(s, steps[..n]), steps[n]);
    }
  }

  /** A terminal row keeps its state for as long as it exists, so no row is ever counted twice. */
  lemma TerminalIsFinal(s: Chat, step: Step, id: MessageId)
    requires Enabled(s, step) && id in s.candidates && Terminal(s.candidates[id].state)
    requires id in Apply(s, step).candidates
    ensures Apply(s, step).candidates[id].state == s.candidates[id].state
    ensures id !in NewlyIn(s, Apply(s, step), Deleted) && id !in NewlyIn(s, Apply(s, step), Protected)
  {
    StepIsBooked(s, step);
  }
}
