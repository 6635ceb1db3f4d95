/** Settings over whole runs: a save is applied once and replayed after, an opt-in enables at most once. */
module Saves {
  import opened Wrappers
  import opened EraserTypes
  import opened Transactions
  import opened Steps

  /** The step committed the save `operation` just now. */
  predicate Commits(s: Chat, step: Step, operation: nat) {
    && step.SaveSettings? && step.operation == operation
    && operation !in s.operations && operation in Apply(s, step).operations
  }

  /** Fields only a save or an activation may change. */
  predicate SettingsStay(s: Chat, t: Chat) {
    && t.operations == s.operations
    && t.policy.enabled == s.policy.enabled && t.policy.hours == s.policy.hours
    && t.policy.revision == s.policy.revision && t.policy.lastOperation == s.policy.lastOperation
  }

  lemma OthersKeepSettings(s: Chat, step: Step)
    requires !step.SaveSettings? && !step.Connect?
    ensures SettingsStay(s, Apply(s, step))
    ensures !step.LeaseConnection? && !step.EndConnection? ==> Apply(s, step).request == s.request
  {
    match step
    case Webhook(_, _, _, _, _, _) => WebhookFrame(s, step);
    case Retry(_, _, _, _, _, _) => RetryFrame(s, step);
    case EndVisit(_, _, _, _, _) => EndVisitFrame(s, step);
    case OpenWindow(_, _, _, _, _, _) => WindowFrame(s, step);
    case AcceptPage(_, _, _, _, _) => PageFrame(s, step);
    case Mark(_, _, _, _, _, _, _, _, _, _) => MarkFrame(s, step);
    case Resolve(_, _, _, _, _, _) => ResolveFrame(s, step);
    case AwaitProtection(_) => AwaitFrame(s, step);
    case Housekeep(_, _, _) => HousekeepFrame(s, step);
    case Protect(_, _) => ProtectFrame(s, step);
    case LeaseConnection(_, _, _) => RequestFrame(s, step);
    case EndConnection(_, _, _, _) => RequestFrame(s, step);
    case ReserveVisit(_, _, _) => ReserveFrame(s, step);
    case Observe(_, _) => ObserveFrame(s, step);
    case GlobalHolds(_, _) => HoldsFrame(s, step);
  }

  /** Every later attempt with the same id answers what was stored, or conflicts, and changes nothing. */
  lemma RepeatChangesNothing(s: Chat, operation: nat, body: SaveBody, execution: bool, activation: nat,
                             parked: seq<MessageId>, woken: set<MessageId>, now: int)
    requires operation in s.operations
    requires forall k :: 0 <= k < |parked| ==> parked[k] in s.candidates
    ensures var r := Save(s, operation, body, execution, activation, parked, woken, now);
      && r.0 == s
      && (body == s.operations[operation].body && !(body.connectWhenReady && !body.enabled) ==>
            r.1 == Success(s.operations[operation].response))
      && (body != s.operations[operation].body ==> r.1.Failure?)
  {
  }

  /** Stored operations stay exactly as they were stored. */
  lemma {:induction false} OperationsStay(s: Chat, steps: seq<Step>, operation: nat)
    requires operation in s.operations
    ensures operation in Run(s, steps).operations && Run(s, steps).operations[operation] == s.operations[operation]
  {
    if steps == [] {
    } else {
      var n := |steps| - 1;
      OperationsStay(s, steps[..n], operation);
      var before := Run(s, steps[..n]);
      if !steps[n].SaveSettings? && !steps[n].Connect? {
        OthersKeepSettings(before, steps[n]);
      }
    }
  }

  /** A save commits once: after it, over any further steps, no step commits that operation again. */
  lemma SaveCommitsOnce(s: Chat, step: Step, later: seq<Step>, again: Step, operation: nat)
    requires Commits(s, step, operation)
    ensures !Commits(Run(Apply(s, step), later), again, operation)
    ensures var t := Run(Apply(s, step), later);
            operation in t.operations && t.operations[operation].response == ResponseOf(Apply(s, step).policy)
  {
    OperationsStay(Apply(s, step), later, operation);
  }

  // ---- opt-ins ----

  /** Where the outstanding opt-in stands with respect to the policy. */
  predicate RequestInv(s: Chat) {
    && (s.request.Some? ==> s.request.value.policyRevision <= s.policy.revision)
    && (s.request.Some? && s.request.value.policyRevision == s.policy.revision
        && s.request.value.status == RequestPending ==>
          s.policy.lastOperation == Some(s.request.value.operation) && !s.policy.enabled
          && s.request.value.operation in s.operations)
    && (s.request.Some? ==> s.request.value.operation in s.operations)
  }

  lemma StepKeepsRequest(s: Chat, step: Step)
    requires RequestInv(s)
    ensures RequestInv(Apply(s, step))
  {
    if !step.SaveSettings? && !step.Connect? {
      OthersKeepSettings(s, step);
    }
  }

  lemma {:induction false} RunKeepsRequest(s: Chat, steps: seq<Step>)
    requires RequestInv(s)
    ensures RequestInv(Run(s, steps))
  {
    if steps == [] {
    } else {
      RunKeepsRequest(s, steps[..|steps| - 1]);
      StepKeepsRequest(Run(s, steps[..|steps| - 1]), steps[|steps| - 1]);
    }
  }

  /** The step switched the policy on for an opt-in. */
  predicate Activates(s: Chat, step: Step) {
    step.Connect? && Apply(s, step) != s
  }

  /** An activation belongs to the operation that committed last. */
  lemma ActivationIsForLast(s: Chat, steps: seq<Step>, step: Step)
    requires RequestInv(s) && Activates(Run(s, steps), step)
    ensures var t := Run(s, steps);
      && t.request.Some? && t.policy.lastOperation == Some(t.request.value.operation) && !t.policy.enabled
      && Apply(t, step).policy.enabled && Apply(t, step).policy.revision == t.policy.revision + 1
  {
    RunKeepsRequest(s, steps);
  }

  /** Step `k` of the run committed a save under `operation`. */
  predicate CommitsAt(s: Chat, steps: seq<Step>, k: nat, operation: nat)
    requires k < |steps|
  {
    Commits(Run(s, steps[..k]), steps[k], operation)
  }

  /** An operation that another save has overtaken is never the last one again. */
  predicate Overtaken(s: Chat, operation: nat) {
    operation in s.operations && s.policy.lastOperation != Some(operation)
  }

  lemma StepKeepsOvertaken(s: Chat, step: Step, operation: nat)
    requires Overtaken(s, operation)
    ensures Overtaken(Apply(s, step), operation)
  {
    if !step.SaveSettings? && !step.Connect? {
      OthersKeepSettings(s, step);
    }
  }

  predicate OvertakenAt(s: Chat, steps: seq<Step>, n: nat, operation: nat)
    requires n <= |steps|
  {
    Overtaken(Run(s, steps[..n]), operation)
  }

  lemma {:induction false} RunKeepsOvertaken(s: Chat, steps: seq<Step>, m: nat, n: nat, operation: nat)
    requires m <= n <= |steps| && OvertakenAt(s, steps, m, operation)
    ensures OvertakenAt(s, steps, n, operation)
    decreases n
  {
    if m < n {
      RunKeepsOvertaken(s, steps, m, n - 1, operation);
      RunTo(s, steps, n - 1);
      StepKeepsOvertaken(Run(s, steps[..n - 1]), steps[n - 1], operation);
    }
  }

  lemma RunTo(s: Chat, steps: seq<Step>, k: nat)
    requires k < |steps|
    ensures Run(s, steps[..k + 1]) == Apply(Run(s, steps[..k]), steps[k])
  {
    assert steps[..k + 1][..k] == steps[..k];
  }

  lemma {:induction false} StillStored(s: Chat, steps: seq<Step>, m: nat, n: nat, operation: nat)
    requires m <= n <= |steps| && operation in Run(s, steps[..m]).operations
    ensures operation in Run(s, steps[..n]).operations
    decreases n
  {
    if m < n {
      StillStored(s, steps, m, n - 1, operation);
      RunTo(s, steps, n - 1);
      OperationsStay(Run(s, steps[..n - 1]), [steps[n - 1]], operation);
      assert Run(Run(s, steps[..n - 1]), [steps[n - 1]]) == Apply(Run(s, steps[..n - 1]), steps[n - 1]) by {
        assert [steps[n - 1]][..0] == [];
      }
    }
  }

  /** The save that commits in between overtakes the opt-in. */
  lemma LaterCommitOvertakes(s: Chat, steps: seq<Step>, k: nat, j: nat, operation: nat, other: nat)
    requires k < j < |steps| && CommitsAt(s, steps, k, operation) && CommitsAt(s, steps, j, other)
    ensures OvertakenAt(s, steps, j + 1, operation)
  {
    RunTo(s, steps, k);
    StillStored(s, steps, k + 1, j, operation);
    RunTo(s, steps, j);
    StillStored(s, steps, j, j + 1, operation);
  }

  lemma OvertakenDoesNotActivate(s: Chat, steps: seq<Step>, n: nat, operation: nat)
    requires RequestInv(s) && n < |steps| && OvertakenAt(s, steps, n, operation)
    requires Activates(Run(s, steps[..n]), steps[n])
    ensures Run(s, steps[..n]).request.value.operation != operation
  {
    ActivationIsForLast(s, steps[..n], steps[n]);
  }

  /**
    In every run, if step `k` committed an opt-in and step `n` switched the policy on for it, no step
    between them committed a save.
   */
  lemma OnlyLastSaveActivates(s: Chat, steps: seq<Step>, k: nat, j: nat, n: nat, operation: nat, other: nat)
    requires RequestInv(s) && k < j < n < |steps|
    requires CommitsAt(s, steps, k, operation) && Activates(Run(s, steps[..n]), steps[n])
    requires Run(s, steps[..n]).request.value.operation == operation
    ensures !CommitsAt(s, steps, j, other)
  {
    if CommitsAt(s, steps, j, other) {
      LaterCommitOvertakes(s, steps, k, j, operation, other);
      RunKeepsOvertaken(s, steps, j + 1, n, operation);
      OvertakenDoesNotActivate(s, steps, n, operation);
    }
  }

  /** The opt-in's operation can never be the pending one again. */
  predicate Spent(s: Chat, operation: nat) {
    operation in s.operations
    && (s.request.Some? && s.request.value.operation == operation ==> s.request.value.status != RequestPending)
  }

  lemma StepKeepsSpent(s: Chat, step: Step, operation: nat)
    requires Spent(s, operation)
    ensures Spent(Apply(s, step), operation)
  {
    if !step.SaveSettings? && !step.Connect? {
      OthersKeepSettings(s, step);
    }
  }

  lemma {:induction false} RunKeepsSpent(s: Chat, steps: seq<Step>, operation: nat)
    requires Spent(s, operation)
    ensures Spent(Run(s, steps), operation)
  {
    if steps == [] {
    } else {
      RunKeepsSpent(s, steps[..|steps| - 1], operation);
      StepKeepsSpent(Run(s, steps[..|steps| - 1]), steps[|steps| - 1], operation);
    }
  }

  /** An opt-in enables at most once: after it did, no later step of any run activates for the same operation. */
  lemma OptInActivatesOnce(s: Chat, step: Step, later: seq<Step>, again: Step)
    requires RequestInv(s) && Activates(s, step)
    requires Activates(Run(Apply(s, step), later), again)
    ensures Run(Apply(s, step), later).request.value.operation != s.request.value.operation
  {
    RunKeepsSpent(Apply(s, step), later, s.request.value.operation);
  }
}
