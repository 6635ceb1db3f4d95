/** Protection over whole runs: exclusions only grow, revisions never fall, and what is excluded stays undispatched. */
module ProtectionRuns {
  import opened Wrappers
  import opened EraserTypes
  import opened Shielding
  import opened Steps

  /** Nothing about protection is ever taken back. */
  ghost predicate ProtectsMore(s: Chat, t: Chat) {
    && (forall id :: id in s.protectedMessages ==> id in t.protectedMessages)
    && (forall id :: id in s.protectedMessages && s.protectedMessages[id] == HoldKind ==>
          t.protectedMessages[id] == HoldKind)
    && s.heldAuthors <= t.heldAuthors && s.protectedBots <= t.protectedBots
    && s.globalAuthors <= t.globalAuthors && s.globalMessages <= t.globalMessages
    && (s.protection.Some? ==> t.protection.Some? && s.protection.value.revision <= t.protection.value.revision)
  }

  /** The certified floor is missing, or at or above the anchor. */
  predicate FloorAboveAnchor(p: Option<Protection>) {
    p.Some? ==>
      && (p.value.botHistoryFrom.Some? ==> AnchorOf(p).Some? && AnchorOf(p).value <= p.value.botHistoryFrom.value)
  }

  /** Once there is an anchor it stays, and it only goes down. */
  predicate AnchorKept(p: Option<Protection>, q: Option<Protection>) {
    AnchorOf(p).Some? ==> AnchorOf(q).Some? && AnchorOf(q).value <= AnchorOf(p).value
  }

  /** The anchor went below where it had been. */
  predicate AnchorDrops(p: Option<Protection>, q: Option<Protection>) {
    AnchorOf(p).Some? && AnchorOf(q).Some? && AnchorOf(q).value < AnchorOf(p).value
  }

  /** The certificate names this chat, this revision and exactly the interval of the write. */
  predicate Certified(input: Snapshot) {
    && input.complete && input.evidence.Some? && input.evidence.value.sameChat
    && input.evidence.value.sourceRevision == input.revision
    && input.botHistoryFrom == Some(input.evidence.value.completeFrom)
    && input.completeThrough == Some(input.evidence.value.completeThrough)
  }

  predicate SameProtection(s: Chat, t: Chat) {
    && t.protectedMessages == s.protectedMessages && t.heldAuthors == s.heldAuthors
    && t.protectedBots == s.protectedBots && t.globalAuthors == s.globalAuthors
    && t.globalMessages == s.globalMessages && t.protection == s.protection
  }

  lemma UntouchedProtection(s: Chat, step: Step)
    requires !step.Protect? && !step.GlobalHolds?
    ensures SameProtection(s, Apply(s, step))
  {
    match step
    case Webhook(_, _, _, _, _, _) => WebhookFrame(s, step);
    case Retry(_, _, _, _, _, _) => RetryFrame(s, step);
    case EndVisit(_, _, _, _, _) => EndVisitFrame(s, step);
    case OpenWindow(_, _, _, _, _, _) => WindowFrame(s, step);
    case AcceptPage(_, _, _, _, _) => PageFrame(s, step);
    case Mark(_, _, _, _, _, _, _, _, _, _) => MarkFrame(s, step);
    case Resolve(_, _, _, _, _, _) => ResolveFrame(s, step);
    case AwaitProtection(_) => AwaitFrame(s, step);
    case Housekeep(_, _, _) => HousekeepFrame(s, step);
    case LeaseConnection(_, _, _) => RequestFrame(s, step);
    case EndConnection(_, _, _, _) => RequestFrame(s, step);
    case ReserveVisit(_, _, _) => ReserveFrame(s, step);
    case Observe(_, _) => ObserveFrame(s, step);
    case Connect(_, _, _, _, _, _, _, _) => ConnectFrame(s, step);
    case SaveSettings(_, _, _, _, _, _, _) =>
      if Apply(s, step) != s {
        SaveFrame(s, step);
      }
  }

  lemma StepProtectsMore(s: Chat, step: Step)
    ensures ProtectsMore(s, Apply(s, step))
    ensures FloorAboveAnchor(s.protection) ==> FloorAboveAnchor(Apply(s, step).protection)
    ensures AnchorKept(s.protection, Apply(s, step).protection)
    ensures AnchorDrops(s.protection, Apply(s, step).protection) ==> step.Protect? && Certified(step.input)
  {
    if !step.Protect? && !step.GlobalHolds? {
      UntouchedProtection(s, step);
    }
  }

  /**
    Over every run the protection sets and the revision only grow, the anchor never rises, and the floor
    stays at or above it.
   */
  lemma {:induction false} RunProtectsMore(s: Chat, steps: seq<Step>)
    requires FloorAboveAnchor(s.protection)
    ensures ProtectsMore(s, Run(s, steps))
    ensures FloorAboveAnchor(Run(s, steps).protection)
    ensures AnchorKept(s.protection, Run(s, steps).protection)
  {
    if steps == [] {
    } else {
      var n := |steps| - 1;
      RunProtectsMore(s, steps[..n]);
      StepProtectsMore(Run(s, steps[..n]), steps[n]);
    }
  }

  /** An anchor that ended up lower got there through a certified write. */
  lemma {:induction false} LowerAnchorNeedsCertificate(s: Chat, steps: seq<Step>)
    requires FloorAboveAnchor(s.protection) && AnchorDrops(s.protection, Run(s, steps).protection)
    ensures exists k :: 0 <= k < |steps| && steps[k].Protect? && Certified(steps[k].input)
  {
    if steps == [] {
    } else {
      var n := |steps| - 1;
      var before := Run(s, steps[..n]);
      RunProtectsMore(s, steps[..n]);
      StepProtectsMore(before, steps[n]);
      if AnchorDrops(s.protection, before.protection) {
        LowerAnchorNeedsCertificate(s, steps[..n]);
        var k :| 0 <= k < n && steps[..n][k].Protect? && Certified(steps[..n][k].input);
        assert steps[k].Protect?;
      } else {
        assert steps[n].Protect?;
      }
    }
  }

  /**
    After a protection write or a hold has committed a message, no later transaction of any run marks that
    message for dispatch.
   */
  lemma ExcludedIsNeverMarked(s: Chat, steps: seq<Step>, mark: Step, id: MessageId)
    requires FloorAboveAnchor(s.protection)
    requires id in s.protectedMessages || id in s.globalMessages
    ensures !Marks(Run(s, steps), mark, id)
  {
    RunProtectsMore(s, steps);
  }

  /** The same for an author: every message of a held author stays undispatched. */
  lemma HeldAuthorIsNeverMarked(s: Chat, steps: seq<Step>, mark: Step, id: MessageId)
    requires FloorAboveAnchor(s.protection)
    requires id in Run(s, steps).candidates
    requires Run(s, steps).candidates[id].author in s.heldAuthors + s.globalAuthors
    ensures !Marks(Run(s, steps), mark, id)
  {
    RunProtectsMore(s, steps);
  }

  /** A publication no snapshot covers is not marked: its time must lie inside the certified interval. */
  lemma MarkedIsCertified(s: Chat, mark: Step, id: MessageId)
    requires Marks(s, mark, id) && s.candidates[id].isBot != Some(false)
    ensures s.protection.Some? && s.protection.value.ready
            && s.protection.value.completeThrough.Some?
            && s.candidates[id].source <= s.protection.value.completeThrough.value
    ensures s.candidates[id].author in s.protectedBots ==>
              s.protection.value.botHistoryFrom.Some?
              && s.protection.value.botHistoryFrom.value <= s.candidates[id].source
  {
  }
}
