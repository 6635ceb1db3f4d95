/**
  What may never be deleted, and what may not be deleted yet: exclusions, the protection
  snapshot with its certified history floor, and the transaction that installs a new snapshot.
 */
module Shielding {
  import opened Wrappers
  import opened EraserTypes

  datatype Gap = NoGap | CurrentGap | HistoryGap

  /** A complete source certificate for one interval of one chat. */
  datatype Evidence = Evidence(sameChat: bool, sourceRevision: nat, completeFrom: int, completeThrough: int)

  datatype Snapshot = Snapshot(
    revision: nat, protectedIds: set<MessageId>, protectedBots: set<UserId>,
    holdIds: set<MessageId>, holdAuthors: set<UserId>,
    completeThrough: Option<int>, botHistoryFrom: Option<int>, complete: bool,
    evidence: Option<Evidence>)

  datatype ProtectError = RevisionConflict | EvidenceConflict | EvidenceRequired

  /** An exclusion forbids deletion for good. */
  predicate Excluded(s: Chat, id: MessageId, author: UserId) {
    id in s.protectedMessages || author in s.heldAuthors || author in s.globalAuthors || id in s.globalMessages
  }

  /** A publication of a bot waits until the snapshot is known to cover its time. */
  function ProtectionGap(isBot: Option<bool>, source: int, moduleBot: bool, protection: Option<Protection>): Gap {
    if isBot == Some(false) then NoGap
    else if protection.None? || !protection.value.ready || protection.value.completeThrough.None?
            || source > protection.value.completeThrough.value then CurrentGap
    else if moduleBot && (protection.value.botHistoryFrom.None?
                          || source < protection.value.botHistoryFrom.value) then HistoryGap
    else NoGap
  }

  function GapOf(s: Chat, isBot: Option<bool>, source: int, author: UserId): Gap {
    ProtectionGap(isBot, source, author in s.protectedBots, s.protection)
  }

  /** A hold outranks a plain protection and is never downgraded. */
  function AddKinds(m: map<MessageId, Kind>, protectedIds: set<MessageId>,
                    holdIds: set<MessageId>): map<MessageId, Kind> {
    map id | id in m.Keys + protectedIds + holdIds ::
      if id in holdIds then HoldKind else if id in m then m[id] else ProtectedKind
  }

  /** The earliest floor ever accepted, which later floors may only undercut with evidence. */
  function AnchorOf(prior: Option<Protection>): Option<int> {
    if prior.None? then None
    else if prior.value.anchor.Some? then prior.value.anchor
    else prior.value.botHistoryFrom
  }

  function NewFloor(input: Snapshot): Option<int> {
    if input.complete then input.botHistoryFrom else None
  }

  predicate EvidenceMatches(input: Snapshot) {
    input.evidence.Some? ==>
      && input.complete
      && input.evidence.value.sameChat
      && input.evidence.value.sourceRevision == input.revision
      && input.botHistoryFrom == Some(input.evidence.value.completeFrom)
      && input.completeThrough == Some(input.evidence.value.completeThrough)
  }

  function ProtectRefusal(prior: Option<Protection>, input: Snapshot): Option<ProtectError> {
    if prior.Some? && prior.value.revision > input.revision then Some(RevisionConflict)
    else if !EvidenceMatches(input) then Some(EvidenceConflict)
    else if AnchorOf(prior).Some? && NewFloor(input).Some? && NewFloor(input).value < AnchorOf(prior).value
            && input.evidence.None? then Some(EvidenceRequired)
    else None
  }

  function NextProtection(prior: Option<Protection>, input: Snapshot): Protection {
    if prior.None? then
      Protection(input.revision, if input.complete then input.completeThrough else None, input.complete,
                 NewFloor(input), NewFloor(input))
    else
      Protection(input.revision, if input.complete then input.completeThrough else None, input.complete,
                 if input.complete then NewFloor(input) else prior.value.botHistoryFrom,
                 LeastOf(AnchorOf(prior), NewFloor(input)))
  }

  /** History is sent back over a range that protection had deferred. */
  function Rewind(p: Policy, to: int, clearGap: bool, now: int): Policy {
    p.(scanGeneration := p.scanGeneration + 1,
       history := HistoryLane(Some(Max(p.history.cursor.GetOr(0), to)), false,
                              if clearGap then false else p.history.gap, None),
       normalNextAt := now)
  }

  function ReleaseCurrent(p: Policy, input: Snapshot, now: int): Policy {
    if input.complete && input.completeThrough.Some? && p.deferred.Some?
       && p.deferred.value.hi <= input.completeThrough.value
    then Rewind(p, p.deferred.value.hi, true, now).(deferred := None)
    else p
  }

  function ReleaseHistorical(p: Policy, prior: Option<Protection>, input: Snapshot, now: int): Policy {
    var floor := NewFloor(input);
    if floor.Some?
       && (prior.None? || prior.value.botHistoryFrom.None? || floor.value < prior.value.botHistoryFrom.value)
       && p.historicalDeferred.Some? && p.historicalDeferred.value.hi >= floor.value
    then Rewind(p, p.historicalDeferred.value.hi, false, now).(historicalDeferred := None)
    else p
  }

  /** The whole transaction: refuse, or install the sets and the snapshot and release what they cover. */
  function ApplyProtection(s: Chat, input: Snapshot, now: int): Chat {
    if ProtectRefusal(s.protection, input).Some? then s
    else
      s.(protectedMessages := AddKinds(s.protectedMessages, input.protectedIds, input.holdIds),
         heldAuthors := s.heldAuthors + input.holdAuthors,
         protectedBots := s.protectedBots + input.protectedBots,
         protection := Some(NextProtection(s.protection, input)),
         policy := ReleaseHistorical(ReleaseCurrent(s.policy, input, now), s.protection, input, now))
  }
}
