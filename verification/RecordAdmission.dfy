// What a scheduled admission decides and why, told from the stored rows and the
// arguments of the call.
module RecordAdmission {
  import opened Common
  import opened DeploymentRecords
  import opened RecordAcceptance
  import Iox = IoxJournal

  datatype Call = Call(record: Record, tag: Provenance, authority: Option<AuthorityRefusal>,
                       resume: Option<string>, router: bool, now: int)

  // ----- what may stand in the way, in the order it is looked for -----

  // A router is involved, and the device has something on it.
  predicate NeedsUndeploy(s: Store, c: Call) {
    exists id :: id in s && s[id].deviceId == c.tag.deviceId && (c.router || c.record.router || s[id].router)
                 && (s[id].state == Active || s[id].state == Applying || s[id].state == Unknown
                     || s[id].state == Drifted || s[id].state == NeedsReconcile)
  }

  // The device has an interrupted record of somebody else.
  predicate InterruptedElsewhere(s: Store, c: Call) {
    exists id :: id in s && s[id].deviceId == c.tag.deviceId && s[id].state == Unknown
                 && s[id].provenance != Some(c.tag)
  }

  // The device has a live record that is not the one to resume.
  predicate Occupied(s: Store, c: Call) {
    exists id :: id in s && s[id].deviceId == c.tag.deviceId && Some(id) != c.resume
                 && s[id].state != Removed && s[id].state != Superseded && s[id].state != Abandoned
  }

  predicate Clear(s: Store, c: Call) {
    c.authority.None? && !NeedsUndeploy(s, c) && !InterruptedElsewhere(s, c) && !Occupied(s, c)
  }

  // The record to resume is this occurrence's own, on this device.
  predicate Own(s: Store, c: Call) {
    c.resume.Some? && c.resume.value in s
    && s[c.resume.value].provenance == Some(c.tag) && s[c.resume.value].deviceId == c.tag.deviceId
  }

  // And it never began, or was interrupted and noted so.
  predicate Resumable(s: Store, c: Call) {
    Own(s, c)
    && (s[c.resume.value].state == Planned
        || (s[c.resume.value].state == Unknown && s[c.resume.value].recovery.Some?))
  }

  // Its journal has come to an end with nothing left to do.
  predicate JournalOver(r: Record) {
    r.state == Unknown && r.journal.Some?
    && (r.journal.value.progress.phase == Iox.Restored || r.journal.value.progress.phase == Iox.Unchanged
        || r.journal.value.progress.phase == Iox.Relinquished)
    && !r.journal.value.unresolved && !r.journal.value.cleanupPending
  }

  // ----- the decision -----

  // A record is created: new work, or the successor of one whose journal is over.
  predicate MayCreate(s: Store, c: Call) {
    Clear(s, c) && c.record.recordId !in s
    && (c.resume.None? || (Resumable(s, c) && JournalOver(s[c.resume.value])))
  }

  predicate MayResume(s: Store, c: Call) {
    Clear(s, c) && Resumable(s, c) && s[c.resume.value].journal.None?
  }

  predicate MustRecover(s: Store, c: Call) {
    Clear(s, c) && Resumable(s, c) && s[c.resume.value].journal.Some? && !JournalOver(s[c.resume.value])
  }

  // The reasons for a refusal.
  predicate RefusedFor(s: Store, c: Call, why: RefusalReason) {
    match why
    case ByAuthority(refusal) => c.authority == Some(refusal)
    case RouterRequiresUndeploy => c.authority.None? && NeedsUndeploy(s, c)
    case ForeignInterruptedRecord => c.authority.None? && !NeedsUndeploy(s, c) && InterruptedElsewhere(s, c)
    case ExistingDeployment =>
      c.authority.None? && !NeedsUndeploy(s, c) && !InterruptedElsewhere(s, c)
      && (Occupied(s, c) || (Own(s, c) && !Resumable(s, c)))
    case RecordConflict =>
      Clear(s, c)
      && (if c.resume.None? then c.record.recordId in s
          else !Own(s, c)
               || (Resumable(s, c) && JournalOver(s[c.resume.value]) && c.record.recordId in s))
  }

  predicate Because(s: Store, c: Call, outcome: Admission) {
    && (outcome.Created? <==> MayCreate(s, c))
    && (outcome.Resumed? <==> MayResume(s, c))
    && (outcome.RecoveryRequired? <==> MustRecover(s, c))
    && (outcome.Refused? ==> RefusedFor(s, c, outcome.reason))
  }

  // ----- what is written -----

  // The new row: planned now, this occurrence's, naming what it succeeds.
  function NewRow(c: Call): Record {
    c.record.(state := Planned, plannedAt := Some(c.now), finishedAt := None,
              provenance := Some(c.tag), predecessor := c.resume)
  }

  // A resumed row: one that never began is planned again, one that was interrupted
  // while it was applied stays interrupted, and recoverable.
  function ResumedAs(r: Record): Record {
    if r.recovery.Some? && r.recovery.value.interruptedFrom == Planned then r.(state := Planned, finishedAt := None)
    else r
  }

  predicate Writes(s: Store, c: Call, outcome: Admission, t: Store) {
    match outcome
    case Created(record) =>
      record == NewRow(c)
      && (if c.resume.None? then t == s[record.recordId := record]
          else c.resume.value in s
               && t == s[c.resume.value := s[c.resume.value].(state := Abandoned, finishedAt := Some(c.now))]
                        [record.recordId := record])
    case Resumed(record) =>
      c.resume.Some? && c.resume.value in s && record == ResumedAs(s[c.resume.value])
      && t == s[c.resume.value := record]
    case RecoveryRequired(record) => c.resume.Some? && c.resume.value in s && record == s[c.resume.value] && t == s
    case Refused(_) => t == s
  }

  predicate Decided(s: Store, c: Call, outcome: Admission, t: Store) {
    Because(s, c, outcome) && Writes(s, c, outcome, t)
  }

  // ----- the store decides so -----

  function Candidate(s: Store, c: Call): (Admission, Store) {
    AdmitCandidate(s, c.record, c.tag, c.authority, c.resume, c.router, c.now)
  }

  lemma EarlyDecided(s: Store, c: Call)
    ensures var e := EarlyRefusal(s, c.tag, c.authority, c.resume, c.router || c.record.router);
      e.None? <==> Clear(s, c)
    ensures var e := EarlyRefusal(s, c.tag, c.authority, c.resume, c.router || c.record.router);
      e.Some? ==> RefusedFor(s, c, e.value)
  {
    var router := c.router || c.record.router;
    assert RouterBlocks(s, c.tag.deviceId, router) <==> NeedsUndeploy(s, c);
    assert ForeignBlocks(s, c.tag) <==> InterruptedElsewhere(s, c);
    assert (exists id :: id in Conflicts(s, c.tag.deviceId) && Some(id) != c.resume) <==> Occupied(s, c);
  }

  lemma ResumeDecided(s: Store, c: Call)
    requires Clear(s, c) && c.resume.Some? && c.record.predecessor.None?
    ensures var d := ResumeCandidate(s, c.record, c.tag, c.resume.value, c.now);
      Because(s, c, d.0) && Writes(s, c, d.0, d.1)
  {
  }

  lemma CandidateDecided(s: Store, c: Call)
    requires c.record.predecessor.None?
    ensures Because(s, c, Candidate(s, c).0) && Writes(s, c, Candidate(s, c).0, Candidate(s, c).1)
  {
    EarlyDecided(s, c);
    if Clear(s, c) && c.resume.Some? {
      ResumeDecided(s, c);
    }
  }

  // With well-formed arguments an authority's refusal is the answer; without one
  // the rows and arguments decide as told above, and nothing else is written.
  lemma AdmissionIsDecided(s: Store, c: Call)
    requires Authority(s) && AdmissionArguments(c.record, c.tag, c.resume)
    ensures var admitted := Admit(s, c.record, c.tag, c.authority, c.resume, c.router, c.now);
      admitted.Ok? && Decided(s, c, admitted.value.0, admitted.value.1)
  {
    AdmitAccepted(s, c.record, c.tag, c.authority, c.resume, c.router, c.now);
    CandidateDecided(s, c);
  }
}
