// Deployment records: the lifecycle table, the store-wide authority rules, and
// what each store operation makes of the record dictionary.
module DeploymentRecords {
  import opened Common
  import Iox = IoxJournal

  datatype State =
    | Planned | Applying | Active | Unknown | Drifted | NeedsReconcile
    | Removed | Superseded | Abandoned

  predicate Interruptible(s: State) {
    s == Planned || s == Applying
  }

  predicate Recoverable(s: State) {
    s == Unknown || s == Drifted || s == NeedsReconcile || s == Applying
  }

  predicate StaleOnActivation(s: State) {
    s == Unknown || s == Drifted || s == NeedsReconcile
  }

  predicate Ended(s: State) {
    s == Removed || s == Superseded || s == Abandoned
  }

  // The lifecycle's edges.
  predicate Allowed(from: State, to: State) {
    match from
    case Planned => to == Applying || to == Unknown || to == NeedsReconcile || to == Removed || to == Abandoned
    case Applying => to == Active || to == Unknown || to == NeedsReconcile || to == Removed || to == Abandoned
    case Active =>
      to == Drifted || to == NeedsReconcile || to == Applying || to == Removed
      || to == Superseded || to == Abandoned
    case Unknown => to == Applying || to == Drifted || to == NeedsReconcile || to == Abandoned
    case Drifted => to == Applying || to == NeedsReconcile || to == Abandoned
    case NeedsReconcile => to == Applying || to == Abandoned
    case Removed => false
    case Superseded => false
    case Abandoned => false
  }

  datatype Provenance = Provenance(scheduleId: string, scheduleRev: int, occurrenceId: string, deviceId: string)

  predicate ScheduleIdentifier(s: string) {
    && 1 <= |s| <= 64
    && (forall i :: 0 <= i < |s| ==> IdentifierChar(s[i]) || s[i] == '.')
    && s[0] != '_' && s[0] != '-' && s[0] != '.'
  }

  predicate ProvenanceOk(p: Provenance, deviceId: string) {
    && IntegerIn(p.scheduleRev, 1, MAX_INTEGER)
    && ScheduleIdentifier(p.scheduleId) && ScheduleIdentifier(p.deviceId)
    && LowerHex(p.occurrenceId, 32)
    && p.deviceId != "seeder" && p.deviceId == deviceId
  }

  datatype Recovery = Recovery(interruptedFrom: State, interruptedAt: int)

  datatype Evidence = NoEvidence | Reported(text: string) | AbandonedBecause(reason: string)

  // `plan` stands for the hash, resolved inputs, preflight and resources; the
  // two facts the store reads out of it are kept as fields.
  datatype Record = Record(
    recordId: string, deviceId: string, state: State,
    plannedAt: Option<int>, finishedAt: Option<int>, adopted: bool,
    plan: string, router: bool, deviceIdentity: Option<string>,
    provenance: Option<Provenance>, recovery: Option<Recovery>,
    predecessor: Option<string>, journal: Option<Iox.Journal>, evidence: Evidence)

  type Store = map<string, Record>

  // ----- authority rules -----

  predicate RecordOk(r: Record) {
    && (r.provenance.Some? ==> ProvenanceOk(r.provenance.value, r.deviceId))
    && (r.recovery.Some? ==> Interruptible(r.recovery.value.interruptedFrom) && Natural(r.recovery.value.interruptedAt))
    && (r.predecessor.Some? ==> RecordIdText(r.predecessor.value) && r.provenance.Some?)
    && (r.journal.Some? ==> !r.adopted && Iox.ShapeValid(r.journal.value, r.recordId))
  }

  // What a caller may hand in as a new record.
  predicate NewRecordOk(r: Record) {
    RecordOk(r) && r.journal.None? && r.recovery.None? && r.predecessor.None? && r.state == Planned
  }

  // A journal with nothing left to restore or clean up.
  predicate Settled(j: Option<Iox.Journal>) {
    && j.Some? && Iox.IsTerminal(j.value.progress.phase)
    && !j.value.unresolved && !j.value.cleanupPending
  }

  // A successor names a recovered record of the same device and occurrence. A
  // removed successor is history; a live one needs its predecessor abandoned.
  predicate LinkOk(s: Store, id: string)
    requires id in s
  {
    s[id].predecessor.Some? ==>
      var p := s[id].predecessor.value;
      && p in s && p != id && s[p].deviceId == s[id].deviceId
      && s[p].provenance == s[id].provenance
      && s[p].recovery.Some? && Settled(s[p].journal)
      && (s[id].state != Removed ==> s[p].state == Abandoned)
  }

  // Names a predecessor and is not history.
  predicate Claiming(r: Record) {
    r.predecessor.Some? && r.state != Removed
  }

  predicate LineageOk(s: Store) {
    && (forall id :: id in s ==> LinkOk(s, id))
    && (forall a, b :: a in s && b in s && Claiming(s[a]) && Claiming(s[b]) && a != b ==>
          s[a].predecessor != s[b].predecessor)
  }

  predicate Obliged(r: Record) {
    r.journal.Some? && (r.journal.value.unresolved || r.journal.value.cleanupPending)
  }

  predicate BoardsOk(s: Store) {
    forall a, b :: a in s && b in s && Obliged(s[a]) && Obliged(s[b]) && a != b ==>
      s[a].journal.value.binding.boardIdentity != s[b].journal.value.binding.boardIdentity
  }

  predicate RowsOk(s: Store) {
    forall id :: id in s ==> s[id].recordId == id && RecordOk(s[id])
  }

  predicate Authority(s: Store) {
    RowsOk(s) && LineageOk(s) && BoardsOk(s)
  }

  // ----- operations -----

  datatype Failure =
    | InvalidRecord | RecordExists | UnknownRecord | InvalidTransition | InvalidLineage
    | AuthorityRejected | JournalExists | NoJournal | AdoptedRecord | IdentityMismatch
    | BoardBusy | Journal(reason: Iox.Refusal)

  // A candidate is written only when the authority rules accept it.
  function Checked(candidate: Store): Result<Store, Failure> {
    if Authority(candidate) then Ok(candidate) else Err(AuthorityRejected)
  }

  function Fresh(r: Record, now: int): Record {
    r.(state := Planned, plannedAt := Some(now), finishedAt := None)
  }

  function Create(s: Store, r: Record, now: int): Result<Store, Failure> {
    var planned := r.(state := Planned);
    if !NewRecordOk(planned) || r.recordId == "" then Err(InvalidRecord)
    else if r.recordId in s then Err(RecordExists)
    else Checked(s[r.recordId := Fresh(r, now)])
  }

  // What the activation of record `keep` does to one sibling row.
  function AfterActivation(r: Record, deviceId: string, keep: string, now: int): Record {
    if r.deviceId != deviceId || r.recordId == keep then r
    else if r.state == Active then r.(state := Superseded, finishedAt := Some(now))
    else if StaleOnActivation(r.state) then
      r.(state := Abandoned, finishedAt := Some(now),
         evidence := AbandonedBecause("superseded by the activation of record " + keep))
    else r
  }

  function SupersedeOthers(s: Store, deviceId: string, keep: string, now: int): Store {
    map id | id in s :: AfterActivation(s[id], deviceId, keep, now)
  }

  function Adopted(r: Record, now: int): Record {
    r.(state := Active, adopted := true, plannedAt := Some(now), finishedAt := Some(now))
  }

  function AdoptCandidate(s: Store, r: Record, now: int): Store {
    SupersedeOthers(s, r.deviceId, r.recordId, now)[r.recordId := Adopted(r, now)]
  }

  function Adopt(s: Store, r: Record, now: int): Result<Store, Failure> {
    if !NewRecordOk(r) || r.recordId == "" then Err(InvalidRecord)
    else if r.recordId in s then Err(RecordExists)
    else Checked(AdoptCandidate(s, r, now))
  }

  function Moved(r: Record, to: State, evidence: Option<string>, now: int): Record {
    r.(state := to,
       evidence := if evidence.Some? then Reported(evidence.value) else r.evidence,
       finishedAt := if to == Active || StaleOnActivation(to) || to == Removed then Some(now) else r.finishedAt)
  }

  function TransitionCandidate(s: Store, id: string, to: State, evidence: Option<string>, now: int): Store
    requires id in s
  {
    var moved := s[id := Moved(s[id], to, evidence, now)];
    if to == Active then SupersedeOthers(moved, s[id].deviceId, id, now) else moved
  }

  function Transition(s: Store, id: string, to: State, evidence: Option<string>, now: int): Result<Store, Failure> {
    if id !in s then Err(UnknownRecord)
    else if !Allowed(s[id].state, to) then Err(InvalidTransition)
    else Checked(TransitionCandidate(s, id, to, evidence, now))
  }

  function RetirePlannedCandidate(s: Store, id: string, now: int): Store
    requires id in s
    requires s[id].predecessor.Some? ==> s[id].predecessor.value in s
  {
    var restored := if s[id].predecessor.Some? then
                      s[s[id].predecessor.value :=
                        s[s[id].predecessor.value].(state := Unknown, finishedAt := Some(now))]
                    else s;
    restored[id := restored[id].(state := Removed, finishedAt := Some(now))]
  }

  function RetirePlanned(s: Store, id: string, now: int): Result<Store, Failure> {
    if id !in s then Err(UnknownRecord)
    else if s[id].state != Planned then Ok(s)
    else if s[id].predecessor.Some?
            && (s[id].predecessor.value !in s || s[s[id].predecessor.value].state != Abandoned)
    then Err(InvalidLineage)
    else Checked(RetirePlannedCandidate(s, id, now))
  }

  function Retired(r: Record, deviceId: string, reason: string, now: int): Record {
    if r.deviceId != deviceId || Ended(r.state) then r
    else r.(state := Abandoned, finishedAt := Some(now), evidence := AbandonedBecause(reason))
  }

  function RetireDeviceCandidate(s: Store, deviceId: string, reason: string, now: int): Store {
    map id | id in s :: Retired(s[id], deviceId, reason, now)
  }

  function RetireDevice(s: Store, deviceId: string, reason: string, now: int): Result<Store, Failure> {
    Checked(RetireDeviceCandidate(s, deviceId, reason, now))
  }

  // ----- startup recovery -----

  function OrZero(t: Option<int>): int {
    if t.Some? then t.value else 0
  }

  // a was activated no later than b: by activation, then plan time, then id.
  predicate NotNewer(a: Record, b: Record) {
    var fa, fb, pa, pb := OrZero(a.finishedAt), OrZero(b.finishedAt), OrZero(a.plannedAt), OrZero(b.plannedAt);
    fa < fb || (fa == fb && (pa < pb || (pa == pb && LexLeq(Codes(a.recordId), Codes(b.recordId)))))
  }

  predicate Outdated(s: Store, id: string)
    requires id in s
  {
    s[id].state == Active
    && exists other :: other in s && other != id && s[other].state == Active
                       && s[other].deviceId == s[id].deviceId && NotNewer(s[id], s[other])
  }

  function Interrupted(r: Record, now: int): Record {
    r.(state := Unknown, finishedAt := Some(now), recovery := Some(Recovery(r.state, now)))
  }

  // One row after recovery. A row whose metadata does not fit is left alone;
  // `fits` names the rows that do.
  function Recovered(s: Store, id: string, fits: set<string>, now: int): Record
    requires id in s
  {
    if id !in fits then s[id]
    else if Interruptible(s[id].state) then Interrupted(s[id], now)
    else if Outdated(s, id) then s[id].(state := Superseded, finishedAt := Some(now))
    else s[id]
  }

  function RecoverCandidate(s: Store, fits: set<string>, now: int): Store {
    map id | id in s :: Recovered(s, id, fits, now)
  }

  function Recover(s: Store, fits: set<string>, now: int): Result<Store, Failure> {
    Checked(RecoverCandidate(s, fits, now))
  }

  // ----- scheduled admission -----

  datatype AuthorityRefusal = Conflict | WindowClosed

  datatype RefusalReason =
    | ByAuthority(refusal: AuthorityRefusal) | RouterRequiresUndeploy | ForeignInterruptedRecord
    | ExistingDeployment | RecordConflict

  datatype Admission =
    | Created(record: Record) | Resumed(record: Record)
    | RecoveryRequired(record: Record) | Refused(reason: RefusalReason)

  // The live rows of the admitted device.
  function Conflicts(s: Store, deviceId: string): set<string> {
    set id | id in s && s[id].deviceId == deviceId && !Ended(s[id].state)
  }

  predicate RouterBlocks(s: Store, deviceId: string, router: bool) {
    exists id :: id in Conflicts(s, deviceId) && (router || s[id].router)
                 && (Recoverable(s[id].state) || s[id].state == Active)
  }

  predicate ForeignBlocks(s: Store, tag: Provenance) {
    exists id :: id in Conflicts(s, tag.deviceId) && s[id].state == Unknown && s[id].provenance != Some(tag)
  }

  // The resumed row when no journal stands in the way.
  function ResumedRow(r: Record): Record {
    if r.recovery.Some? && r.recovery.value.interruptedFrom == Planned
    then r.(state := Planned, finishedAt := None) else r
  }

  // What refuses an admission before the resumed record is looked at.
  function EarlyRefusal(s: Store, tag: Provenance, authority: Option<AuthorityRefusal>,
                        resume: Option<string>, router: bool): Option<RefusalReason>
  {
    if authority.Some? then Some(ByAuthority(authority.value))
    else if RouterBlocks(s, tag.deviceId, router) then Some(RouterRequiresUndeploy)
    else if ForeignBlocks(s, tag) then Some(ForeignInterruptedRecord)
    else if exists id :: id in Conflicts(s, tag.deviceId) && Some(id) != resume then Some(ExistingDeployment)
    else None
  }

  // The outcome and the candidate store when `id` is to be resumed.
  function ResumeCandidate(s: Store, r: Record, tag: Provenance, id: string, now: int): (Admission, Store) {
    if id !in s || s[id].provenance != Some(tag) || s[id].deviceId != tag.deviceId
    then (Refused(RecordConflict), s)
    else
      var existing := s[id];
      if existing.state != Planned && !(existing.state == Unknown && existing.recovery.Some?)
      then (Refused(ExistingDeployment), s)
      else if existing.journal.None? then
        (Resumed(ResumedRow(existing)), s[id := ResumedRow(existing)])
      else if existing.state != Unknown || !Settled(existing.journal) then
        (RecoveryRequired(existing), s)
      else if r.recordId in s then (Refused(RecordConflict), s)
      else
        var successor := Fresh(r.(provenance := Some(tag), predecessor := Some(id)), now);
        (Created(successor),
         s[id := existing.(state := Abandoned, finishedAt := Some(now))][r.recordId := successor])
  }

  // The outcome and the candidate store, before the authority check.
  function AdmitCandidate(s: Store, r: Record, tag: Provenance, authority: Option<AuthorityRefusal>,
                          resume: Option<string>, router: bool, now: int): (Admission, Store)
  {
    var tagged := r.(provenance := Some(tag));
    var refusal := EarlyRefusal(s, tag, authority, resume, router || r.router);
    if refusal.Some? then (Refused(refusal.value), s)
    else if resume.Some? then ResumeCandidate(s, r, tag, resume.value, now)
    else if r.recordId in s then (Refused(RecordConflict), s)
    else (Created(Fresh(tagged, now)), s[r.recordId := Fresh(tagged, now)])
  }

  function Admit(s: Store, r: Record, tag: Provenance, authority: Option<AuthorityRefusal>,
                       resume: Option<string>, router: bool, now: int): Result<(Admission, Store), Failure>
  {
    if !NewRecordOk(r) || !ProvenanceOk(tag, r.deviceId) || !RecordIdText(r.recordId)
       || (r.provenance.Some? && r.provenance.value != tag)
       || (resume.Some? && !RecordIdText(resume.value))
    then Err(InvalidRecord)
    else
      var (outcome, candidate) := AdmitCandidate(s, r, tag, authority, resume, router, now);
      if outcome.Refused? || outcome.RecoveryRequired? then Ok((outcome, s))
      else if Authority(candidate) then Ok((outcome, candidate))
      else Err(AuthorityRejected)
  }

  // ----- journal operations on a stored record -----

  // Open this journal on record id.
  function BeginWith(s: Store, id: string, j: Iox.Journal, board: string): Result<Store, Failure> {
    if id !in s then Err(UnknownRecord)
    else if s[id].adopted then Err(AdoptedRecord)
    else if s[id].journal.Some? then Err(JournalExists)
    else if s[id].deviceIdentity.Some? && s[id].deviceIdentity.value != board then Err(IdentityMismatch)
    else if exists other :: other in s && Obliged(s[other])
                            && s[other].journal.value.binding.boardIdentity == board
    then Err(BoardBusy)
    else Checked(s[id := s[id].(journal := Some(j))])
  }

  function IoxBegin(s: Store, id: string, transactionId: string, controllerId: string, board: string,
                    wrapperSha256: string, sign: bool, cert: bool,
                    initial: Iox.Observation, ref: Iox.TranscriptRef, now: int): Result<Store, Failure>
  {
    var j := Iox.Begin(transactionId, id, controllerId, board, wrapperSha256, sign, cert, initial, ref, now);
    BeginWith(s, id, j, board)
  }

  function IoxEvent(s: Store, id: string, q: Iox.Request): Result<Store, Failure> {
    if id !in s || s[id].journal.None? then Err(NoJournal)
    else
      match Iox.ApplyEvent(s[id].journal.value, q)
      case Err(e) => Err(Journal(e))
      case Ok(j) => Checked(s[id := s[id].(journal := Some(j))])
  }

  function IoxCleanup(s: Store, id: string, transactionId: string, revision: int, phase: Iox.Phase,
                            pending: bool, now: int): Result<Store, Failure>
  {
    if id !in s || s[id].journal.None? then Err(NoJournal)
    else
      match Iox.ApplyCleanup(s[id].journal.value, transactionId, revision, phase, pending, now)
      case Err(e) => Err(Journal(e))
      case Ok(j) => Checked(s[id := s[id].(journal := Some(j))])
  }
}
