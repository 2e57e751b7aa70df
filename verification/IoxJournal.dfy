// The IOx verification journal kept inside a deployment record: its shape rules
// and the compare-and-set transitions that evidence drives.
module IoxJournal {
  import opened Common

  datatype IoxState = Enabled | Disabled | Unknown

  datatype Phase =
    | Observed | DisableIntent | DisabledConfirmed | Installing | OwnershipProbe
    | RestoreIntent | Restored | Unchanged | Relinquished | Indeterminate

  predicate IsUnresolved(p: Phase) {
    p == DisableIntent || p == DisabledConfirmed || p == Installing || p == OwnershipProbe
    || p == RestoreIntent || p == Indeterminate
  }

  predicate IsTerminal(p: Phase) {
    p == Restored || p == Unchanged || p == Relinquished
  }

  const MAX_TRANSCRIPT_REFS: int := 8
  const TRANSCRIPT_MAX_BYTES: int := 1024 * 1024

  datatype Observation = Observation(
    state: IoxState, observedAt: int, commandId: int, transcriptId: string,
    stdoutOffset: int, stdoutLength: int, stderrOffset: int, stderrLength: int,
    returncode: Option<int>, timedOut: bool, truncated: bool, framingComplete: bool)

  datatype Confirmation = Confirmation(
    confirmedAt: int, preDisableCommandId: int, disableCommandId: int,
    readbackCommandId: int, transitionResponse: string)

  datatype FaultCategory =
    | Rejected | UnsupportedSyntax | UnsupportedResponse | Silence | Timeout | SshAuthentication
    | HostKey | Connection | Transport | CafTransient | ReadbackUnknown | ReadbackMismatch
    | WrapperUnreadable | WrapperNotRegular | WrapperOversize | WrapperCopyTimeout | WrapperChanged
    | WrapperArchiveInvalid | WrapperArchiveLimit | WrapperScanFailed | JournalUnreadable
    | JournalDurability | StaleCas | InvalidTransition | AuthorityMismatch | IdentityMismatch
    | BoardBusy | Cancelled | TranscriptLimit | DescendantUnreaped | ReconciliationRequired

  datatype Fault = Fault(category: FaultCategory, detailBytes: int, at: int, transcriptId: Option<string>)

  datatype CommandRef = CommandRef(transcriptId: string, commandId: int)

  datatype TranscriptRef = TranscriptRef(
    id: string, attemptId: string, storedBytes: int, observedBytes: int,
    droppedBytes: int, truncated: bool)

  // The fields fixed when the journal is created.
  datatype Binding = Binding(
    transactionId: string, recordId: string, controllerId: string,
    boardIdentity: string, wrapperSha256: string,
    packageSignPresent: bool, packageCertPresent: bool,
    priorState: IoxState, initial: Observation)

  // The fields that evidence moves forward.
  datatype Progress = Progress(
    phase: Phase, currentState: IoxState, observedAt: Option<int>,
    preDisable: Option<Observation>, confirmation: Option<Confirmation>,
    restore: Option<Observation>, fault: Option<Fault>)

  datatype Journal = Journal(
    binding: Binding, progress: Progress, revision: int, unresolved: bool,
    createdAt: int, updatedAt: int, terminalAt: Option<int>,
    refs: seq<TranscriptRef>, cleanupPending: bool)

  // The closed set of reasons an operation refuses with.
  datatype Refusal =
    | BadEvidence | BadTranscripts | BadTransition | BadClock | RevisionLimit
    | CapabilityRequired | UnexpectedCapability | CapabilityMismatch
    | StaleRevision | TransactionMismatch | ShapeRejected | TranscriptAuthority
    | CleanupState

  // ----- element rules -----

  predicate RefOk(r: TranscriptRef) {
    && LowerHex(r.id, 32) && r.attemptId == r.id
    && IntegerIn(r.storedBytes, 1, TRANSCRIPT_MAX_BYTES)
    && Natural(r.observedBytes) && Natural(r.droppedBytes)
    && r.droppedBytes <= r.observedBytes
  }

  // An enabled or disabled reading is authoritative only when its command
  // finished cleanly with complete framing.
  predicate ObservationOk(o: Observation) {
    && Natural(o.observedAt) && IntegerIn(o.commandId, 1, MAX_INTEGER)
    && LowerHex(o.transcriptId, 32)
    && Natural(o.stdoutOffset) && Natural(o.stdoutLength)
    && o.stderrOffset == 0 && Natural(o.stderrLength)
    && (o.returncode.Some? ==> IntegerIn(o.returncode.value, -255, 255))
    && (o.state != Unknown ==>
          o.returncode == Some(0) && !o.timedOut && !o.truncated && o.framingComplete)
  }

  predicate ConfirmationOk(c: Confirmation) {
    && Natural(c.confirmedAt)
    && IntegerIn(c.preDisableCommandId, 1, MAX_INTEGER)
    && IntegerIn(c.disableCommandId, 1, MAX_INTEGER)
    && IntegerIn(c.readbackCommandId, 1, MAX_INTEGER)
    && c.transitionResponse == "disabled_successfully"
  }

  predicate FaultOk(f: Fault) {
    && 0 <= f.detailBytes <= 1024 && Natural(f.at)
    && (f.transcriptId.Some? ==> LowerHex(f.transcriptId.value, 32))
  }

  function RefIds(refs: seq<TranscriptRef>): (ids: set<string>)
    ensures forall x :: x in ids <==> exists i :: 0 <= i < |refs| && refs[i].id == x
  {
    set i | 0 <= i < |refs| :: refs[i].id
  }

  predicate RefsOk(refs: seq<TranscriptRef>) {
    && 1 <= |refs| <= MAX_TRANSCRIPT_REFS
    && (forall i :: 0 <= i < |refs| ==> RefOk(refs[i]))
    && (forall i, j :: 0 <= i < j < |refs| ==> refs[i].id != refs[j].id)
  }

  // ----- the persisted journal's shape -----

  predicate HeaderOk(j: Journal, containing: string) {
    && LowerHex(j.binding.transactionId, 32) && Natural(j.revision)
    && RecordIdText(j.binding.recordId) && j.binding.recordId == containing
    && LowerHex(j.binding.controllerId, 32) && BoardIdText(j.binding.boardIdentity)
    && LowerHex(j.binding.wrapperSha256, 64)
    && j.unresolved == IsUnresolved(j.progress.phase)
    && (j.cleanupPending ==> IsTerminal(j.progress.phase))
  }

  predicate TimesOk(j: Journal) {
    var observedAt := j.progress.observedAt;
    && Natural(j.createdAt) && Natural(j.updatedAt)
    && (observedAt.Some? ==> Natural(observedAt.value) && observedAt.value <= j.updatedAt)
    && (j.terminalAt.Some? ==> Natural(j.terminalAt.value) && j.terminalAt.value <= j.updatedAt)
    && j.createdAt <= j.updatedAt
    && (if IsTerminal(j.progress.phase) then
          && j.terminalAt.Some? && observedAt.Some?
          && j.createdAt <= j.terminalAt.value && observedAt.value <= j.terminalAt.value
        else j.terminalAt.None?)
  }

  // A well-formed read whose transcript is among the retained references.
  predicate ReadKept(refs: seq<TranscriptRef>, o: Option<Observation>) {
    o.Some? ==> ObservationOk(o.value) && o.value.transcriptId in RefIds(refs)
  }

  predicate FaultKept(refs: seq<TranscriptRef>, f: Option<Fault>) {
    f.Some? ==> FaultOk(f.value)
                && (f.value.transcriptId.Some? ==> f.value.transcriptId.value in RefIds(refs))
  }

  predicate EvidenceOk(b: Binding, p: Progress, refs: seq<TranscriptRef>) {
    && RefsOk(refs)
    && ReadKept(refs, Some(b.initial)) && ReadKept(refs, p.preDisable) && ReadKept(refs, p.restore)
    && (p.confirmation.Some? ==> ConfirmationOk(p.confirmation.value))
    && FaultKept(refs, p.fault)
    && b.priorState == b.initial.state
  }

  predicate Markers(b: Binding) {
    b.packageSignPresent || b.packageCertPresent
  }

  // Both reads that precede a disable saw verification enabled on a package
  // that carries no signature markers.
  predicate OwnershipPath(b: Binding, p: Progress) {
    && b.initial.state == Enabled && !Markers(b)
    && p.preDisable.Some? && p.preDisable.value.state == Enabled
  }

  predicate PhaseOk(b: Binding, p: Progress) {
    && (p.phase != Observed && p.phase != Unchanged ==> OwnershipPath(b, p))
    && match p.phase
       case Observed =>
         p.currentState == b.initial.state && p.observedAt == Some(b.initial.observedAt)
         && p.preDisable.None? && p.confirmation.None? && p.restore.None?
       case DisableIntent =>
         p.confirmation.None? && p.restore.None? && p.currentState == Enabled
         && p.preDisable.Some? && p.observedAt == Some(p.preDisable.value.observedAt)
       case DisabledConfirmed => ConfirmedOk(p)
       case Installing => ConfirmedOk(p)
       case OwnershipProbe => ConfirmedOk(p)
       case RestoreIntent => p.confirmation.Some? && RestoreReadOk(p, Disabled)
       case Restored => p.confirmation.Some? && RestoreReadOk(p, Enabled)
       case Relinquished => RestoreReadOk(p, Enabled)
       case Indeterminate =>
         && p.fault.Some? && p.currentState != Enabled
         && (p.restore.Some? ==> p.restore.value.state != Enabled
                                 && p.observedAt == Some(p.restore.value.observedAt))
       case Unchanged =>
         && p.confirmation.None? && p.restore.None?
         && (if p.preDisable.None? then
               && (b.initial.state != Enabled || Markers(b))
               && p.currentState == b.initial.state
               && p.observedAt == Some(b.initial.observedAt)
             else
               && b.initial.state == Enabled && p.preDisable.value.state != Enabled
               && p.currentState == p.preDisable.value.state
               && p.observedAt == Some(p.preDisable.value.observedAt))
  }

  predicate ConfirmedOk(p: Progress) {
    p.confirmation.Some? && p.restore.None? && p.currentState == Disabled
    && p.observedAt == Some(p.confirmation.value.confirmedAt)
  }

  predicate RestoreReadOk(p: Progress, s: IoxState) {
    p.restore.Some? && p.restore.value.state == s && p.currentState == s
    && p.observedAt == Some(p.restore.value.observedAt)
  }

  predicate ShapeValid(j: Journal, containing: string) {
    && HeaderOk(j, containing) && TimesOk(j)
    && EvidenceOk(j.binding, j.progress, j.refs) && PhaseOk(j.binding, j.progress)
  }

  // ----- transcript references -----

  predicate RefExtends(prev: TranscriptRef, ref: TranscriptRef) {
    && prev.attemptId == ref.attemptId
    && prev.storedBytes <= ref.storedBytes && prev.observedBytes <= ref.observedBytes
    && prev.droppedBytes <= ref.droppedBytes
    && (prev.truncated ==> ref.truncated)
    && (ref.storedBytes == prev.storedBytes ==> ref == prev)
  }

  // Position of the reference carrying this id, or |refs|.
  function Position(refs: seq<TranscriptRef>, id: string): (k: nat)
    ensures k <= |refs|
    ensures k < |refs| ==> refs[k].id == id
    ensures forall i :: 0 <= i < k ==> refs[i].id != id
  {
    if refs == [] || refs[0].id == id then 0 else 1 + Position(refs[1..], id)
  }

  // One iteration of the merge: a known id is replaced in place when it only
  // grew, an unknown one is appended while there is room.
  function MergeOne(acc: seq<TranscriptRef>, seen: set<string>, ref: TranscriptRef)
    : Result<seq<TranscriptRef>, Refusal>
  {
    if !RefOk(ref) || ref.id in seen then Err(BadTranscripts)
    else
      var k := Position(acc, ref.id);
      if k == |acc| then
        if |acc| >= MAX_TRANSCRIPT_REFS then Err(BadTranscripts) else Ok(acc + [ref])
      else if RefExtends(acc[k], ref) then Ok(acc[k := ref])
      else Err(BadTranscripts)
  }

  function MergeFrom(acc: seq<TranscriptRef>, seen: set<string>, incoming: seq<TranscriptRef>)
    : Result<seq<TranscriptRef>, Refusal>
    decreases |incoming|
  {
    if incoming == [] then Ok(acc)
    else
      match MergeOne(acc, seen, incoming[0])
      case Err(e) => Err(e)
      case Ok(next) => MergeFrom(next, seen + {incoming[0].id}, incoming[1..])
  }

  function Merge(existing: seq<TranscriptRef>, incoming: seq<TranscriptRef>)
    : Result<seq<TranscriptRef>, Refusal>
  {
    MergeFrom(existing, {}, incoming)
  }

  // The loop over the incoming references.
  method MergeTranscriptRefs(existing: seq<TranscriptRef>, incoming: seq<TranscriptRef>)
    returns (merged: Result<seq<TranscriptRef>, Refusal>)
    ensures merged == Merge(existing, incoming)
  {
    var result, seen, i := existing, {}, 0;
    while i < |incoming|
      invariant 0 <= i <= |incoming|
      invariant Merge(existing, incoming) == MergeFrom(result, seen, incoming[i..])
    {
      var ref := incoming[i];
      assert incoming[i..][0] == ref && incoming[i..][1..] == incoming[i + 1..];
      if !RefOk(ref) || ref.id in seen {
        return Err(BadTranscripts);
      }
      var k := Position(result, ref.id);
      if k == |result| {
        if |result| >= MAX_TRANSCRIPT_REFS {
          return Err(BadTranscripts);
        }
        result := result + [ref];
      } else {
        if !RefExtends(result[k], ref) {
          return Err(BadTranscripts);
        }
        result := result[k := ref];
      }
      seen := seen + {ref.id};
      i := i + 1;
    }
    return Ok(result);
  }

  // ----- events -----

  datatype UnchangedReason = MarkerPresent | InitiallyDisabled | InitialReadUnknown | PreDisableChanged

  datatype Event =
    | IntendDisable(observation: Option<Observation>, retry: Option<CommandRef>, refs: seq<TranscriptRef>)
    | ConfirmDisable(confirmation: Confirmation, refs: seq<TranscriptRef>)
    | BeginInstall
    | ProbeOwnership
    | IntendRestore(observation: Option<Observation>, refs: seq<TranscriptRef>)
    | ConfirmRestore(observation: Option<Observation>, refs: seq<TranscriptRef>)
    | LeaveUnchanged(reason: UnchangedReason, observation: Option<Observation>, refs: seq<TranscriptRef>)
    | Relinquish(observation: Option<Observation>, refs: seq<TranscriptRef>)
    | MarkIndeterminate(observation: Option<Observation>, fault: Fault, refs: seq<TranscriptRef>)
    | RecordFault(fault: Fault, refs: seq<TranscriptRef>)
    | ReconcileEnabled(observation: Option<Observation>, acknowledged: bool, refs: seq<TranscriptRef>)

  function EventRefs(ev: Event): seq<TranscriptRef> {
    if ev.BeginInstall? || ev.ProbeOwnership? then [] else ev.refs
  }

  function EventObservation(ev: Event): Option<Observation> {
    if ev.ConfirmDisable? || ev.BeginInstall? || ev.ProbeOwnership? || ev.RecordFault? then None
    else ev.observation
  }

  predicate EventOk(ev: Event) {
    && (EventObservation(ev).Some? ==> ObservationOk(EventObservation(ev).value))
    && (ev.ConfirmDisable? ==> ConfirmationOk(ev.confirmation))
    && (ev.MarkIndeterminate? || ev.RecordFault? ==> FaultOk(ev.fault))
    && (ev.IntendDisable? && ev.retry.Some? ==>
          LowerHex(ev.retry.value.transcriptId, 32) && IntegerIn(ev.retry.value.commandId, 1, MAX_INTEGER))
    && (ev.ReconcileEnabled? ==> ev.acknowledged)
  }

  predicate NeedsCapability(ev: Event, phase: Phase) {
    || ev.ConfirmDisable? || ev.IntendRestore? || ev.ConfirmRestore?
    || (ev.Relinquish? && phase == OwnershipProbe)
    || (ev.IntendDisable? && phase == DisableIntent)
  }

  predicate Reads(o: Option<Observation>, s: IoxState) {
    o.Some? && o.value.state == s
  }

  predicate ReadsNotEnabled(o: Option<Observation>) {
    o.Some? && o.value.state != Enabled
  }

  function WithRestoreRead(p: Progress, o: Observation, next: Phase): Progress {
    p.(restore := Some(o), currentState := o.state, observedAt := Some(o.observedAt), phase := next)
  }

  function WithPreDisableRead(p: Progress, o: Observation, next: Phase): Progress {
    p.(preDisable := Some(o), currentState := o.state, observedAt := Some(o.observedAt), phase := next)
  }

  // How far each event's branch moves the journal.
  function Branch(b: Binding, p: Progress, ev: Event): (r: Result<Progress, Refusal>) {
    match ev
    case IntendDisable(o, retry, _) =>
      if (p.phase == Observed || p.phase == DisableIntent) && b.initial.state == Enabled && !Markers(b)
         && Reads(o, Enabled) && (retry.Some? <==> p.phase == DisableIntent)
      then Ok(WithPreDisableRead(p, o.value, DisableIntent))
      else Err(BadTransition)
    case ConfirmDisable(c, _) =>
      if p.phase == DisableIntent && p.preDisable.Some?
         && c.preDisableCommandId == p.preDisable.value.commandId && p.confirmation.None?
      then Ok(p.(confirmation := Some(c), currentState := Disabled,
                 observedAt := Some(c.confirmedAt), phase := DisabledConfirmed))
      else Err(BadTransition)
    case BeginInstall =>
      if p.phase == DisabledConfirmed then Ok(p.(phase := Installing)) else Err(BadTransition)
    case ProbeOwnership =>
      if p.phase == DisabledConfirmed || p.phase == Installing then Ok(p.(phase := OwnershipProbe))
      else Err(BadTransition)
    case IntendRestore(o, _) =>
      if p.phase == OwnershipProbe && Reads(o, Disabled)
      then Ok(WithRestoreRead(p, o.value, RestoreIntent)) else Err(BadTransition)
    case ConfirmRestore(o, _) =>
      if p.phase == RestoreIntent && Reads(o, Enabled)
      then Ok(WithRestoreRead(p, o.value, Restored)) else Err(BadTransition)
    case LeaveUnchanged(reason, o, _) =>
      if p.phase != Observed then Err(BadTransition)
      else (match reason
        case MarkerPresent => if o.None? && Markers(b) then Ok(p.(phase := Unchanged)) else Err(BadTransition)
        case InitiallyDisabled =>
          if o.None? && b.initial.state == Disabled then Ok(p.(phase := Unchanged)) else Err(BadTransition)
        case InitialReadUnknown =>
          if o.None? && b.initial.state == Unknown then Ok(p.(phase := Unchanged)) else Err(BadTransition)
        case PreDisableChanged =>
          if b.initial.state == Enabled && ReadsNotEnabled(o)
          then Ok(WithPreDisableRead(p, o.value, Unchanged)) else Err(BadTransition))
    case Relinquish(o, _) =>
      if (p.phase == DisableIntent || p.phase == OwnershipProbe || p.phase == RestoreIntent) && Reads(o, Enabled)
      then Ok(WithRestoreRead(p, o.value, Relinquished)) else Err(BadTransition)
    case MarkIndeterminate(o, f, _) =>
      if p.phase == OwnershipProbe && o.None? then Ok(p.(fault := Some(f), phase := Indeterminate))
      else if (p.phase == DisableIntent || p.phase == RestoreIntent) && ReadsNotEnabled(o)
      then Ok(WithRestoreRead(p, o.value, Indeterminate).(fault := Some(f)))
      else Err(BadTransition)
    case RecordFault(f, _) => Ok(p.(fault := Some(f)))
    case ReconcileEnabled(o, _, _) =>
      if p.phase == Indeterminate && Reads(o, Enabled)
      then Ok(WithRestoreRead(p, o.value, Relinquished)) else Err(BadTransition)
  }

  // Revision, clock and derived fields written around the branch's progress.
  function Stamp(j: Journal, p: Progress, refs: seq<TranscriptRef>, now: int): Result<Journal, Refusal> {
    if !Natural(now) then Err(BadClock)
    else if !Natural(j.revision + 1) then Err(RevisionLimit)
    else Ok(Journal(
      j.binding, p, j.revision + 1, IsUnresolved(p.phase), j.createdAt, Max(now, j.updatedAt),
      if IsTerminal(p.phase) && j.terminalAt.None? then Some(now) else j.terminalAt,
      refs, j.cleanupPending))
  }

  // One event, up to the store-wide check that follows it.
  function Transition(j: Journal, ev: Event, now: int): (r: Result<Journal, Refusal>) {
    match Merge(j.refs, EventRefs(ev))
    case Err(e) => Err(e)
    case Ok(refs) =>
      match Branch(j.binding, j.progress, ev)
      case Err(e) => Err(e)
      case Ok(p) => Stamp(j, p, refs, now)
  }

  // ----- capabilities and compare-and-set -----

  // What a one-use capability is bound to.
  datatype Capability = Capability(
    controllerId: string, attemptId: string, recordId: string, transactionId: string,
    boardIdentity: string, revision: int, phase: Phase, event: Event)

  function EvidenceAttempts(j: Journal, ev: Event): set<string> {
    (if EventObservation(ev).Some? then {EventObservation(ev).value.transcriptId} else {})
    + (if ev.IntendDisable? && ev.retry.Some? then {ev.retry.value.transcriptId} else {})
    + (set i | 0 <= i < |EventRefs(ev)| :: EventRefs(ev)[i].attemptId)
    + (if ev.ConfirmDisable? && j.progress.preDisable.Some? then {j.progress.preDisable.value.transcriptId} else {})
  }

  predicate Authorizes(c: Capability, j: Journal, ev: Event) {
    && c.controllerId == j.binding.controllerId && c.recordId == j.binding.recordId
    && c.transactionId == j.binding.transactionId && c.boardIdentity == j.binding.boardIdentity
    && c.revision == j.revision && c.phase == j.progress.phase && c.event == ev
    && c.attemptId in EvidenceAttempts(j, ev)
  }

  // A whole compare-and-set call. `transcriptsAgree` is the verdict of the
  // transcript authority over the candidate, which is not modelled here.
  datatype Request = Request(
    transactionId: string, revision: int, phase: Phase, event: Event,
    capability: Option<Capability>, now: int, transcriptsAgree: bool)

  function ApplyEvent(j: Journal, q: Request): (r: Result<Journal, Refusal>) {
    if !EventOk(q.event) then Err(BadEvidence)
    else if j.binding.transactionId != q.transactionId then Err(TransactionMismatch)
    else if j.revision != q.revision || j.progress.phase != q.phase then Err(StaleRevision)
    else if NeedsCapability(q.event, j.progress.phase) && q.capability.None? then Err(CapabilityRequired)
    else if !NeedsCapability(q.event, j.progress.phase) && q.capability.Some? then Err(UnexpectedCapability)
    else
      match Transition(j, q.event, q.now)
      case Err(e) => Err(e)
      case Ok(candidate) =>
        if !ShapeValid(candidate, j.binding.recordId) then Err(ShapeRejected)
        else if !q.transcriptsAgree then Err(TranscriptAuthority)
        else if q.capability.Some? && !Authorizes(q.capability.value, j, q.event) then Err(CapabilityMismatch)
        else Ok(candidate)
  }

  // The instruction-cleanup obligation raised or cleared on a terminal journal.
  function ApplyCleanup(j: Journal, transactionId: string, revision: int, phase: Phase,
                        pending: bool, now: int): (r: Result<Journal, Refusal>)
  {
    if !IsTerminal(phase) then Err(CleanupState)
    else if j.binding.transactionId != transactionId then Err(TransactionMismatch)
    else if j.revision != revision || j.progress.phase != phase then Err(StaleRevision)
    else if pending == j.cleanupPending then Err(CleanupState)
    else if !Natural(now) then Err(BadClock)
    else if !Natural(j.revision + 1) then Err(RevisionLimit)
    else
      var candidate := j.(cleanupPending := pending, revision := j.revision + 1,
                          updatedAt := Max(now, j.updatedAt));
      if ShapeValid(candidate, j.binding.recordId) then Ok(candidate) else Err(ShapeRejected)
  }

  // Revision zero, built from the controller's committed first read.
  function Begin(transactionId: string, recordId: string, controllerId: string, board: string,
                 wrapperSha256: string, sign: bool, cert: bool,
                 initial: Observation, ref: TranscriptRef, now: int): Journal
  {
    Journal(
      Binding(transactionId, recordId, controllerId, board, wrapperSha256, sign, cert, initial.state, initial),
      Progress(Observed, initial.state, Some(initial.observedAt), None, None, None, None),
      0, false, now, now, None, [ref], false)
  }

  // ----- merging references: what the result is -----

  // The last incoming reference for an id replaces it; ids are distinct, so
  // there is at most one.
  function Updated(ref: TranscriptRef, incoming: seq<TranscriptRef>): TranscriptRef {
    var k := Position(incoming, ref.id);
    if k < |incoming| then incoming[k] else ref
  }

  function NewRefs(existing: seq<TranscriptRef>, incoming: seq<TranscriptRef>): seq<TranscriptRef> {
    if incoming == [] then []
    else (if Position(existing, incoming[0].id) == |existing| then [incoming[0]] else [])
         + NewRefs(existing, incoming[1..])
  }

  function Known(existing: seq<TranscriptRef>, incoming: seq<TranscriptRef>): (r: seq<TranscriptRef>)
    ensures |r| == |existing| && forall i :: 0 <= i < |r| ==> r[i] == Updated(existing[i], incoming)
  {
    seq(|existing|, i requires 0 <= i < |existing| => Updated(existing[i], incoming))
  }

  function MergedForm(existing: seq<TranscriptRef>, incoming: seq<TranscriptRef>): seq<TranscriptRef> {
    Known(existing, incoming) + NewRefs(existing, incoming)
  }
}
