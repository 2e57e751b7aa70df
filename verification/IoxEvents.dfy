// Journal events told phase by phase: what is accepted in each phase, where it
// leads and which evidence it leaves, and the exact condition of a whole call.
module IoxEvents {
  import opened Common
  import opened IoxJournal
  import opened IoxShape
  import opened IoxRuns

  // ----- phase by phase -----

  // Why a journal that has only its first read may end at once.
  predicate NothingToDo(b: Binding, ev: Event) {
    ev.LeaveUnchanged?
    && match ev.reason
       case MarkerPresent => ev.observation.None? && (b.packageSignPresent || b.packageCertPresent)
       case InitiallyDisabled => ev.observation.None? && b.initial.state == Disabled
       case InitialReadUnknown => ev.observation.None? && b.initial.state == Unknown
       case PreDisableChanged =>
         b.initial.state == Enabled && ev.observation.Some? && ev.observation.value.state != Enabled
  }

  predicate Saw(ev: Event, state: IoxState) {
    EventObservation(ev).Some? && EventObservation(ev).value.state == state
  }

  // The device was seen, and not enabled.
  predicate SawOff(ev: Event) {
    EventObservation(ev).Some? && EventObservation(ev).value.state != Enabled
  }

  // What each phase takes besides a fault report, which all of them do.
  predicate Takes(b: Binding, p: Progress, ev: Event) {
    ev.RecordFault?
    || match p.phase
       case Observed =>
         NothingToDo(b, ev)
         || (ev.IntendDisable? && Saw(ev, Enabled) && ev.retry.None? && b.initial.state == Enabled
             && !b.packageSignPresent && !b.packageCertPresent)
       case DisableIntent =>
         (ev.IntendDisable? && Saw(ev, Enabled) && ev.retry.Some?)
         || (ev.ConfirmDisable? && p.preDisable.Some?
             && ev.confirmation.preDisableCommandId == p.preDisable.value.commandId)
         || (ev.Relinquish? && Saw(ev, Enabled))
         || (ev.MarkIndeterminate? && SawOff(ev))
       case DisabledConfirmed => ev.BeginInstall? || ev.ProbeOwnership?
       case Installing => ev.ProbeOwnership?
       case OwnershipProbe =>
         (ev.IntendRestore? && Saw(ev, Disabled))
         || (ev.Relinquish? && Saw(ev, Enabled))
         || (ev.MarkIndeterminate? && ev.observation.None?)
       case RestoreIntent =>
         (ev.ConfirmRestore? && Saw(ev, Enabled))
         || (ev.Relinquish? && Saw(ev, Enabled))
         || (ev.MarkIndeterminate? && SawOff(ev))
       case Indeterminate => ev.ReconcileEnabled? && Saw(ev, Enabled)
       case Restored => false
       case Unchanged => false
       case Relinquished => false
  }

  function LeadsTo(from: Phase, ev: Event): Phase {
    match ev
    case IntendDisable(_, _, _) => DisableIntent
    case ConfirmDisable(_, _) => DisabledConfirmed
    case BeginInstall => Installing
    case ProbeOwnership => OwnershipProbe
    case IntendRestore(_, _) => RestoreIntent
    case ConfirmRestore(_, _) => Restored
    case LeaveUnchanged(_, _, _) => Unchanged
    case Relinquish(_, _) => Relinquished
    case MarkIndeterminate(_, _, _) => Indeterminate
    case RecordFault(_, _) => from
    case ReconcileEnabled(_, _, _) => Relinquished
  }

  // A read before the disable, a read after it, and the state last known.
  predicate Leaves(p: Progress, ev: Event, q: Progress) {
    var seen := EventObservation(ev);
    && q.phase == LeadsTo(p.phase, ev)
    && q.preDisable == (if (ev.IntendDisable? || ev.LeaveUnchanged?) && seen.Some? then seen else p.preDisable)
    && q.restore == (if !ev.IntendDisable? && !ev.LeaveUnchanged? && seen.Some? then seen else p.restore)
    && q.confirmation == (if ev.ConfirmDisable? then Some(ev.confirmation) else p.confirmation)
    && q.fault == (if ev.MarkIndeterminate? || ev.RecordFault? then Some(ev.fault) else p.fault)
    && (if seen.Some? then q.currentState == seen.value.state && q.observedAt == Some(seen.value.observedAt)
        else if ev.ConfirmDisable? then q.currentState == Disabled && q.observedAt == Some(ev.confirmation.confirmedAt)
        else q.currentState == p.currentState && q.observedAt == p.observedAt)
  }

  lemma BranchByPhase(b: Binding, p: Progress, ev: Event)
    requires PhaseOk(b, p)
    ensures Branch(b, p, ev).Ok? <==> Takes(b, p, ev)
    ensures Branch(b, p, ev).Ok? ==> Leaves(p, ev, Branch(b, p, ev).value)
  {
  }

  // ----- a whole call -----

  // The call names this journal as it stands.
  predicate UpToDate(j: Journal, q: Request) {
    q.transactionId == j.binding.transactionId && q.revision == j.revision && q.phase == j.progress.phase
  }

  // ----- well-formed evidence -----

  predicate Count(n: int) {
    0 <= n <= 0x7fff_ffff_ffff_ffff
  }

  // A read names its command and transcript; that verification is on or off it says
  // only if the command ended cleanly and was seen whole.
  predicate ReadWellFormed(o: Observation) {
    && Count(o.observedAt) && 1 <= o.commandId && Count(o.commandId) && LowerHex(o.transcriptId, 32)
    && Count(o.stdoutOffset) && Count(o.stdoutLength) && o.stderrOffset == 0 && Count(o.stderrLength)
    && (o.returncode.Some? ==> -255 <= o.returncode.value <= 255)
    && (o.state == Enabled || o.state == Disabled ==>
          o.returncode == Some(0) && !o.timedOut && !o.truncated && o.framingComplete)
  }

  predicate ConfirmationWellFormed(c: Confirmation) {
    && Count(c.confirmedAt) && c.transitionResponse == "disabled_successfully"
    && 1 <= c.preDisableCommandId && Count(c.preDisableCommandId)
    && 1 <= c.disableCommandId && Count(c.disableCommandId)
    && 1 <= c.readbackCommandId && Count(c.readbackCommandId)
  }

  predicate FaultWellFormed(f: Fault) {
    && 0 <= f.detailBytes <= 1024 && Count(f.at)
    && (f.transcriptId.Some? ==> LowerHex(f.transcriptId.value, 32))
  }

  // Each event's own evidence; a reconciliation has to be acknowledged.
  predicate EventWellFormed(ev: Event) {
    match ev
    case IntendDisable(o, retry, _) =>
      (o.Some? ==> ReadWellFormed(o.value))
      && (retry.Some? ==> LowerHex(retry.value.transcriptId, 32) && 1 <= retry.value.commandId
                          && Count(retry.value.commandId))
    case ConfirmDisable(c, _) => ConfirmationWellFormed(c)
    case BeginInstall => true
    case ProbeOwnership => true
    case IntendRestore(o, _) => o.Some? ==> ReadWellFormed(o.value)
    case ConfirmRestore(o, _) => o.Some? ==> ReadWellFormed(o.value)
    case LeaveUnchanged(_, o, _) => o.Some? ==> ReadWellFormed(o.value)
    case Relinquish(o, _) => o.Some? ==> ReadWellFormed(o.value)
    case MarkIndeterminate(o, f, _) => (o.Some? ==> ReadWellFormed(o.value)) && FaultWellFormed(f)
    case RecordFault(f, _) => FaultWellFormed(f)
    case ReconcileEnabled(o, acknowledged, _) => (o.Some? ==> ReadWellFormed(o.value)) && acknowledged
  }

  lemma EventOkIs(ev: Event)
    ensures EventOk(ev) <==> EventWellFormed(ev)
  {
  }

  predicate RefWellFormed(r: TranscriptRef) {
    LowerHex(r.id, 32) && r.attemptId == r.id && 1 <= r.storedBytes <= 1048576
    && Count(r.observedBytes) && Count(r.droppedBytes) && r.droppedBytes <= r.observedBytes
  }

  // The counters of a transcript only grow, it stays truncated, and if nothing more was
  // stored nothing changed.
  predicate OnlyGrew(was: TranscriptRef, now: TranscriptRef) {
    && was.attemptId == now.attemptId && was.storedBytes <= now.storedBytes
    && was.observedBytes <= now.observedBytes && was.droppedBytes <= now.droppedBytes
    && (was.truncated ==> now.truncated) && (was.storedBytes == now.storedBytes ==> was == now)
  }

  // The transcripts the event brings are well formed, come once, continue the ones
  // known and are no more than eight with them.
  predicate RefsFit(j: Journal, ev: Event) {
    var incoming := EventRefs(ev);
    && (forall i :: 0 <= i < |incoming| ==> RefWellFormed(incoming[i]))
    && (forall i, k :: 0 <= i < k < |incoming| ==> incoming[i].id != incoming[k].id)
    && (forall i, k :: 0 <= i < |incoming| && 0 <= k < |j.refs| && j.refs[k].id == incoming[i].id ==>
          OnlyGrew(j.refs[k], incoming[i]))
    && |j.refs| + |NewRefs(j.refs, incoming)| <= 8
  }

  lemma RefOkIs(r: TranscriptRef)
    ensures RefOk(r) <==> RefWellFormed(r)
  {
  }

  lemma MergeableIs(existing: seq<TranscriptRef>, incoming: seq<TranscriptRef>)
    requires RefsOk(existing)
    ensures Mergeable(existing, incoming) <==>
      && (forall i :: 0 <= i < |incoming| ==> RefWellFormed(incoming[i]))
      && (forall i, k :: 0 <= i < k < |incoming| ==> incoming[i].id != incoming[k].id)
      && (forall i, k :: 0 <= i < |incoming| && 0 <= k < |existing| && existing[k].id == incoming[i].id ==>
            OnlyGrew(existing[k], incoming[i]))
  {
    forall i | 0 <= i < |incoming| ensures RefOk(incoming[i]) <==> RefWellFormed(incoming[i]) {
      RefOkIs(incoming[i]);
    }
    forall i, k | 0 <= i < |incoming| && 0 <= k < |existing|
      ensures existing[k].id == incoming[i].id <==> Position(existing, incoming[i].id) == k
      ensures OnlyGrew(existing[k], incoming[i]) <==> RefExtends(existing[k], incoming[i])
    {
    }
  }

  // No capability where none is asked for, and the right one where one is.
  predicate RightCapability(j: Journal, q: Request) {
    if Guarded(j.progress.phase, q.event, LeadsTo(j.progress.phase, q.event))
    then q.capability.Some? && BoundTo(q.capability.value, j, q.event)
    else q.capability.None?
  }

  predicate ClockOk(j: Journal, now: int) {
    Count(now) && Count(j.revision + 1)
  }

  // Everything the journal asks of an event.
  predicate GoesThrough(j: Journal, q: Request) {
    && EventWellFormed(q.event) && UpToDate(j, q) && RefsFit(j, q.event) && Takes(j.binding, j.progress, q.event)
    && ClockOk(j, q.now) && Timely(j, q.event, q.now) && Retained(j, q.event) && q.transcriptsAgree
    && RightCapability(j, q)
  }

  // What it leaves: the evidence, one revision more, the references merged, the
  // clock, and the end if this was it.
  predicate Advanced(j: Journal, q: Request, k: Journal) {
    && Leaves(j.progress, q.event, k.progress) && k.revision == j.revision + 1 && k.binding == j.binding
    && k.refs == MergedForm(j.refs, EventRefs(q.event))
    && k.createdAt == j.createdAt && k.updatedAt == Max(q.now, j.updatedAt) && k.cleanupPending == j.cleanupPending
    && (k.unresolved <==> k.progress.phase != Observed && k.progress.phase != Restored
                          && k.progress.phase != Unchanged && k.progress.phase != Relinquished)
    && k.terminalAt == (if Closes(q.event) then Some(q.now) else j.terminalAt)
  }

  // The checks of a call, in the journal's own terms.
  lemma ApplyEventChecks(j: Journal, q: Request)
    ensures ApplyEvent(j, q).Ok? <==>
      EventOk(q.event) && UpToDate(j, q) && Transition(j, q.event, q.now).Ok?
      && ShapeValid(Transition(j, q.event, q.now).value, j.binding.recordId) && q.transcriptsAgree
      && CapabilityChecks(j, q)
    ensures ApplyEvent(j, q).Ok? ==> ApplyEvent(j, q) == Transition(j, q.event, q.now)
  {
  }

  predicate CapabilityChecks(j: Journal, q: Request) {
    (q.capability.Some? <==> NeedsCapability(q.event, j.progress.phase))
    && (q.capability.Some? ==> Authorizes(q.capability.value, j, q.event))
  }

  lemma CapabilityIsRight(j: Journal, q: Request)
    requires PhaseOk(j.binding, j.progress) && Takes(j.binding, j.progress, q.event)
    ensures CapabilityChecks(j, q) <==> RightCapability(j, q)
  {
    BranchByPhase(j.binding, j.progress, q.event);
    NeedIsGuarded(j.binding, j.progress, q.event);
    if q.capability.Some? {
      AuthorizesBinds(q.capability.value, j, q.event);
    }
  }

  lemma TransitionGoes(j: Journal, ev: Event, now: int)
    requires ShapeValid(j, j.binding.recordId)
    ensures Transition(j, ev, now).Ok? <==> RefsFit(j, ev) && Takes(j.binding, j.progress, ev) && ClockOk(j, now)
  {
    MergeFits(j, ev);
    TransitionParts(j, ev, now);
    BranchByPhase(j.binding, j.progress, ev);
  }

  lemma MergeFits(j: Journal, ev: Event)
    requires RefsOk(j.refs)
    ensures Merge(j.refs, EventRefs(ev)).Ok? <==> RefsFit(j, ev)
  {
    MergeIsUpdateThenAppend(j.refs, EventRefs(ev));
    MergeableIs(j.refs, EventRefs(ev));
  }

  lemma TransitionParts(j: Journal, ev: Event, now: int)
    ensures Transition(j, ev, now).Ok? <==>
      Merge(j.refs, EventRefs(ev)).Ok? && Branch(j.binding, j.progress, ev).Ok? && ClockOk(j, now)
  {
  }

  lemma TransitionAdvances(j: Journal, q: Request)
    requires ShapeValid(j, j.binding.recordId) && Transition(j, q.event, q.now).Ok?
    ensures Advanced(j, q, Transition(j, q.event, q.now).value)
  {
    MergeIsUpdateThenAppend(j.refs, EventRefs(q.event));
    BranchByPhase(j.binding, j.progress, q.event);
    BranchEnds(j.binding, j.progress, q.event);
  }

  // An event is accepted by a well-shaped journal exactly if it goes through, and
  // then the journal advances as told.
  lemma EventGoesThrough(j: Journal, q: Request)
    requires ShapeValid(j, j.binding.recordId)
    ensures ApplyEvent(j, q).Ok? <==> GoesThrough(j, q)
    ensures ApplyEvent(j, q).Ok? ==> Advanced(j, q, ApplyEvent(j, q).value)
  {
    ApplyEventChecks(j, q);
    EventOkIs(q.event);
    TransitionGoes(j, q.event, q.now);
    if Transition(j, q.event, q.now).Ok? && EventOk(q.event) {
      TransitionAdvances(j, q);
      ShapePreserved(j, j.binding.recordId, q.event, q.now);
      CapabilityIsRight(j, q);
    }
  }

  // ----- opening -----

  // A journal as it is opened: bound to all it is opened for, at revision zero, with
  // the first read and its transcript as the only evidence, and obliging nothing.
  predicate OpenedAs(j: Journal, transactionId: string, recordId: string, controllerId: string, board: string,
                     wrapperSha256: string, sign: bool, cert: bool,
                     initial: Observation, ref: TranscriptRef, now: int)
  {
    && j.binding.transactionId == transactionId && j.binding.recordId == recordId
    && j.binding.controllerId == controllerId && j.binding.boardIdentity == board
    && j.binding.wrapperSha256 == wrapperSha256
    && j.binding.packageSignPresent == sign && j.binding.packageCertPresent == cert
    && j.binding.initial == initial && j.binding.priorState == initial.state
    && j.progress == Progress(Observed, initial.state, Some(initial.observedAt), None, None, None, None)
    && j.revision == 0 && !j.unresolved && !j.cleanupPending
    && j.createdAt == now && j.updatedAt == now && j.terminalAt == None && j.refs == [ref]
  }

  lemma BeginOpens(transactionId: string, recordId: string, controllerId: string, board: string,
                   wrapperSha256: string, sign: bool, cert: bool,
                   initial: Observation, ref: TranscriptRef, now: int)
    ensures OpenedAs(Begin(transactionId, recordId, controllerId, board, wrapperSha256, sign, cert, initial, ref, now),
                     transactionId, recordId, controllerId, board, wrapperSha256, sign, cert, initial, ref, now)
  {
  }

  // ----- cleanup -----

  lemma CleanupShape(j: Journal, pending: bool, now: int)
    requires ShapeValid(j, j.binding.recordId) && ClockOk(j, now) && IsTerminal(j.progress.phase)
    ensures ShapeValid(j.(cleanupPending := pending, revision := j.revision + 1, updatedAt := Max(now, j.updatedAt)),
                       j.binding.recordId)
  {
  }

  // A cleanup obligation changes hands only on an ended journal named as it stands,
  // and only from one value to the other.
  lemma CleanupGoesThrough(j: Journal, transactionId: string, revision: int, phase: Phase, pending: bool, now: int)
    requires ShapeValid(j, j.binding.recordId)
    ensures var c := ApplyCleanup(j, transactionId, revision, phase, pending, now);
      && (c.Ok? <==>
            transactionId == j.binding.transactionId && revision == j.revision && phase == j.progress.phase
            && (phase == Restored || phase == Unchanged || phase == Relinquished)
            && pending != j.cleanupPending && ClockOk(j, now))
      && (c.Ok? ==> c.value == j.(cleanupPending := pending, revision := j.revision + 1,
                                  updatedAt := Max(now, j.updatedAt)))
  {
    if ClockOk(j, now) && IsTerminal(j.progress.phase) {
      CleanupShape(j, pending, now);
    }
  }
}
