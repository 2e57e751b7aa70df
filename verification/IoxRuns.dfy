// Whole runs of one journal: what holds after any sequence of accepted events
// and cleanup updates, starting from revision zero.
module IoxRuns {
  import opened Common
  import opened IoxJournal
  import opened IoxShape

  datatype Step =
    | Evidence(request: Request)
    | Cleanup(transactionId: string, revision: int, phase: Phase, pending: bool, now: int)

  function Apply(j: Journal, step: Step): Result<Journal, Refusal> {
    match step
    case Evidence(q) => ApplyEvent(j, q)
    case Cleanup(t, r, p, pending, now) => ApplyCleanup(j, t, r, p, pending, now)
  }

  // A freshly begun journal: nothing but its initial read.
  predicate Begun(j: Journal) {
    && ShapeValid(j, j.binding.recordId) && j.revision == 0 && j.progress.phase == Observed
  }

  // js[i+1] is what steps[i] made of js[i].
  ghost predicate Run(js: seq<Journal>, steps: seq<Step>) {
    && |js| == |steps| + 1 && Begun(js[0])
    && forall i :: 0 <= i < |steps| ==> Apply(js[i], steps[i]) == Ok(js[i + 1])
  }

  // ----- one step -----

  // What any accepted step guarantees, whichever kind it is.
  ghost predicate Advances(j: Journal, k: Journal) {
    && k.revision == j.revision + 1 && k.binding == j.binding && k.createdAt == j.createdAt
    && j.updatedAt <= k.updatedAt
    && (IsTerminal(j.progress.phase) ==>
          k.progress.phase == j.progress.phase && k.terminalAt == j.terminalAt)
    && (j.progress.confirmation.Some? ==>
          && k.progress.confirmation == j.progress.confirmation
          && k.progress.preDisable == j.progress.preDisable)
  }

  // What an event that moved the evidence forward must have been.
  ghost predicate Explains(p: Progress, ev: Event, q: Progress) {
    && (ev.ConfirmDisable? <==> p.confirmation.None? && q.confirmation.Some?)
    && (ev.ConfirmDisable? ==>
          && p.phase == DisableIntent && p.preDisable.Some?
          && q.confirmation == Some(ev.confirmation)
          && ev.confirmation.preDisableCommandId == p.preDisable.value.commandId)
    && (q.phase == DisableIntent && !(p.phase == DisableIntent && q.preDisable == p.preDisable) ==>
          ev.IntendDisable? && Reads(ev.observation, Enabled) && q.preDisable == ev.observation)
    && (q.phase == RestoreIntent && p.phase != RestoreIntent ==>
          ev.IntendRestore? && Reads(ev.observation, Disabled) && p.confirmation.Some?)
    && (q.phase == Restored && p.phase != Restored ==> p.phase == RestoreIntent)
  }

  lemma BranchExplains(b: Binding, p: Progress, ev: Event)
    requires PhaseOk(b, p) && Branch(b, p, ev).Ok?
    ensures Explains(p, ev, Branch(b, p, ev).value)
  {
  }

  lemma BranchKeepsConfirmed(b: Binding, p: Progress, ev: Event)
    requires PhaseOk(b, p) && Branch(b, p, ev).Ok? && p.confirmation.Some?
    ensures Branch(b, p, ev).value.confirmation == p.confirmation
    ensures Branch(b, p, ev).value.preDisable == p.preDisable
  {
  }

  lemma EventParts(j: Journal, q: Request)
    requires ApplyEvent(j, q).Ok?
    ensures var k := ApplyEvent(j, q).value;
            && Branch(j.binding, j.progress, q.event) == Ok(k.progress)
            && ShapeValid(k, j.binding.recordId)
            && k == Journal(j.binding, k.progress, j.revision + 1, IsUnresolved(k.progress.phase),
                            j.createdAt, Max(q.now, j.updatedAt), k.terminalAt, k.refs, j.cleanupPending)
            && k.terminalAt == (if IsTerminal(k.progress.phase) && j.terminalAt.None? then Some(q.now)
                                else j.terminalAt)
            && (q.capability.Some? ==> q.capability.value.revision == j.revision)
  {
  }

  // Everything a run's lemmas use about one of its steps.
  ghost predicate Link(j: Journal, step: Step, k: Journal) {
    && Advances(j, k)
    && (if step.Evidence? then
          && Explains(j.progress, step.request.event, k.progress)
          && (step.request.capability.Some? ==> step.request.capability.value.revision == j.revision)
        else k.progress == j.progress)
  }

  lemma StepLinks(j: Journal, step: Step)
    requires ShapeValid(j, j.binding.recordId) && Apply(j, step).Ok?
    ensures Link(j, step, Apply(j, step).value)
    ensures ShapeValid(Apply(j, step).value, j.binding.recordId)
  {
    if step.Evidence? {
      var q := step.request;
      EventParts(j, q);
      BranchEnds(j.binding, j.progress, q.event);
      BranchExplains(j.binding, j.progress, q.event);
      if j.progress.confirmation.Some? {
        BranchKeepsConfirmed(j.binding, j.progress, q.event);
      }
    }
  }

  // ----- runs -----

  // A run seen only through its links.
  ghost predicate Chain(js: seq<Journal>, steps: seq<Step>) {
    && |js| == |steps| + 1 && js[0].revision == 0
    && js[0].progress.phase == Observed && js[0].progress.confirmation.None?
    && (forall i :: 0 <= i < |steps| ==> Link(js[i], steps[i], js[i + 1]))
  }

  lemma {:induction false} RunKeepsShape(js: seq<Journal>, steps: seq<Step>, n: nat)
    requires Run(js, steps) && n < |js|
    ensures ShapeValid(js[n], js[0].binding.recordId) && js[n].binding == js[0].binding
  {
    if n > 0 {
      RunKeepsShape(js, steps, n - 1);
      RunStep(js, steps, n - 1);
    }
  }

  lemma RunStep(js: seq<Journal>, steps: seq<Step>, i: nat)
    requires Run(js, steps) && i < |steps| && ShapeValid(js[i], js[i].binding.recordId)
    ensures Link(js[i], steps[i], js[i + 1]) && ShapeValid(js[i + 1], js[i].binding.recordId)
  {
    assert Apply(js[i], steps[i]) == Ok(js[i + 1]);
    StepLinks(js[i], steps[i]);
  }

  lemma RunIsChain(js: seq<Journal>, steps: seq<Step>)
    requires Run(js, steps)
    ensures Chain(js, steps)
  {
    forall i | 0 <= i < |steps| ensures Link(js[i], steps[i], js[i + 1]) {
      RunKeepsShape(js, steps, i);
      RunStep(js, steps, i);
    }
  }

  // Between any two points of a run: the revision has advanced once per step,
  // the binding with its initial read is the same, a written confirmation is
  // the same, and an ended journal is still ended the same way.
  ghost predicate Persists(js: seq<Journal>, m: nat, n: nat)
    requires m <= n < |js|
  {
    && js[n].revision == js[m].revision + (n - m) && js[n].binding == js[m].binding
    && (js[m].progress.confirmation.Some? ==>
          && js[n].progress.confirmation == js[m].progress.confirmation
          && js[n].progress.preDisable == js[m].progress.preDisable)
    && (IsTerminal(js[m].progress.phase) ==>
          js[n].progress.phase == js[m].progress.phase && js[n].terminalAt == js[m].terminalAt)
  }

  lemma {:induction false} ChainPersists(js: seq<Journal>, steps: seq<Step>, m: nat, n: nat)
    requires Chain(js, steps) && m <= n < |js|
    ensures Persists(js, m, n)
  {
    if m < n {
      ChainPersists(js, steps, m, n - 1);
      assert Link(js[n - 1], steps[n - 1], js[n]);
    }
  }

  lemma RunPersists(js: seq<Journal>, steps: seq<Step>, m: nat, n: nat)
    requires Run(js, steps) && m <= n < |js|
    ensures Persists(js, m, n)
    ensures ShapeValid(js[n], js[0].binding.recordId)
  {
    RunIsChain(js, steps);
    ChainPersists(js, steps, m, n);
    RunKeepsShape(js, steps, n);
  }

  // steps[i] read verification enabled just before the disable, and steps[k]
  // confirmed that disable against the very command steps[i] read with.
  ghost predicate DisabledByUs(js: seq<Journal>, steps: seq<Step>, i: nat, k: nat) {
    && i < k < |steps| && |js| == |steps| + 1
    && steps[i].Evidence? && steps[i].request.event.IntendDisable?
    && Reads(steps[i].request.event.observation, Enabled)
    && steps[k].Evidence? && steps[k].request.event.ConfirmDisable?
    && steps[k].request.event.confirmation.preDisableCommandId
         == steps[i].request.event.observation.value.commandId
    && js[k].progress.preDisable == steps[i].request.event.observation
    && js[k + 1].progress.confirmation == Some(steps[k].request.event.confirmation)
  }

  lemma {:induction false} PreDisableSource(js: seq<Journal>, steps: seq<Step>, n: nat) returns (i: nat)
    requires Chain(js, steps) && n < |js| && js[n].progress.phase == DisableIntent
    ensures i < n && steps[i].Evidence? && steps[i].request.event.IntendDisable?
    ensures Reads(steps[i].request.event.observation, Enabled)
    ensures js[n].progress.preDisable == steps[i].request.event.observation
  {
    assert Link(js[n - 1], steps[n - 1], js[n]);
    if js[n - 1].progress.phase == DisableIntent && js[n].progress.preDisable == js[n - 1].progress.preDisable {
      i := PreDisableSource(js, steps, n - 1);
    } else {
      i := n - 1;
    }
  }

  lemma {:induction false} ConfirmationSource(js: seq<Journal>, steps: seq<Step>, n: nat) returns (i: nat, k: nat)
    requires Chain(js, steps) && n < |js| && js[n].progress.confirmation.Some?
    ensures k < n && DisabledByUs(js, steps, i, k)
    ensures js[n].progress.confirmation == js[k + 1].progress.confirmation
  {
    assert Link(js[n - 1], steps[n - 1], js[n]);
    if js[n - 1].progress.confirmation.None? {
      k := n - 1;
      i := PreDisableSource(js, steps, k);
    } else {
      i, k := ConfirmationSource(js, steps, n - 1);
    }
  }

  lemma {:induction false} RestoreIntentSource(js: seq<Journal>, steps: seq<Step>, n: nat) returns (m: nat)
    requires Chain(js, steps) && n < |js|
    requires js[n].progress.phase == RestoreIntent || js[n].progress.phase == Restored
    ensures m < n && js[m].progress.confirmation.Some?
    ensures steps[m].Evidence? && steps[m].request.event.IntendRestore?
    ensures Reads(steps[m].request.event.observation, Disabled)
  {
    assert Link(js[n - 1], steps[n - 1], js[n]);
    if js[n].progress.phase == RestoreIntent && js[n - 1].progress.phase != RestoreIntent {
      m := n - 1;
    } else {
      m := RestoreIntentSource(js, steps, n - 1);
    }
  }

  // The initial read and the pre-disable read were enabled on an unmarked
  // package, the disable was confirmed, and a later probe still read disabled.
  ghost predicate OwnedRestore(js: seq<Journal>, steps: seq<Step>, i: nat, k: nat, m: nat) {
    && DisabledByUs(js, steps, i, k) && k < m < |steps|
    && js[0].binding.initial.state == Enabled && !Markers(js[0].binding)
    && steps[m].Evidence? && steps[m].request.event.IntendRestore?
    && Reads(steps[m].request.event.observation, Disabled)
  }

  // A restore is intended or completed only for a disable this run confirmed.
  lemma RestoreIsOwned(js: seq<Journal>, steps: seq<Step>, n: nat)
    requires Run(js, steps) && n < |js|
    requires js[n].progress.phase == RestoreIntent || js[n].progress.phase == Restored
    ensures exists i: nat, k: nat, m: nat :: m < n && OwnedRestore(js, steps, i, k, m)
  {
    RunIsChain(js, steps);
    var m := RestoreIntentSource(js, steps, n);
    var i, k := ConfirmationSource(js, steps, m);
    RunKeepsShape(js, steps, m);
    ConfirmedIsOwned(js[m]);
    assert OwnedRestore(js, steps, i, k, m);
  }

  lemma ConfirmedIsOwned(j: Journal)
    requires PhaseOk(j.binding, j.progress) && j.progress.confirmation.Some?
    ensures OwnershipPath(j.binding, j.progress)
  {
  }

  // At most one disable is ever confirmed in a run.
  lemma DisableConfirmedOnce(js: seq<Journal>, steps: seq<Step>, k: nat, l: nat)
    requires Run(js, steps) && k < l < |steps|
    requires steps[k].Evidence? && steps[k].request.event.ConfirmDisable?
    ensures !(steps[l].Evidence? && steps[l].request.event.ConfirmDisable?)
  {
    RunIsChain(js, steps);
    assert Link(js[k], steps[k], js[k + 1]);
    ChainPersists(js, steps, k + 1, l);
    assert Link(js[l], steps[l], js[l + 1]);
  }

  // A capability names one revision of one journal, so no two steps of a run
  // can be authorized by the same capability.
  lemma CapabilityUsedOnce(js: seq<Journal>, steps: seq<Step>, k: nat, l: nat)
    requires Run(js, steps) && k < l < |steps|
    requires steps[k].Evidence? && steps[k].request.capability.Some?
    requires steps[l].Evidence? && steps[l].request.capability.Some?
    ensures steps[k].request.capability != steps[l].request.capability
  {
    RunIsChain(js, steps);
    assert Link(js[k], steps[k], js[k + 1]);
    assert Link(js[l], steps[l], js[l + 1]);
    ChainPersists(js, steps, k, l);
  }

  // ----- which steps are authorized -----

  // The steps only the controller's own session may take: confirming a disable,
  // intending or confirming a restore, giving a probed device up, and repeating a
  // disable intent.
  predicate Guarded(from: Phase, ev: Event, to: Phase) {
    || (to == DisabledConfirmed && from != DisabledConfirmed)
    || (to == RestoreIntent && from != RestoreIntent)
    || (to == Restored && from != Restored)
    || (to == Relinquished && from == OwnershipProbe)
    || (ev.IntendDisable? && from == DisableIntent)
  }

  // The attempt is one of those the event's evidence comes from.
  predicate AttemptOf(attempt: string, j: Journal, ev: Event) {
    || (EventObservation(ev).Some? && attempt == EventObservation(ev).value.transcriptId)
    || (ev.IntendDisable? && ev.retry.Some? && attempt == ev.retry.value.transcriptId)
    || (exists i :: 0 <= i < |EventRefs(ev)| && attempt == EventRefs(ev)[i].attemptId)
    || (ev.ConfirmDisable? && j.progress.preDisable.Some? && attempt == j.progress.preDisable.value.transcriptId)
  }

  // The capability was issued for exactly this event on exactly this journal.
  predicate BoundTo(c: Capability, j: Journal, ev: Event) {
    && c.controllerId == j.binding.controllerId && c.recordId == j.binding.recordId
    && c.transactionId == j.binding.transactionId && c.boardIdentity == j.binding.boardIdentity
    && c.revision == j.revision && c.phase == j.progress.phase && c.event == ev
    && AttemptOf(c.attemptId, j, ev)
  }

  lemma NeedIsGuarded(b: Binding, p: Progress, ev: Event)
    requires PhaseOk(b, p) && Branch(b, p, ev).Ok?
    ensures NeedsCapability(ev, p.phase) <==> Guarded(p.phase, ev, Branch(b, p, ev).value.phase)
  {
  }

  lemma AuthorizesBinds(c: Capability, j: Journal, ev: Event)
    ensures Authorizes(c, j, ev) <==> BoundTo(c, j, ev)
  {
  }

  lemma AcceptedCapability(j: Journal, q: Request)
    requires ApplyEvent(j, q).Ok?
    ensures q.capability.Some? <==> NeedsCapability(q.event, j.progress.phase)
    ensures q.capability.Some? ==> Authorizes(q.capability.value, j, q.event)
    ensures q.transactionId == j.binding.transactionId && q.revision == j.revision && q.phase == j.progress.phase
  {
  }

  // An accepted event carries a capability exactly if it is a guarded one, and the
  // capability is bound to this very step. It also names the journal's transaction,
  // revision and phase.
  lemma EventIsAuthorized(j: Journal, q: Request)
    requires ShapeValid(j, j.binding.recordId) && ApplyEvent(j, q).Ok?
    ensures q.capability.Some? <==> Guarded(j.progress.phase, q.event, ApplyEvent(j, q).value.progress.phase)
    ensures q.capability.Some? ==> BoundTo(q.capability.value, j, q.event)
    ensures q.transactionId == j.binding.transactionId && q.revision == j.revision && q.phase == j.progress.phase
  {
    EventParts(j, q);
    AcceptedCapability(j, q);
    NeedIsGuarded(j.binding, j.progress, q.event);
    if q.capability.Some? {
      AuthorizesBinds(q.capability.value, j, q.event);
    }
  }

  lemma RunIsAuthorized(js: seq<Journal>, steps: seq<Step>, k: nat)
    requires Run(js, steps) && k < |steps| && steps[k].Evidence?
    ensures steps[k].request.capability.Some? <==>
              Guarded(js[k].progress.phase, steps[k].request.event, js[k + 1].progress.phase)
    ensures steps[k].request.capability.Some? ==>
              BoundTo(steps[k].request.capability.value, js[k], steps[k].request.event)
    ensures steps[k].request.revision == js[k].revision && steps[k].request.phase == js[k].progress.phase
    ensures steps[k].request.transactionId == js[0].binding.transactionId
  {
    RunKeepsShape(js, steps, k);
    assert Apply(js[k], steps[k]) == Ok(js[k + 1]);
    EventIsAuthorized(js[k], steps[k].request);
  }

  // Cleanup steps move no phase, so no run gets anywhere guarded without a capability.
  lemma CleanupMovesNoPhase(js: seq<Journal>, steps: seq<Step>, k: nat)
    requires Run(js, steps) && k < |steps| && steps[k].Cleanup?
    ensures js[k + 1].progress == js[k].progress
  {
    RunIsChain(js, steps);
    assert Link(js[k], steps[k], js[k + 1]);
  }

  // Confirming a disable, intending a restore and confirming one are guarded steps.
  lemma OwnStepIsAuthorized(js: seq<Journal>, steps: seq<Step>, k: nat)
    requires Run(js, steps) && k < |steps| && steps[k].Evidence?
    requires var ev := steps[k].request.event; ev.ConfirmDisable? || ev.IntendRestore? || ev.ConfirmRestore?
    ensures steps[k].request.capability.Some?
    ensures BoundTo(steps[k].request.capability.value, js[k], steps[k].request.event)
    ensures js[k].binding == js[0].binding
    ensures steps[k].request.revision == js[k].revision && steps[k].request.phase == js[k].progress.phase
  {
    RunKeepsShape(js, steps, k);
    assert Apply(js[k], steps[k]) == Ok(js[k + 1]);
    AcceptedCapability(js[k], steps[k].request);
    AuthorizesBinds(steps[k].request.capability.value, js[k], steps[k].request.event);
  }

  // A completed restore was confirmed after it was intended.
  lemma {:induction false} RestoredSource(js: seq<Journal>, steps: seq<Step>, n: nat) returns (l: nat)
    requires Chain(js, steps) && n < |js| && js[n].progress.phase == Restored
    ensures l < n && steps[l].Evidence? && js[l].progress.phase == RestoreIntent && js[l + 1].progress.phase == Restored
  {
    assert Link(js[n - 1], steps[n - 1], js[n]);
    if js[n - 1].progress.phase == Restored {
      l := RestoredSource(js, steps, n - 1);
    } else {
      l := n - 1;
    }
  }

  lemma RestoredBy(b: Binding, p: Progress, ev: Event)
    requires Branch(b, p, ev).Ok? && p.phase == RestoreIntent && Branch(b, p, ev).value.phase == Restored
    ensures ev.ConfirmRestore? && Reads(ev.observation, Enabled)
  {
  }

  lemma RestoredIsConfirmed(js: seq<Journal>, steps: seq<Step>, l: nat)
    requires Run(js, steps) && l < |steps| && steps[l].Evidence?
    requires js[l].progress.phase == RestoreIntent && js[l + 1].progress.phase == Restored
    ensures steps[l].request.event.ConfirmRestore? && Reads(steps[l].request.event.observation, Enabled)
  {
    var j, q := js[l], steps[l].request;
    assert Apply(j, steps[l]) == Ok(js[l + 1]);
    EventParts(j, q);
    RestoredBy(j.binding, j.progress, q.event);
  }
}
