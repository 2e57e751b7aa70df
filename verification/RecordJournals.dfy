// Journals seen from the store: over whole runs of the record store, what a
// record's journal says was written by journal calls for that very record.
module RecordJournals {
  import opened Common
  import opened DeploymentRecords
  import opened RecordLineage
  import opened RecordRuns
  import Iox = IoxJournal
  import J = IoxRuns

  // ----- who writes journals -----

  // The journal step a store call makes on record id.
  predicate Makes(op: Op, id: string, step: J.Step) {
    match op
    case DoIoxEvent(x, q) => x == id && step == J.Evidence(q)
    case DoIoxCleanup(x, t, rev, phase, pending, now) => x == id && step == J.Cleanup(t, rev, phase, pending, now)
    case _ => false
  }

  predicate KeepsJournals(s: Store, t: Store) {
    (forall id :: id in s ==> id in t && t[id].journal == s[id].journal)
    && forall id :: id in t && id !in s ==> t[id].journal.None?
  }

  lemma ContinuingKeepsJournals(s: Store, t: Store)
    requires AllContinue(s, t)
    ensures KeepsJournals(s, t)
  {
  }

  lemma CreateKeepsJournals(s: Store, r: Record, now: int)
    ensures KeepsJournals(s, Kept(s, Create(s, r, now)))
  {
  }

  lemma AdoptKeepsJournals(s: Store, r: Record, now: int)
    ensures KeepsJournals(s, Kept(s, Adopt(s, r, now)))
  {
    ActivationContinues(s, r.deviceId, r.recordId, now);
  }

  lemma AdmitKeepsJournals(s: Store, r: Record, tag: Provenance, authority: Option<AuthorityRefusal>,
                           resume: Option<string>, router: bool, now: int)
    requires NewRecordOk(r)
    ensures KeepsJournals(s, AdmitCandidate(s, r, tag, authority, resume, router, now).1)
  {
    AdmitShape(s, r, tag, authority, resume, router, now);
  }

  lemma AdmittedKeepsJournals(s: Store, r: Record, tag: Provenance, authority: Option<AuthorityRefusal>,
                              resume: Option<string>, router: bool, now: int)
    ensures var admitted := Admit(s, r, tag, authority, resume, router, now);
      admitted.Ok? ==> KeepsJournals(s, admitted.value.1)
  {
    AdmitDecides(s, r, tag, authority, resume, router, now);
    if NewRecordOk(r) {
      AdmitKeepsJournals(s, r, tag, authority, resume, router, now);
    }
  }

  lemma TransitionKeepsJournals(s: Store, id: string, to: State, evidence: Option<string>, now: int)
    ensures KeepsJournals(s, Kept(s, Transition(s, id, to, evidence, now)))
  {
    if id in s && Allowed(s[id].state, to) {
      TransitionContinues(s, id, to, evidence, now);
      ContinuingKeepsJournals(s, TransitionCandidate(s, id, to, evidence, now));
    }
  }

  lemma RetirePlannedKeepsJournals(s: Store, id: string, now: int)
    ensures KeepsJournals(s, Kept(s, RetirePlanned(s, id, now)))
  {
    if id in s && (s[id].predecessor.Some? ==> s[id].predecessor.value in s) {
      RetirementJournals(s, id, now);
    }
  }

  lemma RetirementJournals(s: Store, id: string, now: int)
    requires id in s && (s[id].predecessor.Some? ==> s[id].predecessor.value in s)
    ensures KeepsJournals(s, RetirePlannedCandidate(s, id, now))
  {
  }

  lemma RetireDeviceKeepsJournals(s: Store, deviceId: string, reason: string, now: int)
    ensures KeepsJournals(s, Kept(s, RetireDevice(s, deviceId, reason, now)))
  {
    RetireDeviceContinues(s, deviceId, reason, now);
    ContinuingKeepsJournals(s, RetireDeviceCandidate(s, deviceId, reason, now));
  }

  lemma RecoverKeepsJournals(s: Store, fits: set<string>, now: int)
    ensures KeepsJournals(s, Kept(s, Recover(s, fits, now)))
  {
    RecoverContinues(s, fits, now);
    ContinuingKeepsJournals(s, RecoverCandidate(s, fits, now));
  }

  lemma LifecycleKeepsJournals(s: Store, op: Op)
    requires !op.DoIoxBegin? && !op.DoIoxEvent? && !op.DoIoxCleanup?
    ensures KeepsJournals(s, Step(s, op))
  {
    match op
    case DoCreate(r, now) => CreateKeepsJournals(s, r, now);
    case DoAdopt(r, now) => AdoptKeepsJournals(s, r, now);
    case DoAdmit(r, tag, authority, resume, router, now) =>
      AdmittedKeepsJournals(s, r, tag, authority, resume, router, now);
    case DoTransition(id, to, evidence, now) => TransitionKeepsJournals(s, id, to, evidence, now);
    case DoRetirePlanned(id, now) => RetirePlannedKeepsJournals(s, id, now);
    case DoRetireDevice(deviceId, reason, now) => RetireDeviceKeepsJournals(s, deviceId, reason, now);
    case DoRecover(fits, now) => RecoverKeepsJournals(s, fits, now);
  }

  // What one call makes of one record's journal: nothing, a first journal, or one
  // accepted journal step.
  ghost predicate JournalMove(s: Store, op: Op, t: Store, id: string) {
    id in t ==>
      if id !in s then t[id].journal.None?
      else
        t[id].journal == s[id].journal
        || (s[id].journal.None? && t[id].journal.Some? && First(t[id].journal.value))
        || (s[id].journal.Some? && t[id].journal.Some?
            && exists step :: Makes(op, id, step) && J.Apply(s[id].journal.value, step) == Ok(t[id].journal.value))
  }

  predicate First(j: Iox.Journal) {
    j.revision == 0 && j.progress.phase == Iox.Observed
  }

  lemma EventMoves(s: Store, x: string, q: Iox.Request, id: string)
    ensures JournalMove(s, DoIoxEvent(x, q), Step(s, DoIoxEvent(x, q)), id)
  {
    assert Makes(DoIoxEvent(x, q), x, J.Evidence(q));
  }

  lemma CleanupMoves(s: Store, op: Op, id: string)
    requires op.DoIoxCleanup?
    ensures JournalMove(s, op, Step(s, op), id)
  {
    assert Makes(op, op.id, J.Cleanup(op.transactionId, op.revision, op.phase, op.pending, op.now));
  }

  lemma BeginMoves(s: Store, op: Op, id: string)
    requires op.DoIoxBegin?
    ensures JournalMove(s, op, Step(s, op), id)
  {
  }

  lemma StepMovesJournal(s: Store, op: Op, id: string)
    ensures JournalMove(s, op, Step(s, op), id)
  {
    match op
    case DoIoxEvent(x, q) => EventMoves(s, x, q, id);
    case DoIoxCleanup(_, _, _, _, _, _) => CleanupMoves(s, op, id);
    case DoIoxBegin(_, _, _, _, _, _, _, _, _, _) => BeginMoves(s, op, id);
    case _ => LifecycleKeepsJournals(s, op);
  }

  // ----- a record's journal as a run of its own -----

  // The journals js of record id, the steps between them, and which calls of the
  // store run made those steps.
  datatype History = History(js: seq<Iox.Journal>, steps: seq<J.Step>, at: seq<nat>)

  ghost predicate Tells(h: History, ops: seq<Op>, n: nat, id: string, j: Iox.Journal) {
    J.Run(h.js, h.steps) && h.js[|h.steps|] == j && |h.at| == |h.steps|
    && (forall i :: 0 <= i < |h.at| ==> h.at[i] < n && n <= |ops| && Makes(ops[h.at[i]], id, h.steps[i]))
    && forall i, k :: 0 <= i < k < |h.at| ==> h.at[i] < h.at[k]
  }

  lemma TellsOn(h: History, ops: seq<Op>, n: nat, id: string, j: Iox.Journal)
    requires Tells(h, ops, n, id, j) && n < |ops|
    ensures Tells(h, ops, n + 1, id, j)
  {
  }

  lemma ExtendRun(js: seq<Iox.Journal>, steps: seq<J.Step>, step: J.Step, j: Iox.Journal)
    requires J.Run(js, steps) && J.Apply(js[|steps|], step) == Ok(j)
    ensures J.Run(js + [j], steps + [step])
  {
    var ks, ts := js + [j], steps + [step];
    forall i | 0 <= i < |ts| ensures J.Apply(ks[i], ts[i]) == Ok(ks[i + 1]) {
      if i < |steps| {
        assert J.Apply(js[i], steps[i]) == Ok(js[i + 1]);
      }
    }
  }

  lemma ExtendTells(h: History, ops: seq<Op>, n: nat, id: string, before: Iox.Journal, step: J.Step, j: Iox.Journal)
    returns (g: History)
    requires Tells(h, ops, n, id, before) && n < |ops| && Makes(ops[n], id, step) && J.Apply(before, step) == Ok(j)
    ensures Tells(g, ops, n + 1, id, j)
  {
    ExtendRun(h.js, h.steps, step, j);
    g := History(h.js + [j], h.steps + [step], h.at + [n]);
  }

  lemma FirstTells(ops: seq<Op>, n: nat, id: string, j: Iox.Journal) returns (h: History)
    requires J.Begun(j)
    ensures Tells(h, ops, n, id, j)
  {
    h := History([j], [], []);
  }

  // Every stored journal is where a run of journal calls for its record led.
  lemma {:induction false} JournalHistory(ss: seq<Store>, ops: seq<Op>, n: nat, id: string) returns (h: History)
    requires Run(ss, ops) && n < |ss| && id in ss[n] && ss[n][id].journal.Some?
    ensures Tells(h, ops, n, id, ss[n][id].journal.value)
  {
    var s, op, j := ss[n - 1], ops[n - 1], ss[n][id].journal.value;
    assert ss[n - 1 + 1] == Step(s, op);
    StepMovesJournal(s, op, id);
    if s[id].journal == ss[n][id].journal {
      h := JournalHistory(ss, ops, n - 1, id);
      TellsOn(h, ops, n - 1, id, j);
    } else if s[id].journal.None? {
      RunSound(ss, ops, n);
      assert RecordOk(ss[n][id]);
      h := FirstTells(ops, n, id, j);
    } else {
      h := JournalHistory(ss, ops, n - 1, id);
      var step :| Makes(op, id, step) && J.Apply(s[id].journal.value, step) == Ok(j);
      h := ExtendTells(h, ops, n - 1, id, s[id].journal.value, step, j);
    }
  }

  // ----- the store re-enables only what it disabled -----

  // The call is an event of this kind on record id.
  predicate Intended(op: Op, id: string) {
    op.DoIoxEvent? && op.id == id && op.request.event.IntendDisable?
    && Iox.Reads(op.request.event.observation, Iox.Enabled)
  }

  predicate Confirmed(op: Op, id: string) {
    op.DoIoxEvent? && op.id == id && op.request.event.ConfirmDisable?
  }

  predicate RestoreIntended(op: Op, id: string) {
    op.DoIoxEvent? && op.id == id && op.request.event.IntendRestore?
    && Iox.Reads(op.request.event.observation, Iox.Disabled)
  }

  predicate RestoreConfirmed(op: Op, id: string) {
    op.DoIoxEvent? && op.id == id && op.request.event.ConfirmRestore?
    && Iox.Reads(op.request.event.observation, Iox.Enabled)
  }

  // The call carried a capability issued for this very event on the journal with
  // this binding, at the revision and phase the call names.
  predicate Authorized(op: Op, b: Iox.Binding) {
    op.DoIoxEvent? && op.request.capability.Some?
    && var c := op.request.capability.value;
       c.controllerId == b.controllerId && c.recordId == b.recordId && c.transactionId == b.transactionId
       && c.boardIdentity == b.boardIdentity && c.revision == op.request.revision && c.phase == op.request.phase
       && c.event == op.request.event
  }

  lemma StepIsAuthorized(h: History, ops: seq<Op>, n: nat, id: string, j: Iox.Journal, a: nat)
    requires Tells(h, ops, n, id, j) && a < |h.steps| && h.steps[a].Evidence?
    requires var ev := h.steps[a].request.event; ev.ConfirmDisable? || ev.IntendRestore? || ev.ConfirmRestore?
    ensures h.at[a] < n <= |ops| && Authorized(ops[h.at[a]], j.binding)
  {
    J.OwnStepIsAuthorized(h.js, h.steps, a);
    J.RunPersists(h.js, h.steps, 0, |h.steps|);
    assert Makes(ops[h.at[a]], id, h.steps[a]);
  }

  lemma RestoredIsAuthorized(h: History, ops: seq<Op>, n: nat, id: string, j: Iox.Journal) returns (l: nat)
    requires Tells(h, ops, n, id, j) && j.progress.phase == Iox.Restored
    ensures l < n <= |ops| && RestoreConfirmed(ops[l], id) && Authorized(ops[l], j.binding)
  {
    J.RunIsChain(h.js, h.steps);
    var a := J.RestoredSource(h.js, h.steps, |h.steps|);
    J.RestoredIsConfirmed(h.js, h.steps, a);
    StepIsAuthorized(h, ops, n, id, j, a);
    l := h.at[a];
    assert Makes(ops[l], id, h.steps[a]);
  }

  lemma HistoryRestoresItsOwn(h: History, ops: seq<Op>, n: nat, id: string, j: Iox.Journal)
    returns (i: nat, k: nat, m: nat)
    requires Tells(h, ops, n, id, j) && (j.progress.phase == Iox.RestoreIntent || j.progress.phase == Iox.Restored)
    ensures i < k < m < n <= |ops| && Intended(ops[i], id) && Confirmed(ops[k], id) && RestoreIntended(ops[m], id)
    ensures ops[k].request.event.confirmation.preDisableCommandId
         == ops[i].request.event.observation.value.commandId
    ensures j.binding.initial.state == Iox.Enabled && !Iox.Markers(j.binding)
    ensures Authorized(ops[k], j.binding) && Authorized(ops[m], j.binding)
  {
    var last := |h.steps|;
    J.RestoreIsOwned(h.js, h.steps, last);
    var a: nat, b: nat, c: nat :| c < last && J.OwnedRestore(h.js, h.steps, a, b, c);
    J.RunPersists(h.js, h.steps, 0, last);
    i, k, m := h.at[a], h.at[b], h.at[c];
    StepIsAuthorized(h, ops, n, id, j, b);
    StepIsAuthorized(h, ops, n, id, j, c);
    assert Makes(ops[i], id, h.steps[a]) && Makes(ops[k], id, h.steps[b]) && Makes(ops[m], id, h.steps[c]);
  }

  // Over every run of the whole store: a record whose journal intends or has
  // completed a restore had, in this order and for this record, a call that read
  // verification enabled and intended the disable, a call that confirmed that
  // disable, and a call that still read it disabled and intended the restore. The
  // last two carried capabilities issued for them, and so did the call that
  // confirmed the restore, if it is completed.
  lemma StoreRestoresOnlyItsOwn(ss: seq<Store>, ops: seq<Op>, n: nat, id: string) returns (i: nat, k: nat, m: nat)
    requires Run(ss, ops) && n < |ss| && id in ss[n] && ss[n][id].journal.Some?
    requires var phase := ss[n][id].journal.value.progress.phase; phase == Iox.RestoreIntent || phase == Iox.Restored
    ensures i < k < m < n && Intended(ops[i], id) && Confirmed(ops[k], id) && RestoreIntended(ops[m], id)
    ensures ops[k].request.event.confirmation.preDisableCommandId
         == ops[i].request.event.observation.value.commandId
    ensures ss[n][id].journal.value.binding.initial.state == Iox.Enabled
            && !Iox.Markers(ss[n][id].journal.value.binding)
    ensures Authorized(ops[k], ss[n][id].journal.value.binding) && Authorized(ops[m], ss[n][id].journal.value.binding)
    ensures ss[n][id].journal.value.progress.phase == Iox.Restored ==>
              exists l :: 0 <= l < n && RestoreConfirmed(ops[l], id)
                          && Authorized(ops[l], ss[n][id].journal.value.binding)
  {
    var h := JournalHistory(ss, ops, n, id);
    i, k, m := HistoryRestoresItsOwn(h, ops, n, id, ss[n][id].journal.value);
    if ss[n][id].journal.value.progress.phase == Iox.Restored {
      var l := RestoredIsAuthorized(h, ops, n, id, ss[n][id].journal.value);
    }
  }
}
