// When the record store's calls succeed, exactly. A lifecycle call is never
// refused by the rules that gate every write, only by its own argument checks
// (and recovery over a clock it cannot write down). A journal call may be: its
// first read has to be well shaped, and it must not take an obligation on a board
// that another record's journal holds.
module RecordAcceptance {
  import opened Common
  import opened DeploymentRecords
  import opened RecordLineage
  import Iox = IoxJournal
  import J = IoxRuns
  import IoxEvents

  predicate RecoveryOk(r: Record) {
    r.recovery.Some? ==>
      Interruptible(r.recovery.value.interruptedFrom) && Natural(r.recovery.value.interruptedAt)
  }

  lemma ContinuedRowOk(r: Record, t: Record)
    requires RecordOk(r) && Continues(r, t) && RecoveryOk(t)
    ensures RecordOk(t)
  {
  }

  // Rows that continue, with recovery notes in order, keep every rule.
  lemma ContinuingAuthority(s: Store, t: Store)
    requires Authority(s) && AllContinue(s, t) && forall id :: id in t ==> RecoveryOk(t[id])
    ensures Authority(t)
  {
    ContinuingKeepsLineage(s, t);
    forall id | id in t ensures t[id].recordId == id && RecordOk(t[id]) {
      assert RecordOk(s[id]);
      ContinuedRowOk(s[id], t[id]);
    }
    SameJournalsKeepBoards(s, t);
  }

  predicate SameNotes(s: Store, t: Store) {
    t.Keys == s.Keys && forall id :: id in s ==> t[id].recovery == s[id].recovery
  }

  lemma SteadyAuthority(s: Store, t: Store)
    requires Authority(s) && AllContinue(s, t) && SameNotes(s, t)
    ensures Authority(t)
  {
    forall id | id in t ensures RecoveryOk(t[id]) {
      assert RecordOk(s[id]);
    }
    ContinuingAuthority(s, t);
  }

  // ----- a row is added -----

  // What a caller may hand in: nothing the store writes itself, and a well-formed
  // schedule, if any.
  predicate Presentable(r: Record) {
    r.journal.None? && r.recovery.None? && r.predecessor.None?
    && (r.provenance.Some? ==> ProvenanceOk(r.provenance.value, r.deviceId))
  }

  lemma NewRecordIs(r: Record)
    ensures NewRecordOk(r) <==> Presentable(r) && r.state == Planned
  {
  }

  lemma InsertAuthority(s: Store, r: Record)
    requires Authority(s) && r.recordId !in s && RecordOk(r) && r.predecessor.None? && r.journal.None?
    ensures Authority(s[r.recordId := r])
  {
    InsertKeepsLineage(s, r);
    RowsUpdate(s, r.recordId, r);
    SameJournalsKeepBoards(s, s[r.recordId := r]);
  }

  lemma CreateAccepted(s: Store, r: Record, now: int)
    requires Authority(s)
    ensures Create(s, r, now).Ok? <==> Presentable(r) && r.recordId != "" && r.recordId !in s
  {
    NewRecordIs(r.(state := Planned));
    if NewRecordOk(r.(state := Planned)) && r.recordId !in s {
      InsertAuthority(s, Fresh(r, now));
    }
  }

  lemma ActivationNotes(s: Store, deviceId: string, keep: string, now: int)
    ensures SameNotes(s, SupersedeOthers(s, deviceId, keep, now))
  {
  }

  lemma ActivationAuthority(s: Store, deviceId: string, keep: string, now: int)
    requires Authority(s)
    ensures Authority(SupersedeOthers(s, deviceId, keep, now))
  {
    var t := SupersedeOthers(s, deviceId, keep, now);
    ActivationContinues(s, deviceId, keep, now);
    ActivationNotes(s, deviceId, keep, now);
    SteadyAuthority(s, t);
  }

  lemma AdoptAccepted(s: Store, r: Record, now: int)
    requires Authority(s)
    ensures Adopt(s, r, now).Ok? <==> Presentable(r) && r.state == Planned && r.recordId != "" && r.recordId !in s
  {
    NewRecordIs(r);
    if NewRecordOk(r) && r.recordId !in s {
      ActivationAuthority(s, r.deviceId, r.recordId, now);
      InsertAuthority(SupersedeOthers(s, r.deviceId, r.recordId, now), Adopted(r, now));
    }
  }

  // ----- rows move on -----

  lemma MoveContinues(s: Store, id: string, to: State, evidence: Option<string>, now: int)
    requires id in s && Allowed(s[id].state, to)
    ensures AllContinue(s, s[id := Moved(s[id], to, evidence, now)])
  {
    MovedContinues(s[id], to, evidence, now);
  }

  lemma MoveAuthority(s: Store, id: string, to: State, evidence: Option<string>, now: int)
    requires Authority(s) && id in s && Allowed(s[id].state, to)
    ensures Authority(s[id := Moved(s[id], to, evidence, now)])
  {
    var t := s[id := Moved(s[id], to, evidence, now)];
    MoveContinues(s, id, to, evidence, now);
    SteadyAuthority(s, t);
  }

  lemma TransitionAuthority(s: Store, id: string, to: State, evidence: Option<string>, now: int)
    requires Authority(s) && id in s && Allowed(s[id].state, to)
    ensures Authority(TransitionCandidate(s, id, to, evidence, now))
  {
    MoveAuthority(s, id, to, evidence, now);
    if to == Active {
      ActivationAuthority(s[id := Moved(s[id], to, evidence, now)], s[id].deviceId, id, now);
    }
  }

  lemma TransitionAccepted(s: Store, id: string, to: State, evidence: Option<string>, now: int)
    requires Authority(s)
    ensures Transition(s, id, to, evidence, now).Ok? <==> id in s && Allowed(s[id].state, to)
  {
    if id in s && Allowed(s[id].state, to) {
      TransitionAuthority(s, id, to, evidence, now);
    }
  }

  lemma RetireDeviceAccepted(s: Store, deviceId: string, reason: string, now: int)
    requires Authority(s)
    ensures RetireDevice(s, deviceId, reason, now).Ok?
  {
    var t := RetireDeviceCandidate(s, deviceId, reason, now);
    RetireDeviceContinues(s, deviceId, reason, now);
    SteadyAuthority(s, t);
  }

  // Some row is about to be noted as interrupted.
  ghost predicate Interrupting(s: Store, fits: set<string>) {
    exists id :: id in s && id in fits && Interruptible(s[id].state)
  }

  lemma RecoveredRow(s: Store, id: string, fits: set<string>, now: int)
    requires id in s && RecordOk(s[id]) && (Natural(now) || !Interrupting(s, fits))
    ensures RecoveryOk(Recovered(s, id, fits, now))
  {
  }

  lemma RecoverAuthority(s: Store, fits: set<string>, now: int)
    requires Authority(s) && (Natural(now) || !Interrupting(s, fits))
    ensures Authority(RecoverCandidate(s, fits, now))
  {
    var t := RecoverCandidate(s, fits, now);
    RecoverContinues(s, fits, now);
    forall id | id in t ensures RecoveryOk(t[id]) {
      assert RecordOk(s[id]);
      RecoveredRow(s, id, fits, now);
    }
    ContinuingAuthority(s, t);
  }

  lemma BadClockRejected(s: Store, id: string, fits: set<string>, now: int)
    requires id in s && id in fits && Interruptible(s[id].state) && !Natural(now)
    ensures !RowsOk(RecoverCandidate(s, fits, now))
  {
    assert RecoverCandidate(s, fits, now)[id].recovery == Some(Recovery(s[id].state, now));
    assert !RecordOk(RecoverCandidate(s, fits, now)[id]);
  }

  // Recovery can fail only over a clock that cannot be written down.
  lemma RecoverAccepted(s: Store, fits: set<string>, now: int)
    requires Authority(s)
    ensures Recover(s, fits, now).Ok? <==> Natural(now) || !Interrupting(s, fits)
  {
    if Natural(now) || !Interrupting(s, fits) {
      RecoverAuthority(s, fits, now);
    } else {
      var id :| id in s && id in fits && Interruptible(s[id].state);
      BadClockRejected(s, id, fits, now);
    }
  }

  // ----- retirement and admission -----

  lemma RetirePlannedAccepted(s: Store, id: string, now: int)
    requires Authority(s)
    ensures RetirePlanned(s, id, now).Ok? <==> id in s
  {
    if id in s && s[id].state == Planned {
      RetirementKeepsLineage(s, id, now);
      RetirementRows(s, id, now);
      RetirementBoards(s, id, now);
    }
  }

  lemma RetirementBoards(s: Store, id: string, now: int)
    requires BoardsOk(s) && id in s && (s[id].predecessor.Some? ==> s[id].predecessor.value in s)
    ensures BoardsOk(RetirePlannedCandidate(s, id, now))
  {
    SameJournalsKeepBoards(s, RetirePlannedCandidate(s, id, now));
  }

  lemma RetirementRows(s: Store, id: string, now: int)
    requires RowsOk(s) && id in s && (s[id].predecessor.Some? ==> s[id].predecessor.value in s)
    ensures RowsOk(RetirePlannedCandidate(s, id, now))
  {
    var restored := s;
    if s[id].predecessor.Some? {
      var p := s[id].predecessor.value;
      RestateOk(s[p], Unknown, Some(now));
      restored := s[p := s[p].(state := Unknown, finishedAt := Some(now))];
      RowsUpdate(s, p, restored[p]);
    }
    RestateOk(restored[id], Removed, Some(now));
    RowsUpdate(restored, id, restored[id].(state := Removed, finishedAt := Some(now)));
  }

  // The checks an admission makes of its own arguments.
  predicate AdmissionArguments(r: Record, tag: Provenance, resume: Option<string>) {
    && NewRecordOk(r) && ProvenanceOk(tag, r.deviceId) && RecordIdText(r.recordId)
    && (r.provenance.Some? ==> r.provenance.value == tag)
    && (resume.Some? ==> RecordIdText(resume.value))
  }

  lemma ResumedContinues(s: Store, id: string)
    requires id in s && (s[id].state == Planned || s[id].state == Unknown)
    ensures AllContinue(s, s[id := ResumedRow(s[id])]) && SameNotes(s, s[id := ResumedRow(s[id])])
  {
  }

  lemma ResumedAuthority(s: Store, id: string)
    requires Authority(s) && id in s && (s[id].state == Planned || s[id].state == Unknown)
    ensures Authority(s[id := ResumedRow(s[id])])
  {
    ResumedContinues(s, id);
    SteadyAuthority(s, s[id := ResumedRow(s[id])]);
  }

  lemma SucceededAccepted(s: Store, r: Record, p: string, tag: Provenance, now: int)
    requires Authority(s) && p in s && RecordIdText(p) && r.recordId !in s && NewRecordOk(r)
      && ProvenanceOk(tag, r.deviceId)
    requires LineageOk(Succeeded(s, r, p, tag, now))
    ensures Authority(Succeeded(s, r, p, tag, now))
  {
    SucceededBoards(s, r, p, tag, now);
    SucceededRows(s, r, p, tag, now);
  }

  // An admission with well-formed arguments always reaches a decision.
  lemma AdmitAccepted(s: Store, r: Record, tag: Provenance, authority: Option<AuthorityRefusal>,
                      resume: Option<string>, router: bool, now: int)
    requires Authority(s)
    ensures Admit(s, r, tag, authority, resume, router, now).Ok? <==> AdmissionArguments(r, tag, resume)
  {
    if AdmissionArguments(r, tag, resume) {
      var (outcome, t) := AdmitCandidate(s, r, tag, authority, resume, router, now);
      AdmitShape(s, r, tag, authority, resume, router, now);
      AdmissionKeepsLineage(s, r, tag, authority, resume, router, now);
      if outcome.Created? && resume.None? {
        InsertAuthority(s, outcome.record);
      } else if outcome.Created? {
        SucceededAccepted(s, r, resume.value, tag, now);
      } else if outcome.Resumed? {
        ResumedAuthority(s, resume.value);
      }
    }
  }

  // ----- journals -----

  // The record may open a journal on this board.
  predicate MayBegin(s: Store, id: string, board: string) {
    && id in s && !s[id].adopted && s[id].journal.None?
    && (s[id].deviceIdentity.Some? ==> s[id].deviceIdentity.value == board)
    && forall x :: x in s && Obliged(s[x]) ==> s[x].journal.value.binding.boardIdentity != board
  }

  // A record whose journal is not settled is nobody's predecessor.
  lemma UnsettledWriteLineage(s: Store, id: string, j: Iox.Journal)
    requires LineageOk(s) && id in s && !Settled(s[id].journal)
    ensures LineageOk(s[id := s[id].(journal := Some(j))])
  {
    var t := s[id := s[id].(journal := Some(j))];
    forall x | x in t ensures LinkOk(t, x) {
      assert LinkOk(s, x);
    }
  }

  lemma WriteBoards(s: Store, id: string, j: Iox.Journal)
    requires BoardsOk(s) && id in s
    requires j.unresolved || j.cleanupPending ==>
               Obliged(s[id]) && s[id].journal.value.binding.boardIdentity == j.binding.boardIdentity
    ensures BoardsOk(s[id := s[id].(journal := Some(j))])
  {
  }

  // So opening a journal that obliges nothing breaks no rule.
  lemma QuietJournalAuthority(s: Store, id: string, j: Iox.Journal)
    requires Authority(s) && id in s && !s[id].adopted && s[id].journal.None?
    requires Iox.ShapeValid(j, id) && !j.unresolved && !j.cleanupPending
    ensures Authority(s[id := s[id].(journal := Some(j))])
  {
    QuietRow(s[id], j);
    RowsUpdate(s, id, s[id].(journal := Some(j)));
    UnsettledWriteLineage(s, id, j);
    WriteBoards(s, id, j);
  }

  lemma QuietRow(r: Record, j: Iox.Journal)
    requires RecordOk(r) && !r.adopted && Iox.ShapeValid(j, r.recordId)
    ensures RecordOk(r.(journal := Some(j)))
  {
  }

  lemma BadShapeRejected(s: Store, id: string, j: Iox.Journal)
    requires RowsOk(s) && id in s && !Iox.ShapeValid(j, id)
    ensures !RowsOk(s[id := s[id].(journal := Some(j))])
  {
    assert !RecordOk(s[id := s[id].(journal := Some(j))][id]);
  }

  lemma BeginAccepted(s: Store, id: string, transactionId: string, controllerId: string, board: string,
                      wrapperSha256: string, sign: bool, cert: bool,
                      initial: Iox.Observation, ref: Iox.TranscriptRef, now: int)
    requires Authority(s)
    ensures var j := Iox.Begin(transactionId, id, controllerId, board, wrapperSha256, sign, cert, initial, ref, now);
      IoxBegin(s, id, transactionId, controllerId, board, wrapperSha256, sign, cert, initial, ref, now).Ok?
      <==> MayBegin(s, id, board) && Iox.ShapeValid(j, id)
  {
    var j := Iox.Begin(transactionId, id, controllerId, board, wrapperSha256, sign, cert, initial, ref, now);
    if MayBegin(s, id, board) {
      if Iox.ShapeValid(j, id) {
        QuietJournalAuthority(s, id, j);
      } else {
        BadShapeRejected(s, id, j);
      }
    }
  }

  // Clearing an obligation needs nothing but the compare-and-set.
  lemma ClearedAuthority(s: Store, id: string, j: Iox.Journal)
    requires Authority(s) && id in s && s[id].journal.Some? && s[id].journal.value.cleanupPending
    requires j.binding == s[id].journal.value.binding && Iox.ShapeValid(j, j.binding.recordId)
    requires j.unresolved == s[id].journal.value.unresolved
    ensures Authority(s[id := s[id].(journal := Some(j))])
  {
    ObligationRow(s[id], j);
    RowsUpdate(s, id, s[id].(journal := Some(j)));
    UnsettledWriteLineage(s, id, j);
    WriteBoards(s, id, j);
  }

  // A cleanup call is its compare-and-set and then the gate.
  lemma CleanupIsChecked(s: Store, id: string, transactionId: string, revision: int, phase: Iox.Phase,
                         pending: bool, now: int)
    requires id in s && s[id].journal.Some?
    ensures var c := Iox.ApplyCleanup(s[id].journal.value, transactionId, revision, phase, pending, now);
      IoxCleanup(s, id, transactionId, revision, phase, pending, now).Ok?
      <==> c.Ok? && Authority(s[id := s[id].(journal := Some(c.value))])
  {
  }

  lemma ClearingAccepted(s: Store, id: string, transactionId: string, revision: int, phase: Iox.Phase, now: int)
    requires Authority(s)
    ensures IoxCleanup(s, id, transactionId, revision, phase, false, now).Ok? <==>
              id in s && s[id].journal.Some?
              && Iox.ApplyCleanup(s[id].journal.value, transactionId, revision, phase, false, now).Ok?
  {
    if id in s && s[id].journal.Some? {
      var c := Iox.ApplyCleanup(s[id].journal.value, transactionId, revision, phase, false, now);
      CleanupClears(s[id].journal.value, transactionId, revision, phase, now);
      CleanupIsChecked(s, id, transactionId, revision, phase, false, now);
      if c.Ok? {
        ClearedAuthority(s, id, c.value);
      }
    }
  }

  lemma CleanupClears(j: Iox.Journal, transactionId: string, revision: int, phase: Iox.Phase, now: int)
    ensures var c := Iox.ApplyCleanup(j, transactionId, revision, phase, false, now);
      c.Ok? ==> j.cleanupPending && c.value.binding == j.binding && c.value.unresolved == j.unresolved
                && Iox.ShapeValid(c.value, j.binding.recordId)
  {
  }

  // ----- journal events -----

  // What an accepted event makes of a journal, as far as the store is concerned.
  ghost predicate CarriesOn(j: Iox.Journal, k: Iox.Journal) {
    && k.binding == j.binding && k.cleanupPending == j.cleanupPending
    && Iox.ShapeValid(k, j.binding.recordId)
    && (Iox.IsTerminal(j.progress.phase) ==> k.progress.phase == j.progress.phase)
  }

  lemma EventCarriesOn(j: Iox.Journal, q: Iox.Request)
    requires Iox.ShapeValid(j, j.binding.recordId) && Iox.ApplyEvent(j, q).Ok?
    ensures CarriesOn(j, Iox.ApplyEvent(j, q).value)
  {
    J.EventParts(j, q);
    J.StepLinks(j, J.Evidence(q));
  }

  lemma SettledStays(j: Iox.Journal, k: Iox.Journal)
    requires CarriesOn(j, k) && Settled(Some(j))
    ensures Settled(Some(k))
  {
  }

  // Writing a settled journal disturbs no successor.
  lemma SettledWriteLineage(s: Store, id: string, k: Iox.Journal)
    requires LineageOk(s) && id in s && Settled(Some(k))
    ensures LineageOk(s[id := s[id].(journal := Some(k))])
  {
    var t := s[id := s[id].(journal := Some(k))];
    forall x | x in t ensures LinkOk(t, x) {
      assert LinkOk(s, x);
    }
  }

  lemma EventLineage(s: Store, id: string, k: Iox.Journal)
    requires LineageOk(s) && id in s && s[id].journal.Some? && CarriesOn(s[id].journal.value, k)
    ensures LineageOk(s[id := s[id].(journal := Some(k))])
  {
    if Settled(s[id].journal) {
      SettledStays(s[id].journal.value, k);
      SettledWriteLineage(s, id, k);
    } else {
      UnsettledWriteLineage(s, id, k);
    }
  }

  // The event makes the journal hold its board, which it did not before.
  predicate TakesBoard(r: Record, k: Iox.Journal) {
    k.unresolved && !Obliged(r)
  }

  lemma EventBoards(s: Store, id: string, k: Iox.Journal)
    requires BoardsOk(s) && id in s && s[id].journal.Some? && CarriesOn(s[id].journal.value, k)
    ensures BoardsOk(s[id := s[id].(journal := Some(k))])
            <==> (TakesBoard(s[id], k) ==> BoardFree(s, id, k.binding.boardIdentity))
  {
    if TakesBoard(s[id], k) {
      BoardsWith(s, id, k);
    } else {
      WriteBoards(s, id, k);
    }
  }

  lemma EventAuthority(s: Store, id: string, k: Iox.Journal)
    requires Authority(s) && id in s && s[id].journal.Some? && CarriesOn(s[id].journal.value, k)
    ensures Authority(s[id := s[id].(journal := Some(k))])
            <==> (TakesBoard(s[id], k) ==> BoardFree(s, id, k.binding.boardIdentity))
  {
    ObligationRow(s[id], k);
    RowsUpdate(s, id, s[id].(journal := Some(k)));
    EventLineage(s, id, k);
    EventBoards(s, id, k);
  }

  // The journal takes the event, and if that takes the board nobody else holds it.
  ghost predicate EventFits(s: Store, id: string, q: Iox.Request) {
    && id in s && s[id].journal.Some? && Iox.ApplyEvent(s[id].journal.value, q).Ok?
    && (TakesBoard(s[id], Iox.ApplyEvent(s[id].journal.value, q).value) ==>
          BoardFree(s, id, s[id].journal.value.binding.boardIdentity))
  }

  lemma StoredShape(s: Store, id: string)
    requires RowsOk(s) && id in s && s[id].journal.Some?
    ensures Iox.ShapeValid(s[id].journal.value, s[id].journal.value.binding.recordId)
  {
    assert RecordOk(s[id]);
  }

  lemma EventIsFitted(s: Store, id: string, q: Iox.Request)
    requires Authority(s)
    ensures IoxEvent(s, id, q).Ok? <==> EventFits(s, id, q)
  {
    if id in s && s[id].journal.Some? && Iox.ApplyEvent(s[id].journal.value, q).Ok? {
      StoredShape(s, id);
      EventCarriesOn(s[id].journal.value, q);
      EventAuthority(s, id, Iox.ApplyEvent(s[id].journal.value, q).value);
    }
  }

  // A journal in this phase holds its board.
  predicate Holding(phase: Iox.Phase) {
    phase != Iox.Observed && phase != Iox.Restored && phase != Iox.Unchanged && phase != Iox.Relinquished
  }

  // The event goes through its own checks, and if the journal newly holds its board
  // after it nobody else holds it.
  ghost predicate EventPasses(s: Store, id: string, q: Iox.Request) {
    && id in s && s[id].journal.Some? && IoxEvents.GoesThrough(s[id].journal.value, q)
    && (!Obliged(s[id]) && Holding(IoxEvents.LeadsTo(s[id].journal.value.progress.phase, q.event)) ==>
          BoardFree(s, id, s[id].journal.value.binding.boardIdentity))
  }

  lemma FitsIsPasses(s: Store, id: string, q: Iox.Request)
    requires RowsOk(s)
    ensures EventFits(s, id, q) <==> EventPasses(s, id, q)
  {
    if id in s && s[id].journal.Some? {
      StoredShape(s, id);
      IoxEvents.EventGoesThrough(s[id].journal.value, q);
    }
  }

  // Besides the event's own checks the gate asks something only of an event after
  // which the journal newly holds its board: that nobody else holds it.
  lemma EventAccepted(s: Store, id: string, q: Iox.Request)
    requires Authority(s)
    ensures IoxEvent(s, id, q).Ok? <==> EventPasses(s, id, q)
  {
    EventIsFitted(s, id, q);
    FitsIsPasses(s, id, q);
  }

  // The event advanced the record's journal and did nothing else.
  ghost predicate EventDoes(s: Store, t: Store, id: string, q: Iox.Request) {
    id in s && id in t && s[id].journal.Some? && t[id].journal.Some?
    && IoxEvents.Advanced(s[id].journal.value, q, t[id].journal.value)
    && t == s[id := s[id].(journal := t[id].journal)]
  }

  lemma EventEffect(s: Store, id: string, q: Iox.Request)
    requires Authority(s) && IoxEvent(s, id, q).Ok?
    ensures EventDoes(s, IoxEvent(s, id, q).value, id, q)
  {
    StoredShape(s, id);
    IoxEvents.EventGoesThrough(s[id].journal.value, q);
  }

  // So an event that passes every check of its own is refused by the gate when
  // another record's journal holds the board.
  lemma HeldBoardRefusesEvent(s: Store, holder: string, id: string, q: Iox.Request)
    requires Authority(s) && holder in s && id in s && holder != id && Obliged(s[holder]) && s[id].journal.Some?
    requires s[holder].journal.value.binding.boardIdentity == s[id].journal.value.binding.boardIdentity
    requires Iox.ApplyEvent(s[id].journal.value, q).Ok? && Iox.ApplyEvent(s[id].journal.value, q).value.unresolved
    ensures IoxEvent(s, id, q) == Err(AuthorityRejected)
  {
    EventIsFitted(s, id, q);
  }
}
