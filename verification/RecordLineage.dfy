// Predecessor and successor lineage: no store operation can break it, and
// admitting and retiring successors can be repeated without end.
module RecordLineage {
  import opened Common
  import opened DeploymentRecords
  import Iox = IoxJournal

  // A row may change its state and evidence as long as history stays history,
  // an abandoned row stays abandoned, and what successors rely on is kept.
  predicate Continues(r: Record, t: Record) {
    && t.recordId == r.recordId && t.predecessor == r.predecessor && t.deviceId == r.deviceId
    && t.provenance == r.provenance && t.adopted == r.adopted && t.journal == r.journal
    && (r.recovery.Some? ==> t.recovery.Some?)
    && (r.state == Removed ==> t.state == Removed)
    && (r.state == Superseded ==> t.state == Superseded)
    && (r.state == Abandoned ==> t.state == Abandoned)
  }

  ghost predicate AllContinue(s: Store, t: Store) {
    t.Keys == s.Keys && forall id :: id in s ==> Continues(s[id], t[id])
  }

  lemma ContinuingKeepsLineage(s: Store, t: Store)
    requires LineageOk(s) && AllContinue(s, t)
    ensures LineageOk(t)
  {
    forall id | id in t ensures LinkOk(t, id) {
      assert LinkOk(s, id);
    }
  }

  lemma InsertKeepsLineage(s: Store, r: Record)
    requires LineageOk(s) && r.recordId !in s && r.predecessor.None?
    ensures LineageOk(s[r.recordId := r])
  {
    var t := s[r.recordId := r];
    forall id | id in t ensures LinkOk(t, id) {
      if id != r.recordId {
        assert LinkOk(s, id);
      }
    }
  }

  lemma MovedContinues(r: Record, to: State, evidence: Option<string>, now: int)
    requires Allowed(r.state, to)
    ensures Continues(r, Moved(r, to, evidence, now))
  {
  }

  lemma ActivatedRowContinues(r: Record, deviceId: string, keep: string, now: int)
    ensures Continues(r, AfterActivation(r, deviceId, keep, now))
  {
  }

  lemma ActivationContinues(s: Store, deviceId: string, keep: string, now: int)
    ensures AllContinue(s, SupersedeOthers(s, deviceId, keep, now))
  {
    forall id | id in s ensures Continues(s[id], AfterActivation(s[id], deviceId, keep, now)) {
      ActivatedRowContinues(s[id], deviceId, keep, now);
    }
  }

  lemma ContinuesTrans(s: Store, t: Store, u: Store)
    requires AllContinue(s, t) && AllContinue(t, u)
    ensures AllContinue(s, u)
  {
  }

  lemma TransitionContinues(s: Store, id: string, to: State, evidence: Option<string>, now: int)
    requires id in s && Allowed(s[id].state, to)
    ensures AllContinue(s, TransitionCandidate(s, id, to, evidence, now))
  {
    MovedContinues(s[id], to, evidence, now);
    var moved := s[id := Moved(s[id], to, evidence, now)];
    assert AllContinue(s, moved);
    if to == Active {
      ActivationContinues(moved, s[id].deviceId, id, now);
      ContinuesTrans(s, moved, SupersedeOthers(moved, s[id].deviceId, id, now));
    }
  }

  lemma RetireDeviceContinues(s: Store, deviceId: string, reason: string, now: int)
    ensures AllContinue(s, RetireDeviceCandidate(s, deviceId, reason, now))
  {
  }

  lemma RecoverContinues(s: Store, fits: set<string>, now: int)
    ensures AllContinue(s, RecoverCandidate(s, fits, now))
  {
  }

  // ----- admission and retirement -----

  // p is free to be succeeded: it waits as unknown with a settled journal.
  predicate Succeedable(s: Store, p: string) {
    p in s && s[p].state == Unknown && s[p].recovery.Some? && Settled(s[p].journal)
  }

  lemma UnclaimedUnlessAbandoned(s: Store, p: string, id: string)
    requires LineageOk(s) && p in s && s[p].state != Abandoned && id in s && Claiming(s[id])
    ensures s[id].predecessor != Some(p)
  {
    assert LinkOk(s, id);
  }

  lemma SuccessionKeepsLineage(s: Store, p: string, successor: Record, now: int)
    requires LineageOk(s) && Succeedable(s, p) && successor.recordId !in s
    requires successor.predecessor == Some(p) && successor.deviceId == s[p].deviceId
    requires successor.provenance == s[p].provenance && successor.state == Planned
    ensures LineageOk(s[p := s[p].(state := Abandoned, finishedAt := Some(now))][successor.recordId := successor])
  {
    var t := s[p := s[p].(state := Abandoned, finishedAt := Some(now))][successor.recordId := successor];
    assert LinkOk(t, successor.recordId);
    forall id | id in s ensures LinkOk(t, id) {
      assert LinkOk(s, id);
    }
    forall id | id in s && Claiming(t[id]) ensures t[id].predecessor != Some(p) {
      UnclaimedUnlessAbandoned(s, p, id);
    }
  }

  // Admitting keeps the lineage rules, whatever it decides.
  lemma AdmissionKeepsLineage(s: Store, r: Record, tag: Provenance, authority: Option<AuthorityRefusal>,
                              resume: Option<string>, router: bool, now: int)
    requires LineageOk(s) && r.predecessor.None? && tag.deviceId == r.deviceId
    ensures LineageOk(AdmitCandidate(s, r, tag, authority, resume, router, now).1)
  {
    var (outcome, t) := AdmitCandidate(s, r, tag, authority, resume, router, now);
    if outcome.Created? && outcome.record.predecessor.Some? {
      SuccessionKeepsLineage(s, resume.value, outcome.record, now);
    } else if outcome.Created? {
      InsertKeepsLineage(s, outcome.record);
    } else if outcome.Resumed? {
      ContinuingKeepsLineage(s, t);
    }
  }

  // Retiring a planned successor hands its predecessor back as unknown, and the
  // lineage rules hold again because no other live row named that predecessor.
  lemma RetirementKeepsLineage(s: Store, id: string, now: int)
    requires LineageOk(s) && id in s && s[id].state == Planned
    ensures s[id].predecessor.Some? ==>
              s[id].predecessor.value in s && s[s[id].predecessor.value].state == Abandoned
    ensures LineageOk(RetirePlannedCandidate(s, id, now))
    ensures s[id].predecessor.Some? ==>
              RetirePlannedCandidate(s, id, now)[s[id].predecessor.value].state == Unknown
  {
    assert LinkOk(s, id);
    var t := RetirePlannedCandidate(s, id, now);
    forall x | x in t ensures LinkOk(t, x) {
      RetirementKeepsLink(s, id, x, now);
    }
  }

  lemma RetirementKeepsLink(s: Store, id: string, x: string, now: int)
    requires LineageOk(s) && id in s && x in s && s[id].state == Planned
    requires s[id].predecessor.Some? ==> s[id].predecessor.value in s
    ensures LinkOk(RetirePlannedCandidate(s, id, now), x)
  {
    assert LinkOk(s, x) && LinkOk(s, id);
  }

  // Raising a cleanup obligation is the one journal write lineage forbids: it
  // passes exactly when nothing, live or removed, names the record as its
  // predecessor.
  lemma CleanupIntentLineage(s: Store, id: string, j: Iox.Journal)
    requires LineageOk(s) && id in s && j.cleanupPending
    ensures LineageOk(s[id := s[id].(journal := Some(j))])
            <==> forall x :: x in s ==> s[x].predecessor != Some(id)
  {
    var t := s[id := s[id].(journal := Some(j))];
    if forall x :: x in s ==> s[x].predecessor != Some(id) {
      forall x | x in t ensures LinkOk(t, x) {
        assert LinkOk(s, x);
      }
    } else {
      var x :| x in s && s[x].predecessor == Some(id);
      assert x in t && !LinkOk(t, x);
    }
  }

  // ----- one live record per admitted device -----

  predicate KeysMatch(s: Store) {
    forall id :: id in s ==> s[id].recordId == id
  }

  // A created or resumed admission leaves the admitted record as the only live
  // one of its device.
  lemma AdmissionLeavesOneLive(s: Store, r: Record, tag: Provenance, authority: Option<AuthorityRefusal>,
                               resume: Option<string>, router: bool, now: int)
    requires KeysMatch(s) && tag.deviceId == r.deviceId
    ensures var (outcome, t) := AdmitCandidate(s, r, tag, authority, resume, router, now);
            outcome.Created? || outcome.Resumed? ==>
              outcome.record.recordId in t && t[outcome.record.recordId] == outcome.record
              && Conflicts(t, tag.deviceId) == {outcome.record.recordId}
  {
    var (outcome, t) := AdmitCandidate(s, r, tag, authority, resume, router, now);
    if outcome.Created? || outcome.Resumed? {
      forall id | id in Conflicts(t, tag.deviceId) ensures id == outcome.record.recordId {
        assert id == outcome.record.recordId || id in Conflicts(s, tag.deviceId);
      }
    }
  }

  // ----- repeated succession -----

  // p is the device's only live record and can be resumed into a successor.
  predicate Ready(s: Store, p: string, tag: Provenance) {
    && Succeedable(s, p) && RecordIdText(p) && !s[p].router
    && s[p].provenance == Some(tag) && s[p].deviceId == tag.deviceId
    && Conflicts(s, tag.deviceId) == {p}
  }

  // A fresh execution request of the same occurrence.
  predicate Request(s: Store, r: Record, tag: Provenance) {
    && NewRecordOk(r) && ProvenanceOk(tag, r.deviceId) && RecordIdText(r.recordId)
    && r.recordId !in s && !r.router && (r.provenance.Some? ==> r.provenance.value == tag)
  }

  function Successor(r: Record, p: string, tag: Provenance, now: int): Record {
    Fresh(r.(provenance := Some(tag), predecessor := Some(p)), now)
  }

  lemma SameJournalsKeepBoards(s: Store, t: Store)
    requires BoardsOk(s) && s.Keys <= t.Keys
    requires forall id :: id in s ==> t[id].journal == s[id].journal
    requires forall id :: id in t && id !in s ==> t[id].journal.None?
    ensures BoardsOk(t)
  {
  }

  // The store while the successor of p is planned.
  function Succeeded(s: Store, r: Record, p: string, tag: Provenance, now: int): Store
    requires p in s
  {
    s[p := s[p].(state := Abandoned, finishedAt := Some(now))][r.recordId := Successor(r, p, tag, now)]
  }

  // The store an admission decides on, as a change of the one it found.
  lemma AdmitShape(s: Store, r: Record, tag: Provenance, authority: Option<AuthorityRefusal>,
                   resume: Option<string>, router: bool, now: int)
    ensures var (outcome, t) := AdmitCandidate(s, r, tag, authority, resume, router, now);
      match outcome
      case Created(record) =>
        r.recordId !in s
        && (if resume.None? then record == Fresh(r.(provenance := Some(tag)), now) && t == s[r.recordId := record]
            else resume.value in s && s[resume.value].state == Unknown && Settled(s[resume.value].journal)
                 && record == Successor(r, resume.value, tag, now)
                 && t == Succeeded(s, r, resume.value, tag, now))
      case Resumed(record) =>
        resume.Some? && resume.value in s && t == s[resume.value := ResumedRow(s[resume.value])]
        && (s[resume.value].state == Planned || s[resume.value].state == Unknown)
      case _ => t == s
  {
  }

  // The store once that successor has been retired: the predecessor is back and
  // the successor is a removed row.
  function HandedBack(s: Store, r: Record, p: string, tag: Provenance, now: int, later: int): Store
    requires p in s
  {
    s[p := s[p].(finishedAt := Some(later))]
     [r.recordId := Successor(r, p, tag, now).(state := Removed, finishedAt := Some(later))]
  }

  lemma ReadyOutcome(s: Store, r: Record, p: string, tag: Provenance, now: int)
    requires Ready(s, p, tag) && r.recordId !in s && !r.router
    ensures AdmitCandidate(s, r, tag, None, Some(p), false, now) ==
            (Created(Successor(r, p, tag, now)), Succeeded(s, r, p, tag, now))
  {
    assert !RouterBlocks(s, tag.deviceId, false);
    assert !ForeignBlocks(s, tag);
  }

  lemma SuccessorRowOk(r: Record, p: string, tag: Provenance, now: int)
    requires NewRecordOk(r) && ProvenanceOk(tag, r.deviceId) && RecordIdText(p)
    ensures RecordOk(Successor(r, p, tag, now))
  {
  }

  lemma RowsUpdate(s: Store, id: string, r: Record)
    requires RowsOk(s) && r.recordId == id && RecordOk(r)
    ensures RowsOk(s[id := r])
  {
  }

  lemma RestateOk(r: Record, state: State, finishedAt: Option<int>)
    requires RecordOk(r)
    ensures RecordOk(r.(state := state, finishedAt := finishedAt))
  {
  }

  lemma SucceededAuthority(s: Store, r: Record, p: string, tag: Provenance, now: int)
    requires Authority(s) && Ready(s, p, tag) && Request(s, r, tag)
    ensures Authority(Succeeded(s, r, p, tag, now))
  {
    SuccessionKeepsLineage(s, p, Successor(r, p, tag, now), now);
    SucceededBoards(s, r, p, tag, now);
    SucceededRows(s, r, p, tag, now);
  }

  lemma SucceededBoards(s: Store, r: Record, p: string, tag: Provenance, now: int)
    requires BoardsOk(s) && p in s && r.recordId !in s && r.journal.None?
    ensures BoardsOk(Succeeded(s, r, p, tag, now))
  {
    SameJournalsKeepBoards(s, Succeeded(s, r, p, tag, now));
  }

  lemma SucceededRows(s: Store, r: Record, p: string, tag: Provenance, now: int)
    requires RowsOk(s) && p in s && RecordIdText(p) && NewRecordOk(r) && ProvenanceOk(tag, r.deviceId)
    ensures RowsOk(Succeeded(s, r, p, tag, now))
  {
    RestateOk(s[p], Abandoned, Some(now));
    RowsUpdate(s, p, s[p].(state := Abandoned, finishedAt := Some(now)));
    SuccessorRowOk(r, p, tag, now);
    RowsUpdate(s[p := s[p].(state := Abandoned, finishedAt := Some(now))], r.recordId, Successor(r, p, tag, now));
  }

  lemma ReadyAdmits(s: Store, r: Record, p: string, tag: Provenance, now: int)
    requires Authority(s) && Ready(s, p, tag) && Request(s, r, tag)
    ensures Admit(s, r, tag, None, Some(p), false, now) ==
            Ok((Created(Successor(r, p, tag, now)), Succeeded(s, r, p, tag, now)))
  {
    ReadyOutcome(s, r, p, tag, now);
    SucceededAuthority(s, r, p, tag, now);
  }

  lemma HandedBackIsRetirement(s: Store, r: Record, p: string, tag: Provenance, now: int, later: int)
    requires p in s && r.recordId !in s && s[p].state == Unknown
    ensures RetirePlannedCandidate(Succeeded(s, r, p, tag, now), r.recordId, later)
         == HandedBack(s, r, p, tag, now, later)
  {
  }

  lemma HandedBackLineage(s: Store, r: Record, p: string, tag: Provenance, now: int, later: int)
    requires LineageOk(s) && Ready(s, p, tag) && r.recordId !in s && r.deviceId == tag.deviceId
    ensures LineageOk(HandedBack(s, r, p, tag, now, later))
  {
    SuccessionKeepsLineage(s, p, Successor(r, p, tag, now), now);
    RetirementKeepsLineage(Succeeded(s, r, p, tag, now), r.recordId, later);
    HandedBackIsRetirement(s, r, p, tag, now, later);
  }

  lemma HandedBackRows(s: Store, r: Record, p: string, tag: Provenance, now: int, later: int)
    requires RowsOk(s) && p in s && RecordIdText(p) && NewRecordOk(r) && ProvenanceOk(tag, r.deviceId)
    ensures RowsOk(HandedBack(s, r, p, tag, now, later))
  {
    RestateOk(s[p], s[p].state, Some(later));
    RowsUpdate(s, p, s[p].(finishedAt := Some(later)));
    SuccessorRowOk(r, p, tag, now);
    RestateOk(Successor(r, p, tag, now), Removed, Some(later));
    RowsUpdate(s[p := s[p].(finishedAt := Some(later))], r.recordId,
               Successor(r, p, tag, now).(state := Removed, finishedAt := Some(later)));
  }

  lemma HandedBackAuthority(s: Store, r: Record, p: string, tag: Provenance, now: int, later: int)
    requires Authority(s) && Ready(s, p, tag) && Request(s, r, tag)
    ensures Authority(HandedBack(s, r, p, tag, now, later))
  {
    HandedBackLineage(s, r, p, tag, now, later);
    HandedBackRows(s, r, p, tag, now, later);
    HandedBackBoards(s, r, p, tag, now, later);
  }

  lemma HandedBackBoards(s: Store, r: Record, p: string, tag: Provenance, now: int, later: int)
    requires BoardsOk(s) && p in s && r.recordId !in s && r.journal.None?
    ensures BoardsOk(HandedBack(s, r, p, tag, now, later))
  {
    SameJournalsKeepBoards(s, HandedBack(s, r, p, tag, now, later));
  }

  lemma HandedBackReady(s: Store, r: Record, p: string, tag: Provenance, now: int, later: int)
    requires Ready(s, p, tag) && r.recordId !in s
    ensures Ready(HandedBack(s, r, p, tag, now, later), p, tag)
  {
    var t := HandedBack(s, r, p, tag, now, later);
    assert Conflicts(t, tag.deviceId) == Conflicts(s, tag.deviceId);
  }

  // Retiring the successor gives back the store it was admitted from, but for
  // the removed row kept as history and the predecessor's finishing time.
  lemma RetiringUndoesAdmission(s: Store, r: Record, p: string, tag: Provenance, now: int, later: int)
    requires Authority(s) && Ready(s, p, tag) && Request(s, r, tag)
    ensures RetirePlanned(Succeeded(s, r, p, tag, now), r.recordId, later)
         == Ok(HandedBack(s, r, p, tag, now, later))
  {
    HandedBackIsRetirement(s, r, p, tag, now, later);
    HandedBackAuthority(s, r, p, tag, now, later);
  }

  // One successor: its request, when it is admitted and when it is retired.
  datatype Attempt = Attempt(record: Record, admittedAt: int, retiredAt: int)

  // Admit the attempt's request into a successor of p and retire it again; None
  // if either call refuses.
  function Cycle(s: Store, a: Attempt, p: string, tag: Provenance): Option<Store> {
    var admitted := Admit(s, a.record, tag, None, Some(p), false, a.admittedAt);
    if admitted.Err? || !admitted.value.0.Created? then None
    else
      var retired := RetirePlanned(admitted.value.1, a.record.recordId, a.retiredAt);
      if retired.Err? then None else Some(retired.value)
  }

  function Cycles(s: Store, attempts: seq<Attempt>, p: string, tag: Provenance): Option<Store>
    decreases |attempts|
  {
    if attempts == [] then Some(s)
    else
      var next := Cycle(s, attempts[0], p, tag);
      if next.None? then None else Cycles(next.value, attempts[1..], p, tag)
  }

  // The store after one attempt came and went.
  function After(s: Store, a: Attempt, p: string, tag: Provenance): Store
    requires p in s
  {
    HandedBack(s, a.record, p, tag, a.admittedAt, a.retiredAt)
  }

  lemma CycleHandsBack(s: Store, a: Attempt, p: string, tag: Provenance)
    requires Authority(s) && Ready(s, p, tag) && Request(s, a.record, tag)
    ensures Cycle(s, a, p, tag) == Some(After(s, a, p, tag))
  {
    ReadyAdmits(s, a.record, p, tag, a.admittedAt);
    RetiringUndoesAdmission(s, a.record, p, tag, a.admittedAt, a.retiredAt);
  }

  // When the predecessor was last handed back.
  function LastFinish(before: Option<int>, attempts: seq<Attempt>): Option<int> {
    if attempts == [] then before else Some(attempts[|attempts| - 1].retiredAt)
  }

  // s grew into t by removed rows naming p, one per attempt, with the
  // attempt's times; p itself only got a new finishing time.
  ghost predicate LeavesHistory(s: Store, attempts: seq<Attempt>, p: string, t: Store) {
    && p in s && p in t && t[p] == s[p].(finishedAt := LastFinish(s[p].finishedAt, attempts))
    && (forall id :: id in s ==> id in t && (id != p ==> t[id] == s[id]))
    && (forall i :: 0 <= i < |attempts| ==>
          var id := attempts[i].record.recordId;
          id in t && t[id].state == Removed && t[id].predecessor == Some(p)
          && t[id].plannedAt == Some(attempts[i].admittedAt) && t[id].finishedAt == Some(attempts[i].retiredAt))
    && (forall id :: id in t && id !in s ==> exists i :: 0 <= i < |attempts| && attempts[i].record.recordId == id)
  }

  lemma HistoryStep(s: Store, attempts: seq<Attempt>, p: string, tag: Provenance, u: Store)
    requires attempts != [] && p in s && attempts[0].record.recordId !in s
    requires LeavesHistory(After(s, attempts[0], p, tag), attempts[1..], p, u)
    ensures LeavesHistory(s, attempts, p, u)
  {
    var rest := attempts[1..];
    var t := After(s, attempts[0], p, tag);
    assert forall i :: 1 <= i < |attempts| ==> attempts[i] == rest[i - 1];
    forall id | id in u && id !in s ensures exists i :: 0 <= i < |attempts| && attempts[i].record.recordId == id {
      NewRowsAreAttempts(t, attempts, id);
    }
  }

  lemma NewRowsAreAttempts(t: Store, attempts: seq<Attempt>, id: string)
    requires attempts != [] && (id in t ==> id == attempts[0].record.recordId)
    requires id !in t ==> exists i :: 0 <= i < |attempts[1..]| && attempts[1..][i].record.recordId == id
    ensures exists i :: 0 <= i < |attempts| && attempts[i].record.recordId == id
  {
    if id in t {
      assert attempts[0].record.recordId == id;
    } else {
      var i :| 0 <= i < |attempts[1..]| && attempts[1..][i].record.recordId == id;
      assert attempts[i + 1].record.recordId == id;
    }
  }

  // Requests of this occurrence for records the store does not hold yet.
  ghost predicate Requests(s: Store, attempts: seq<Attempt>, tag: Provenance) {
    && (forall i :: 0 <= i < |attempts| ==> Request(s, attempts[i].record, tag))
    && (forall i, j :: 0 <= i < j < |attempts| ==> attempts[i].record.recordId != attempts[j].record.recordId)
  }

  lemma RequestsAfter(s: Store, attempts: seq<Attempt>, t: Store, tag: Provenance)
    requires attempts != [] && Requests(s, attempts, tag) && t.Keys == s.Keys + {attempts[0].record.recordId}
    ensures Requests(t, attempts[1..], tag)
  {
    var rest := attempts[1..];
    forall i | 0 <= i < |rest| ensures Request(t, rest[i].record, tag) {
      assert rest[i] == attempts[i + 1] && Request(s, attempts[i + 1].record, tag);
    }
  }

  lemma CycleStep(s: Store, attempts: seq<Attempt>, p: string, tag: Provenance)
    requires Authority(s) && Ready(s, p, tag) && attempts != [] && Requests(s, attempts, tag)
    ensures Cycle(s, attempts[0], p, tag) == Some(After(s, attempts[0], p, tag))
    ensures Authority(After(s, attempts[0], p, tag)) && Ready(After(s, attempts[0], p, tag), p, tag)
    ensures Requests(After(s, attempts[0], p, tag), attempts[1..], tag)
    ensures attempts[0].record.recordId !in s
  {
    var a := attempts[0];
    assert Request(s, a.record, tag);
    CycleHandsBack(s, a, p, tag);
    HandedBackAuthority(s, a.record, p, tag, a.admittedAt, a.retiredAt);
    HandedBackReady(s, a.record, p, tag, a.admittedAt, a.retiredAt);
    RequestsAfter(s, attempts, After(s, a, p, tag), tag);
  }

  lemma {:induction false} CyclesLeaveHistory(s: Store, attempts: seq<Attempt>, p: string, tag: Provenance)
    requires Authority(s) && Ready(s, p, tag) && Requests(s, attempts, tag)
    ensures Cycles(s, attempts, p, tag).Some?
    ensures LeavesHistory(s, attempts, p, Cycles(s, attempts, p, tag).value)
    decreases |attempts|
  {
    if attempts != [] {
      CycleStep(s, attempts, p, tag);
      var t := After(s, attempts[0], p, tag);
      CyclesLeaveHistory(t, attempts[1..], p, tag);
      HistoryStep(s, attempts, p, tag, Cycles(t, attempts[1..], p, tag).value);
    }
  }

  // Any number of admit and retire cycles succeeds, whenever each call is made:
  // all authority rules hold, and the predecessor is unknown and ready again.
  lemma {:induction false} CyclesNeverRefuse(s: Store, attempts: seq<Attempt>, p: string, tag: Provenance)
    requires Authority(s) && Ready(s, p, tag) && Requests(s, attempts, tag)
    ensures Cycles(s, attempts, p, tag).Some?
    ensures Authority(Cycles(s, attempts, p, tag).value)
    ensures Ready(Cycles(s, attempts, p, tag).value, p, tag)
    decreases |attempts|
  {
    if attempts != [] {
      CycleStep(s, attempts, p, tag);
      CyclesNeverRefuse(After(s, attempts[0], p, tag), attempts[1..], p, tag);
    }
  }

  // ----- what a removed successor still forbids -----

  // No live or removed record names id.
  ghost predicate Unnamed(s: Store, id: string) {
    forall x :: x in s ==> s[x].predecessor != Some(id)
  }

  ghost predicate BoardFree(s: Store, id: string, board: string) {
    forall x :: x in s && x != id && Obliged(s[x]) ==> s[x].journal.value.binding.boardIdentity != board
  }

  lemma BoardsWith(s: Store, id: string, j: Iox.Journal)
    requires BoardsOk(s) && id in s && (j.unresolved || j.cleanupPending)
    ensures BoardsOk(s[id := s[id].(journal := Some(j))]) <==> BoardFree(s, id, j.binding.boardIdentity)
  {
    var t := s[id := s[id].(journal := Some(j))];
    if BoardsOk(t) {
      forall x | x in s && x != id && Obliged(s[x])
        ensures s[x].journal.value.binding.boardIdentity != j.binding.boardIdentity
      {
        assert Obliged(t[x]) && Obliged(t[id]);
      }
    }
  }

  // A cleanup obligation is raised exactly when the journal's compare-and-set
  // accepts it, no record names this one as its predecessor and no other record
  // holds an obligation on the board.
  lemma CleanupAccepted(s: Store, id: string, transactionId: string, revision: int, phase: Iox.Phase, now: int)
    requires Authority(s)
    ensures IoxCleanup(s, id, transactionId, revision, phase, true, now).Ok? <==>
              id in s && s[id].journal.Some?
              && Iox.ApplyCleanup(s[id].journal.value, transactionId, revision, phase, true, now).Ok?
              && Unnamed(s, id) && BoardFree(s, id, s[id].journal.value.binding.boardIdentity)
  {
    if id in s && s[id].journal.Some? {
      var j := s[id].journal.value;
      CleanupRaises(j, transactionId, revision, phase, now);
      var c := Iox.ApplyCleanup(j, transactionId, revision, phase, true, now);
      if c.Ok? {
        ObligationAuthority(s, id, c.value);
      }
    }
  }

  lemma CleanupRaises(j: Iox.Journal, transactionId: string, revision: int, phase: Iox.Phase, now: int)
    ensures var c := Iox.ApplyCleanup(j, transactionId, revision, phase, true, now);
      c.Ok? ==> c.value.cleanupPending && c.value.binding == j.binding && Iox.ShapeValid(c.value, j.binding.recordId)
  {
  }

  lemma ObligationAuthority(s: Store, id: string, j: Iox.Journal)
    requires Authority(s) && id in s && s[id].journal.Some? && j.cleanupPending
    requires j.binding == s[id].journal.value.binding && Iox.ShapeValid(j, j.binding.recordId)
    ensures Authority(s[id := s[id].(journal := Some(j))])
            <==> Unnamed(s, id) && BoardFree(s, id, j.binding.boardIdentity)
  {
    CleanupIntentLineage(s, id, j);
    BoardsWith(s, id, j);
    ObligationRow(s[id], j);
    RowsUpdate(s, id, s[id].(journal := Some(j)));
  }

  lemma ObligationRow(r: Record, j: Iox.Journal)
    requires RecordOk(r) && r.journal.Some? && j.binding == r.journal.value.binding
    requires Iox.ShapeValid(j, j.binding.recordId)
    ensures RecordOk(r.(journal := Some(j)))
  {
  }

  // After one cycle the predecessor is unknown again, yet it can never take a
  // cleanup obligation: the removed successor still names it.
  lemma RemovedSuccessorBlocksCleanup(s: Store, a: Attempt, p: string, tag: Provenance,
                                      transactionId: string, revision: int, phase: Iox.Phase, now: int)
    requires Authority(s) && Ready(s, p, tag) && Request(s, a.record, tag)
    ensures IoxCleanup(After(s, a, p, tag), p, transactionId, revision, phase, true, now).Err?
  {
    var t := After(s, a, p, tag);
    HandedBackAuthority(s, a.record, p, tag, a.admittedAt, a.retiredAt);
    CleanupAccepted(t, p, transactionId, revision, phase, now);
    assert t[a.record.recordId].predecessor == Some(p);
  }
}
