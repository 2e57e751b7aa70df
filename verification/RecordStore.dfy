// The record store itself: a dictionary its methods load, change and write back.
module RecordStore {
  import opened Common
  import opened DeploymentRecords
  import opened RecordLineage
  import opened RecordRuns
  import opened RecordAcceptance
  import opened RecordAdmission
  import opened RecordEffects
  import Iox = IoxJournal
  import IoxEvents

  // ----- collapsing duplicate actives -----

  lemma NotNewerTotal(a: Record, b: Record)
    ensures NotNewer(a, b) || NotNewer(b, a)
  {
    LexLeqTotal(Codes(a.recordId), Codes(b.recordId));
  }

  lemma NotNewerAntisymmetric(a: Record, b: Record)
    requires NotNewer(a, b) && NotNewer(b, a)
    ensures a.recordId == b.recordId
  {
    LexLeqAntisymmetric(Codes(a.recordId), Codes(b.recordId));
    CodesInjective(a.recordId, b.recordId);
  }

  lemma NotNewerTransitive(a: Record, b: Record, c: Record)
    requires NotNewer(a, b) && NotNewer(b, c)
    ensures NotNewer(a, c)
  {
    if OrZero(a.finishedAt) == OrZero(b.finishedAt) == OrZero(c.finishedAt)
       && OrZero(a.plannedAt) == OrZero(b.plannedAt) == OrZero(c.plannedAt) {
      LexLeqTransitive(Codes(a.recordId), Codes(b.recordId), Codes(c.recordId));
    }
  }

  predicate ActiveOf(s: Store, id: string, deviceId: string) {
    id in s && s[id].state == Active && s[id].deviceId == deviceId
  }

  // The device's latest active record.
  ghost predicate Newest(s: Store, id: string, deviceId: string) {
    ActiveOf(s, id, deviceId)
    && forall x :: ActiveOf(s, x, deviceId) ==> NotNewer(s[x], s[id])
  }

  // After recovery an active record is still active exactly if it is its device's
  // newest or could not be rewritten, even in a store whose duplicates predate the
  // one-active rule.
  lemma RecoverCollapses(s: Store, fits: set<string>, now: int, deviceId: string, id: string)
    requires KeysMatch(s)
    ensures ActiveOf(RecoverCandidate(s, fits, now), id, deviceId)
       <==> ActiveOf(s, id, deviceId) && (id in fits ==> Newest(s, id, deviceId))
  {
    if ActiveOf(s, id, deviceId) && id in fits {
      if Newest(s, id, deviceId) {
        NewestIsNotOutdated(s, id, deviceId);
      } else {
        var x :| ActiveOf(s, x, deviceId) && !NotNewer(s[x], s[id]);
        NotNewerTotal(s[x], s[id]);
        NotNewerTotal(s[id], s[id]);
        assert Outdated(s, id);
      }
    }
  }

  lemma NewestIsNotOutdated(s: Store, id: string, deviceId: string)
    requires KeysMatch(s) && Newest(s, id, deviceId)
    ensures !Outdated(s, id)
  {
    if Outdated(s, id) {
      var other :| other in s && other != id && s[other].state == Active
                   && s[other].deviceId == s[id].deviceId && NotNewer(s[id], s[other]);
      NotNewerAntisymmetric(s[id], s[other]);
    }
  }

  // A device with an active record keeps one.
  lemma {:induction false} NewestExists(s: Store, ids: set<string>, deviceId: string) returns (best: string)
    requires ids != {} && forall x :: x in ids ==> ActiveOf(s, x, deviceId)
    ensures best in ids && forall x :: x in ids ==> x in s && best in s && NotNewer(s[x], s[best])
    decreases |ids|
  {
    var x :| x in ids;
    NotNewerTotal(s[x], s[x]);
    if ids - {x} == {} {
      best := x;
      assert ids == {x};
    } else {
      var y := NewestExists(s, ids - {x}, deviceId);
      NotNewerTotal(s[x], s[y]);
      best := if NotNewer(s[x], s[y]) then y else x;
      forall z | z in ids ensures NotNewer(s[z], s[best]) {
        if z != x && best == x {
          NotNewerTransitive(s[z], s[y], s[x]);
        }
      }
    }
  }

  // The newest active record survives recovery, whatever fits.
  lemma RecoverKeepsOneActive(s: Store, fits: set<string>, now: int, deviceId: string, id: string)
    requires KeysMatch(s) && ActiveOf(s, id, deviceId)
    ensures exists kept :: ActiveOf(RecoverCandidate(s, fits, now), kept, deviceId) && NotNewer(s[id], s[kept])
  {
    var actives := set x | x in s && ActiveOf(s, x, deviceId);
    assert id in actives;
    var kept := NewestExists(s, actives, deviceId);
    RecoverCollapses(s, fits, now, deviceId, kept);
  }

  // ----- the store -----

  predicate Outcome(before: Store, spec: Result<Store, Failure>, after: Store, failure: Option<Failure>) {
    if spec.Ok? then after == spec.value && failure.None?
    else after == before && failure == Some(spec.error)
  }

  // What every call keeps: the authority rules always, and one active record per
  // device and an unbroken history whenever they held before. back is the
  // abandoned record this call may hand back.
  ghost predicate KeepsUp(before: Store, after: Store, back: Option<string>) {
    Authority(after) && (Sound(before) ==> Lands(before, after, back))
  }

  lemma CheckedAuthority(s: Store, candidate: Store)
    requires Authority(s)
    ensures Authority(Kept(s, Checked(candidate)))
  {
  }

  lemma NewRowAuthority(s: Store, op: Op)
    requires Authority(s) && (op.DoCreate? || op.DoAdopt?)
    ensures Authority(Step(s, op))
  {
    match op
    case DoCreate(r, now) => CheckedAuthority(s, s[r.recordId := Fresh(r, now)]);
    case DoAdopt(r, now) => CheckedAuthority(s, AdoptCandidate(s, r, now));
  }

  lemma AdmissionAuthority(s: Store, op: Op)
    requires Authority(s) && op.DoAdmit?
    ensures Authority(Step(s, op))
  {
    AdmitDecides(s, op.record, op.tag, op.authority, op.resume, op.router, op.now);
  }

  lemma MovedRowAuthority(s: Store, id: string, to: State, evidence: Option<string>, now: int)
    requires Authority(s)
    ensures Authority(Kept(s, DeploymentRecords.Transition(s, id, to, evidence, now)))
  {
    if id in s {
      CheckedAuthority(s, TransitionCandidate(s, id, to, evidence, now));
    }
  }

  lemma RetiredRowAuthority(s: Store, id: string, now: int)
    requires Authority(s)
    ensures Authority(Kept(s, DeploymentRecords.RetirePlanned(s, id, now)))
  {
    if id in s && (s[id].predecessor.Some? ==> s[id].predecessor.value in s) {
      CheckedAuthority(s, RetirePlannedCandidate(s, id, now));
    }
  }

  lemma SteppedRowAuthority(s: Store, op: Op)
    requires Authority(s) && (op.DoTransition? || op.DoRetirePlanned?)
    ensures Authority(Step(s, op))
  {
    match op
    case DoTransition(id, to, evidence, now) => MovedRowAuthority(s, id, to, evidence, now);
    case DoRetirePlanned(id, now) => RetiredRowAuthority(s, id, now);
  }

  lemma RetiredDeviceAuthority(s: Store, deviceId: string, reason: string, now: int)
    requires Authority(s)
    ensures Authority(Kept(s, DeploymentRecords.RetireDevice(s, deviceId, reason, now)))
  {
    CheckedAuthority(s, RetireDeviceCandidate(s, deviceId, reason, now));
  }

  lemma RecoveredAuthority(s: Store, fits: set<string>, now: int)
    requires Authority(s)
    ensures Authority(Kept(s, Recover(s, fits, now)))
  {
    CheckedAuthority(s, RecoverCandidate(s, fits, now));
  }

  lemma SweptRowsAuthority(s: Store, op: Op)
    requires Authority(s) && (op.DoRetireDevice? || op.DoRecover?)
    ensures Authority(Step(s, op))
  {
    match op
    case DoRetireDevice(deviceId, reason, now) => RetiredDeviceAuthority(s, deviceId, reason, now);
    case DoRecover(fits, now) => RecoveredAuthority(s, fits, now);
  }

  lemma JournalAuthority(s: Store, op: Op)
    requires Authority(s) && (op.DoIoxBegin? || op.DoIoxEvent? || op.DoIoxCleanup?)
    ensures Authority(Step(s, op))
  {
    match op
    case DoIoxBegin(_, _, _, _, _, _, _, _, _, _) => BeginWrites(s, op);
    case DoIoxEvent(id, q) => EventWrites(s, id, q);
    case DoIoxCleanup(_, _, _, _, _, _) => CleanupWrites(s, op);
  }

  lemma StepAuthority(s: Store, op: Op)
    requires Authority(s)
    ensures Authority(Step(s, op))
  {
    if op.DoIoxBegin? || op.DoIoxEvent? || op.DoIoxCleanup? {
      JournalAuthority(s, op);
    } else if op.DoAdmit? {
      AdmissionAuthority(s, op);
    } else if op.DoCreate? || op.DoAdopt? {
      NewRowAuthority(s, op);
    } else if op.DoTransition? || op.DoRetirePlanned? {
      SteppedRowAuthority(s, op);
    } else {
      SweptRowsAuthority(s, op);
    }
  }

  lemma StepKeepsUp(s: Store, op: Op)
    requires Authority(s)
    ensures KeepsUp(s, Step(s, op), HandedBackBy(s, op))
  {
    StepAuthority(s, op);
    if Sound(s) {
      StepLands(s, op);
    }
  }

  // A call that ended as specified kept everything up.
  lemma Met(s: Store, op: Op, spec: Result<Store, Failure>, t: Store, failure: Option<Failure>)
    requires Authority(s) && Step(s, op) == Kept(s, spec) && Outcome(s, spec, t, failure)
    ensures KeepsUp(s, t, HandedBackBy(s, op)) && Authority(t) && t == Kept(s, spec)
    ensures failure.None? <==> spec.Ok?
  {
    StepKeepsUp(s, op);
  }

  predicate Admitted(before: Store, spec: Result<(Admission, Store), Failure>, after: Store,
                     admitted: Result<Admission, Failure>)
  {
    if spec.Ok? then admitted == Ok(spec.value.0) && after == spec.value.1
    else admitted == Err(spec.error) && after == before
  }

  // A created or resumed record is stored and is the device's only live one; any
  // other decision leaves the store alone.
  predicate DecisionHolds(before: Store, outcome: Admission, after: Store, deviceId: string) {
    if outcome.Created? || outcome.Resumed? then
      var id := outcome.record.recordId;
      id in after && after[id] == outcome.record && Conflicts(after, deviceId) == {id}
    else after == before
  }

  lemma AdmissionMeets(s: Store, r: Record, tag: Provenance, authority: Option<AuthorityRefusal>,
                       resume: Option<string>, router: bool, now: int, t: Store, admitted: Result<Admission, Failure>)
    requires Authority(s)
    requires Admitted(s, Admit(s, r, tag, authority, resume, router, now), t, admitted)
    ensures Authority(t) && KeepsUp(s, t, None)
    ensures admitted.Ok? <==> AdmissionArguments(r, tag, resume)
    ensures admitted.Ok? ==> DecisionHolds(s, admitted.value, t, tag.deviceId)
  {
    AdmissionKeepsUp(s, r, tag, authority, resume, router, now);
    AdmitAccepted(s, r, tag, authority, resume, router, now);
    if admitted.Ok? {
      AuthorityMatchesKeys(s);
      DecisionIsHeld(s, r, tag, authority, resume, router, now);
    }
  }

  lemma AdmissionIsAsDecided(s: Store, c: Call, t: Store, admitted: Result<Admission, Failure>)
    requires Authority(s)
    requires Admitted(s, Admit(s, c.record, c.tag, c.authority, c.resume, c.router, c.now), t, admitted)
    ensures admitted.Ok? ==> Decided(s, c, admitted.value, t)
  {
    AdmitAccepted(s, c.record, c.tag, c.authority, c.resume, c.router, c.now);
    if admitted.Ok? {
      AdmissionIsDecided(s, c);
    }
  }

  lemma AdmissionKeepsUp(s: Store, r: Record, tag: Provenance, authority: Option<AuthorityRefusal>,
                         resume: Option<string>, router: bool, now: int)
    requires Authority(s)
    ensures var admitted := Admit(s, r, tag, authority, resume, router, now);
      KeepsUp(s, if admitted.Ok? then admitted.value.1 else s, None)
  {
    StepKeepsUp(s, DoAdmit(r, tag, authority, resume, router, now));
  }

  lemma DecisionIsHeld(s: Store, r: Record, tag: Provenance, authority: Option<AuthorityRefusal>,
                       resume: Option<string>, router: bool, now: int)
    requires KeysMatch(s) && tag.deviceId == r.deviceId
    ensures var admitted := Admit(s, r, tag, authority, resume, router, now);
      admitted.Ok? ==> DecisionHolds(s, admitted.value.0, admitted.value.1, tag.deviceId)
  {
    AdmissionLeavesOneLive(s, r, tag, authority, resume, router, now);
  }

  lemma RetiredIsClear(s: Store, deviceId: string, reason: string, now: int)
    ensures Conflicts(RetireDeviceCandidate(s, deviceId, reason, now), deviceId) == {}
  {
  }

  lemma RecoverMeets(s: Store, fits: set<string>, now: int, t: Store, failure: Option<Failure>)
    requires Authority(s) && Outcome(s, Recover(s, fits, now), t, failure)
    ensures Authority(t) && KeepsUp(s, t, None)
    ensures failure.None? <==> Natural(now) || !Interrupting(s, fits)
    ensures t == if failure.None? then RecoverCandidate(s, fits, now) else s
  {
    RecoverIs(s, fits, now);
    if Natural(now) || !Interrupting(s, fits) {
      RecoveredKeepsUp(s, fits, now);
    } else {
      UnchangedKeepsUp(s);
    }
  }

  lemma RecoverIs(s: Store, fits: set<string>, now: int)
    requires Authority(s)
    ensures Recover(s, fits, now) ==
      if Natural(now) || !Interrupting(s, fits) then Ok(RecoverCandidate(s, fits, now)) else Err(AuthorityRejected)
  {
    RecoverAccepted(s, fits, now);
  }

  lemma RecoveredKeepsUp(s: Store, fits: set<string>, now: int)
    requires Authority(s) && (Natural(now) || !Interrupting(s, fits))
    ensures KeepsUp(s, RecoverCandidate(s, fits, now), None)
  {
    RecoverAuthority(s, fits, now);
    if Sound(s) {
      RecoverSound(s, fits, now);
    }
  }

  lemma UnchangedKeepsUp(s: Store)
    requires Authority(s)
    ensures KeepsUp(s, s, None)
  {
    KeptIsHistory(s);
  }

  lemma RetireDeviceMeets(s: Store, deviceId: string, reason: string, now: int, t: Store, failure: Option<Failure>)
    requires Authority(s) && Outcome(s, DeploymentRecords.RetireDevice(s, deviceId, reason, now), t, failure)
    ensures Authority(t) && KeepsUp(s, t, None)
    ensures failure.None? && t == RetireDeviceCandidate(s, deviceId, reason, now) && Conflicts(t, deviceId) == {}
  {
    RetireDeviceIs(s, deviceId, reason, now);
    RetiredKeepsUp(s, deviceId, reason, now);
    RetiredIsClear(s, deviceId, reason, now);
  }

  lemma RetireDeviceIs(s: Store, deviceId: string, reason: string, now: int)
    requires Authority(s)
    ensures DeploymentRecords.RetireDevice(s, deviceId, reason, now)
      == Ok(RetireDeviceCandidate(s, deviceId, reason, now))
  {
    RetireDeviceAccepted(s, deviceId, reason, now);
  }

  lemma RetiredKeepsUp(s: Store, deviceId: string, reason: string, now: int)
    requires Authority(s)
    ensures KeepsUp(s, RetireDeviceCandidate(s, deviceId, reason, now), None)
  {
    RetireDeviceAccepted(s, deviceId, reason, now);
    if Sound(s) {
      RetireDeviceSound(s, deviceId, reason, now);
    }
  }

  // The device's only active record.
  ghost predicate OnlyActive(s: Store, id: string, deviceId: string) {
    ActiveOf(s, id, deviceId) && forall x :: ActiveOf(s, x, deviceId) ==> x == id
  }

  lemma ActivationOnlyActive(s: Store, id: string, now: int)
    requires KeysMatch(s) && id in s && s[id].state == Active
    ensures OnlyActive(SupersedeOthers(s, s[id].deviceId, id, now), id, s[id].deviceId)
  {
  }

  lemma TransitionOnlyActive(s: Store, id: string, evidence: Option<string>, now: int)
    requires KeysMatch(s) && id in s
    ensures OnlyActive(TransitionCandidate(s, id, Active, evidence, now), id, s[id].deviceId)
  {
    ActivationOnlyActive(s[id := Moved(s[id], Active, evidence, now)], id, now);
  }

  lemma AdoptOnlyActive(s: Store, r: Record, now: int)
    requires KeysMatch(s) && r.recordId !in s
    ensures OnlyActive(AdoptCandidate(s, r, now), r.recordId, r.deviceId)
  {
  }

  lemma AuthorityMatchesKeys(s: Store)
    requires Authority(s)
    ensures KeysMatch(s)
  {
  }

  class DeploymentRecordStore {
    var records: Store

    // What the store file holds passes the authority rules whenever it is read.
    ghost predicate Valid()
      reads this
    {
      Authority(records)
    }

    constructor ()
      ensures records == map[] && Valid() && Sound(records)
    {
      records := map[];
    }

    // Write the candidate back if the authority rules accept it.
    method Commit(candidate: Store) returns (failure: Option<Failure>)
      modifies this
      ensures Outcome(old(records), Checked(candidate), records, failure)
    {
      if Authority(candidate) {
        records := candidate;
        failure := None;
      } else {
        failure := Some(AuthorityRejected);
      }
    }

    method WriteCreated(r: Record, now: int) returns (failure: Option<Failure>)
      modifies this
      ensures Outcome(old(records), DeploymentRecords.Create(old(records), r, now), records, failure)
    {
      if !NewRecordOk(r.(state := Planned)) || r.recordId == "" {
        return Some(InvalidRecord);
      }
      if r.recordId in records {
        return Some(RecordExists);
      }
      failure := Commit(records[r.recordId := Fresh(r, now)]);
    }

    // Retire every other live record of the device, row by row.
    method SupersedeOtherActives(data: Store, deviceId: string, keep: string, now: int) returns (result: Store)
      ensures result == SupersedeOthers(data, deviceId, keep, now)
    {
      result := data;
      var todo := data.Keys;
      while todo != {}
        invariant todo <= data.Keys && result.Keys == data.Keys
        invariant forall id :: id in data ==>
          result[id] == if id in todo then data[id] else AfterActivation(data[id], deviceId, keep, now)
        decreases |todo|
      {
        var id :| id in todo;
        var record := data[id];
        if record.deviceId == deviceId && record.recordId != keep {
          if record.state == Active {
            result := result[id := record.(state := Superseded, finishedAt := Some(now))];
          } else if StaleOnActivation(record.state) {
            result := result[id := record.(state := Abandoned, finishedAt := Some(now),
              evidence := AbandonedBecause("superseded by the activation of record " + keep))];
          }
        }
        todo := todo - {id};
      }
    }

    method WriteAdopted(r: Record, now: int) returns (failure: Option<Failure>)
      modifies this
      ensures Outcome(old(records), DeploymentRecords.Adopt(old(records), r, now), records, failure)
    {
      if !NewRecordOk(r) || r.recordId == "" {
        return Some(InvalidRecord);
      }
      if r.recordId in records {
        return Some(RecordExists);
      }
      var superseded := SupersedeOtherActives(records, r.deviceId, r.recordId, now);
      failure := Commit(superseded[r.recordId := Adopted(r, now)]);
    }

    method WriteTransition(id: string, to: State, evidence: Option<string>, now: int) returns (failure: Option<Failure>)
      modifies this
      ensures Outcome(old(records), DeploymentRecords.Transition(old(records), id, to, evidence, now), records, failure)
    {
      if id !in records {
        return Some(UnknownRecord);
      }
      var record := records[id];
      if !Allowed(record.state, to) {
        return Some(InvalidTransition);
      }
      var data := records[id := Moved(record, to, evidence, now)];
      if to == Active {
        data := SupersedeOtherActives(data, record.deviceId, id, now);
      }
      failure := Commit(data);
    }

    method WriteRetirement(id: string, now: int) returns (failure: Option<Failure>)
      modifies this
      ensures Outcome(old(records), DeploymentRecords.RetirePlanned(old(records), id, now), records, failure)
    {
      if id !in records {
        return Some(UnknownRecord);
      }
      if records[id].state != Planned {
        return None;
      }
      var data := records;
      if data[id].predecessor.Some? {
        var p := data[id].predecessor.value;
        if p !in data || data[p].state != Abandoned {
          return Some(InvalidLineage);
        }
        data := data[p := data[p].(state := Unknown, finishedAt := Some(now))];
      }
      data := data[id := data[id].(state := Removed, finishedAt := Some(now))];
      failure := Commit(data);
    }

    // Abandon every row of the device that has not ended.
    method AbandonRows(data: Store, deviceId: string, reason: string, now: int)
      returns (result: Store, retired: set<string>)
      ensures result == RetireDeviceCandidate(data, deviceId, reason, now)
      ensures retired == Conflicts(data, deviceId)
    {
      var todo := data.Keys;
      result, retired := data, {};
      while todo != {}
        invariant todo <= data.Keys && result.Keys == data.Keys
        invariant forall id :: id in data && id !in todo ==> result[id] == Retired(data[id], deviceId, reason, now)
        invariant retired == Conflicts(data, deviceId) - todo
        decreases |todo|
      {
        var id :| id in todo;
        var row, live := AbandonRow(data[id], deviceId, reason, now);
        if live {
          retired := retired + {id};
        }
        result := result[id := row];
        todo := todo - {id};
      }
    }

    method AbandonRow(record: Record, deviceId: string, reason: string, now: int) returns (row: Record, live: bool)
      ensures row == Retired(record, deviceId, reason, now)
      ensures live <==> record.deviceId == deviceId && !Ended(record.state)
    {
      row, live := record, record.deviceId == deviceId && !Ended(record.state);
      if live {
        row := row.(state := Abandoned, finishedAt := Some(now), evidence := AbandonedBecause(reason));
      }
    }

    method WriteRetiredDevice(deviceId: string, reason: string, now: int)
      returns (failure: Option<Failure>, retired: set<string>)
      modifies this
      ensures Outcome(old(records), DeploymentRecords.RetireDevice(old(records), deviceId, reason, now),
                      records, failure)
      ensures retired == Conflicts(old(records), deviceId)
    {
      var data;
      data, retired := AbandonRows(records, deviceId, reason, now);
      failure := Commit(data);
    }

    // Each device's latest active record.
    method NewestActives(data: Store) returns (newest: map<string, string>)
      requires KeysMatch(data)
      ensures forall deviceId :: deviceId in newest ==> Newest(data, newest[deviceId], deviceId)
      ensures forall id :: id in data && data[id].state == Active ==> data[id].deviceId in newest
    {
      newest := map[];
      var todo := data.Keys;
      while todo != {}
        invariant todo <= data.Keys
        invariant forall d :: d in newest ==> ActiveOf(data, newest[d], d)
        invariant forall d, x :: d in newest && ActiveOf(data, x, d) && x !in todo ==>
          NotNewer(data[x], data[newest[d]])
        invariant forall id :: id in data && data[id].state == Active && id !in todo ==> data[id].deviceId in newest
        decreases |todo|
      {
        var id :| id in todo;
        var r := data[id];
        NotNewerTotal(r, r);
        if r.state == Active {
          if r.deviceId !in newest {
            assert forall x :: ActiveOf(data, x, r.deviceId) ==> x in todo;
            newest := newest[r.deviceId := id];
          } else {
            var best := newest[r.deviceId];
            NotNewerTotal(data[best], r);
            if NotNewer(data[best], r) {
              forall x | ActiveOf(data, x, r.deviceId) && x !in todo ensures NotNewer(data[x], r) {
                NotNewerTransitive(data[x], data[best], r);
              }
              newest := newest[r.deviceId := id];
            }
          }
        }
        todo := todo - {id};
      }
    }

    // One row: interrupted work becomes unknown, an active record that is not
    // its device's newest is superseded, a row that does not fit is left alone.
    method RecoverRow(data: Store, id: string, newest: map<string, string>, fits: set<string>, now: int)
      returns (row: Record)
      requires KeysMatch(data) && id in data
      requires data[id].state == Active ==>
                 data[id].deviceId in newest && Newest(data, newest[data[id].deviceId], data[id].deviceId)
      ensures row == Recovered(data, id, fits, now)
    {
      row := data[id];
      if id in fits {
        if Interruptible(row.state) {
          row := Interrupted(row, now);
        } else if row.state == Active {
          OutdatedIsNotNewest(data, id, newest[row.deviceId]);
          if newest[row.deviceId] != id {
            row := row.(state := Superseded, finishedAt := Some(now));
          }
        }
      }
    }

    method RecoverRows(data: Store, fits: set<string>, now: int) returns (result: Store)
      requires KeysMatch(data)
      ensures result == RecoverCandidate(data, fits, now)
    {
      var newest := NewestActives(data);
      var todo := data.Keys;
      result := data;
      while todo != {}
        invariant todo <= data.Keys && result.Keys == data.Keys
        invariant forall id :: id in data && id !in todo ==> result[id] == Recovered(data, id, fits, now)
        decreases |todo|
      {
        var id :| id in todo;
        var row := RecoverRow(data, id, newest, fits, now);
        result := result[id := row];
        todo := todo - {id};
      }
    }

    method WriteRecovery(fits: set<string>, now: int) returns (failure: Option<Failure>)
      requires KeysMatch(records)
      modifies this
      ensures Outcome(old(records), Recover(old(records), fits, now), records, failure)
    {
      var data := RecoverRows(records, fits, now);
      failure := Commit(data);
    }

    // The checks on the device's live rows, in order.
    method RefuseEarly(data: Store, tag: Provenance, authority: Option<AuthorityRefusal>,
                       resume: Option<string>, router: bool) returns (refusal: Option<RefusalReason>)
      ensures refusal == EarlyRefusal(data, tag, authority, resume, router)
    {
      if authority.Some? {
        return Some(ByAuthority(authority.value));
      }
      var conflicts := set id | id in data && data[id].deviceId == tag.deviceId && !Ended(data[id].state);
      if exists id :: id in conflicts && (router || data[id].router)
                      && (Recoverable(data[id].state) || data[id].state == Active) {
        return Some(RouterRequiresUndeploy);
      }
      if exists id :: id in conflicts && data[id].state == Unknown && data[id].provenance != Some(tag) {
        return Some(ForeignInterruptedRecord);
      }
      if exists id :: id in conflicts && Some(id) != resume {
        return Some(ExistingDeployment);
      }
      return None;
    }

    // The change to the loaded rows when record id is to be resumed.
    method Resume(data: Store, r: Record, tag: Provenance, id: string, now: int)
      returns (outcome: Admission, rows: Store)
      ensures outcome == ResumeCandidate(data, r, tag, id, now).0 && rows == ResumeCandidate(data, r, tag, id, now).1
    {
      rows := data;
      if id !in data || data[id].provenance != Some(tag) || data[id].deviceId != tag.deviceId {
        return Refused(RecordConflict), rows;
      }
      var existing := data[id];
      if existing.state != Planned && !(existing.state == Unknown && existing.recovery.Some?) {
        return Refused(ExistingDeployment), rows;
      }
      if existing.journal.None? {
        if existing.recovery.Some? && existing.recovery.value.interruptedFrom == Planned {
          existing := existing.(state := Planned, finishedAt := None);
        }
        return Resumed(existing), rows[id := existing];
      }
      if existing.state != Unknown || !Settled(existing.journal) {
        return RecoveryRequired(existing), rows;
      }
      if r.recordId in data {
        return Refused(RecordConflict), rows;
      }
      rows := rows[id := existing.(state := Abandoned, finishedAt := Some(now))];
      var successor := r.(provenance := Some(tag), predecessor := Some(id));
      successor := successor.(state := Planned, plannedAt := Some(now), finishedAt := None);
      return Created(successor), rows[r.recordId := successor];
    }

    method DecideAdmission(data: Store, r: Record, tag: Provenance, authority: Option<AuthorityRefusal>,
                           resume: Option<string>, router: bool, now: int) returns (outcome: Admission, rows: Store)
      ensures outcome == AdmitCandidate(data, r, tag, authority, resume, router, now).0
      ensures rows == AdmitCandidate(data, r, tag, authority, resume, router, now).1
    {
      var refusal := RefuseEarly(data, tag, authority, resume, router || r.router);
      if refusal.Some? {
        return Refused(refusal.value), data;
      }
      if resume.Some? {
        outcome, rows := Resume(data, r, tag, resume.value, now);
        return;
      }
      if r.recordId in data {
        return Refused(RecordConflict), data;
      }
      var record := r.(provenance := Some(tag), state := Planned, plannedAt := Some(now), finishedAt := None);
      return Created(record), data[r.recordId := record];
    }

    method WriteAdmission(r: Record, tag: Provenance, authority: Option<AuthorityRefusal>,
                          resume: Option<string>, router: bool, now: int) returns (admitted: Result<Admission, Failure>)
      modifies this
      ensures Admitted(old(records), Admit(old(records), r, tag, authority, resume, router, now), records, admitted)
    {
      if !AdmissionArguments(r, tag, resume) {
        return Err(InvalidRecord);
      }
      var outcome, candidate := DecideAdmission(records, r, tag, authority, resume, router, now);
      if outcome.Refused? || outcome.RecoveryRequired? {
        return Ok(outcome);
      }
      var failure := Commit(candidate);
      admitted := if failure.None? then Ok(outcome) else Err(failure.value);
    }

    method WriteEvent(id: string, q: Iox.Request) returns (failure: Option<Failure>)
      modifies this
      ensures Outcome(old(records), DeploymentRecords.IoxEvent(old(records), id, q), records, failure)
    {
      if id !in records || records[id].journal.None? {
        return Some(NoJournal);
      }
      var j := records[id].journal.value;
      var phase := j.progress.phase;
      if !Iox.EventOk(q.event) {
        return Some(Journal(Iox.BadEvidence));
      }
      if j.binding.transactionId != q.transactionId {
        return Some(Journal(Iox.TransactionMismatch));
      }
      if j.revision != q.revision || phase != q.phase {
        return Some(Journal(Iox.StaleRevision));
      }
      var needs := Iox.NeedsCapability(q.event, phase);
      if needs && q.capability.None? {
        return Some(Journal(Iox.CapabilityRequired));
      }
      if !needs && q.capability.Some? {
        return Some(Journal(Iox.UnexpectedCapability));
      }
      var refs := Iox.MergeTranscriptRefs(j.refs, Iox.EventRefs(q.event));
      if refs.Err? {
        return Some(Journal(refs.error));
      }
      var progress := Iox.Branch(j.binding, j.progress, q.event);
      if progress.Err? {
        return Some(Journal(progress.error));
      }
      var candidate := Iox.Stamp(j, progress.value, refs.value, q.now);
      if candidate.Err? {
        return Some(Journal(candidate.error));
      }
      if !Iox.ShapeValid(candidate.value, j.binding.recordId) {
        return Some(Journal(Iox.ShapeRejected));
      }
      if !q.transcriptsAgree {
        return Some(Journal(Iox.TranscriptAuthority));
      }
      if q.capability.Some? && !Iox.Authorizes(q.capability.value, j, q.event) {
        return Some(Journal(Iox.CapabilityMismatch));
      }
      failure := Commit(records[id := records[id].(journal := Some(candidate.value))]);
    }

    method WriteBegun(id: string, journal: Iox.Journal, board: string) returns (failure: Option<Failure>)
      modifies this
      ensures Outcome(old(records), BeginWith(old(records), id, journal, board), records, failure)
    {
      if id !in records {
        return Some(UnknownRecord);
      }
      var record := records[id];
      if record.adopted {
        return Some(AdoptedRecord);
      }
      if record.journal.Some? {
        return Some(JournalExists);
      }
      if record.deviceIdentity.Some? && record.deviceIdentity.value != board {
        return Some(IdentityMismatch);
      }
      if exists x :: x in records && Obliged(records[x]) && records[x].journal.value.binding.boardIdentity == board {
        return Some(BoardBusy);
      }
      failure := Commit(records[id := record.(journal := Some(journal))]);
    }

    method WriteCleanup(id: string, transactionId: string, revision: int, phase: Iox.Phase, pending: bool, now: int)
      returns (failure: Option<Failure>)
      modifies this
      ensures Outcome(old(records),
                      DeploymentRecords.IoxCleanup(old(records), id, transactionId, revision, phase, pending, now),
                      records, failure)
    {
      if id !in records || records[id].journal.None? {
        return Some(NoJournal);
      }
      var j := records[id].journal.value;
      if !Iox.IsTerminal(phase) {
        return Some(Journal(Iox.CleanupState));
      }
      if j.binding.transactionId != transactionId {
        return Some(Journal(Iox.TransactionMismatch));
      }
      if j.revision != revision || j.progress.phase != phase {
        return Some(Journal(Iox.StaleRevision));
      }
      if pending == j.cleanupPending {
        return Some(Journal(Iox.CleanupState));
      }
      if !Natural(now) {
        return Some(Journal(Iox.BadClock));
      }
      if !Natural(j.revision + 1) {
        return Some(Journal(Iox.RevisionLimit));
      }
      var candidate := j.(cleanupPending := pending, revision := j.revision + 1, updatedAt := Max(now, j.updatedAt));
      if !Iox.ShapeValid(candidate, j.binding.recordId) {
        return Some(Journal(Iox.ShapeRejected));
      }
      failure := Commit(records[id := records[id].(journal := Some(candidate))]);
    }

    // ----- the calls, as a caller sees them -----

    method Create(r: Record, now: int) returns (failure: Option<Failure>)
      requires Valid()
      modifies this
      ensures Valid() && KeepsUp(old(records), records, None)
      ensures failure.None? <==> Presentable(r) && r.recordId != "" && r.recordId !in old(records)
      ensures failure.Some? ==> records == old(records)
      ensures failure.None? ==>
        records == old(records)[r.recordId := r.(state := Planned, plannedAt := Some(now), finishedAt := None)]
    {
      ghost var before := records;
      failure := WriteCreated(r, now);
      Met(before, DoCreate(r, now), DeploymentRecords.Create(before, r, now), records, failure);
      CreateAccepted(before, r, now);
    }

    method Adopt(r: Record, now: int) returns (failure: Option<Failure>)
      requires Valid()
      modifies this
      ensures Valid() && KeepsUp(old(records), records, None)
      ensures failure.None? <==>
                Presentable(r) && r.state == Planned && r.recordId != "" && r.recordId !in old(records)
      ensures records == if failure.None? then AdoptCandidate(old(records), r, now) else old(records)
      ensures failure.None? ==> OnlyActive(records, r.recordId, r.deviceId) && AdoptDoes(old(records), records, r, now)
    {
      ghost var before := records;
      failure := WriteAdopted(r, now);
      Met(before, DoAdopt(r, now), DeploymentRecords.Adopt(before, r, now), records, failure);
      AdoptAccepted(before, r, now);
      if failure.None? {
        AuthorityMatchesKeys(before);
        AdoptOnlyActive(before, r, now);
        AdoptEffect(before, r, now);
      }
    }

    method Transition(id: string, to: State, evidence: Option<string>, now: int) returns (failure: Option<Failure>)
      requires Valid()
      modifies this
      ensures Valid() && KeepsUp(old(records), records, None)
      ensures failure.None? <==> id in old(records) && Allowed(old(records)[id].state, to)
      ensures records == if failure.Some? then old(records)
                         else TransitionCandidate(old(records), id, to, evidence, now)
      ensures failure.None? && to == Active ==> OnlyActive(records, id, records[id].deviceId)
      ensures failure.None? ==> TransitionDoes(old(records), records, id, to, evidence, now)
    {
      ghost var before := records;
      failure := WriteTransition(id, to, evidence, now);
      Met(before, DoTransition(id, to, evidence, now),
          DeploymentRecords.Transition(before, id, to, evidence, now), records, failure);
      TransitionAccepted(before, id, to, evidence, now);
      if failure.None? {
        TransitionEffect(before, id, to, evidence, now);
        if to == Active {
          AuthorityMatchesKeys(before);
          TransitionOnlyActive(before, id, evidence, now);
        }
      }
    }

    method RetirePlanned(id: string, now: int) returns (failure: Option<Failure>)
      requires Valid()
      modifies this
      ensures Valid() && KeepsUp(old(records), records, HandedBackBy(old(records), DoRetirePlanned(id, now)))
      ensures failure.None? <==> id in old(records)
      ensures Outcome(old(records), DeploymentRecords.RetirePlanned(old(records), id, now), records, failure)
      ensures if failure.None? then RetirePlannedDoes(old(records), records, id, now) else records == old(records)
    {
      ghost var before := records;
      failure := WriteRetirement(id, now);
      if failure.None? {
        RetirePlannedEffect(before, id, now);
      }
      Met(before, DoRetirePlanned(id, now), DeploymentRecords.RetirePlanned(before, id, now), records, failure);
      RetirePlannedAccepted(before, id, now);
    }

    method RetireDevice(deviceId: string, reason: string, now: int)
      returns (failure: Option<Failure>, retired: set<string>)
      requires Valid()
      modifies this
      ensures Valid() && KeepsUp(old(records), records, None)
      ensures failure.None? && records == RetireDeviceCandidate(old(records), deviceId, reason, now)
      ensures retired == Conflicts(old(records), deviceId) && Conflicts(records, deviceId) == {}
      ensures RetireDeviceDoes(old(records), records, deviceId, reason, now)
    {
      ghost var before := records;
      RetireDeviceEffect(before, deviceId, reason, now);
      failure, retired := WriteRetiredDevice(deviceId, reason, now);
      RetireDeviceMeets(before, deviceId, reason, now, records, failure);
    }

    method RecoverInterrupted(fits: set<string>, now: int) returns (failure: Option<Failure>)
      requires Valid()
      modifies this
      ensures Valid() && KeepsUp(old(records), records, None)
      ensures failure.None? <==> Natural(now) || !Interrupting(old(records), fits)
      ensures records == if failure.None? then RecoverCandidate(old(records), fits, now) else old(records)
      ensures failure.None? ==> RecoverDoes(old(records), records, fits, now)
    {
      ghost var before := records;
      RecoverEffect(before, fits, now);
      AuthorityMatchesKeys(records);
      failure := WriteRecovery(fits, now);
      RecoverMeets(before, fits, now, records, failure);
    }

    // Admit new work, resume the device's own interrupted record, or succeed it.
    method AdmitScheduled(r: Record, tag: Provenance, authority: Option<AuthorityRefusal>,
                          resume: Option<string>, router: bool, now: int) returns (admitted: Result<Admission, Failure>)
      requires Valid()
      modifies this
      ensures Valid() && KeepsUp(old(records), records, None)
      ensures Admitted(old(records), Admit(old(records), r, tag, authority, resume, router, now), records, admitted)
      ensures admitted.Ok? <==> AdmissionArguments(r, tag, resume)
      ensures admitted.Ok? ==> DecisionHolds(old(records), admitted.value, records, tag.deviceId)
      ensures admitted.Ok? ==>
        Decided(old(records), Call(r, tag, authority, resume, router, now), admitted.value, records)
    {
      ghost var before := records;
      admitted := WriteAdmission(r, tag, authority, resume, router, now);
      AdmissionIsAsDecided(before, Call(r, tag, authority, resume, router, now), records, admitted);
      AdmissionMeets(before, r, tag, authority, resume, router, now, records, admitted);
    }

    method IoxEvent(id: string, q: Iox.Request) returns (failure: Option<Failure>)
      requires Valid()
      modifies this
      ensures Valid() && KeepsUp(old(records), records, None)
      ensures Outcome(old(records), DeploymentRecords.IoxEvent(old(records), id, q), records, failure)
      ensures failure.None? <==> EventPasses(old(records), id, q)
      ensures if failure.None? then EventDoes(old(records), records, id, q) else records == old(records)
    {
      ghost var before := records;
      failure := WriteEvent(id, q);
      Met(before, DoIoxEvent(id, q), DeploymentRecords.IoxEvent(before, id, q), records, failure);
      EventAccepted(before, id, q);
      if failure.None? {
        EventEffect(before, id, q);
      }
    }

    // Open a journal on a record that has none, on a board nobody holds.
    method IoxBegin(id: string, transactionId: string, controllerId: string, board: string,
                    wrapperSha256: string, sign: bool, cert: bool,
                    initial: Iox.Observation, ref: Iox.TranscriptRef, now: int) returns (failure: Option<Failure>)
      requires Valid()
      modifies this
      ensures Valid() && KeepsUp(old(records), records, None)
      ensures var j := Iox.Begin(transactionId, id, controllerId, board, wrapperSha256, sign, cert, initial, ref, now);
        && IoxEvents.OpenedAs(j, transactionId, id, controllerId, board, wrapperSha256, sign, cert, initial, ref, now)
        && (failure.None? <==> MayBegin(old(records), id, board) && Iox.ShapeValid(j, id))
        && records == if failure.None? then old(records)[id := old(records)[id].(journal := Some(j))] else old(records)
    {
      ghost var before := records;
      var j := Iox.Begin(transactionId, id, controllerId, board, wrapperSha256, sign, cert, initial, ref, now);
      IoxEvents.BeginOpens(transactionId, id, controllerId, board, wrapperSha256, sign, cert, initial, ref, now);
      failure := WriteBegun(id, j, board);
      Met(before, DoIoxBegin(id, transactionId, controllerId, board, wrapperSha256, sign, cert, initial, ref, now),
          BeginWith(before, id, j, board), records, failure);
      BeginAccepted(before, id, transactionId, controllerId, board, wrapperSha256, sign, cert, initial, ref, now);
    }

    // Raise or clear the instruction-cleanup obligation of a terminal journal.
    method IoxCleanup(id: string, transactionId: string, revision: int, phase: Iox.Phase, pending: bool, now: int)
      returns (failure: Option<Failure>)
      requires Valid()
      modifies this
      ensures Valid() && KeepsUp(old(records), records, None)
      ensures Outcome(old(records),
                      DeploymentRecords.IoxCleanup(old(records), id, transactionId, revision, phase, pending, now),
                      records, failure)
      ensures failure.None? <==> CleanupPasses(old(records), id, transactionId, revision, phase, pending, now)
      ensures if failure.None? then CleanupDoes(old(records), records, id, pending, now) else records == old(records)
    {
      ghost var before := records;
      failure := WriteCleanup(id, transactionId, revision, phase, pending, now);
      Met(before, DoIoxCleanup(id, transactionId, revision, phase, pending, now),
          DeploymentRecords.IoxCleanup(before, id, transactionId, revision, phase, pending, now), records, failure);
      if pending {
        RaisingIsPassed(before, id, transactionId, revision, phase, now);
      } else {
        ClearingIsPassed(before, id, transactionId, revision, phase, now);
      }
      if failure.None? {
        CleanupEffect(before, id, transactionId, revision, phase, pending, now);
      }
    }
  }

  // The journal takes the compare-and-set, and raising an obligation also needs a
  // record nobody names and a board nobody else holds.
  ghost predicate CleanupPasses(s: Store, id: string, transactionId: string, revision: int, phase: Iox.Phase,
                                pending: bool, now: int)
  {
    && id in s && s[id].journal.Some? && IsCurrent(s[id].journal.value, transactionId, revision, phase)
    && (phase == Iox.Restored || phase == Iox.Unchanged || phase == Iox.Relinquished)
    && pending != s[id].journal.value.cleanupPending && IoxEvents.ClockOk(s[id].journal.value, now)
    && (pending ==> Unnamed(s, id) && BoardFree(s, id, s[id].journal.value.binding.boardIdentity))
  }

  // The journal as the caller names it.
  predicate IsCurrent(j: Iox.Journal, transactionId: string, revision: int, phase: Iox.Phase) {
    transactionId == j.binding.transactionId && revision == j.revision && phase == j.progress.phase
  }

  // The obligation was raised or cleared, as one more revision, and nothing else.
  ghost predicate CleanupDoes(s: Store, t: Store, id: string, pending: bool, now: int) {
    id in s && s[id].journal.Some?
    && var j := s[id].journal.value;
       t == s[id := s[id].(journal := Some(j.(cleanupPending := pending, revision := j.revision + 1,
                                                updatedAt := Max(now, j.updatedAt))))]
  }

  lemma RaisingIsPassed(s: Store, id: string, transactionId: string, revision: int, phase: Iox.Phase, now: int)
    requires Authority(s)
    ensures DeploymentRecords.IoxCleanup(s, id, transactionId, revision, phase, true, now).Ok?
       <==> CleanupPasses(s, id, transactionId, revision, phase, true, now)
  {
    CleanupAccepted(s, id, transactionId, revision, phase, now);
    if id in s && s[id].journal.Some? {
      StoredShape(s, id);
      IoxEvents.CleanupGoesThrough(s[id].journal.value, transactionId, revision, phase, true, now);
    }
  }

  lemma ClearingIsPassed(s: Store, id: string, transactionId: string, revision: int, phase: Iox.Phase, now: int)
    requires Authority(s)
    ensures DeploymentRecords.IoxCleanup(s, id, transactionId, revision, phase, false, now).Ok?
       <==> CleanupPasses(s, id, transactionId, revision, phase, false, now)
  {
    ClearingAccepted(s, id, transactionId, revision, phase, now);
    if id in s && s[id].journal.Some? {
      StoredShape(s, id);
      IoxEvents.CleanupGoesThrough(s[id].journal.value, transactionId, revision, phase, false, now);
    }
  }

  lemma CleanupEffect(s: Store, id: string, transactionId: string, revision: int, phase: Iox.Phase,
                      pending: bool, now: int)
    requires Authority(s) && DeploymentRecords.IoxCleanup(s, id, transactionId, revision, phase, pending, now).Ok?
    ensures var c := DeploymentRecords.IoxCleanup(s, id, transactionId, revision, phase, pending, now);
      CleanupDoes(s, c.value, id, pending, now)
  {
    StoredShape(s, id);
    IoxEvents.CleanupGoesThrough(s[id].journal.value, transactionId, revision, phase, pending, now);
    CleanupWritten(s, id, transactionId, revision, phase, pending, now);
  }

  lemma CleanupWritten(s: Store, id: string, transactionId: string, revision: int, phase: Iox.Phase,
                       pending: bool, now: int)
    requires id in s && s[id].journal.Some?
    ensures var c := DeploymentRecords.IoxCleanup(s, id, transactionId, revision, phase, pending, now);
      c.Ok? ==>
        var k := Iox.ApplyCleanup(s[id].journal.value, transactionId, revision, phase, pending, now);
        k.Ok? && c.value == s[id := s[id].(journal := Some(k.value))]
  {
  }

  lemma OutdatedIsNotNewest(s: Store, id: string, newest: string)
    requires KeysMatch(s) && id in s && s[id].state == Active && Newest(s, newest, s[id].deviceId)
    ensures Outdated(s, id) <==> newest != id
  {
    if newest == id {
      NewestIsNotOutdated(s, id, s[id].deviceId);
    }
  }
}
