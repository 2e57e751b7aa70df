// What the lifecycle calls do to each row, state by state, and which moves the
// lifecycle has, told by where they lead.
module RecordEffects {
  import opened Common
  import opened DeploymentRecords

  // The same row in another state, finished at this time.
  function EndedAs(r: Record, state: State, now: int): Record {
    r.(state := state, finishedAt := Some(now))
  }

  // The lifecycle by its targets: who may become what.
  predicate MayBecome(from: State, to: State) {
    match to
    case Planned => false
    case Applying => from == Planned || from == Active || from == Unknown || from == Drifted || from == NeedsReconcile
    case Active => from == Applying
    case Unknown => from == Planned || from == Applying
    case Drifted => from == Active || from == Unknown
    case NeedsReconcile => from == Planned || from == Applying || from == Active || from == Unknown || from == Drifted
    case Removed => from == Planned || from == Applying || from == Active
    case Superseded => from == Active
    case Abandoned => from != Removed && from != Superseded && from != Abandoned
  }

  lemma LifecycleByTarget(from: State, to: State)
    ensures Allowed(from, to) <==> MayBecome(from, to)
  {
  }

  // ----- activation -----

  // What the activation of record keep leaves of another row: actives are superseded,
  // leftovers nobody works on are abandoned, work in flight and history stay.
  predicate Displaced(r: Record, t: Record, deviceId: string, keep: string, now: int) {
    if r.deviceId != deviceId then t == r
    else
      match r.state
      case Active => t == EndedAs(r, Superseded, now)
      case Unknown => t == LeftBehind(r, keep, now)
      case Drifted => t == LeftBehind(r, keep, now)
      case NeedsReconcile => t == LeftBehind(r, keep, now)
      case Planned => t == r
      case Applying => t == r
      case Removed => t == r
      case Superseded => t == r
      case Abandoned => t == r
  }

  function LeftBehind(r: Record, keep: string, now: int): Record {
    EndedAs(r, Abandoned, now).(evidence := AbandonedBecause("superseded by the activation of record " + keep))
  }

  // Only rows but keep's own are displaced.
  ghost predicate Displaces(s: Store, t: Store, deviceId: string, keep: string, now: int) {
    forall id :: id in s && id != keep ==> id in t && Displaced(s[id], t[id], deviceId, keep, now)
  }

  lemma RowDisplaced(r: Record, deviceId: string, keep: string, now: int)
    requires r.recordId != keep
    ensures Displaced(r, AfterActivation(r, deviceId, keep, now), deviceId, keep, now)
  {
  }

  lemma ActivationDisplaces(s: Store, deviceId: string, keep: string, now: int)
    requires RowsOk(s)
    ensures Displaces(s, SupersedeOthers(s, deviceId, keep, now), deviceId, keep, now)
    ensures keep in s ==> SupersedeOthers(s, deviceId, keep, now)[keep] == s[keep]
  {
    forall id | id in s && id != keep
      ensures Displaced(s[id], SupersedeOthers(s, deviceId, keep, now)[id], deviceId, keep, now)
    {
      RowDisplaced(s[id], deviceId, keep, now);
    }
  }

  // ----- one record moves -----

  // The moved row: the new state, evidence if any was given, and a finishing time in
  // the states that end something.
  predicate MovedTo(r: Record, t: Record, to: State, evidence: Option<string>, now: int) {
    && t.state == to
    && t.evidence == (if evidence.None? then r.evidence else Reported(evidence.value))
    && t.finishedAt == (if to == Applying || to == Planned || to == Superseded || to == Abandoned then r.finishedAt
                        else Some(now))
    && t == r.(state := t.state, evidence := t.evidence, finishedAt := t.finishedAt)
  }

  ghost predicate TransitionDoes(s: Store, t: Store, id: string, to: State, evidence: Option<string>, now: int) {
    && t.Keys == s.Keys && id in s && MovedTo(s[id], t[id], to, evidence, now)
    && (if to == Active then Displaces(s, t, s[id].deviceId, id, now)
        else forall x :: x in s && x != id ==> t[x] == s[x])
  }

  lemma TransitionEffect(s: Store, id: string, to: State, evidence: Option<string>, now: int)
    requires RowsOk(s) && id in s
    ensures TransitionDoes(s, TransitionCandidate(s, id, to, evidence, now), id, to, evidence, now)
  {
    var moved := s[id := Moved(s[id], to, evidence, now)];
    var t := TransitionCandidate(s, id, to, evidence, now);
    if to == Active {
      forall x | x in s && x != id ensures Displaced(s[x], t[x], s[id].deviceId, id, now) {
        RowDisplaced(s[x], s[id].deviceId, id, now);
      }
    }
  }

  ghost predicate AdoptDoes(s: Store, t: Store, r: Record, now: int) {
    && t.Keys == s.Keys + {r.recordId}
    && t[r.recordId] == r.(state := Active, adopted := true, plannedAt := Some(now), finishedAt := Some(now))
    && Displaces(s, t, r.deviceId, r.recordId, now)
  }

  lemma AdoptEffect(s: Store, r: Record, now: int)
    requires RowsOk(s) && r.recordId !in s
    ensures AdoptDoes(s, AdoptCandidate(s, r, now), r, now)
  {
    ActivationDisplaces(s, r.deviceId, r.recordId, now);
  }

  // ----- retirement -----

  // A planned record is removed and its predecessor waits again; any other record
  // is left alone.
  ghost predicate RetirePlannedDoes(s: Store, t: Store, id: string, now: int) {
    id in s
    && if s[id].state != Planned then t == s
       else
         && t.Keys == s.Keys && t[id] == EndedAs(s[id], Removed, now)
         && (forall x :: x in s && x != id ==>
               t[x] == if s[id].predecessor == Some(x) then EndedAs(s[x], Unknown, now) else s[x])
  }

  lemma RetirePlannedEffect(s: Store, id: string, now: int)
    requires LineageOk(s) && RetirePlanned(s, id, now).Ok?
    ensures RetirePlannedDoes(s, RetirePlanned(s, id, now).value, id, now)
  {
    assert LinkOk(s, id);
  }

  ghost predicate RetireDeviceDoes(s: Store, t: Store, deviceId: string, reason: string, now: int) {
    t.Keys == s.Keys
    && forall id :: id in s ==>
         t[id] == if s[id].deviceId == deviceId
                     && s[id].state != Removed && s[id].state != Superseded && s[id].state != Abandoned
                  then EndedAs(s[id], Abandoned, now).(evidence := AbandonedBecause(reason))
                  else s[id]
  }

  lemma RetireDeviceEffect(s: Store, deviceId: string, reason: string, now: int)
    ensures RetireDeviceDoes(s, RetireDeviceCandidate(s, deviceId, reason, now), deviceId, reason, now)
  {
  }

  // ----- recovery -----

  // A younger active record of the device: activated later, or planned later, or
  // with the greater id.
  predicate Younger(a: Record, b: Record) {
    b.state == Active && b.deviceId == a.deviceId
    && (OrZero(b.finishedAt) > OrZero(a.finishedAt)
        || (OrZero(b.finishedAt) == OrZero(a.finishedAt)
            && (OrZero(b.plannedAt) > OrZero(a.plannedAt)
                || (OrZero(b.plannedAt) == OrZero(a.plannedAt) && !LexLeq(Codes(b.recordId), Codes(a.recordId))))))
  }

  ghost predicate Outlived(s: Store, id: string)
    requires id in s
  {
    exists other :: other in s && Younger(s[id], s[other])
  }

  // Interrupted work is noted and waits as unknown, outlived actives are superseded,
  // and every other row stays, as does one whose note does not fit.
  ghost predicate RecoverDoes(s: Store, t: Store, fits: set<string>, now: int) {
    t.Keys == s.Keys
    && forall id :: id in s ==>
         t[id] == if id !in fits then s[id]
                  else if s[id].state == Planned || s[id].state == Applying
                  then EndedAs(s[id], Unknown, now).(recovery := Some(Recovery(s[id].state, now)))
                  else if s[id].state == Active && Outlived(s, id) then EndedAs(s[id], Superseded, now)
                  else s[id]
  }

  lemma YoungerIsNewer(a: Record, b: Record)
    requires a.recordId != b.recordId && b.state == Active && b.deviceId == a.deviceId
    ensures Younger(a, b) <==> NotNewer(a, b)
  {
    LexLeqTotal(Codes(a.recordId), Codes(b.recordId));
    if LexLeq(Codes(a.recordId), Codes(b.recordId)) && LexLeq(Codes(b.recordId), Codes(a.recordId)) {
      LexLeqAntisymmetric(Codes(a.recordId), Codes(b.recordId));
      CodesInjective(a.recordId, b.recordId);
      assert false;
    }
  }

  lemma OutlivedIsOutdated(s: Store, id: string)
    requires RowsOk(s) && id in s && s[id].state == Active
    ensures Outlived(s, id) <==> Outdated(s, id)
  {
    if Outlived(s, id) {
      var other :| other in s && Younger(s[id], s[other]);
      LexLeqTotal(Codes(s[id].recordId), Codes(s[id].recordId));
      assert other != id;
      YoungerIsNewer(s[id], s[other]);
    }
    if Outdated(s, id) {
      var other :| other in s && other != id && s[other].state == Active
                   && s[other].deviceId == s[id].deviceId && NotNewer(s[id], s[other]);
      YoungerIsNewer(s[id], s[other]);
    }
  }

  lemma RecoverEffect(s: Store, fits: set<string>, now: int)
    requires RowsOk(s)
    ensures RecoverDoes(s, RecoverCandidate(s, fits, now), fits, now)
  {
    forall id | id in s && s[id].state == Active ensures Outlived(s, id) <==> Outdated(s, id) {
      OutlivedIsOutdated(s, id);
    }
  }
}
