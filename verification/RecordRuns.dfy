// Whole runs of the record store from an empty file: one active record per
// device, and history that is never rewritten.
module RecordRuns {
  import opened Common
  import opened DeploymentRecords
  import opened RecordLineage
  import Iox = IoxJournal

  datatype Op =
    | DoCreate(record: Record, now: int)
    | DoAdopt(record: Record, now: int)
    | DoAdmit(record: Record, tag: Provenance, authority: Option<AuthorityRefusal>,
              resume: Option<string>, router: bool, now: int)
    | DoTransition(id: string, to: State, evidence: Option<string>, now: int)
    | DoRetirePlanned(id: string, now: int)
    | DoRetireDevice(deviceId: string, reason: string, now: int)
    | DoRecover(fits: set<string>, now: int)
    | DoIoxBegin(id: string, transactionId: string, controllerId: string, board: string,
                 wrapperSha256: string, sign: bool, cert: bool,
                 initial: Iox.Observation, ref: Iox.TranscriptRef, now: int)
    | DoIoxEvent(id: string, request: Iox.Request)
    | DoIoxCleanup(id: string, transactionId: string, revision: int, phase: Iox.Phase, pending: bool, now: int)

  function Kept(s: Store, r: Result<Store, Failure>): Store {
    if r.Ok? then r.value else s
  }

  // The store after one call; a refused call writes nothing.
  function Step(s: Store, op: Op): Store {
    match op
    case DoCreate(r, now) => Kept(s, Create(s, r, now))
    case DoAdopt(r, now) => Kept(s, Adopt(s, r, now))
    case DoAdmit(r, tag, authority, resume, router, now) =>
      var admitted := Admit(s, r, tag, authority, resume, router, now);
      if admitted.Ok? then admitted.value.1 else s
    case DoTransition(id, to, evidence, now) => Kept(s, Transition(s, id, to, evidence, now))
    case DoRetirePlanned(id, now) => Kept(s, RetirePlanned(s, id, now))
    case DoRetireDevice(deviceId, reason, now) => Kept(s, RetireDevice(s, deviceId, reason, now))
    case DoRecover(fits, now) => Kept(s, Recover(s, fits, now))
    case DoIoxBegin(id, transactionId, controllerId, board, sha, sign, cert, initial, ref, now) =>
      Kept(s, IoxBegin(s, id, transactionId, controllerId, board, sha, sign, cert, initial, ref, now))
    case DoIoxEvent(id, q) => Kept(s, IoxEvent(s, id, q))
    case DoIoxCleanup(id, transactionId, revision, phase, pending, now) =>
      Kept(s, IoxCleanup(s, id, transactionId, revision, phase, pending, now))
  }

  predicate OneActive(s: Store) {
    forall a, b :: a in s && b in s && s[a].state == Active && s[b].state == Active && a != b ==>
      s[a].deviceId != s[b].deviceId
  }

  predicate Sound(s: Store) {
    KeysMatch(s) && OneActive(s)
  }

  // The abandoned row this call hands back: the predecessor of a planned
  // successor being retired.
  function HandedBackBy(s: Store, op: Op): Option<string> {
    if op.DoRetirePlanned? && op.id in s && s[op.id].state == Planned then s[op.id].predecessor else None
  }

  // Rows are never dropped, removed and superseded rows never move, and an
  // abandoned row moves only when it is the one handed back.
  ghost predicate KeepsHistory(s: Store, t: Store, back: Option<string>) {
    forall id :: id in s ==>
      && id in t
      && (s[id].state == Removed ==> t[id].state == Removed)
      && (s[id].state == Superseded ==> t[id].state == Superseded)
      && (s[id].state == Abandoned ==> t[id].state == Abandoned || (back == Some(id) && t[id].state == Unknown))
  }

  // Every active row of t was already active in s.
  ghost predicate NoNewActive(s: Store, t: Store) {
    KeysMatch(t) && forall id :: id in t && t[id].state == Active ==>
      id in s && s[id].state == Active && t[id].deviceId == s[id].deviceId
  }

  lemma ActivationIsSound(s: Store, id: string, now: int)
    requires KeysMatch(s) && id in s
    requires OneActive(s - {id})
    ensures Sound(SupersedeOthers(s, s[id].deviceId, id, now))
  {
    var t := SupersedeOthers(s, s[id].deviceId, id, now);
    assert t[id] == s[id];
    forall a | a in t && t[a].state == Active && a != id
      ensures a in s - {id} && s[a].state == Active && t[a].deviceId == s[a].deviceId != s[id].deviceId
    {
    }
  }

  lemma TransitionSound(s: Store, id: string, to: State, evidence: Option<string>, now: int)
    requires Sound(s) && id in s && Allowed(s[id].state, to)
    ensures Sound(TransitionCandidate(s, id, to, evidence, now))
    ensures KeepsHistory(s, TransitionCandidate(s, id, to, evidence, now), None)
  {
    TransitionContinues(s, id, to, evidence, now);
    if to == Active {
      ActivationIsSound(s[id := Moved(s[id], to, evidence, now)], id, now);
    }
  }

  lemma AdoptSound(s: Store, r: Record, now: int)
    requires Sound(s) && r.recordId !in s
    ensures Sound(AdoptCandidate(s, r, now)) && KeepsHistory(s, AdoptCandidate(s, r, now), None)
  {
    var superseded := SupersedeOthers(s, r.deviceId, r.recordId, now);
    ActivationContinues(s, r.deviceId, r.recordId, now);
    assert forall id :: id in superseded && superseded[id].state == Active ==>
             s[id].state == Active && superseded[id].deviceId != r.deviceId;
    assert KeysMatch(superseded);
  }

  lemma RecoverSound(s: Store, fits: set<string>, now: int)
    requires Sound(s)
    ensures Sound(RecoverCandidate(s, fits, now)) && KeepsHistory(s, RecoverCandidate(s, fits, now), None)
  {
    RecoverContinues(s, fits, now);
  }

  lemma RetireDeviceSound(s: Store, deviceId: string, reason: string, now: int)
    requires Sound(s)
    ensures Sound(RetireDeviceCandidate(s, deviceId, reason, now))
    ensures KeepsHistory(s, RetireDeviceCandidate(s, deviceId, reason, now), None)
  {
    RetireDeviceContinues(s, deviceId, reason, now);
  }

  lemma RetirePlannedSound(s: Store, id: string, now: int)
    requires Sound(s) && id in s && s[id].state == Planned
    requires s[id].predecessor.Some? ==> s[id].predecessor.value in s && s[s[id].predecessor.value].state == Abandoned
    ensures Sound(RetirePlannedCandidate(s, id, now))
    ensures KeepsHistory(s, RetirePlannedCandidate(s, id, now), s[id].predecessor)
  {
  }

  lemma NoNewActiveIsSound(s: Store, t: Store)
    requires Sound(s) && NoNewActive(s, t)
    ensures Sound(t)
  {
  }

  // Admission never touches an active row.
  lemma AdmitSound(s: Store, r: Record, tag: Provenance, authority: Option<AuthorityRefusal>,
                   resume: Option<string>, router: bool, now: int)
    requires Sound(s)
    ensures Sound(AdmitCandidate(s, r, tag, authority, resume, router, now).1)
    ensures KeepsHistory(s, AdmitCandidate(s, r, tag, authority, resume, router, now).1, None)
  {
    var (outcome, t) := AdmitCandidate(s, r, tag, authority, resume, router, now);
    AdmitShape(s, r, tag, authority, resume, router, now);
    KeptIsHistory(s);
    if outcome.Created? && resume.None? {
      CreatedSound(s, outcome.record);
    } else if outcome.Created? {
      SucceededSound(s, r, resume.value, tag, now);
    } else if outcome.Resumed? {
      ResumedSound(s, resume.value);
    }
  }

  lemma CreatedSound(s: Store, added: Record)
    requires Sound(s) && added.recordId !in s && added.state == Planned
    ensures Sound(s[added.recordId := added]) && KeepsHistory(s, s[added.recordId := added], None)
  {
    assert NoNewActive(s, s[added.recordId := added]);
    NoNewActiveIsSound(s, s[added.recordId := added]);
  }

  lemma SucceededSound(s: Store, r: Record, p: string, tag: Provenance, now: int)
    requires Sound(s) && r.recordId !in s && p in s && s[p].state == Unknown
    ensures Sound(Succeeded(s, r, p, tag, now)) && KeepsHistory(s, Succeeded(s, r, p, tag, now), None)
  {
    assert NoNewActive(s, Succeeded(s, r, p, tag, now));
    NoNewActiveIsSound(s, Succeeded(s, r, p, tag, now));
  }

  lemma ResumedSound(s: Store, id: string)
    requires Sound(s) && id in s && (s[id].state == Planned || s[id].state == Unknown)
    ensures Sound(s[id := ResumedRow(s[id])]) && KeepsHistory(s, s[id := ResumedRow(s[id])], None)
  {
    assert NoNewActive(s, s[id := ResumedRow(s[id])]);
    NoNewActiveIsSound(s, s[id := ResumedRow(s[id])]);
  }

  lemma JournalWriteSound(s: Store, id: string, j: Option<Iox.Journal>)
    requires Sound(s) && id in s
    ensures Sound(s[id := s[id].(journal := j)]) && KeepsHistory(s, s[id := s[id].(journal := j)], None)
  {
  }

  // A call ends with its candidate or with the store it started from.
  ghost predicate Lands(s: Store, t: Store, back: Option<string>) {
    Authority(t) && Sound(t) && KeepsHistory(s, t, back)
  }

  lemma CheckedLands(s: Store, candidate: Store, back: Option<string>)
    requires Authority(s) && Sound(s) && Sound(candidate) && KeepsHistory(s, candidate, back)
    ensures Lands(s, Kept(s, Checked(candidate)), back)
  {
  }

  lemma CreateLands(s: Store, r: Record, now: int)
    requires Authority(s) && Sound(s)
    ensures Lands(s, Kept(s, Create(s, r, now)), None)
  {
    if r.recordId !in s {
      CreatedSound(s, Fresh(r, now));
      CheckedLands(s, s[r.recordId := Fresh(r, now)], None);
    }
  }

  lemma AdoptLands(s: Store, r: Record, now: int)
    requires Authority(s) && Sound(s)
    ensures Lands(s, Kept(s, Adopt(s, r, now)), None)
  {
    if r.recordId !in s {
      AdoptSound(s, r, now);
      CheckedLands(s, AdoptCandidate(s, r, now), None);
    }
  }

  lemma AdmitLands(s: Store, r: Record, tag: Provenance, authority: Option<AuthorityRefusal>,
                   resume: Option<string>, router: bool, now: int)
    requires Authority(s) && Sound(s)
    ensures var admitted := Admit(s, r, tag, authority, resume, router, now);
      admitted.Ok? ==> Lands(s, admitted.value.1, None)
  {
    AdmitSound(s, r, tag, authority, resume, router, now);
    KeptIsHistory(s);
    AdmitDecides(s, r, tag, authority, resume, router, now);
  }

  // An admission writes its candidate, checked, or nothing.
  lemma AdmitDecides(s: Store, r: Record, tag: Provenance, authority: Option<AuthorityRefusal>,
                     resume: Option<string>, router: bool, now: int)
    ensures var admitted := Admit(s, r, tag, authority, resume, router, now);
      admitted.Ok? ==>
        admitted.value.1 == s
        || (admitted.value.1 == AdmitCandidate(s, r, tag, authority, resume, router, now).1
            && Authority(admitted.value.1))
  {
  }

  lemma KeptIsHistory(s: Store)
    ensures KeepsHistory(s, s, None)
  {
  }

  lemma TransitionLands(s: Store, id: string, to: State, evidence: Option<string>, now: int)
    requires Authority(s) && Sound(s)
    ensures Lands(s, Kept(s, Transition(s, id, to, evidence, now)), None)
  {
    if id in s && Allowed(s[id].state, to) {
      TransitionSound(s, id, to, evidence, now);
      CheckedLands(s, TransitionCandidate(s, id, to, evidence, now), None);
    }
  }

  lemma RetirePlannedLands(s: Store, id: string, now: int)
    requires Authority(s) && Sound(s)
    ensures Lands(s, Kept(s, RetirePlanned(s, id, now)), HandedBackBy(s, DoRetirePlanned(id, now)))
  {
    if id in s && s[id].state == Planned {
      RetirementKeepsLineage(s, id, now);
      RetirePlannedSound(s, id, now);
      CheckedLands(s, RetirePlannedCandidate(s, id, now), s[id].predecessor);
    }
  }

  // A journal call writes one record's journal, checked, or nothing.
  ghost predicate WritesJournal(s: Store, t: Store, id: string) {
    t == s || (Authority(t) && id in s && id in t && t == s[id := s[id].(journal := t[id].journal)])
  }

  lemma BeginWrites(s: Store, op: Op)
    requires op.DoIoxBegin?
    ensures WritesJournal(s, Step(s, op), op.id)
  {
  }

  lemma EventWrites(s: Store, id: string, q: Iox.Request)
    ensures WritesJournal(s, Step(s, DoIoxEvent(id, q)), id)
  {
  }

  lemma CleanupWrites(s: Store, op: Op)
    requires op.DoIoxCleanup?
    ensures WritesJournal(s, Step(s, op), op.id)
  {
  }

  lemma WrittenLands(s: Store, t: Store, id: string)
    requires Authority(s) && Sound(s) && WritesJournal(s, t, id)
    ensures Lands(s, t, None)
  {
    KeptIsHistory(s);
    if t != s {
      JournalWriteSound(s, id, t[id].journal);
    }
  }

  lemma IoxLands(s: Store, op: Op)
    requires Authority(s) && Sound(s) && (op.DoIoxBegin? || op.DoIoxEvent? || op.DoIoxCleanup?)
    ensures Lands(s, Step(s, op), None)
  {
    match op {
      case DoIoxBegin(_, _, _, _, _, _, _, _, _, _) => BeginWrites(s, op);
      case DoIoxEvent(id, q) => EventWrites(s, id, q);
      case DoIoxCleanup(_, _, _, _, _, _) => CleanupWrites(s, op);
    }
    WrittenLands(s, Step(s, op), op.id);
  }

  lemma StepLands(s: Store, op: Op)
    requires Authority(s) && Sound(s)
    ensures Lands(s, Step(s, op), HandedBackBy(s, op))
  {
    match op
    case DoCreate(r, now) => CreateLands(s, r, now);
    case DoAdopt(r, now) => AdoptLands(s, r, now);
    case DoAdmit(r, tag, authority, resume, router, now) =>
      AdmitLands(s, r, tag, authority, resume, router, now);
    case DoTransition(id, to, evidence, now) => TransitionLands(s, id, to, evidence, now);
    case DoRetirePlanned(id, now) => RetirePlannedLands(s, id, now);
    case DoRetireDevice(deviceId, reason, now) =>
      RetireDeviceSound(s, deviceId, reason, now);
      CheckedLands(s, RetireDeviceCandidate(s, deviceId, reason, now), None);
    case DoRecover(fits, now) =>
      RecoverSound(s, fits, now);
      CheckedLands(s, RecoverCandidate(s, fits, now), None);
    case DoIoxBegin(_, _, _, _, _, _, _, _, _, _) => IoxLands(s, op);
    case DoIoxEvent(_, _) => IoxLands(s, op);
    case DoIoxCleanup(_, _, _, _, _, _) => IoxLands(s, op);
  }

  // ----- runs -----

  // The stores a sequence of calls passes through, starting from a missing file.
  ghost predicate Run(ss: seq<Store>, ops: seq<Op>) {
    && |ss| == |ops| + 1 && ss[0] == map[]
    && forall i :: 0 <= i < |ops| ==> ss[i + 1] == Step(ss[i], ops[i])
  }

  // Every reachable store satisfies the authority rules, its lineage among
  // them, and holds at most one active record per device.
  lemma {:induction false} RunSound(ss: seq<Store>, ops: seq<Op>, n: nat)
    requires Run(ss, ops) && n < |ss|
    ensures Authority(ss[n]) && Sound(ss[n])
  {
    if n > 0 {
      RunSound(ss, ops, n - 1);
      StepLands(ss[n - 1], ops[n - 1]);
      assert ss[n] == Step(ss[n - 1], ops[n - 1]);
    }
  }

  ghost predicate Chain(ss: seq<Store>, ops: seq<Op>) {
    && |ss| == |ops| + 1
    && forall i :: 0 <= i < |ops| ==> KeepsHistory(ss[i], ss[i + 1], HandedBackBy(ss[i], ops[i]))
  }

  lemma RunIsChain(ss: seq<Store>, ops: seq<Op>)
    requires Run(ss, ops)
    ensures Chain(ss, ops)
  {
    forall i | 0 <= i < |ops| ensures KeepsHistory(ss[i], ss[i + 1], HandedBackBy(ss[i], ops[i])) {
      RunSound(ss, ops, i);
      StepLands(ss[i], ops[i]);
      assert ss[i + 1] == Step(ss[i], ops[i]);
    }
  }

  lemma {:induction false} ChainKeepsEnded(ss: seq<Store>, ops: seq<Op>, m: nat, n: nat, id: string)
    requires Chain(ss, ops) && m <= n < |ss| && id in ss[m]
    requires ss[m][id].state == Removed || ss[m][id].state == Superseded
    ensures id in ss[n] && ss[n][id].state == ss[m][id].state
  {
    if m < n {
      ChainKeepsEnded(ss, ops, m, n - 1, id);
      assert KeepsHistory(ss[n - 1], ss[n], HandedBackBy(ss[n - 1], ops[n - 1]));
    }
  }

  // Removed and superseded are final.
  lemma EndedIsFinal(ss: seq<Store>, ops: seq<Op>, m: nat, n: nat, id: string)
    requires Run(ss, ops) && m <= n < |ss| && id in ss[m]
    requires ss[m][id].state == Removed || ss[m][id].state == Superseded
    ensures id in ss[n] && ss[n][id].state == ss[m][id].state
  {
    RunIsChain(ss, ops);
    ChainKeepsEnded(ss, ops, m, n, id);
  }

  lemma {:induction false} ChainExplainsAbandoned(ss: seq<Store>, ops: seq<Op>, m: nat, n: nat, id: string)
    requires Chain(ss, ops) && m <= n < |ss| && id in ss[m] && ss[m][id].state == Abandoned
    requires id !in ss[n] || ss[n][id].state != Abandoned
    ensures exists k :: m <= k < n && HandedBackBy(ss[k], ops[k]) == Some(id)
    decreases n - m
  {
    assert KeepsHistory(ss[m], ss[m + 1], HandedBackBy(ss[m], ops[m]));
    if HandedBackBy(ss[m], ops[m]) != Some(id) {
      ChainExplainsAbandoned(ss, ops, m + 1, n, id);
    }
  }

  // An abandoned record that is no longer abandoned was handed back by the
  // retirement of a planned successor naming it.
  lemma AbandonedLeavesByRetirement(ss: seq<Store>, ops: seq<Op>, m: nat, n: nat, id: string)
    requires Run(ss, ops) && m <= n < |ss| && id in ss[m] && ss[m][id].state == Abandoned
    requires id !in ss[n] || ss[n][id].state != Abandoned
    ensures exists k :: m <= k < n && HandedBackBy(ss[k], ops[k]) == Some(id)
  {
    RunIsChain(ss, ops);
    ChainExplainsAbandoned(ss, ops, m, n, id);
  }

  // ----- what the rules make sure of, in every reachable store -----

  // The occurrence a scheduled record belongs to, on a device that is not the seeder.
  predicate Occurrence(p: Provenance, deviceId: string) {
    && p.deviceId == deviceId && deviceId != "seeder" && 1 <= p.scheduleRev <= 0x7fff_ffff_ffff_ffff
    && LowerHex(p.occurrenceId, 32) && Named(p.scheduleId) && Named(deviceId)
  }

  // Letters, digits, underscores, dashes and dots, up to 64, starting with a letter or
  // a digit.
  predicate Named(s: string) {
    1 <= |s| <= 64 && LetterOrDigit(s[0])
    && forall i :: 0 <= i < |s| ==> LetterOrDigit(s[i]) || s[i] == '_' || s[i] == '-' || s[i] == '.'
  }

  predicate LetterOrDigit(c: char) {
    'A' <= c <= 'Z' || 'a' <= c <= 'z' || '0' <= c <= '9'
  }

  // A record is stored under its own id; a schedule it belongs to is one of its
  // device; it was interrupted only while planned or applied; and adopted records have
  // no journal.
  predicate RowStands(id: string, r: Record) {
    && r.recordId == id && (r.provenance.Some? ==> Occurrence(r.provenance.value, r.deviceId))
    && (r.recovery.Some? ==>
          (r.recovery.value.interruptedFrom == Planned || r.recovery.value.interruptedFrom == Applying)
          && 0 <= r.recovery.value.interruptedAt)
    && (r.journal.Some? ==> !r.adopted && r.journal.value.binding.recordId == id)
  }

  // Whoever names a predecessor names another record of the same device and
  // occurrence, interrupted, with a journal that has ended and nothing outstanding, and
  // abandoned unless the namer is removed itself. No two that are not name the same.
  predicate LineStands(s: Store, id: string)
    requires id in s
  {
    s[id].predecessor.Some? ==>
      var p := s[id].predecessor.value;
      && p in s && p != id && s[id].provenance.Some?
      && s[p].deviceId == s[id].deviceId && s[p].provenance == s[id].provenance && s[p].recovery.Some?
      && s[p].journal.Some? && !s[p].journal.value.unresolved && !s[p].journal.value.cleanupPending
      && (s[p].journal.value.progress.phase == Iox.Restored || s[p].journal.value.progress.phase == Iox.Unchanged
          || s[p].journal.value.progress.phase == Iox.Relinquished)
      && (s[id].state == Removed || s[p].state == Abandoned)
      && forall x :: x in s && x != id && s[x].predecessor == Some(p) ==>
           s[x].state == Removed || s[id].state == Removed
  }

  lemma OccurrenceIs(p: Provenance, deviceId: string)
    requires ProvenanceOk(p, deviceId)
    ensures Occurrence(p, deviceId)
  {
  }

  lemma RunRowsStand(ss: seq<Store>, ops: seq<Op>, n: nat, id: string)
    requires Run(ss, ops) && n < |ss| && id in ss[n]
    ensures RowStands(id, ss[n][id])
  {
    RunSound(ss, ops, n);
    var r := ss[n][id];
    assert RecordOk(r) && r.recordId == id;
    if r.provenance.Some? {
      OccurrenceIs(r.provenance.value, r.deviceId);
    }
  }

  lemma RunLinesStand(ss: seq<Store>, ops: seq<Op>, n: nat, id: string)
    requires Run(ss, ops) && n < |ss| && id in ss[n]
    ensures LineStands(ss[n], id)
  {
    RunSound(ss, ops, n);
    assert LinkOk(ss[n], id) && RecordOk(ss[n][id]);
  }

  // No two records hold one board.
  lemma RunBoardsHeldOnce(ss: seq<Store>, ops: seq<Op>, n: nat, a: string, b: string)
    requires Run(ss, ops) && n < |ss| && a in ss[n] && b in ss[n] && a != b
    requires ss[n][a].journal.Some? && ss[n][b].journal.Some?
    requires var j, k := ss[n][a].journal.value, ss[n][b].journal.value;
      (j.unresolved || j.cleanupPending) && (k.unresolved || k.cleanupPending)
    ensures ss[n][a].journal.value.binding.boardIdentity != ss[n][b].journal.value.binding.boardIdentity
  {
    RunSound(ss, ops, n);
    assert Obliged(ss[n][a]) && Obliged(ss[n][b]);
  }
}
