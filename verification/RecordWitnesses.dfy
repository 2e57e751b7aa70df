// Runs from the empty store into the states the store's refusals speak of, so
// that none of those results is about a store that never comes about.
module RecordWitnesses {
  import opened Common
  import opened DeploymentRecords
  import opened RecordLineage
  import opened RecordAcceptance
  import opened RecordRuns
  import Iox = IoxJournal
  import IoxShape

  // A clean read of the verification state, and the transcript it is in.
  function Read(state: Iox.IoxState, hex: string): Iox.Observation {
    Iox.Observation(state, 1, 1, hex, 0, 0, 0, 0, Some(0), false, false, true)
  }

  function Transcript(hex: string): Iox.TranscriptRef {
    Iox.TranscriptRef(hex, hex, 1, 0, 0, false)
  }

  // The journal opened on record id over that read.
  function Opened(id: string, board: string, state: Iox.IoxState, hex: string, sha: string): Iox.Journal {
    Iox.Begin(hex, id, hex, board, sha, false, false, Read(state, hex), Transcript(hex), 1)
  }

  function Opening(id: string, board: string, state: Iox.IoxState, hex: string, sha: string): Op {
    DoIoxBegin(id, hex, hex, board, sha, false, false, Read(state, hex), Transcript(hex), 1)
  }

  predicate Names(hex: string, sha: string) {
    LowerHex(hex, 32) && LowerHex(sha, 64)
  }

  lemma OpenedShape(id: string, board: string, state: Iox.IoxState, hex: string, sha: string)
    requires RecordIdText(id) && BoardIdText(board) && Names(hex, sha)
    ensures Iox.ShapeValid(Opened(id, board, state, hex, sha), id)
  {
    IoxShape.BeginShape(hex, id, hex, board, sha, false, false, Read(state, hex), Transcript(hex), 1);
  }

  function WithJournal(s: Store, id: string, j: Iox.Journal): Store
    requires id in s
  {
    s[id := s[id].(journal := Some(j))]
  }

  lemma Opens(s: Store, id: string, board: string, state: Iox.IoxState, hex: string, sha: string)
    requires Authority(s) && MayBegin(s, id, board) && RecordIdText(id) && BoardIdText(board) && Names(hex, sha)
    ensures BeginWith(s, id, Opened(id, board, state, hex, sha), board)
         == Ok(WithJournal(s, id, Opened(id, board, state, hex, sha)))
  {
    OpenedShape(id, board, state, hex, sha);
    BeginAccepted(s, id, hex, hex, board, sha, false, false, Read(state, hex), Transcript(hex), 1);
  }

  lemma OpeningStep(s: Store, id: string, board: string, state: Iox.IoxState, hex: string, sha: string)
    ensures Step(s, Opening(id, board, state, hex, sha))
         == Kept(s, BeginWith(s, id, Opened(id, board, state, hex, sha), board))
  {
  }

  lemma EventWritten(s: Store, id: string, q: Iox.Request)
    requires Authority(s) && EventFits(s, id, q)
    ensures IoxEvent(s, id, q) == Ok(WithJournal(s, id, Iox.ApplyEvent(s[id].journal.value, q).value))
  {
    EventIsFitted(s, id, q);
  }

  lemma EventStep(s: Store, id: string, q: Iox.Request)
    ensures Step(s, DoIoxEvent(id, q)) == Kept(s, IoxEvent(s, id, q))
  {
  }

  // The first events after opening: leave a disabled device alone, or intend to
  // disable an enabled one.
  function Leaving(hex: string): Iox.Request {
    Iox.Request(hex, 0, Iox.Observed, Iox.LeaveUnchanged(Iox.InitiallyDisabled, None, []), None, 2, true)
  }

  function Disabling(hex: string): Iox.Request {
    Iox.Request(hex, 0, Iox.Observed, Iox.IntendDisable(Some(Read(Iox.Enabled, hex)), None, []), None, 2, true)
  }

  lemma LeavingSettles(id: string, board: string, hex: string, sha: string)
    requires RecordIdText(id) && BoardIdText(board) && Names(hex, sha)
    ensures var k := Iox.ApplyEvent(Opened(id, board, Iox.Disabled, hex, sha), Leaving(hex));
      k.Ok? && Settled(Some(k.value)) && k.value.revision == 1 && k.value.binding.transactionId == hex
      && k.value.progress.phase == Iox.Unchanged && Iox.ShapeValid(k.value, id) && k.value.updatedAt == 2
  {
    var j := Opened(id, board, Iox.Disabled, hex, sha);
    OpenedShape(id, board, Iox.Disabled, hex, sha);
    IoxShape.ShapePreserved(j, id, Leaving(hex).event, 2);
  }

  lemma DisablingObliges(id: string, board: string, hex: string, sha: string)
    requires RecordIdText(id) && BoardIdText(board) && Names(hex, sha)
    ensures var k := Iox.ApplyEvent(Opened(id, board, Iox.Enabled, hex, sha), Disabling(hex));
      k.Ok? && k.value.unresolved && k.value.binding.boardIdentity == board
  {
    var j := Opened(id, board, Iox.Enabled, hex, sha);
    OpenedShape(id, board, Iox.Enabled, hex, sha);
    assert j.refs[0].id == hex;
    IoxShape.ShapePreserved(j, id, Disabling(hex).event, 2);
  }

  // ----- a record that waits to be succeeded -----

  // The occurrence's first record, on a device that says nothing of its board.
  function First(r: Record, p: string): Record {
    r.(recordId := p, adopted := false, deviceIdentity := None)
  }

  lemma FirstAdmitted(r: Record, p: string, tag: Provenance)
    requires Request(map[], r, tag) && RecordIdText(p)
    ensures var row := Fresh(First(r, p).(provenance := Some(tag)), 1);
      Step(map[], DoAdmit(First(r, p), tag, None, None, false, 1)) == map[p := row]
  {
    var empty: Store := map[];
    assert Conflicts(empty, tag.deviceId) == {};
    AdmitAccepted(empty, First(r, p), tag, None, None, false, 1);
  }

  lemma Transitions(s: Store, id: string, to: State, now: int)
    requires Authority(s) && id in s && Allowed(s[id].state, to) && to != Active
    ensures Transition(s, id, to, None, now) == Ok(s[id := Moved(s[id], to, None, now)])
  {
    TransitionAccepted(s, id, to, None, now);
  }

  lemma TransitionStep(s: Store, id: string, to: State, now: int)
    ensures Step(s, DoTransition(id, to, None, now)) == Kept(s, Transition(s, id, to, None, now))
  {
  }

  lemma Recovers(s: Store, p: string, now: int)
    requires Authority(s) && s.Keys == {p} && Interruptible(s[p].state) && Natural(now)
    ensures Recover(s, {p}, now) == Ok(map[p := Interrupted(s[p], now)])
  {
    RecoverAccepted(s, {p}, now);
    assert RecoverCandidate(s, {p}, now) == map[p := Interrupted(s[p], now)];
  }

  lemma RecoverStep(s: Store, fits: set<string>, now: int)
    ensures Step(s, DoRecover(fits, now)) == Kept(s, Recover(s, fits, now))
  {
  }

  // The calls: admit, start applying, find verification off and leave it so,
  // and recover after a restart.
  function WaitingCalls(r: Record, p: string, tag: Provenance, hex: string, sha: string): seq<Op> {
    [DoAdmit(First(r, p), tag, None, None, false, 1), DoTransition(p, Applying, None, 1),
     Opening(p, "b", Iox.Disabled, hex, sha), DoIoxEvent(p, Leaving(hex)), DoRecover({p}, 3)]
  }

  // The row while it is applied, the journal it then gets, and what is left of it
  // after the restart.
  function ApplyingRow(r: Record, p: string, tag: Provenance): Record {
    Moved(Fresh(First(r, p).(provenance := Some(tag)), 1), Applying, None, 1)
  }

  function Left(p: string, hex: string, sha: string): Result<Iox.Journal, Iox.Refusal> {
    Iox.ApplyEvent(Opened(p, "b", Iox.Disabled, hex, sha), Leaving(hex))
  }

  function Waiting(r: Record, p: string, tag: Provenance, j: Iox.Journal): Record {
    Interrupted(ApplyingRow(r, p, tag).(journal := Some(j)), 3)
  }

  datatype Trace = Trace(stores: seq<Store>, calls: seq<Op>)

  // A run that ends in this store.
  ghost predicate Leads(trace: Trace, s: Store) {
    Run(trace.stores, trace.calls) && trace.stores[|trace.calls|] == s
  }

  lemma Onwards(trace: Trace, s: Store, op: Op, t: Store) returns (longer: Trace)
    requires Leads(trace, s) && Step(s, op) == t
    ensures Leads(longer, t) && longer.calls == trace.calls + [op]
  {
    longer := Trace(trace.stores + [t], trace.calls + [op]);
  }

  lemma NothingYet() returns (trace: Trace)
    ensures Leads(trace, map[]) && trace.calls == []
  {
    trace := Trace([map[]], []);
  }

  lemma ReachedAuthority(trace: Trace, s: Store)
    requires Leads(trace, s)
    ensures Authority(s)
  {
    RunSound(trace.stores, trace.calls, |trace.calls|);
  }

  lemma ApplyingIsReached(r: Record, p: string, tag: Provenance) returns (trace: Trace)
    requires Request(map[], r, tag) && RecordIdText(p)
    ensures Leads(trace, map[p := ApplyingRow(r, p, tag)])
    ensures trace.calls
         == [DoAdmit(First(r, p), tag, None, None, false, 1), DoTransition(p, Applying, None, 1)]
  {
    trace := NothingYet();
    FirstAdmitted(r, p, tag);
    var s := map[p := Fresh(First(r, p).(provenance := Some(tag)), 1)];
    trace := Onwards(trace, map[], DoAdmit(First(r, p), tag, None, None, false, 1), s);
    ReachedAuthority(trace, s);
    Transitions(s, p, Applying, 1);
    TransitionStep(s, p, Applying, 1);
    trace := Onwards(trace, s, DoTransition(p, Applying, None, 1), map[p := ApplyingRow(r, p, tag)]);
  }

  lemma OpenedIsReached(before: Trace, s: Store, id: string, board: string, state: Iox.IoxState,
                        hex: string, sha: string) returns (trace: Trace)
    requires Leads(before, s) && MayBegin(s, id, board)
    requires RecordIdText(id) && BoardIdText(board) && Names(hex, sha)
    ensures Leads(trace, WithJournal(s, id, Opened(id, board, state, hex, sha)))
    ensures trace.calls == before.calls + [Opening(id, board, state, hex, sha)]
  {
    ReachedAuthority(before, s);
    Opens(s, id, board, state, hex, sha);
    OpeningStep(s, id, board, state, hex, sha);
    trace := Onwards(before, s, Opening(id, board, state, hex, sha),
                     WithJournal(s, id, Opened(id, board, state, hex, sha)));
  }

  lemma EventIsReached(before: Trace, s: Store, id: string, q: Iox.Request) returns (trace: Trace)
    requires Leads(before, s) && EventFits(s, id, q)
    ensures Leads(trace, WithJournal(s, id, Iox.ApplyEvent(s[id].journal.value, q).value))
    ensures trace.calls == before.calls + [DoIoxEvent(id, q)]
  {
    ReachedAuthority(before, s);
    EventWritten(s, id, q);
    EventStep(s, id, q);
    trace := Onwards(before, s, DoIoxEvent(id, q),
                     WithJournal(s, id, Iox.ApplyEvent(s[id].journal.value, q).value));
  }

  lemma LeftIsReached(before: Trace, row: Record, p: string, hex: string, sha: string) returns (trace: Trace)
    requires Leads(before, map[p := row]) && !row.adopted && row.journal.None? && row.deviceIdentity.None?
    requires RecordIdText(p) && Names(hex, sha)
    ensures Left(p, hex, sha).Ok? && Leads(trace, map[p := row.(journal := Some(Left(p, hex, sha).value))])
    ensures trace.calls == before.calls + [Opening(p, "b", Iox.Disabled, hex, sha), DoIoxEvent(p, Leaving(hex))]
  {
    var j := Opened(p, "b", Iox.Disabled, hex, sha);
    trace := OpenedIsReached(before, map[p := row], p, "b", Iox.Disabled, hex, sha);
    var s := map[p := row.(journal := Some(j))];
    assert WithJournal(map[p := row], p, j) == s;
    LeavingPasses(s, p, hex, sha);
    trace := EventIsReached(trace, s, p, Leaving(hex));
    var k := Left(p, hex, sha).value;
    assert WithJournal(s, p, k) == map[p := row.(journal := Some(k))];
  }

  lemma LeavingPasses(s: Store, p: string, hex: string, sha: string)
    requires p in s && s[p].journal == Some(Opened(p, "b", Iox.Disabled, hex, sha))
    requires RecordIdText(p) && Names(hex, sha)
    ensures Left(p, hex, sha).Ok? && EventFits(s, p, Leaving(hex))
  {
    LeavingSettles(p, "b", hex, sha);
  }

  lemma WaitingIsReached(r: Record, p: string, tag: Provenance, hex: string, sha: string) returns (trace: Trace)
    requires Request(map[], r, tag) && RecordIdText(p) && Names(hex, sha)
    ensures Left(p, hex, sha).Ok? && Leads(trace, map[p := Waiting(r, p, tag, Left(p, hex, sha).value)])
    ensures trace.calls == WaitingCalls(r, p, tag, hex, sha)
  {
    trace := ApplyingIsReached(r, p, tag);
    trace := LeftIsReached(trace, ApplyingRow(r, p, tag), p, hex, sha);
    var s := map[p := ApplyingRow(r, p, tag).(journal := Some(Left(p, hex, sha).value))];
    ReachedAuthority(trace, s);
    Recovers(s, p, 3);
    RecoverStep(s, {p}, 3);
    trace := Onwards(trace, s, DoRecover({p}, 3), map[p := Waiting(r, p, tag, Left(p, hex, sha).value)]);
  }

  lemma WaitingIsReady(r: Record, p: string, tag: Provenance, j: Iox.Journal)
    requires Request(map[], r, tag) && RecordIdText(p) && p != r.recordId && Settled(Some(j))
    ensures var s := map[p := Waiting(r, p, tag, j)]; Ready(s, p, tag) && Request(s, r, tag)
  {
    var s := map[p := Waiting(r, p, tag, j)];
    assert Conflicts(s, tag.deviceId) == {p};
  }

  // For every request there are runs of the store after which an interrupted
  // record of its occurrence waits for it as the cycle results assume.
  lemma ReadyIsReachable(r: Record, p: string, tag: Provenance, hex: string, sha: string)
    returns (trace: Trace, s: Store)
    requires Request(map[], r, tag) && RecordIdText(p) && p != r.recordId && Names(hex, sha)
    ensures Leads(trace, s) && Authority(s) && Ready(s, p, tag) && Request(s, r, tag)
    ensures trace.calls == WaitingCalls(r, p, tag, hex, sha)
    ensures Left(p, hex, sha).Ok? && s[p].journal == Some(Left(p, hex, sha).value)
  {
    trace := WaitingIsReached(r, p, tag, hex, sha);
    s := map[p := Waiting(r, p, tag, Left(p, hex, sha).value)];
    LeavingSettles(p, "b", hex, sha);
    WaitingIsReady(r, p, tag, Left(p, hex, sha).value);
    ReachedAuthority(trace, s);
  }

  lemma CleanupWouldPass(p: string, hex: string, sha: string)
    requires RecordIdText(p) && Names(hex, sha)
    ensures Left(p, hex, sha).Ok?
    ensures Iox.ApplyCleanup(Left(p, hex, sha).value, hex, 1, Iox.Unchanged, true, 6).Ok?
  {
    LeavingSettles(p, "b", hex, sha);
  }

  lemma CycleIsReached(before: Trace, s: Store, a: Attempt, p: string, tag: Provenance) returns (trace: Trace)
    requires Leads(before, s) && Ready(s, p, tag) && Request(s, a.record, tag)
    ensures Leads(trace, After(s, a, p, tag))
    ensures trace.calls == before.calls + [DoAdmit(a.record, tag, None, Some(p), false, a.admittedAt),
                                           DoRetirePlanned(a.record.recordId, a.retiredAt)]
  {
    ReachedAuthority(before, s);
    AdmitStep(s, a, p, tag);
    RetireStep(s, a, p, tag);
    var t := Succeeded(s, a.record, p, tag, a.admittedAt);
    trace := Onwards(before, s, DoAdmit(a.record, tag, None, Some(p), false, a.admittedAt), t);
    trace := Onwards(trace, t, DoRetirePlanned(a.record.recordId, a.retiredAt), After(s, a, p, tag));
  }

  lemma AdmitStep(s: Store, a: Attempt, p: string, tag: Provenance)
    requires Authority(s) && Ready(s, p, tag) && Request(s, a.record, tag)
    ensures Step(s, DoAdmit(a.record, tag, None, Some(p), false, a.admittedAt))
         == Succeeded(s, a.record, p, tag, a.admittedAt)
  {
    ReadyAdmits(s, a.record, p, tag, a.admittedAt);
  }

  lemma RetireStep(s: Store, a: Attempt, p: string, tag: Provenance)
    requires Authority(s) && Ready(s, p, tag) && Request(s, a.record, tag)
    ensures Step(Succeeded(s, a.record, p, tag, a.admittedAt), DoRetirePlanned(a.record.recordId, a.retiredAt))
         == After(s, a, p, tag)
  {
    RetiringUndoesAdmission(s, a.record, p, tag, a.admittedAt, a.retiredAt);
  }

  lemma RefusedByGate(s: Store, p: string, hex: string)
    requires p in s && s[p].journal.Some? && IoxCleanup(s, p, hex, 1, Iox.Unchanged, true, 6).Err?
    requires Iox.ApplyCleanup(s[p].journal.value, hex, 1, Iox.Unchanged, true, 6).Ok?
    ensures IoxCleanup(s, p, hex, 1, Iox.Unchanged, true, 6) == Err(AuthorityRejected)
  {
  }

  // Two calls more, one successor admitted and retired, and the waiting record's
  // journal takes a cleanup obligation that the store then refuses.
  lemma BlockedCleanupIsReachable(r: Record, p: string, tag: Provenance, hex: string, sha: string)
    returns (trace: Trace, s: Store)
    requires Request(map[], r, tag) && RecordIdText(p) && p != r.recordId && Names(hex, sha)
    ensures Leads(trace, s) && p in s && s[p].state == Unknown && s[p].journal.Some?
    ensures Iox.ApplyCleanup(s[p].journal.value, hex, 1, Iox.Unchanged, true, 6).Ok?
    ensures IoxCleanup(s, p, hex, 1, Iox.Unchanged, true, 6) == Err(AuthorityRejected)
    ensures trace.calls == WaitingCalls(r, p, tag, hex, sha)
                           + [DoAdmit(r, tag, None, Some(p), false, 4), DoRetirePlanned(r.recordId, 5)]
  {
    var before;
    trace, before := ReadyIsReachable(r, p, tag, hex, sha);
    var a := Attempt(r, 4, 5);
    trace := CycleIsReached(trace, before, a, p, tag);
    s := After(before, a, p, tag);
    RemovedSuccessorBlocksCleanup(before, a, p, tag, hex, 1, Iox.Unchanged, 6);
    CleanupWouldPass(p, hex, sha);
    RefusedByGate(s, p, hex);
  }

  // ----- two journals on one board -----

  // A record that may get a journal on this board.
  predicate Eligible(r: Record, board: string) {
    && NewRecordOk(r) && RecordIdText(r.recordId) && !r.adopted
    && (r.deviceIdentity.Some? ==> r.deviceIdentity.value == board)
  }

  lemma Creates(s: Store, r: Record)
    requires Authority(s) && NewRecordOk(r) && r.recordId != "" && r.recordId !in s
    ensures Step(s, DoCreate(r, 1)) == s[r.recordId := Fresh(r, 1)]
  {
    CreateAccepted(s, r, 1);
  }

  // The two records, each with the journal given.
  function Pair(a: Record, b: Record, ja: Option<Iox.Journal>, jb: Option<Iox.Journal>): Store {
    map[a.recordId := Fresh(a, 1).(journal := ja), b.recordId := Fresh(b, 1).(journal := jb)]
  }

  lemma BothAreCreated(a: Record, b: Record, board: string) returns (trace: Trace)
    requires Eligible(a, board) && Eligible(b, board) && a.recordId != b.recordId
    ensures Leads(trace, Pair(a, b, None, None))
    ensures trace.calls == [DoCreate(a, 1), DoCreate(b, 1)]
  {
    trace := NothingYet();
    var s := map[a.recordId := Fresh(a, 1)];
    var empty: Store := map[];
    Creates(empty, a);
    trace := Onwards(trace, empty, DoCreate(a, 1), s);
    ReachedAuthority(trace, s);
    Creates(s, b);
    assert Pair(a, b, None, None) == s[b.recordId := Fresh(b, 1)];
    trace := Onwards(trace, s, DoCreate(b, 1), Pair(a, b, None, None));
  }

  // A journal that is only opened does not keep another record off the board.
  lemma PairMayBegin(a: Record, b: Record, board: string, ja: Option<Iox.Journal>, id: string)
    requires Eligible(a, board) && Eligible(b, board) && a.recordId != b.recordId
    requires ja.Some? ==> !ja.value.unresolved && !ja.value.cleanupPending
    requires id == b.recordId || (id == a.recordId && ja.None?)
    ensures MayBegin(Pair(a, b, ja, None), id, board)
  {
  }

  lemma FirstOpens(a: Record, b: Record, board: string, hex: string, sha: string) returns (trace: Trace)
    requires Eligible(a, board) && Eligible(b, board) && a.recordId != b.recordId
    requires BoardIdText(board) && Names(hex, sha)
    ensures Leads(trace, Pair(a, b, Some(Opened(a.recordId, board, Iox.Enabled, hex, sha)), None))
    ensures trace.calls == [DoCreate(a, 1), DoCreate(b, 1), Opening(a.recordId, board, Iox.Enabled, hex, sha)]
  {
    var ja := Opened(a.recordId, board, Iox.Enabled, hex, sha);
    trace := BothAreCreated(a, b, board);
    PairMayBegin(a, b, board, None, a.recordId);
    trace := OpenedIsReached(trace, Pair(a, b, None, None), a.recordId, board, Iox.Enabled, hex, sha);
    assert WithJournal(Pair(a, b, None, None), a.recordId, ja) == Pair(a, b, Some(ja), None);
  }

  lemma BothOpen(a: Record, b: Record, board: string, hex: string, sha: string) returns (trace: Trace)
    requires Eligible(a, board) && Eligible(b, board) && a.recordId != b.recordId
    requires BoardIdText(board) && Names(hex, sha)
    ensures Leads(trace, Pair(a, b, Some(Opened(a.recordId, board, Iox.Enabled, hex, sha)),
                                    Some(Opened(b.recordId, board, Iox.Enabled, hex, sha))))
    ensures trace.calls == [DoCreate(a, 1), DoCreate(b, 1), Opening(a.recordId, board, Iox.Enabled, hex, sha),
                            Opening(b.recordId, board, Iox.Enabled, hex, sha)]
  {
    var ja := Opened(a.recordId, board, Iox.Enabled, hex, sha);
    var jb := Opened(b.recordId, board, Iox.Enabled, hex, sha);
    trace := FirstOpens(a, b, board, hex, sha);
    PairMayBegin(a, b, board, Some(ja), b.recordId);
    trace := OpenedIsReached(trace, Pair(a, b, Some(ja), None), b.recordId, board, Iox.Enabled, hex, sha);
    assert WithJournal(Pair(a, b, Some(ja), None), b.recordId, jb) == Pair(a, b, Some(ja), Some(jb));
  }

  lemma DisablingPasses(s: Store, id: string, board: string, hex: string, sha: string)
    requires id in s && s[id].journal == Some(Opened(id, board, Iox.Enabled, hex, sha))
    requires forall x :: x in s ==> !Obliged(s[x])
    requires RecordIdText(id) && BoardIdText(board) && Names(hex, sha)
    ensures EventFits(s, id, Disabling(hex))
  {
    DisablingObliges(id, board, hex, sha);
  }

  lemma SecondRefused(s: Store, holder: string, id: string, board: string, hex: string, sha: string)
    requires Authority(s) && holder in s && id in s && holder != id && Obliged(s[holder])
    requires s[holder].journal.value.binding.boardIdentity == board
    requires s[id].journal == Some(Opened(id, board, Iox.Enabled, hex, sha))
    requires RecordIdText(id) && BoardIdText(board) && Names(hex, sha)
    ensures Iox.ApplyEvent(s[id].journal.value, Disabling(hex)).Ok?
    ensures IoxEvent(s, id, Disabling(hex)) == Err(AuthorityRejected)
  {
    DisablingObliges(id, board, hex, sha);
    HeldBoardRefusesEvent(s, holder, id, Disabling(hex));
  }

  lemma FirstHolds(a: Record, b: Record, board: string, hex: string, sha: string) returns (trace: Trace, s: Store)
    requires Eligible(a, board) && Eligible(b, board) && a.recordId != b.recordId
    requires BoardIdText(board) && Names(hex, sha)
    ensures Leads(trace, s) && a.recordId in s && b.recordId in s && Obliged(s[a.recordId])
    ensures s[a.recordId].journal.value.binding.boardIdentity == board
    ensures s[b.recordId].journal == Some(Opened(b.recordId, board, Iox.Enabled, hex, sha))
    ensures trace.calls == [DoCreate(a, 1), DoCreate(b, 1), Opening(a.recordId, board, Iox.Enabled, hex, sha),
                            Opening(b.recordId, board, Iox.Enabled, hex, sha),
                            DoIoxEvent(a.recordId, Disabling(hex))]
  {
    var ja := Opened(a.recordId, board, Iox.Enabled, hex, sha);
    var both := Pair(a, b, Some(ja), Some(Opened(b.recordId, board, Iox.Enabled, hex, sha)));
    trace := BothOpen(a, b, board, hex, sha);
    DisablingPasses(both, a.recordId, board, hex, sha);
    DisablingObliges(a.recordId, board, hex, sha);
    trace := EventIsReached(trace, both, a.recordId, Disabling(hex));
    s := WithJournal(both, a.recordId, Iox.ApplyEvent(ja, Disabling(hex)).value);
  }

  // Two records open journals on one board and the first intends its disable. The
  // same event of the second passes all its own checks, and the store refuses it.
  lemma RefusedDisableIsReachable(a: Record, b: Record, board: string, hex: string, sha: string)
    returns (trace: Trace, s: Store)
    requires Eligible(a, board) && Eligible(b, board) && a.recordId != b.recordId
    requires BoardIdText(board) && Names(hex, sha)
    ensures Leads(trace, s) && b.recordId in s && s[b.recordId].journal.Some?
    ensures Iox.ApplyEvent(s[b.recordId].journal.value, Disabling(hex)).Ok?
    ensures IoxEvent(s, b.recordId, Disabling(hex)) == Err(AuthorityRejected)
    ensures trace.calls == [DoCreate(a, 1), DoCreate(b, 1), Opening(a.recordId, board, Iox.Enabled, hex, sha),
                            Opening(b.recordId, board, Iox.Enabled, hex, sha),
                            DoIoxEvent(a.recordId, Disabling(hex))]
  {
    trace, s := FirstHolds(a, b, board, hex, sha);
    ReachedAuthority(trace, s);
    SecondRefused(s, a.recordId, b.recordId, board, hex, sha);
  }
}
