// What one journal event does to the journal: the references it merges and the
// shape it keeps.
module IoxShape {
  import opened Common
  import opened IoxJournal

  // ----- transcript references -----

  predicate DistinctIds(refs: seq<TranscriptRef>) {
    forall i, j :: 0 <= i < j < |refs| ==> refs[i].id != refs[j].id
  }

  // Every incoming reference is well formed, arrives once, and only grows the
  // reference it updates.
  predicate Mergeable(existing: seq<TranscriptRef>, incoming: seq<TranscriptRef>) {
    && (forall i :: 0 <= i < |incoming| ==> RefOk(incoming[i]))
    && DistinctIds(incoming)
    && (forall i :: 0 <= i < |incoming| ==>
          var k := Position(existing, incoming[i].id);
          k < |existing| ==> RefExtends(existing[k], incoming[i]))
  }

  lemma {:induction false} NewRefsFrame(a: seq<TranscriptRef>, b: seq<TranscriptRef>, incoming: seq<TranscriptRef>)
    requires forall i :: 0 <= i < |incoming| ==>
               (Position(a, incoming[i].id) == |a| <==> Position(b, incoming[i].id) == |b|)
    ensures NewRefs(a, incoming) == NewRefs(b, incoming)
  {
    if incoming != [] {
      assert incoming[0] in incoming;
      forall i | 0 <= i < |incoming[1..]|
        ensures Position(a, incoming[1..][i].id) == |a| <==> Position(b, incoming[1..][i].id) == |b|
      {
        assert incoming[1..][i] == incoming[i + 1];
      }
      NewRefsFrame(a, b, incoming[1..]);
    }
  }

  lemma UpdatedStep(ref: TranscriptRef, incoming: seq<TranscriptRef>)
    requires incoming != []
    ensures Updated(ref, incoming) == if ref.id == incoming[0].id then incoming[0] else Updated(ref, incoming[1..])
  {
  }

  // What one successful merge iteration does to the accumulated references.
  ghost predicate Folds(acc: seq<TranscriptRef>, r: TranscriptRef, next: seq<TranscriptRef>) {
    var k := Position(acc, r.id);
    next == if k == |acc| then acc + [r] else acc[k := r]
  }

  lemma FoldsKeepsDistinct(acc: seq<TranscriptRef>, r: TranscriptRef, next: seq<TranscriptRef>)
    requires DistinctIds(acc) && Folds(acc, r, next)
    ensures DistinctIds(next)
  {
  }

  // Folding leaves every entry in place but the one with the folded id.
  lemma FoldsElsewhere(acc: seq<TranscriptRef>, r: TranscriptRef, next: seq<TranscriptRef>, i: nat)
    requires Folds(acc, r, next) && i < |next| && next[i].id != r.id
    ensures i < |acc| && acc[i] == next[i]
  {
  }

  lemma FoldsKeepsFound(acc: seq<TranscriptRef>, r: TranscriptRef, next: seq<TranscriptRef>, x: string)
    requires DistinctIds(acc) && Folds(acc, r, next) && x != r.id && Position(acc, x) < |acc|
    ensures Position(next, x) < |next| && next[Position(next, x)] == acc[Position(acc, x)]
  {
    var p, q := Position(acc, x), Position(next, x);
    assert next[p] == acc[p];
    assert q <= p;
    FoldsElsewhere(acc, r, next, q);
  }

  lemma FoldsKeepsOthers(acc: seq<TranscriptRef>, r: TranscriptRef, next: seq<TranscriptRef>, x: string)
    requires DistinctIds(acc) && Folds(acc, r, next) && x != r.id
    ensures Position(next, x) == |next| <==> Position(acc, x) == |acc|
    ensures Position(acc, x) < |acc| ==> next[Position(next, x)] == acc[Position(acc, x)]
  {
    if Position(acc, x) < |acc| {
      FoldsKeepsFound(acc, r, next, x);
    } else if Position(next, x) < |next| {
      FoldsElsewhere(acc, r, next, Position(next, x));
    }
  }

  lemma FoldsKeepsNewRefs(acc: seq<TranscriptRef>, next: seq<TranscriptRef>, incoming: seq<TranscriptRef>)
    requires incoming != [] && DistinctIds(acc) && DistinctIds(incoming) && Folds(acc, incoming[0], next)
    ensures NewRefs(next, incoming[1..]) == NewRefs(acc, incoming[1..])
  {
    var rest := incoming[1..];
    forall i | 0 <= i < |rest|
      ensures Position(acc, rest[i].id) == |acc| <==> Position(next, rest[i].id) == |next|
    {
      assert rest[i] == incoming[i + 1];
      FoldsKeepsOthers(acc, incoming[0], next, rest[i].id);
    }
    NewRefsFrame(acc, next, rest);
  }

  lemma HeadArrivesOnce(incoming: seq<TranscriptRef>)
    requires incoming != [] && DistinctIds(incoming)
    ensures Updated(incoming[0], incoming[1..]) == incoming[0]
  {
    assert forall i :: 0 <= i < |incoming[1..]| ==> incoming[1..][i] == incoming[i + 1];
  }

  lemma UpdatedPointwise(acc: seq<TranscriptRef>, next: seq<TranscriptRef>, incoming: seq<TranscriptRef>, i: nat)
    requires incoming != [] && DistinctIds(acc) && DistinctIds(incoming) && Folds(acc, incoming[0], next)
    requires i < |acc|
    ensures Updated(acc[i], incoming) == Updated(next[i], incoming[1..])
  {
    UpdatedStep(acc[i], incoming);
    if i == Position(acc, incoming[0].id) {
      HeadArrivesOnce(incoming);
    } else {
      assert next[i] == acc[i];
    }
  }

  lemma Associative<T>(a: seq<T>, b: seq<T>, c: seq<T>)
    ensures a + (b + c) == (a + b) + c
  {
  }

  lemma FoldsLength(acc: seq<TranscriptRef>, r: TranscriptRef, next: seq<TranscriptRef>)
    requires Folds(acc, r, next)
    ensures |next| == |acc| + |NewRefs(acc, [r])|
  {
    NewRefsHead(acc, [r]);
  }

  lemma NewRefsHead(acc: seq<TranscriptRef>, incoming: seq<TranscriptRef>)
    requires incoming != []
    ensures NewRefs(acc, incoming) == NewRefs(acc, [incoming[0]]) + NewRefs(acc, incoming[1..])
    ensures NewRefs(acc, [incoming[0]]) ==
            if Position(acc, incoming[0].id) == |acc| then [incoming[0]] else []
  {
    assert [incoming[0]][1..] == [];
  }

  lemma KnownPart(acc: seq<TranscriptRef>, next: seq<TranscriptRef>, incoming: seq<TranscriptRef>)
    requires incoming != [] && DistinctIds(acc) && DistinctIds(incoming) && Folds(acc, incoming[0], next)
    ensures Known(next, incoming[1..]) ==
            Known(acc, incoming) + NewRefs(acc, [incoming[0]])
  {
    NewRefsHead(acc, [incoming[0]]);
    var right := Known(acc, incoming) + NewRefs(acc, [incoming[0]]);
    forall i | 0 <= i < |next| ensures Known(next, incoming[1..])[i] == right[i] {
      if i < |acc| {
        UpdatedPointwise(acc, next, incoming, i);
      } else {
        HeadArrivesOnce(incoming);
      }
    }
  }

  // Folding the head of the incoming list in leaves the closed form unchanged.
  lemma MergedFormStep(acc: seq<TranscriptRef>, next: seq<TranscriptRef>, incoming: seq<TranscriptRef>)
    requires incoming != [] && DistinctIds(acc) && DistinctIds(incoming) && Folds(acc, incoming[0], next)
    ensures MergedForm(acc, incoming) == MergedForm(next, incoming[1..])
    ensures |next| + |NewRefs(next, incoming[1..])| == |acc| + |NewRefs(acc, incoming)|
  {
    FoldsKeepsNewRefs(acc, next, incoming);
    KnownPart(acc, next, incoming);
    FoldsLength(acc, incoming[0], next);
    NewRefsHead(acc, incoming);
    Associative(Known(acc, incoming), NewRefs(acc, [incoming[0]]), NewRefs(acc, incoming[1..]));
  }

  // An id that comes twice comes twice in the tail or is the head's.
  lemma RepeatRemains(incoming: seq<TranscriptRef>)
    requires incoming != [] && !DistinctIds(incoming)
    ensures !DistinctIds(incoming[1..]) || exists i :: 0 <= i < |incoming[1..]| && incoming[1..][i].id == incoming[0].id
  {
    var i, j :| 0 <= i < j < |incoming| && incoming[i].id == incoming[j].id;
    assert incoming[1..][j - 1] == incoming[j];
    if i > 0 {
      assert incoming[1..][i - 1] == incoming[i];
    }
  }

  // The incoming list is mergeable, brings no id already seen, and fits.
  ghost predicate Accepts(acc: seq<TranscriptRef>, seen: set<string>, incoming: seq<TranscriptRef>) {
    && Mergeable(acc, incoming)
    && (forall i :: 0 <= i < |incoming| ==> incoming[i].id !in seen)
    && |acc| + |NewRefs(acc, incoming)| <= MAX_TRANSCRIPT_REFS
  }

  lemma HeadRefused(acc: seq<TranscriptRef>, seen: set<string>, incoming: seq<TranscriptRef>)
    requires incoming != [] && MergeOne(acc, seen, incoming[0]).Err?
    ensures !Accepts(acc, seen, incoming)
  {
    assert incoming[0] in incoming;
  }

  lemma HeadTaken(acc: seq<TranscriptRef>, seen: set<string>, incoming: seq<TranscriptRef>, next: seq<TranscriptRef>)
    requires DistinctIds(acc) && |acc| <= MAX_TRANSCRIPT_REFS && incoming != []
    requires MergeOne(acc, seen, incoming[0]) == Ok(next) && DistinctIds(incoming)
    ensures Accepts(acc, seen, incoming) <==> Accepts(next, seen + {incoming[0].id}, incoming[1..])
    ensures MergedForm(acc, incoming) == MergedForm(next, incoming[1..])
  {
    var rest := incoming[1..];
    assert forall i :: 0 <= i < |rest| ==> rest[i] == incoming[i + 1];
    MergedFormStep(acc, next, incoming);
    MergeableStep(acc, next, incoming);
  }

  lemma RepeatRefused(acc: seq<TranscriptRef>, seen: set<string>, incoming: seq<TranscriptRef>)
    requires incoming != [] && !DistinctIds(incoming)
    ensures !Accepts(acc, seen + {incoming[0].id}, incoming[1..])
  {
    RepeatRemains(incoming);
  }

  lemma {:induction false} MergeFromIs(acc: seq<TranscriptRef>, seen: set<string>, incoming: seq<TranscriptRef>)
    requires DistinctIds(acc) && |acc| <= MAX_TRANSCRIPT_REFS
    ensures MergeFrom(acc, seen, incoming).Ok? <==> Accepts(acc, seen, incoming)
    ensures MergeFrom(acc, seen, incoming).Ok? ==>
              MergeFrom(acc, seen, incoming).value == MergedForm(acc, incoming)
    decreases |incoming|
  {
    if incoming == [] {
      assert MergedForm(acc, []) == acc;
    } else {
      match MergeOne(acc, seen, incoming[0])
      case Err(_) => HeadRefused(acc, seen, incoming);
      case Ok(next) =>
        FoldsKeepsDistinct(acc, incoming[0], next);
        MergeFromIs(next, seen + {incoming[0].id}, incoming[1..]);
        if DistinctIds(incoming) {
          HeadTaken(acc, seen, incoming, next);
        } else {
          RepeatRefused(next, seen, incoming);
        }
    }
  }

  ghost predicate Grows(existing: seq<TranscriptRef>, ref: TranscriptRef) {
    && RefOk(ref)
    && (var k := Position(existing, ref.id); k < |existing| ==> RefExtends(existing[k], ref))
  }

  lemma MergeableIsGrows(existing: seq<TranscriptRef>, incoming: seq<TranscriptRef>)
    ensures Mergeable(existing, incoming) <==>
              DistinctIds(incoming) && forall i :: 0 <= i < |incoming| ==> Grows(existing, incoming[i])
  {
  }

  lemma MergeableStep(acc: seq<TranscriptRef>, next: seq<TranscriptRef>, incoming: seq<TranscriptRef>)
    requires incoming != [] && DistinctIds(acc) && DistinctIds(incoming)
    requires Grows(acc, incoming[0]) && Folds(acc, incoming[0], next)
    ensures Mergeable(acc, incoming) <==> Mergeable(next, incoming[1..])
  {
    var rest := incoming[1..];
    assert DistinctIds(rest) by {
      assert forall i :: 0 <= i < |rest| ==> rest[i] == incoming[i + 1];
    }
    forall i | 0 <= i < |rest| ensures Grows(acc, incoming[i + 1]) <==> Grows(next, rest[i]) {
      assert rest[i] == incoming[i + 1];
      FoldsKeepsOthers(acc, incoming[0], next, rest[i].id);
    }
    assert (forall i :: 0 <= i < |rest| ==> Grows(next, rest[i]))
      <==> (forall i :: 0 <= i < |incoming| ==> Grows(acc, incoming[i])) by {
      if forall i :: 0 <= i < |rest| ==> Grows(next, rest[i]) {
        forall i | 0 <= i < |incoming| ensures Grows(acc, incoming[i]) {
          if i > 0 { assert Grows(next, rest[i - 1]); }
        }
      }
    }
    MergeableIsGrows(acc, incoming);
    MergeableIsGrows(next, rest);
  }

  // Merging accepts exactly the well-formed growing updates that fit, keeps the
  // known references in place with their newest counters, and appends the rest.
  lemma MergeIsUpdateThenAppend(existing: seq<TranscriptRef>, incoming: seq<TranscriptRef>)
    requires RefsOk(existing)
    ensures Merge(existing, incoming).Ok? <==>
              Mergeable(existing, incoming) && |existing| + |NewRefs(existing, incoming)| <= MAX_TRANSCRIPT_REFS
    ensures Merge(existing, incoming).Ok? ==> Merge(existing, incoming).value == MergedForm(existing, incoming)
  {
    MergeFromIs(existing, {}, incoming);
  }

  lemma {:induction false} MergeFromKeeps(acc: seq<TranscriptRef>, seen: set<string>, incoming: seq<TranscriptRef>)
    requires RefsOk(acc) && MergeFrom(acc, seen, incoming).Ok?
    ensures RefsOk(MergeFrom(acc, seen, incoming).value)
    ensures RefIds(acc) <= RefIds(MergeFrom(acc, seen, incoming).value)
    decreases |incoming|
  {
    if incoming != [] {
      var next := MergeOne(acc, seen, incoming[0]).value;
      FoldsKeepsDistinct(acc, incoming[0], next);
      forall x | x in RefIds(acc) ensures x in RefIds(next) {
        var i :| 0 <= i < |acc| && acc[i].id == x;
        assert next[i].id == x;
      }
      MergeFromKeeps(next, seen + {incoming[0].id}, incoming[1..]);
    }
  }

  // ----- the shape survives every accepted event -----

  // Events whose branch ends the journal.
  predicate Closes(ev: Event) {
    ev.ConfirmRestore? || ev.LeaveUnchanged? || ev.Relinquish? || ev.ReconcileEnabled?
  }

  // The instant the journal will say it was last observed.
  function ReadTime(p: Progress, ev: Event): Option<int> {
    if EventObservation(ev).Some? then Some(EventObservation(ev).value.observedAt)
    else if ev.ConfirmDisable? then Some(ev.confirmation.confirmedAt)
    else p.observedAt
  }

  function EventFault(ev: Event): Option<Fault> {
    if ev.MarkIndeterminate? || ev.RecordFault? then Some(ev.fault) else None
  }

  // The evidence is no later than the clock that stamps it.
  predicate Timely(j: Journal, ev: Event, now: int) {
    var read := ReadTime(j.progress, ev);
    if Closes(ev) then j.createdAt <= now && (read.Some? ==> read.value <= now)
    else read.Some? ==> read.value <= Max(now, j.updatedAt)
  }

  // Every transcript the event's evidence cites is kept by the journal.
  predicate Retained(j: Journal, ev: Event) {
    var refs := Merge(j.refs, EventRefs(ev));
    refs.Ok? ==> ReadKept(refs.value, EventObservation(ev)) && FaultKept(refs.value, EventFault(ev))
  }

  lemma BranchPhase(b: Binding, p: Progress, ev: Event)
    requires PhaseOk(b, p) && Branch(b, p, ev).Ok?
    ensures PhaseOk(b, Branch(b, p, ev).value)
  {
  }

  // After the journal has ended only a fault report is accepted; before that it
  // ends exactly on the closing events.
  lemma BranchEnds(b: Binding, p: Progress, ev: Event)
    requires Branch(b, p, ev).Ok?
    ensures IsTerminal(p.phase) ==> ev.RecordFault? && Branch(b, p, ev).value.phase == p.phase
    ensures !IsTerminal(p.phase) ==> (IsTerminal(Branch(b, p, ev).value.phase) <==> Closes(ev))
  {
  }

  // Where each piece of the new evidence came from.
  lemma BranchSources(b: Binding, p: Progress, ev: Event)
    requires Branch(b, p, ev).Ok?
    ensures var q := Branch(b, p, ev).value;
            && q.observedAt == ReadTime(p, ev)
            && (q.preDisable == p.preDisable || q.preDisable == EventObservation(ev))
            && (q.restore == p.restore || q.restore == EventObservation(ev))
            && (EventObservation(ev).Some? ==>
                  q.preDisable == EventObservation(ev) || q.restore == EventObservation(ev))
            && q.confirmation == (if ev.ConfirmDisable? then Some(ev.confirmation) else p.confirmation)
            && q.fault == (if EventFault(ev).Some? then EventFault(ev) else p.fault)
  {
  }

  lemma BranchEvidence(b: Binding, p: Progress, ev: Event, refs: seq<TranscriptRef>)
    requires EvidenceOk(b, p, refs) && EventOk(ev) && Branch(b, p, ev).Ok?
    ensures EvidenceOk(b, Branch(b, p, ev).value, refs) <==>
              ReadKept(refs, EventObservation(ev)) && FaultKept(refs, EventFault(ev))
  {
    BranchSources(b, p, ev);
  }

  lemma EvidenceGrows(b: Binding, p: Progress, refs: seq<TranscriptRef>, more: seq<TranscriptRef>)
    requires EvidenceOk(b, p, refs) && RefsOk(more) && RefIds(refs) <= RefIds(more)
    ensures EvidenceOk(b, p, more)
  {
  }

  lemma StampTimes(j: Journal, q: Progress, refs: seq<TranscriptRef>, ev: Event, now: int)
    requires TimesOk(j) && EventOk(ev) && Stamp(j, q, refs, now).Ok?
    requires q.observedAt == ReadTime(j.progress, ev)
    requires IsTerminal(q.phase) ==> q.observedAt.Some?
    requires IsTerminal(j.progress.phase) ==> ev.RecordFault? && q.phase == j.progress.phase
    requires !IsTerminal(j.progress.phase) ==> (IsTerminal(q.phase) <==> Closes(ev))
    ensures TimesOk(Stamp(j, q, refs, now).value) <==> Timely(j, ev, now)
  {
  }

  lemma StampShape(j: Journal, containing: string, q: Progress, refs: seq<TranscriptRef>, ev: Event, now: int)
    requires ShapeValid(j, containing) && EventOk(ev)
    requires Branch(j.binding, j.progress, ev) == Ok(q) && Stamp(j, q, refs, now).Ok?
    ensures ShapeValid(Stamp(j, q, refs, now).value, containing)
            <==> Timely(j, ev, now) && EvidenceOk(j.binding, q, refs)
  {
    BranchPhase(j.binding, j.progress, ev);
    BranchEnds(j.binding, j.progress, ev);
    BranchSources(j.binding, j.progress, ev);
    StampTimes(j, q, refs, ev, now);
  }

  // An event its branch accepts yields a well-shaped journal exactly when the
  // evidence is not dated after the clock and its transcripts are retained: the
  // store-wide recheck can refuse an accepted event for no other shape reason.
  lemma ShapePreserved(j: Journal, containing: string, ev: Event, now: int)
    requires ShapeValid(j, containing) && EventOk(ev) && Transition(j, ev, now).Ok?
    ensures ShapeValid(Transition(j, ev, now).value, containing) <==> Timely(j, ev, now) && Retained(j, ev)
  {
    var refs, q := Merge(j.refs, EventRefs(ev)).value, Branch(j.binding, j.progress, ev).value;
    MergeFromKeeps(j.refs, {}, EventRefs(ev));
    EvidenceGrows(j.binding, j.progress, j.refs, refs);
    BranchEvidence(j.binding, j.progress, ev, refs);
    StampShape(j, containing, q, refs, ev, now);
  }

  // With a clock that has not moved back and evidence no later than it, only a
  // missing transcript can fail the recheck.
  lemma MonotoneClockIsTimely(j: Journal, containing: string, ev: Event, now: int)
    requires ShapeValid(j, containing) && Transition(j, ev, now).Ok?
    requires j.updatedAt <= now
    requires EventObservation(ev).Some? ==> EventObservation(ev).value.observedAt <= now
    requires ev.ConfirmDisable? ==> ev.confirmation.confirmedAt <= now
    ensures Timely(j, ev, now)
  {
  }

  // Revision zero is well shaped exactly when its read is not dated ahead.
  lemma BeginShape(transactionId: string, recordId: string, controllerId: string, board: string,
                   wrapperSha256: string, sign: bool, cert: bool,
                   initial: Observation, ref: TranscriptRef, now: int)
    requires LowerHex(transactionId, 32) && RecordIdText(recordId) && LowerHex(controllerId, 32)
    requires BoardIdText(board) && LowerHex(wrapperSha256, 64) && Natural(now)
    requires ObservationOk(initial) && RefOk(ref) && initial.transcriptId == ref.id
    ensures ShapeValid(Begin(transactionId, recordId, controllerId, board, wrapperSha256, sign, cert,
                             initial, ref, now), recordId)
            <==> initial.observedAt <= now
  {
    assert [ref][0] == ref;
  }
}
