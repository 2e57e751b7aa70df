// What a committed assignment leaves in the device's row, over which row it was
// made, and why an attempt is refused.
module AssignmentRows {
  import opened Common
  import opened PolicyRows
  import opened AssignmentProtocol

  // ----- merging -----

  // Where x first appears; the length if it does not.
  function FirstAt(ids: seq<string>, x: string): (k: nat)
    ensures k <= |ids| && (k < |ids| ==> ids[k] == x) && (x in ids ==> k < |ids|)
    ensures forall i :: 0 <= i < k ==> ids[i] != x
  {
    if ids == [] then 0 else if ids[0] == x then 0 else 1 + FirstAt(ids[1..], x)
  }

  // Each id of the two lists once, in the order they first appear.
  ghost predicate Merged(row: seq<string>, requested: seq<string>, after: seq<string>) {
    && Distinct(after) && (forall x :: x in after <==> x in row || x in requested)
    && forall i, j :: 0 <= i < j < |after| ==> FirstAt(row + requested, after[i]) < FirstAt(row + requested, after[j])
  }

  lemma FirstAtExtends(ids: seq<string>, more: seq<string>, x: string)
    requires x in ids
    ensures FirstAt(ids + more, x) == FirstAt(ids, x)
  {
    assert forall i :: 0 <= i < |ids| ==> (ids + more)[i] == ids[i];
  }

  predicate Ordered(ids: seq<string>, picked: seq<string>) {
    forall i, j :: 0 <= i < j < |picked| ==> FirstAt(ids, picked[i]) < FirstAt(ids, picked[j])
  }

  lemma OrderedOneMore(front: seq<string>, last: string, picked: seq<string>)
    requires Ordered(front, picked) && forall x :: x in picked ==> x in front
    ensures Ordered(front + [last], picked)
    ensures last !in front ==> Ordered(front + [last], picked + [last])
  {
    forall x | x in picked ensures FirstAt(front + [last], x) == FirstAt(front, x) < |front| {
      FirstAtExtends(front, [last], x);
    }
    forall i | 0 <= i < |picked| ensures FirstAt(front + [last], picked[i]) == FirstAt(front, picked[i]) < |front| {
      assert picked[i] in picked;
    }
    if last !in front {
      assert FirstAt(front + [last], last) == |front|;
    }
  }

  lemma {:induction false} UniqueKeepsOrder(ids: seq<string>)
    ensures Ordered(ids, Unique(ids))
  {
    if ids != [] {
      var front, last := ids[..|ids| - 1], ids[|ids| - 1];
      assert ids == front + [last];
      UniqueKeepsOrder(front);
      OrderedOneMore(front, last, Unique(front));
    }
  }

  lemma UniqueIsMerged(row: seq<string>, requested: seq<string>)
    ensures Merged(row, requested, Unique(row + requested))
  {
    UniqueKeepsOrder(row + requested);
  }

  // A merge into a row without repetitions starts with that row as it was, and what
  // follows are requested ids it lacked, in request order.
  lemma MergeKeepsRow(row: seq<string>, requested: seq<string>, after: seq<string>)
    requires Merged(row, requested, after) && Distinct(row)
    ensures row <= after
    ensures forall i :: |row| <= i < |after| ==> after[i] in requested && after[i] !in row
    ensures forall i, j :: |row| <= i < j < |after| ==> FirstAt(requested, after[i]) < FirstAt(requested, after[j])
  {
    MergePrefix(row, requested, after, |row|);
    forall i | |row| <= i < |after| ensures after[i] in requested && after[i] !in row {
      assert after[i] in after;
      assert forall k :: 0 <= k < |row| ==> row[k] == after[k] != after[i];
    }
    forall i, j | |row| <= i < j < |after| ensures FirstAt(requested, after[i]) < FirstAt(requested, after[j]) {
      FirstAtSkips(row, requested, after[i]);
      FirstAtSkips(row, requested, after[j]);
    }
  }

  lemma FirstAtSkips(row: seq<string>, requested: seq<string>, x: string)
    requires x !in row && x in requested
    ensures FirstAt(row + requested, x) == |row| + FirstAt(requested, x)
  {
    var all := row + requested;
    assert forall i :: 0 <= i < |row| ==> all[i] == row[i] != x;
    assert forall i :: |row| <= i < |all| ==> all[i] == requested[i - |row|];
    assert all[|row| + FirstAt(requested, x)] == x;
  }

  lemma FirstOfRow(row: seq<string>, requested: seq<string>, k: nat)
    requires Distinct(row) && k < |row|
    ensures FirstAt(row + requested, row[k]) == k
  {
    FirstAtExtends(row, requested, row[k]);
  }

  // The first n ids are those of the row.
  predicate StartsAs(row: seq<string>, after: seq<string>, n: nat) {
    n <= |row| && n <= |after| && forall i :: 0 <= i < n ==> after[i] == row[i]
  }

  lemma {:induction false} MergePrefix(row: seq<string>, requested: seq<string>, after: seq<string>, n: nat)
    requires Merged(row, requested, after) && Distinct(row) && n <= |row|
    ensures StartsAs(row, after, n)
  {
    if n > 0 {
      MergePrefix(row, requested, after, n - 1);
      MergeNext(row, requested, after, n - 1);
    }
  }

  // After the row's first n ids comes the next one.
  lemma MergeNext(row: seq<string>, requested: seq<string>, after: seq<string>, n: nat)
    requires Merged(row, requested, after) && Distinct(row) && n < |row| && StartsAs(row, after, n)
    ensures n < |after| && after[n] == row[n]
  {
    assert row[n] in row && row[n] in after;
    var k :| 0 <= k < |after| && after[k] == row[n];
    FirstOfRow(row, requested, n);
    NextInOrder(row + requested, after, n, k);
  }

  lemma NextInOrder(all: seq<string>, after: seq<string>, n: nat, k: nat)
    requires Ordered(all, after) && Distinct(after) && n < |all| && k < |after|
    requires n <= |after| && forall i :: 0 <= i < n ==> after[i] == all[i]
    requires after[k] == all[n] && FirstAt(all, all[n]) == n
    ensures n < |after| && after[n] == all[n]
  {
    assert n <= k;
    assert FirstAt(all, after[n]) <= n;
    assert forall i :: 0 <= i < n ==> all[i] != after[n];
  }

  // ----- one attempt -----

  // The ids an attempt wants to leave.
  ghost predicate Wanted(f: Flight, ids: seq<string>) {
    if f.order.mode == Merge then Merged(f.before, f.order.requested, ids) else ids == f.order.requested
  }

  // The row the attempt may be made over: a scheduled replacement owns the row
  // captured with its intent; a merge, and a manual replacement that retries, the
  // row they read; any other replacement the row its caller expects, if any.
  predicate MadeOver(f: Flight, row: seq<string>) {
    if f.order.mode == Merge || (f.context.None? && f.order.retryConflict) then row == f.before
    else f.order.expected.Some? ==> row == f.order.expected.value
  }

  predicate AllThere(catalog: Catalog, ids: seq<string>) {
    forall i :: 0 <= i < |ids| ==> catalog.Some? && ids[i] in catalog.value
  }

  predicate NoneQuarantined(catalog: Catalog, ids: seq<string>) {
    catalog.Some? ==> forall i :: 0 <= i < |ids| && ids[i] in catalog.value ==> !catalog.value[ids[i]].quarantined
  }

  // What is reported as removed: what the row had and has no longer, in order.
  ghost predicate Dropped(row: seq<string>, after: seq<string>, removed: seq<string>) {
    (forall x :: x in removed <==> x in row && x !in after) && |removed| == Gone(row, after)
  }

  function Gone(row: seq<string>, after: seq<string>): nat {
    if row == [] then 0 else (if row[0] in after then 0 else 1) + Gone(row[1..], after)
  }

  lemma {:induction false} WithoutDrops(row: seq<string>, after: seq<string>)
    ensures Dropped(row, after, Without(row, after))
  {
    if row != [] {
      WithoutDrops(row[1..], after);
    }
  }

  // Why an attempt is refused, in the order the checks are made.
  predicate RefusedFor(catalog: Catalog, row: seq<string>, f: Flight, ids: seq<string>, why: Reason) {
    match why
    case ExecutionFailed => !AllThere(catalog, ids) || (|ids| <= 10 && !Distinct(ids))
    case CapExceeded => AllThere(catalog, ids) && |ids| > 10
    case ImageQuarantined =>
      AllThere(catalog, ids) && |ids| <= 10 && Distinct(ids) && !NoneQuarantined(catalog, ids)
    case Conflict =>
      AllThere(catalog, ids) && |ids| <= 10 && Distinct(ids) && NoneQuarantined(catalog, ids) && !MadeOver(f, row)
    case ManualOverride => false
  }

  predicate Accepted(catalog: Catalog, row: seq<string>, f: Flight, ids: seq<string>) {
    AllThere(catalog, ids) && |ids| <= 10 && Distinct(ids) && NoneQuarantined(catalog, ids) && MadeOver(f, row)
  }

  // What an attempt comes to, for the ids it wants.
  ghost predicate AnswersFor(catalog: Catalog, row: seq<string>, f: Flight, ids: seq<string>,
                             r: Result<Assignment, PolicyError>)
  {
    && Wanted(f, ids)
    && (r.Ok? ==> Accepted(catalog, row, f, ids) && r.value.before == row && r.value.after == ids
                  && Dropped(row, ids, r.value.removed))
    && (r.Err? ==> RefusedFor(catalog, row, f, ids, ReasonFor(r.error))
                   && (r.error.PolicyConflict? ==> r.error.current == row))
  }

  ghost predicate Answers(catalog: Catalog, row: seq<string>, f: Flight, r: Result<Assignment, PolicyError>) {
    exists ids :: AnswersFor(catalog, row, f, ids, r)
  }

  lemma ExpectationIs(f: Flight, row: seq<string>)
    ensures MadeOver(f, row) <==> (Expectation(f).Some? ==> Expectation(f).value == row)
  {
  }

  lemma TargetIsWanted(f: Flight)
    ensures Wanted(f, Target(f))
  {
    UniqueIsMerged(f.before, f.order.requested);
  }

  // The store's decision on ids that are all in the catalog.
  lemma DecisionIs(catalog: Catalog, row: seq<string>, ids: seq<string>, expected: Option<seq<string>>)
    requires AllThere(catalog, ids)
    ensures var d := Decide(catalog, row, ids, expected);
      var meets := expected.Some? ==> expected.value == row;
      && (d.Ok? <==> |ids| <= 10 && Distinct(ids) && NoneQuarantined(catalog, ids) && meets)
      && (d.Ok? ==> d.value == Assignment(row, ids, Without(row, ids)))
      && (d.Err? ==>
            if |ids| > 10 then d.error.TooManyImages?
            else if !Distinct(ids) then d.error.DuplicateImage?
            else if !NoneQuarantined(catalog, ids) then d.error.QuarantinedImage?
            else d.error == PolicyConflict(row))
  {
    if catalog.Some? {
      FirstBlockedIs(catalog.value, ids);
    }
  }

  lemma AttemptIs(catalog: Catalog, row: seq<string>, f: Flight)
    ensures Attempt(catalog, row, f)
         == if AllThere(catalog, Target(f)) then Decide(catalog, row, Target(f), Expectation(f)) else Err(NoSuchImage)
  {
    var ids := Target(f);
    if !AllThere(catalog, ids) {
      var i :| 0 <= i < |ids| && (catalog.None? || ids[i] !in catalog.value);
      assert ids[i] in ids;
    }
  }

  lemma AttemptAnswers(catalog: Catalog, row: seq<string>, f: Flight)
    ensures Answers(catalog, row, f, Attempt(catalog, row, f))
  {
    var ids := Target(f);
    TargetIsWanted(f);
    WithoutDrops(row, ids);
    ExpectationIs(f, row);
    AttemptIs(catalog, row, f);
    if AllThere(catalog, ids) {
      DecisionIs(catalog, row, ids, Expectation(f));
    }
    assert AnswersFor(catalog, row, f, ids, Attempt(catalog, row, f));
  }

  lemma {:induction false} FirstBlockedIs(catalog: map<string, Image>, ids: seq<string>)
    ensures AllThere(Some(catalog), ids) ==>
      (NoneQuarantined(Some(catalog), ids) <==> Blocked(catalog, ids).None?)
      && (Blocked(catalog, ids).Some? ==> Blocked(catalog, ids).value.QuarantinedImage?)
  {
    if ids != [] {
      FirstBlockedIs(catalog, ids[1..]);
      assert forall i :: 0 < i < |ids| ==> ids[i] == ids[1..][i - 1];
    }
  }

  // ----- every commit of every run -----

  // A committed attempt leaves the row it wants, over the row it may be made over.
  ghost predicate Lawful(f: Flight, row: seq<string>, a: Assignment) {
    && Wanted(f, a.after) && MadeOver(f, row) && a.before == row && Dropped(row, a.after, a.removed)
    && Distinct(a.after) && |a.after| <= 10
  }

  lemma TryCommitsLawfully(s: System, f: Flight, attempt: nat, catalog: Catalog)
    requires Try(s, f, attempt, catalog).policy != s.policy
    ensures var t := Try(s, f, attempt, catalog);
      t.flight.Some? && t.flight.value.pc.Committed?
      && Lawful(f, Policy(s, f.order.device), t.flight.value.pc.assignment)
      && t.policy == s.policy[f.order.device := t.flight.value.pc.assignment.after]
  {
    AttemptAnswers(catalog, Policy(s, f.order.device), f);
  }

  lemma OnlyAttemptsWrite(s: System, f: Flight, catalog: Catalog)
    requires s.flight == Some(f) && HoldsClaim(s) && !f.pc.Trying?
    ensures AdvanceFlight(s, f, catalog).policy == s.policy
  {
  }

  // Rows change only by other writers and by commits, which are lawful and touch
  // their own device's row alone.
  lemma RowsChangeByLawfulCommits(s: System, a: Action)
    requires HoldsClaim(s) && Step(s, a).policy != s.policy
    ensures a.OtherWrite? || (a.Advance? && s.flight.Some? && s.flight.value.pc.Trying?)
    ensures a.Advance? ==>
      var f, t := s.flight.value, Step(s, a);
      t.flight.Some? && t.flight.value.pc.Committed?
      && Lawful(f, Policy(s, f.order.device), t.flight.value.pc.assignment)
      && t.policy == s.policy[f.order.device := t.flight.value.pc.assignment.after]
  {
    if a.Advance? {
      var f := s.flight.value;
      if f.pc.Trying? {
        TryCommitsLawfully(s, f, f.pc.attempt, a.catalog);
      } else {
        OnlyAttemptsWrite(s, f, a.catalog);
      }
    }
  }

  // The same of a merge, in its own words: the row starts as it was and gains the
  // requested ids it lacked.
  lemma MergeCommitKeepsRow(f: Flight, row: seq<string>, a: Assignment)
    requires Lawful(f, row, a) && f.order.mode == Merge && Distinct(row)
    ensures row <= a.after && (forall x :: x !in a.removed)
    ensures forall x :: x in a.after <==> x in row || x in f.order.requested
  {
    MergeKeepsRow(row, f.order.requested, a.after);
  }

  // ----- the other calls -----

  // A capture is refused while an outcome is uncertain; otherwise it records the
  // operator's generation as it stands.
  lemma CaptureTakesGeneration(s: System, device: string)
    requires HoldsClaim(s)
    ensures var t := Step(s, Capture(device));
      if s.flight.Some? || device in s.pending then t == s
      else t == s.(log := s.log + [Captured(device, if device in s.generations then s.generations[device] else 0)])
  {
  }

  // Looking at a claim after a crash settles an unfinished one as a conflict, for good,
  // and changes nothing else; a finished one and a missing one stay as they are.
  lemma ReconcileSettlesUnfinished(s: System, context: Context, order: Order)
    requires HoldsClaim(s) && s.flight.None?
    ensures var key, t := (context.occurrenceId, order.device), Step(s, Reconcile(context, order));
      if key in s.claims && s.claims[key].result.None?
      then t == s.(claims := s.claims[key := s.claims[key].(result :=
                   Some(Refusal(Conflict, if order.device in s.policy then s.policy[order.device] else [])))])
      else t == s
  {
  }

  // An acknowledged claim is forgotten.
  lemma AcknowledgeForgets(s: System, key: Key)
    requires HoldsClaim(s) && s.flight.None?
    ensures Step(s, Acknowledge(key)) == s.(claims := s.claims - {key}, log := s.log + [Acknowledged(key)])
  {
  }
}
