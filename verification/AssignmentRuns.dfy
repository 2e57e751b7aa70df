// What holds after any interleaving of scheduled applies, manual applies,
// replays, reconciliations, acknowledgements, other writers and crashes.
module AssignmentRuns {
  import opened Common
  import opened PolicyRows
  import opened AssignmentProtocol

  // ----- at most one commit per claim -----

  // The catalog commits made for a claim since it was last acknowledged.
  function Commits(log: seq<Entry>, key: Key): seq<Assignment> {
    if log == [] then []
    else
      var last := log[|log| - 1];
      if last == Acknowledged(key) then []
      else Commits(log[..|log| - 1], key)
           + (if last.ScheduledCommit? && last.key == key then [last.assignment] else [])
  }

  lemma CommitsAppend(log: seq<Entry>, e: Entry, key: Key)
    ensures Commits(log + [e], key) ==
            if e == Acknowledged(key) then []
            else Commits(log, key) + (if e.ScheduledCommit? && e.key == key then [e.assignment] else [])
  {
    assert (log + [e])[..|log|] == log;
  }

  // This claim belongs to the apply in flight.
  predicate InHand(s: System, key: Key) {
    && s.flight.Some? && s.flight.value.context.Some? && s.flight.value.pc != Entered
    && KeyOf(s.flight.value.context.value, s.flight.value.order) == key
  }

  // What a claim's recorded result says about the commits made for it.
  ghost predicate ClaimOk(s: System, key: Key) {
    var made := Commits(s.log, key);
    if key !in s.claims then made == [] && !InHand(s, key)
    else
      match s.claims[key].result
      case None =>
        if InHand(s, key) then
          made == (if s.flight.value.pc.Committed? then [s.flight.value.pc.assignment] else [])
        else |made| <= 1
      case Some(Success(a)) => made == [a] && !InHand(s, key)
      case Some(Refusal(reason, _)) =>
        !InHand(s, key) && (if reason == Conflict then |made| <= 1 else made == [])
  }

  ghost predicate ClaimsOk(s: System) {
    HoldsClaim(s) && forall key :: ClaimOk(s, key)
  }

  // Nothing a claim rests on moved.
  lemma ClaimFrame(s: System, t: System, key: Key)
    requires ClaimOk(s, key) && Commits(t.log, key) == Commits(s.log, key)
    requires key in t.claims <==> key in s.claims
    requires key in s.claims ==> t.claims[key].result == s.claims[key].result
    requires InHand(s, key) == InHand(t, key)
    requires InHand(s, key) ==> s.flight.value.pc.Committed? == t.flight.value.pc.Committed?
    requires InHand(s, key) && s.flight.value.pc.Committed? ==> t.flight.value.pc == s.flight.value.pc
    ensures ClaimOk(t, key)
  {
  }

  // The apply in flight was dropped: what it had done so far stays at most one commit.
  lemma ClaimDropped(s: System, key: Key)
    requires ClaimOk(s, key)
    ensures ClaimOk(s.(flight := None), key)
  {
  }

  lemma SavedClaim(s: System, saved: Key, result: Saved, key: Key)
    requires ClaimOk(s, key) && saved in s.claims && s.claims[saved].result.None?
    requires forall k :: InHand(s, k) ==> k == saved
    requires InHand(s, saved) && !s.flight.value.pc.Committed? ==> result.Refusal?
    requires InHand(s, saved) && s.flight.value.pc.Committed? ==> result == Success(s.flight.value.pc.assignment)
    requires !InHand(s, saved) ==> result.Refusal? && result.reason == Conflict
    ensures ClaimOk(Save(s, saved, result), key)
  {
  }

  lemma EnterOk(s: System, f: Flight, key: Key)
    requires ClaimsOk(s) && s.flight == Some(f) && f.pc == Entered
    ensures ClaimOk(AdvanceFlight(s, f, None), key)
  {
    assert ClaimOk(s, key);
    if f.context.Some? {
      var mine := KeyOf(f.context.value, f.order);
      assert ClaimOk(s, mine);
      if mine in s.claims && s.claims[mine].result.None? {
        SavedClaim(s, mine, Refusal(Conflict, f.before), key);
      }
    }
  }

  lemma MovedOk(s: System, f: Flight, g: Flight, key: Key)
    requires ClaimOk(s, key) && s.flight == Some(f) && f.pc.Trying?
    requires g.order == f.order && g.context == f.context && (g.pc.Trying? || g.pc.Rebasing? || g.pc.Rejected?)
    ensures ClaimOk(s.(flight := Some(g)), key)
  {
    ClaimFrame(s, s.(flight := Some(g)), key);
  }

  lemma CommittedOk(s: System, f: Flight, a: Assignment, key: Key)
    requires ClaimOk(s, key) && s.flight == Some(f) && f.pc.Trying?
    requires f.context.Some? ==> KeyOf(f.context.value, f.order) in s.claims
                                 && s.claims[KeyOf(f.context.value, f.order)].result.None?
    ensures ClaimOk(At(s, f, Committed(a)).(policy := s.policy[f.order.device := a.after],
                                            log := s.log + [CommitEntry(f, a)]), key)
  {
    CommitsAppend(s.log, CommitEntry(f, a), key);
  }

  lemma TryOk(s: System, f: Flight, attempt: nat, catalog: Catalog, key: Key)
    requires ClaimOk(s, key) && s.flight == Some(f) && f.pc == Trying(attempt)
    requires f.context.Some? ==> KeyOf(f.context.value, f.order) in s.claims
                                 && s.claims[KeyOf(f.context.value, f.order)].result.None?
    ensures ClaimOk(Try(s, f, attempt, catalog), key)
  {
    match Attempt(catalog, Policy(s, f.order.device), f)
    case Ok(a) => CommittedOk(s, f, a, key);
    case Err(e) => MovedOk(s, f, Try(s, f, attempt, catalog).flight.value, key);
  }

  lemma FinishOk(s: System, f: Flight, result: Saved, key: Key)
    requires ClaimsOk(s) && s.flight == Some(f)
    requires f.pc.Committed? || f.pc.Rejected? || f.pc.Claimed?
    requires if f.pc.Committed? then result == Success(f.pc.assignment) else result.Refusal?
    requires f.context.Some? ==> s.claims[KeyOf(f.context.value, f.order)].result.None?
    ensures ClaimOk(Finish(s, f, result), key)
  {
    assert ClaimOk(s, key);
    if f.context.Some? {
      SavedClaim(s, KeyOf(f.context.value, f.order), result, key);
    }
  }

  // The claim in hand has no result yet.
  lemma InHandIsOpen(s: System, key: Key)
    requires ClaimsOk(s) && InHand(s, key)
    ensures key in s.claims && s.claims[key].result.None?
  {
    assert ClaimOk(s, key);
  }

  lemma AdvanceOk(s: System, f: Flight, catalog: Catalog, key: Key)
    requires ClaimsOk(s) && s.flight == Some(f)
    ensures ClaimOk(AdvanceFlight(s, f, catalog), key)
  {
    assert ClaimOk(s, key);
    if f.context.Some? && f.pc != Entered {
      InHandIsOpen(s, KeyOf(f.context.value, f.order));
    }
    match f.pc
    case Entered => EnterOk(s, f, key);
    case Claimed =>
      if f.context.Some? {
        var t := CheckAuthority(s, f, f.context.value);
        if t.flight.None? {
          FinishOk(s, f, t.claims[KeyOf(f.context.value, f.order)].result.value, key);
        }
      }
    case Trying(attempt) => TryOk(s, f, attempt, catalog, key);
    case Rebasing =>
    case Committed(a) => FinishOk(s, f, Success(a), key);
    case Rejected(reason) => FinishOk(s, f, Refusal(reason, f.before), key);
  }

  lemma StepKeepsHold(s: System, a: Action)
    requires HoldsClaim(s)
    ensures HoldsClaim(Step(s, a))
  {
  }

  lemma StepKeepsClaims(s: System, a: Action)
    requires ClaimsOk(s)
    ensures ClaimsOk(Step(s, a))
  {
    StepKeepsHold(s, a);
    var t := Step(s, a);
    forall key ensures ClaimOk(t, key) {
      assert ClaimOk(s, key);
      match a
      case Begin(_, _) =>
      case Advance(catalog) => if s.flight.Some? { AdvanceOk(s, s.flight.value, catalog, key); }
      case Crash => ClaimDropped(s, key);
      case Capture(device) => CommitsAppend(s.log, Captured(device, Generation(s, device)), key);
      case Reconcile(context, order) =>
        if t != s { SavedClaim(s, KeyOf(context, order), Refusal(Conflict, Policy(s, order.device)), key); }
      case Acknowledge(acked) => CommitsAppend(s.log, Acknowledged(acked), key);
      case OtherWrite(_, _) =>
    }
  }

  // ----- operators come first -----

  predicate IsManual(e: Entry, device: string) {
    e.ManualCommit? && e.device == device
  }

  // A manual apply committed on this device between positions p and q.
  ghost predicate ManualBetween(log: seq<Entry>, device: string, p: int, q: int) {
    exists m :: 0 <= p < m < q <= |log| && IsManual(log[m], device)
  }

  // Every generation handed out for the device is still current or has been
  // overtaken visibly: by a later generation or by the pending flag.
  ghost predicate Guarded(s: System, device: string, flagged: bool) {
    forall p :: 0 <= p < |s.log| && s.log[p].Captured? && s.log[p].device == device ==>
      && s.log[p].generation <= Generation(s, device)
      && (ManualBetween(s.log, device, p, |s.log|) ==> s.log[p].generation < Generation(s, device) || flagged)
  }

  // What the apply in flight knows about the authority row it works under.
  ghost predicate FlightOk(s: System) {
    s.flight.Some? ==>
      var f := s.flight.value;
      var d := f.order.device;
      if f.context.Some? then
        (f.pc.Trying? || f.pc.Rebasing? ==> Generation(s, d) == f.context.value.expectedGeneration && d !in s.pending)
      else
        && (f.pc.Entered? ==> f.wasPending == (d in s.pending))
        && (f.pc.Trying? || f.pc.Rebasing? || f.pc.Rejected? ==> d in s.pending && Guarded(s, d, f.wasPending))
        && (f.pc.Committed? ==> d in s.pending)
  }

  // No scheduled commit in the log was made under a captured generation that a
  // manual commit had overtaken.
  ghost predicate Subordinate(log: seq<Entry>) {
    forall p, q :: 0 <= p < q < |log| && log[q].ScheduledCommit?
                   && log[p] == Captured(log[q].key.1, log[q].expectedGeneration) ==>
      !ManualBetween(log, log[q].key.1, p, q)
  }

  ghost predicate AuthorityOk(s: System) {
    && (forall d :: Guarded(s, d, d in s.pending))
    && FlightOk(s) && Subordinate(s.log)
  }

  lemma GuardedFrame(s: System, t: System, device: string, flagged: bool)
    requires Guarded(s, device, flagged) && t.log == s.log && Generation(s, device) <= Generation(t, device)
    ensures Guarded(t, device, flagged)
  {
  }

  // Another entry in the log: only a manual commit on the device can overtake.
  lemma GuardedAppend(s: System, t: System, e: Entry, device: string, flagged: bool)
    requires Guarded(s, device, flagged) && t.log == s.log + [e]
    requires Generation(t, device) == Generation(s, device)
    requires IsManual(e, device) ==> flagged
    requires e.Captured? && e.device == device ==> e.generation == Generation(s, device)
    ensures Guarded(t, device, flagged)
  {
    forall p | 0 <= p < |t.log| && t.log[p].Captured? && t.log[p].device == device
      ensures t.log[p].generation <= Generation(t, device)
      ensures ManualBetween(t.log, device, p, |t.log|) ==>
                t.log[p].generation < Generation(t, device) || flagged
    {
      if ManualBetween(t.log, device, p, |t.log|) && !IsManual(e, device) {
        var m :| p < m < |t.log| && IsManual(t.log[m], device);
        assert m < |s.log| && t.log[m] == s.log[m] && t.log[p] == s.log[p];
        assert ManualBetween(s.log, device, p, |s.log|);
      }
    }
  }

  lemma SubordinateAppend(log: seq<Entry>, e: Entry)
    requires Subordinate(log)
    requires e.ScheduledCommit? ==> forall p :: 0 <= p < |log| && log[p] == Captured(e.key.1, e.expectedGeneration) ==>
               !ManualBetween(log, e.key.1, p, |log|)
    ensures Subordinate(log + [e])
  {
    var t := log + [e];
    forall p, q | 0 <= p < q < |t| && t[q].ScheduledCommit? && t[p] == Captured(t[q].key.1, t[q].expectedGeneration)
      ensures !ManualBetween(t, t[q].key.1, p, q)
    {
      assert t[p] == log[p];
      if ManualBetween(t, t[q].key.1, p, q) {
        var m :| p < m < q && IsManual(t[m], t[q].key.1);
        assert log[m] == t[m];
        assert ManualBetween(log, t[q].key.1, p, q);
        assert false;
      }
    }
  }

  // A step that leaves generations, pending flags and log alone.
  lemma AuthorityFrame(s: System, t: System)
    requires AuthorityOk(s) && t.log == s.log && t.generations == s.generations && t.pending == s.pending
    requires FlightOk(t)
    ensures AuthorityOk(t)
  {
    forall d ensures Guarded(t, d, d in t.pending) {
      GuardedFrame(s, t, d, d in s.pending);
    }
  }

  lemma AuthorityAppend(s: System, t: System, e: Entry)
    requires AuthorityOk(s) && t.log == s.log + [e] && t.generations == s.generations && t.pending == s.pending
    requires e.ManualCommit? ==> e.device in s.pending
    requires e.Captured? ==> e.generation == Generation(s, e.device)
    requires e.ScheduledCommit? ==> Generation(s, e.key.1) == e.expectedGeneration && e.key.1 !in s.pending
    requires t.flight.Some? ==> t.flight.value.pc.Committed?
    requires t.flight.Some? && t.flight.value.context.None? ==> t.flight.value.order.device in t.pending
    ensures AuthorityOk(t)
  {
    forall d ensures Guarded(t, d, d in t.pending) {
      GuardedAppend(s, t, e, d, d in s.pending);
    }
    if e.ScheduledCommit? {
      assert Guarded(s, e.key.1, e.key.1 in s.pending);
    }
    SubordinateAppend(s.log, e);
  }

  // The apply in flight moved on under the same authority row.
  lemma FlightFrame(s: System, t: System)
    requires FlightOk(s) && s.flight.Some? && t.flight.Some?
    requires t.log == s.log && t.generations == s.generations && t.pending == s.pending
    requires var f, g := s.flight.value, t.flight.value;
             && g.order == f.order && g.context == f.context && g.wasPending == f.wasPending
             && (g.pc == f.pc || ((f.pc.Trying? || f.pc.Rebasing?)
                 && (g.pc.Trying? || g.pc.Rebasing? || g.pc.Rejected?)))
    ensures FlightOk(t)
  {
    var f := s.flight.value;
    if f.context.None? && (f.pc.Trying? || f.pc.Rebasing? || f.pc.Rejected?) {
      GuardedFrame(s, t, f.order.device, f.wasPending);
    }
  }

  lemma TryAuthority(s: System, f: Flight, attempt: nat, catalog: Catalog)
    requires AuthorityOk(s) && s.flight == Some(f) && f.pc == Trying(attempt)
    ensures AuthorityOk(Try(s, f, attempt, catalog))
  {
    match Attempt(catalog, Policy(s, f.order.device), f)
    case Ok(a) => CommitAuthority(s, f, a);
    case Err(e) =>
      FlightFrame(s, Try(s, f, attempt, catalog));
      AuthorityFrame(s, Try(s, f, attempt, catalog));
  }

  lemma CommitAuthority(s: System, f: Flight, a: Assignment)
    requires AuthorityOk(s) && s.flight == Some(f) && f.pc.Trying?
    ensures AuthorityOk(At(s, f, Committed(a)).(policy := s.policy[f.order.device := a.after],
                                                log := s.log + [CommitEntry(f, a)]))
  {
    AuthorityAppend(s, At(s, f, Committed(a)).(policy := s.policy[f.order.device := a.after],
                                               log := s.log + [CommitEntry(f, a)]), CommitEntry(f, a));
  }

  lemma FinishAuthority(s: System, f: Flight, result: Saved)
    requires AuthorityOk(s) && s.flight == Some(f) && (f.pc.Committed? || f.pc.Rejected?)
    requires f.context.Some? ==> KeyOf(f.context.value, f.order) in s.claims
    requires result.Success? <==> f.pc.Committed?
    ensures AuthorityOk(Finish(s, f, result))
  {
    var t := Finish(s, f, result);
    if f.context.Some? {
      AuthorityFrame(s, t);
    } else {
      forall d ensures Guarded(t, d, d in t.pending) {
        if d != f.order.device {
          GuardedFrame(s, t, d, d in s.pending);
        } else if result.Success? {
          assert Guarded(s, d, d in s.pending);
        } else {
          GuardedFrame(s, t, d, f.wasPending);
        }
      }
    }
  }

  lemma EnterAuthority(s: System, f: Flight)
    requires AuthorityOk(s) && s.flight == Some(f) && f.pc == Entered && HoldsClaim(s)
    ensures AuthorityOk(AdvanceFlight(s, f, None))
  {
    var t := AdvanceFlight(s, f, None);
    if f.context.Some? {
      AuthorityFrame(s, t);
    } else {
      forall d ensures Guarded(t, d, d in t.pending) {
        assert Guarded(s, d, d in s.pending);
        GuardedFrame(s, t, d, d in s.pending);
      }
      GuardedFrame(s, t, f.order.device, f.wasPending);
    }
  }

  lemma AdvanceAuthority(s: System, f: Flight, catalog: Catalog)
    requires HoldsClaim(s) && AuthorityOk(s) && s.flight == Some(f)
    ensures AuthorityOk(AdvanceFlight(s, f, catalog))
  {
    match f.pc
    case Entered => EnterAuthority(s, f);
    case Claimed => AuthorityFrame(s, AdvanceFlight(s, f, catalog));
    case Trying(attempt) => TryAuthority(s, f, attempt, catalog);
    case Rebasing =>
      FlightFrame(s, AdvanceFlight(s, f, catalog));
      AuthorityFrame(s, AdvanceFlight(s, f, catalog));
    case Committed(x) => FinishAuthority(s, f, Success(x));
    case Rejected(reason) => FinishAuthority(s, f, Refusal(reason, f.before));
  }

  lemma StepKeepsAuthority(s: System, a: Action)
    requires HoldsClaim(s) && AuthorityOk(s)
    ensures AuthorityOk(Step(s, a))
  {
    var t := Step(s, a);
    match a
    case Begin(_, _) => AuthorityFrame(s, t);
    case Advance(catalog) => if s.flight.Some? { AdvanceAuthority(s, s.flight.value, catalog); }
    case Crash => AuthorityFrame(s, t);
    case Capture(device) => if t != s { AuthorityAppend(s, t, Captured(device, Generation(s, device))); }
    case Reconcile(_, _) => AuthorityFrame(s, t);
    case Acknowledge(key) => if t != s { AuthorityAppend(s, t, Acknowledged(key)); }
    case OtherWrite(device, _) =>
      if s.flight.Some? { FlightFrame(s, t); }
      AuthorityFrame(s, t);
  }

  // ----- runs -----

  // Nothing stored, nobody working.
  predicate Initial(s: System) {
    s.claims == map[] && s.flight.None? && s.log == []
  }

  ghost predicate Run(ss: seq<System>, actions: seq<Action>) {
    && |ss| == |actions| + 1 && Initial(ss[0])
    && forall i :: 0 <= i < |actions| ==> HoldsClaim(ss[i]) && ss[i + 1] == Step(ss[i], actions[i])
  }

  lemma {:induction false} RunKeeps(ss: seq<System>, actions: seq<Action>, n: nat)
    requires Run(ss, actions) && n < |ss|
    ensures ClaimsOk(ss[n]) && AuthorityOk(ss[n])
  {
    if n > 0 {
      RunKeeps(ss, actions, n - 1);
      StepKeepsClaims(ss[n - 1], actions[n - 1]);
      StepKeepsAuthority(ss[n - 1], actions[n - 1]);
      assert ss[n] == Step(ss[n - 1], actions[n - 1]);
    }
  }

  // Whatever was interleaved and wherever it crashed: an unacknowledged claim
  // has committed at most once; a saved success is exactly that commit; a saved
  // refusal other than a conflict means nothing was written.
  lemma ClaimCommitsAtMostOnce(ss: seq<System>, actions: seq<Action>, n: nat, key: Key)
    requires Run(ss, actions) && n < |ss|
    ensures |Commits(ss[n].log, key)| <= 1
    ensures key in ss[n].claims && ss[n].claims[key].result.Some? ==>
              match ss[n].claims[key].result.value
              case Success(a) => Commits(ss[n].log, key) == [a]
              case Refusal(reason, _) => reason != Conflict ==> Commits(ss[n].log, key) == []
  {
    RunKeeps(ss, actions, n);
    assert ClaimOk(ss[n], key);
  }

  // No scheduled apply commits under a generation captured before a manual
  // commit on the same device, even one whose apply never got to raise the
  // generation.
  lemma ScheduledNeverOvertakesManual(ss: seq<System>, actions: seq<Action>, n: nat, p: nat, q: nat)
    requires Run(ss, actions) && n < |ss| && p < q < |ss[n].log|
    requires ss[n].log[q].ScheduledCommit?
    requires ss[n].log[p] == Captured(ss[n].log[q].key.1, ss[n].log[q].expectedGeneration)
    ensures forall m :: p < m < q ==> !IsManual(ss[n].log[m], ss[n].log[q].key.1)
  {
    RunKeeps(ss, actions, n);
    assert !ManualBetween(ss[n].log, ss[n].log[q].key.1, p, q);
  }
}
