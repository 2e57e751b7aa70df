// The guarded apply as the service runs it: authority and claim tables updated
// statement by statement, with its two-attempt compare-and-set loop.
module AssignmentService {
  import opened Common
  import opened PolicyRows
  import opened AssignmentProtocol
  import opened AssignmentRuns
  import opened AssignmentRows

  // The protocol state a sequence of steps leads to.
  ghost function Play(s: System, actions: seq<Action>): (t: System)
    requires HoldsClaim(s)
    ensures HoldsClaim(t)
  {
    if actions == [] then s
    else
      var before := Play(s, actions[..|actions| - 1]);
      StepKeepsHold(before, actions[|actions| - 1]);
      Step(before, actions[|actions| - 1])
  }

  // The protocol gets from s to t by these steps, none of them a crash.
  ghost predicate Reaches(s: System, actions: seq<Action>, t: System) {
    HoldsClaim(s) && Crash !in actions && Play(s, actions) == t
  }

  lemma OneMore(s: System, actions: seq<Action>, t: System, a: Action)
    requires Reaches(s, actions, t) && a != Crash
    ensures HoldsClaim(t) && Reaches(s, actions + [a], Step(t, a))
  {
    assert (actions + [a])[..|actions|] == actions;
  }

  // How a scheduled apply is answered before it tries anything: an unfinished claim
  // and a flagged device are conflicts, a changed generation means an operator came
  // first, a finished claim answers again with what it recorded, to the same request
  // only. None if it goes on.
  function EntryAnswer(claims: map<Key, Claim>, pending: set<string>, sameGeneration: bool, context: Context,
                       order: Order, before: seq<string>): Option<Saved>
  {
    var key := KeyOf(context, order);
    if key in claims && claims[key].result.Some? then
      var saved := claims[key].result.value;
      Some(if claims[key].context == context && claims[key].order == order then saved
           else Refusal(Conflict, if saved.Success? then saved.assignment.before else saved.ids))
    else if key in claims then Some(Refusal(Conflict, before))
    else if !sameGeneration then Some(Refusal(ManualOverride, before))
    else if order.device in pending then Some(Refusal(Conflict, before))
    else None
  }

  type Rows = map<string, seq<string>>

  function RowIn(rows: Rows, device: string): seq<string> {
    if device in rows then rows[device] else []
  }

  // The rows an apply may have read.
  function Seen(row: seq<string>, drift: Option<seq<string>>): set<seq<string>> {
    {row} + if drift.Some? then {drift.value} else {}
  }

  // One attempt either commits lawfully over the row it found or leaves the rows
  // alone, and if it is rejected it says why.
  ghost predicate TriedOn(before: Rows, after: Rows, catalog: Catalog, f: Flight, g: Flight) {
    var row := RowIn(before, f.order.device);
    if g.pc.Committed? then
      g.before == f.before && Lawful(f, row, g.pc.assignment)
      && after == before[f.order.device := g.pc.assignment.after]
    else
      after == before
      && (g.pc.Rejected? ==> RefusalTold(catalog, row, f, g.pc.reason))
      && (!g.pc.Rejected? ==> f.order.retryConflict && g.before == row)
  }

  // Nobody but the other writer touched a row.
  predicate LeftAlone(before: Rows, after: Rows, drift: Option<seq<string>>, device: string) {
    after == before || (drift.Some? && after == before[device := drift.value])
  }

  ghost predicate SettledOn(before: Rows, after: Rows, drift: Option<seq<string>>, f: Flight) {
    var device := f.order.device;
    if f.pc.Committed? then
      var a := f.pc.assignment;
      Lawful(f, a.before, a) && a.before in Seen(RowIn(before, device), drift)
      && after == before[device := a.after]
    else LeftAlone(before, after, drift, device)
  }

  // While there are attempts to make only the other writer has touched a row.
  ghost predicate StillOn(before: Rows, after: Rows, drift: Option<seq<string>>, f: Flight) {
    if f.pc.Trying? then LeftAlone(before, after, drift, f.order.device) else SettledOn(before, after, drift, f)
  }

  lemma TriedSettles(before: Rows, found: Rows, after: Rows, drift: Option<seq<string>>, catalog: Catalog,
                     f: Flight, g: Flight)
    requires LeftAlone(before, found, drift, f.order.device) && TriedOn(found, after, catalog, f, g)
    requires g == f.(pc := g.pc, before := g.before)
    ensures if g.pc.Committed? || g.pc.Rejected? then SettledOn(before, after, drift, g)
            else LeftAlone(before, after, drift, f.order.device) && after == found
  {
    var device := f.order.device;
    if drift.Some? && g.pc.Committed? {
      var ids := g.pc.assignment.after;
      assert before[device := drift.value][device := ids] == before[device := ids];
    }
  }

  lemma CommitIsLawful(rows: Rows, catalog: Catalog, f: Flight)
    requires Attempt(catalog, RowIn(rows, f.order.device), f).Ok?
    ensures var a := Attempt(catalog, RowIn(rows, f.order.device), f).value;
      TriedOn(rows, rows[f.order.device := a.after], catalog, f, f.(pc := Committed(a)))
  {
    AttemptAnswers(catalog, RowIn(rows, f.order.device), f);
  }

  lemma RefusalIsTold(rows: Rows, catalog: Catalog, f: Flight)
    requires Attempt(catalog, RowIn(rows, f.order.device), f).Err?
    ensures var e := Attempt(catalog, RowIn(rows, f.order.device), f).error;
      if !e.PolicyConflict? then TriedOn(rows, rows, catalog, f, f.(pc := Rejected(ReasonFor(e))))
      else TriedOn(rows, rows, catalog, f, f.(before := e.current, pc := Rejected(Conflict)))
           && (f.order.retryConflict ==>
                 TriedOn(rows, rows, catalog, f, f.(before := e.current, pc := Trying(1)))
                 && TriedOn(rows, rows, catalog, f, f.(before := e.current, pc := Rebasing)))
  {
    AttemptAnswers(catalog, RowIn(rows, f.order.device), f);
  }

  ghost predicate RefusalTold(catalog: Catalog, row: seq<string>, f: Flight, why: Reason) {
    exists ids :: Wanted(f, ids) && RefusedFor(catalog, row, f, ids, why)
  }

  // What the order asked for, over the row it may be made over.
  ghost predicate Honours(order: Order, context: Option<Context>, a: Assignment) {
    && (if order.mode == Merge then Merged(a.before, order.requested, a.after) else a.after == order.requested)
    && (order.mode == Replace && (context.Some? || !order.retryConflict) && order.expected.Some? ==>
          a.before == order.expected.value)
    && Dropped(a.before, a.after, a.removed)
  }

  lemma LawfulHonours(f: Flight, a: Assignment)
    requires Lawful(f, a.before, a)
    ensures Honours(f.order, f.context, a)
  {
  }

  // A success honours the order over a row the apply read, and is what the row now
  // holds; a refusal leaves the rows to the other writer.
  ghost predicate Delivered(order: Order, context: Option<Context>, drift: Option<seq<string>>,
                            before: Rows, after: Rows, outcome: Saved)
  {
    if outcome.Success? then
      Honours(order, context, outcome.assignment)
      && outcome.assignment.before in Seen(RowIn(before, order.device), drift)
      && after == before[order.device := outcome.assignment.after]
    else LeftAlone(before, after, drift, order.device)
  }

  lemma SettledDelivers(before: Rows, after: Rows, drift: Option<seq<string>>, f: Flight, outcome: Saved)
    requires SettledOn(before, after, drift, f) && (f.pc.Committed? || f.pc.Rejected?)
    requires outcome == if f.pc.Committed? then Success(f.pc.assignment) else Refusal(f.pc.reason, f.before)
    ensures Delivered(f.order, f.context, drift, before, after, outcome)
  {
    if f.pc.Committed? {
      LawfulHonours(f, f.pc.assignment);
    }
  }

  class Service {
    var generations: map<string, nat>
    var pending: set<string>
    var claims: map<Key, Claim>
    var policy: map<string, seq<string>>
    ghost var log: seq<Entry>

    constructor ()
      ensures Initial(State(None))
    {
      generations, pending, claims, policy, log := map[], {}, map[], map[], [];
    }

    ghost function State(flight: Option<Flight>): System
      reads this
    {
      System(generations, pending, claims, policy, flight, log)
    }

    method Generation(device: string) returns (g: nat)
      ensures g == AssignmentProtocol.Generation(State(None), device)
    {
      g := if device in generations then generations[device] else 0;
    }

    ghost predicate RightGeneration(context: Context, device: string)
      reads this
    {
      AssignmentProtocol.Generation(State(None), device) == context.expectedGeneration
    }

    method SaveResult(key: Key, result: Saved)
      requires key in claims
      modifies this`claims
      ensures claims == old(claims)[key := old(claims)[key].(result := Some(result))]
    {
      claims := claims[key := claims[key].(result := Some(result))];
    }

    // One attempt against the catalog.
    method TryOnce(f: Flight, attempt: nat, catalog: Catalog, ghost s0: System, ghost past: seq<Action>)
      returns (g: Flight, ghost trace: seq<Action>)
      requires f.pc == Trying(attempt) && Reaches(s0, past, State(Some(f)))
      modifies this`policy, this`log
      ensures Reaches(s0, trace, State(Some(g)))
      ensures g == f.(pc := g.pc, before := g.before)
      ensures g.pc.Committed? || g.pc.Rejected? || (attempt == 0 && (g.pc == Trying(1) || g.pc == Rebasing))
      ensures TriedOn(old(policy), policy, catalog, f, g)
    {
      OneMore(s0, past, State(Some(f)), Advance(catalog));
      trace := past + [Advance(catalog)];
      var device := f.order.device;
      var current := if device in policy then policy[device] else [];
      var decision := Attempt(catalog, current, f);
      if decision.Ok? {
        CommitIsLawful(policy, catalog, f);
        log := log + [CommitEntry(f, decision.value)];
        policy := policy[device := decision.value.after];
        return f.(pc := Committed(decision.value)), trace;
      }
      RefusalIsTold(policy, catalog, f);
      if !decision.error.PolicyConflict? {
        return f.(pc := Rejected(ReasonFor(decision.error))), trace;
      }
      g := f.(before := decision.error.current);
      if !f.order.retryConflict || attempt != 0 {
        g := g.(pc := Rejected(Conflict));
      } else if ScheduledReplace(f) {
        g := g.(pc := Trying(1));
      } else {
        g := g.(pc := Rebasing);
      }
    }

    // Read the row again for the second attempt. `drift` is what another writer
    // leaves in it before that.
    method Rebase(f: Flight, drift: Option<seq<string>>, catalog: Catalog, ghost s0: System, ghost past: seq<Action>)
      returns (g: Flight, ghost trace: seq<Action>)
      requires f.pc == Rebasing && Reaches(s0, past, State(Some(f)))
      modifies this`policy
      ensures Reaches(s0, trace, State(Some(g)))
      ensures g == f.(before := RowIn(policy, f.order.device), pc := Trying(1))
      ensures policy == if drift.Some? then old(policy)[f.order.device := drift.value] else old(policy)
    {
      var device := f.order.device;
      trace := past;
      if drift.Some? {
        OneMore(s0, trace, State(Some(f)), OtherWrite(device, drift.value));
        trace := trace + [OtherWrite(device, drift.value)];
        policy := policy[device := drift.value];
      }
      OneMore(s0, trace, State(Some(f)), Advance(catalog));
      trace := trace + [Advance(catalog)];
      g := f.(before := if device in policy then policy[device] else [], pc := Trying(1));
    }

    // The two-attempt loop. `catalogs` is the image catalog as each attempt
    // finds it and `drift` what another writer leaves in this device's row
    // before the rebase.
    method TryTwice(f0: Flight, catalogs: (Catalog, Catalog), drift: Option<seq<string>>,
                    ghost s0: System, ghost past: seq<Action>)
      returns (f: Flight, ghost trace: seq<Action>)
      requires f0.pc == Trying(0) && Reaches(s0, past, State(Some(f0)))
      modifies this`policy, this`log
      ensures Reaches(s0, trace, State(Some(f)))
      ensures f == f0.(pc := f.pc, before := f.before) && (f.pc.Committed? || f.pc.Rejected?)
      ensures SettledOn(old(policy), policy, drift, f)
    {
      var attempt := 0;
      f, trace := f0, past;
      while f.pc.Trying?
        invariant attempt <= 2 && f == f0.(pc := f.pc, before := f.before)
        invariant if f.pc.Trying? then f.pc == Trying(attempt) && attempt <= 1 else f.pc.Committed? || f.pc.Rejected?
        invariant Reaches(s0, trace, State(Some(f)))
        invariant StillOn(old(policy), policy, drift, f)
        decreases 2 - attempt
      {
        ghost var g, found := f, policy;
        f, trace := TryOnce(f, attempt, if attempt == 0 then catalogs.0 else catalogs.1, s0, trace);
        TriedSettles(old(policy), found, policy, drift, if attempt == 0 then catalogs.0 else catalogs.1, g, f);
        if f.pc == Rebasing {
          f, trace := Rebase(f, drift, catalogs.0, s0, trace);
        }
        attempt := attempt + 1;
      }
    }

    // A scheduled apply up to its first attempt: replay, refuse, or go on with
    // the claim inserted.
    method EnterScheduled(f: Flight, context: Context, ghost s0: System, ghost past: seq<Action>)
      returns (outcome: Option<Saved>, replayed: bool, ghost trace: seq<Action>)
      requires f.pc == Entered && f.context == Some(context) && Reaches(s0, past, State(Some(f)))
      modifies this`claims
      ensures Reaches(s0, trace, State(if outcome.Some? then None else Some(f.(pc := Trying(0)))))
      ensures var key := KeyOf(context, f.order);
              && key in claims
              && (replayed <==> key in old(claims) && old(claims)[key].result.Some?)
              && (replayed ==> outcome.Some? && claims == old(claims))
              && (outcome.Some? && (!replayed || (claims[key].context == context && claims[key].order == f.order)) ==>
                    claims[key].result == outcome)
              && (outcome.None? ==> claims[key] == Claim(context, f.order, None))
      ensures outcome == EntryAnswer(old(claims), pending, RightGeneration(context, f.order.device), context,
                                     f.order, f.before)
    {
      var key := KeyOf(context, f.order);
      replayed, outcome := false, None;
      OneMore(s0, past, State(Some(f)), Advance(None));
      trace := past + [Advance(None)];
      if key in claims {
        var claim := claims[key];
        if claim.result.None? {
          outcome := Some(Refusal(Conflict, f.before));
          SaveResult(key, outcome.value);
        } else {
          replayed := true;
          var saved := claim.result.value;
          outcome := if claim.context == context && claim.order == f.order then Some(saved)
                     else Some(Refusal(Conflict, if saved.Success? then saved.assignment.before else saved.ids));
        }
        return;
      }
      claims := claims[key := Claim(context, f.order, None)];
      OneMore(s0, trace, State(Some(f.(pc := Claimed))), Advance(None));
      trace := trace + [Advance(None)];
      var g := Generation(f.order.device);
      if g != context.expectedGeneration {
        outcome := Some(Refusal(ManualOverride, f.before));
        SaveResult(key, outcome.value);
      } else if f.order.device in pending {
        outcome := Some(Refusal(Conflict, f.before));
        SaveResult(key, outcome.value);
      }
    }

    // Record the outcome and leave the guard.
    method Leave(f: Flight, ghost s0: System, ghost past: seq<Action>)
      returns (outcome: Saved, ghost trace: seq<Action>)
      requires (f.pc.Committed? || f.pc.Rejected?) && Reaches(s0, past, State(Some(f)))
      requires f.context.Some? ==> KeyOf(f.context.value, f.order) in claims
      modifies this`claims, this`generations, this`pending
      ensures Reaches(s0, trace, State(None))
      ensures outcome.Success? <==> f.pc.Committed?
      ensures outcome == if f.pc.Committed? then Success(f.pc.assignment) else Refusal(f.pc.reason, f.before)
      ensures f.context.Some? ==> KeyOf(f.context.value, f.order) in claims
                                  && claims[KeyOf(f.context.value, f.order)].result == Some(outcome)
      ensures f.context.None? ==>
                && claims == old(claims)
                && AssignmentProtocol.Generation(State(None), f.order.device)
                     == AssignmentProtocol.Generation(old(State(None)), f.order.device)
                         + (if outcome.Success? then 1 else 0)
                && (f.order.device in pending <==> outcome.Refusal? && f.wasPending)
    {
      OneMore(s0, past, State(Some(f)), Advance(None));
      trace := past + [Advance(None)];
      outcome := if f.pc.Committed? then Success(f.pc.assignment) else Refusal(f.pc.reason, f.before);
      var device := f.order.device;
      if f.context.Some? {
        SaveResult(KeyOf(f.context.value, f.order), outcome);
      } else if outcome.Success? {
        var g := Generation(device);
        generations := generations[device := g + 1];
        pending := pending - {device};
      } else {
        pending := if f.wasPending then pending + {device} else pending - {device};
      }
    }

    // Make the attempts, record the outcome and leave the guard.
    method Carry(f0: Flight, catalogs: (Catalog, Catalog), drift: Option<seq<string>>,
                 ghost s0: System, ghost past: seq<Action>)
      returns (outcome: Saved, ghost trace: seq<Action>)
      requires f0.pc == Trying(0) && Reaches(s0, past, State(Some(f0)))
      requires f0.context.Some? ==> KeyOf(f0.context.value, f0.order) in claims
      modifies this
      ensures Reaches(s0, trace, State(None))
      ensures Delivered(f0.order, f0.context, drift, old(policy), policy, outcome)
      ensures f0.context.Some? ==> KeyOf(f0.context.value, f0.order) in claims
                                   && claims[KeyOf(f0.context.value, f0.order)].result == Some(outcome)
      ensures f0.context.None? ==>
                && claims == old(claims)
                && AssignmentProtocol.Generation(State(None), f0.order.device)
                     == AssignmentProtocol.Generation(old(State(None)), f0.order.device)
                         + (if outcome.Success? then 1 else 0)
                && (f0.order.device in pending <==> outcome.Refusal? && f0.wasPending)
    {
      var f;
      f, trace := TryTwice(f0, catalogs, drift, s0, past);
      outcome, trace := Leave(f, s0, trace);
      SettledDelivers(old(policy), policy, drift, f, outcome);
    }

    // One whole apply under the membership guard: a crash-free run of the
    // protocol that returns what it left recorded. A replay changes nothing.
    method ApplyGuarded(order: Order, context: Option<Context>, catalogs: (Catalog, Catalog),
                        drift: Option<seq<string>>)
      returns (outcome: Saved, replayed: bool, ghost trace: seq<Action>)
      modifies this
      ensures Reaches(old(State(None)), trace, State(None))
      ensures context.Some? ==>
                var key := KeyOf(context.value, order);
                && key in claims
                && (replayed <==> key in old(claims) && old(claims)[key].result.Some?)
                && (replayed ==> claims == old(claims) && policy == old(policy))
                && (!replayed || (claims[key].context == context.value && claims[key].order == order) ==>
                      claims[key].result == Some(outcome))
      ensures context.None? ==>
                && !replayed && claims == old(claims)
                && AssignmentProtocol.Generation(State(None), order.device)
                     == AssignmentProtocol.Generation(old(State(None)), order.device)
                         + (if outcome.Success? then 1 else 0)
                && (order.device in pending <==> outcome.Refusal? && order.device in old(pending))
      ensures context.Some? ==>
                var early := EntryAnswer(old(claims), old(pending), old(RightGeneration(context.value, order.device)),
                                         context.value, order, RowIn(old(policy), order.device));
                early.Some? ==> outcome == early.value && policy == old(policy)
      ensures !replayed ==> Delivered(order, context, drift, old(policy), policy, outcome)
    {
      ghost var s0 := State(None);
      var before := if order.device in policy then policy[order.device] else [];
      var f := Flight(order, context, before, order.device in pending, Entered);
      assert Reaches(s0, [], s0);
      OneMore(s0, [], s0, Begin(order, context));
      trace := [] + [Begin(order, context)];
      replayed := false;
      if context.Some? {
        var early;
        early, replayed, trace := EnterScheduled(f, context.value, s0, trace);
        if early.Some? {
          return early.value, replayed, trace;
        }
      } else {
        OneMore(s0, trace, State(Some(f)), Advance(None));
        trace := trace + [Advance(None)];
        pending := pending + {order.device};
      }
      outcome, trace := Carry(f.(pc := Trying(0)), catalogs, drift, s0, trace);
    }
  }
}
