// Scheduled and manual assignment over two stores that are not written
// together: the authority database (generations, pending flags, claims) and the
// catalog's policy rows. Every durable write is one step and a crash may follow
// any step.
module AssignmentProtocol {
  import opened Common
  import opened PolicyRows

  datatype Mode = Merge | Replace

  datatype Order = Order(device: string, mode: Mode, requested: seq<string>,
                         expected: Option<seq<string>>, retryConflict: bool)

  // The immutable identity of one scheduled occurrence.
  datatype Context = Context(scheduleId: string, scheduleRev: int, occurrenceId: string,
                             expectedGeneration: nat, registeredAt: Option<int>, registrationId: Option<string>)

  datatype Reason = ManualOverride | Conflict | ImageQuarantined | CapExceeded | ExecutionFailed

  datatype Saved = Success(assignment: Assignment) | Refusal(reason: Reason, ids: seq<string>)

  // The stored request and, once known, its result.
  datatype Claim = Claim(context: Context, order: Order, result: Option<Saved>)

  type Key = (string, string)

  // Where an apply stands between two durable writes.
  datatype Pc = Entered | Claimed | Trying(attempt: nat) | Rebasing | Committed(assignment: Assignment)
      | Rejected(reason: Reason)

  // The apply holding the membership guard; a manual one has no context.
  datatype Flight = Flight(order: Order, context: Option<Context>, before: seq<string>, wasPending: bool, pc: Pc)

  datatype Entry =
    | Captured(device: string, generation: nat)
    | ScheduledCommit(key: Key, expectedGeneration: nat, assignment: Assignment)
    | ManualCommit(device: string, assignment: Assignment)
    | Acknowledged(key: Key)

  // The durable stores, the apply in flight, and the history of what happened.
  datatype System = System(
    generations: map<string, nat>, pending: set<string>, claims: map<Key, Claim>,
    policy: map<string, seq<string>>, flight: Option<Flight>, log: seq<Entry>)

  function Generation(s: System, device: string): nat {
    if device in s.generations then s.generations[device] else 0
  }

  function Policy(s: System, device: string): seq<string> {
    if device in s.policy then s.policy[device] else []
  }

  function KeyOf(context: Context, order: Order): Key {
    (context.occurrenceId, order.device)
  }

  // ----- what an attempt asks of the catalog -----

  function Unique(ids: seq<string>): (r: seq<string>)
    ensures Distinct(r)
    ensures forall x :: x in r <==> x in ids
  {
    if ids == [] then []
    else
      var front := Unique(ids[..|ids| - 1]);
      assert ids == ids[..|ids| - 1] + [ids[|ids| - 1]];
      if ids[|ids| - 1] in front then front else front + [ids[|ids| - 1]]
  }

  function Target(f: Flight): seq<string> {
    if f.order.mode == Merge then Unique(f.before + f.order.requested) else f.order.requested
  }

  predicate ScheduledReplace(f: Flight) {
    f.context.Some? && f.order.mode == Replace
  }

  function Expectation(f: Flight): Option<seq<string>> {
    if ScheduledReplace(f) then f.order.expected
    else if f.order.mode == Merge || f.order.retryConflict then Some(f.before)
    else f.order.expected
  }

  // One attempt: the service's own image check, then the store's decision.
  function Attempt(catalog: Catalog, current: seq<string>, f: Flight): Result<Assignment, PolicyError> {
    if exists id :: id in Target(f) && (catalog.None? || id !in catalog.value) then Err(NoSuchImage)
    else Decide(catalog, current, Target(f), Expectation(f))
  }

  function ReasonFor(e: PolicyError): Reason {
    match e
    case PolicyConflict(_) => Conflict
    case QuarantinedImage(_) => ImageQuarantined
    case TooManyImages => CapExceeded
    case DuplicateImage => ExecutionFailed
    case NoSuchImage => ExecutionFailed
  }

  // ----- steps -----

  datatype Action =
    | Begin(order: Order, context: Option<Context>)
    | Advance(catalog: Catalog)
    | Crash
    | Capture(device: string)
    | Reconcile(identity: Context, asked: Order)
    | Acknowledge(key: Key)
    | OtherWrite(device: string, ids: seq<string>)

  function Save(s: System, key: Key, result: Saved): System
    requires key in s.claims
  {
    s.(claims := s.claims[key := s.claims[key].(result := Some(result))], flight := None)
  }

  function At(s: System, f: Flight, pc: Pc): System {
    s.(flight := Some(f.(pc := pc)))
  }

  // The first write of a scheduled apply.
  function EnterScheduled(s: System, f: Flight, context: Context): System {
    var key := KeyOf(context, f.order);
    if key !in s.claims then At(s, f, Claimed).(claims := s.claims[key := Claim(context, f.order, None)])
    else if s.claims[key].result.Some? then s.(flight := None)
    else Save(s, key, Refusal(Conflict, f.before))
  }

  // The claim is held: is the operator's generation still the captured one?
  function CheckAuthority(s: System, f: Flight, context: Context): System
    requires KeyOf(context, f.order) in s.claims
  {
    if Generation(s, f.order.device) != context.expectedGeneration
    then Save(s, KeyOf(context, f.order), Refusal(ManualOverride, f.before))
    else if f.order.device in s.pending then Save(s, KeyOf(context, f.order), Refusal(Conflict, f.before))
    else At(s, f, Trying(0))
  }

  function CommitEntry(f: Flight, a: Assignment): Entry {
    if f.context.Some? then ScheduledCommit(KeyOf(f.context.value, f.order), f.context.value.expectedGeneration, a)
    else ManualCommit(f.order.device, a)
  }

  function Try(s: System, f: Flight, attempt: nat, catalog: Catalog): System {
    match Attempt(catalog, Policy(s, f.order.device), f)
    case Ok(a) =>
      At(s, f, Committed(a)).(policy := s.policy[f.order.device := a.after], log := s.log + [CommitEntry(f, a)])
    case Err(e) =>
      if !e.PolicyConflict? then At(s, f, Rejected(ReasonFor(e)))
      else
        var seen := f.(before := e.current);
        if !f.order.retryConflict || attempt != 0 then At(s, seen, Rejected(Conflict))
        else if ScheduledReplace(f) then At(s, seen, Trying(1))
        else At(s, seen, Rebasing)
  }

  // Leave the guard with the outcome recorded.
  function Finish(s: System, f: Flight, result: Saved): System
    requires f.context.Some? ==> KeyOf(f.context.value, f.order) in s.claims
  {
    if f.context.Some? then Save(s, KeyOf(f.context.value, f.order), result)
    else if result.Success? then
      s.(generations := s.generations[f.order.device := Generation(s, f.order.device) + 1],
         pending := s.pending - {f.order.device}, flight := None)
    else
      s.(pending := if f.wasPending then s.pending + {f.order.device} else s.pending - {f.order.device},
         flight := None)
  }

  // The claim of an apply in flight past its first write.
  predicate HoldsClaim(s: System) {
    s.flight.Some? && s.flight.value.context.Some? && s.flight.value.pc != Entered ==>
      KeyOf(s.flight.value.context.value, s.flight.value.order) in s.claims
  }

  function AdvanceFlight(s: System, f: Flight, catalog: Catalog): System
    requires s.flight == Some(f) && HoldsClaim(s)
  {
    match f.pc
    case Entered =>
      if f.context.Some? then EnterScheduled(s, f, f.context.value)
      else At(s, f, Trying(0)).(pending := s.pending + {f.order.device})
    case Claimed => if f.context.Some? then CheckAuthority(s, f, f.context.value) else s
    case Trying(attempt) => Try(s, f, attempt, catalog)
    case Rebasing => At(s, f.(before := Policy(s, f.order.device)), Trying(1))
    case Committed(a) => Finish(s, f, Success(a))
    case Rejected(reason) => Finish(s, f, Refusal(reason, f.before))
  }

  function Step(s: System, a: Action): System
    requires HoldsClaim(s)
  {
    match a
    case Begin(order, context) =>
      if s.flight.Some? then s
      else s.(flight := Some(Flight(order, context, Policy(s, order.device), order.device in s.pending, Entered)))
    case Advance(catalog) => if s.flight.None? then s else AdvanceFlight(s, s.flight.value, catalog)
    case Crash => s.(flight := None)
    case Capture(device) =>
      if s.flight.Some? || device in s.pending then s
      else s.(log := s.log + [Captured(device, Generation(s, device))])
    case Reconcile(context, order) =>
      var key := KeyOf(context, order);
      if s.flight.Some? || key !in s.claims || s.claims[key].result.Some? then s
      else Save(s, key, Refusal(Conflict, Policy(s, order.device)))
    case Acknowledge(key) =>
      if s.flight.Some? then s else s.(claims := s.claims - {key}, log := s.log + [Acknowledged(key)])
    case OtherWrite(device, ids) => s.(policy := s.policy[device := ids])
  }
}
