// Single-flight hash refresh: one run at a time for the whole process, and
// waiting callers that may share a successful run whose catalog snapshot was
// stamped after they registered.
module RefreshFlight {
  import opened Common

  type CallId = nat
  type Dir = string
  type Image = string

  // What a run reports when it succeeds (its counts).
  type Report = seq<nat>

  datatype Outcome = Done(report: Report) | Failed | TimedOut | BadTimeout | AlreadyRunning

  datatype Pc =
    | Waiting
    | Fetching                              // holds the run flag, before the stamp
    | Stamped(gen: nat)                     // generation recorded, catalog not read yet
    | Listed(gen: nat, images: set<Image>)  // catalog read, verdicts not applied yet
    | Returned(outcome: Outcome)

  // A call of run_refresh; ticket is the generation it registered, if it waits.
  datatype Call = Call(dir: Dir, ticket: Option<nat>, pc: Pc)

  datatype Coverage = Coverage(gen: nat, report: Report)

  // The module state, and the callers and catalogs around it.
  datatype System = System(
    running: bool,
    generation: nat,
    coverage: map<Dir, Coverage>,
    catalogs: map<Dir, set<Image>>,
    calls: map<CallId, Call>)

  function Images(s: System, dir: Dir): set<Image> {
    if dir in s.catalogs then s.catalogs[dir] else {}
  }

  function InitialSystem(catalogs: map<Dir, set<Image>>): System {
    System(false, 0, map[], catalogs, map[])
  }

  function Move(s: System, id: CallId, pc: Pc): System
    requires id in s.calls
  {
    s.(calls := s.calls[id := s.calls[id].(pc := pc)])
  }

  // One turn of the loop under the condition's lock. The two clock readings are
  // late when the deadline has passed; a call without a ticket has no deadline.
  function Turn(s: System, id: CallId, late: bool, laterStill: bool): System
    requires id in s.calls
  {
    var c := s.calls[id];
    if c.ticket.Some? && late then Move(s, id, Returned(TimedOut))
    else if c.ticket.Some? && c.dir in s.coverage && s.coverage[c.dir].gen >= c.ticket.value then
      Move(s, id, Returned(Done(s.coverage[c.dir].report)))
    else if !s.running then Move(s, id, Fetching).(running := true)
    else if c.ticket.None? then Move(s, id, Returned(AlreadyRunning))
    else if laterStill then Move(s, id, Returned(TimedOut))
    else s
  }

  datatype Action =
    | Publish(dir: Dir, image: Image)
    | Delete(dir: Dir, image: Image)
    | Enter(id: CallId, dir: Dir, wait: bool, timeoutValid: bool, late: bool, laterStill: bool)
    | Wake(id: CallId, late: bool, laterStill: bool)
    | Stamp(id: CallId)
    | List(id: CallId)
    | Succeed(id: CallId, report: Report)
    | Fail(id: CallId)

  predicate Active(pc: Pc) {
    pc.Fetching? || pc.Stamped? || pc.Listed?
  }

  predicate Enabled(s: System, a: Action) {
    match a
    case Publish(_, _) => true
    case Delete(_, _) => true
    case Enter(id, _, _, _, _, _) => id !in s.calls
    case Wake(id, _, _) => id in s.calls && s.calls[id].pc.Waiting?
    case Stamp(id) => id in s.calls && s.calls[id].pc.Fetching?
    case List(id) => id in s.calls && s.calls[id].pc.Stamped?
    case Succeed(id, _) => id in s.calls && s.calls[id].pc.Listed?
    case Fail(id) => id in s.calls && Active(s.calls[id].pc)
  }

  function Entered(s: System, id: CallId, dir: Dir, wait: bool): System {
    var gen := if wait then s.generation + 1 else s.generation;
    s.(generation := gen, calls := s.calls[id := Call(dir, if wait then Some(gen) else None, Waiting)])
  }

  // A successful run covers every ticket up to its stamp; a failed one none.
  function Finished(s: System, id: CallId, report: Report): System
    requires id in s.calls && s.calls[id].pc.Listed?
  {
    var c := s.calls[id];
    Move(s, id, Returned(Done(report))).(
      running := false,
      coverage := s.coverage[c.dir := Coverage(c.pc.gen, report)])
  }

  function Next(s: System, a: Action): System
    requires Enabled(s, a)
  {
    match a
    case Publish(dir, image) => s.(catalogs := s.catalogs[dir := Images(s, dir) + {image}])
    case Delete(dir, image) => s.(catalogs := s.catalogs[dir := Images(s, dir) - {image}])
    case Enter(id, dir, wait, timeoutValid, late, laterStill) =>
      if wait && !timeoutValid then s.(calls := s.calls[id := Call(dir, None, Returned(BadTimeout))])
      else Turn(Entered(s, id, dir, wait), id, late, laterStill)
    case Wake(id, late, laterStill) => Turn(s, id, late, laterStill)
    case Stamp(id) => Move(s, id, Stamped(s.generation))
    case List(id) => Move(s, id, Listed(s.calls[id].pc.gen, Images(s, s.calls[id].dir)))
    case Succeed(id, report) => Finished(s, id, report)
    case Fail(id) => Move(s, id, Returned(Failed)).(running := false)
  }

  ghost predicate Step(s: System, t: System) {
    exists a: Action :: Enabled(s, a) && t == Next(s, a)
  }

  // A run from an initial state, with any interleaving of callers.
  ghost predicate Run(ss: seq<System>) {
    |ss| >= 1
    && ss[0] == InitialSystem(ss[0].catalogs)
    && forall i :: 0 <= i < |ss| - 1 ==> Step(ss[i], ss[i + 1])
  }
}

module RefreshRuns {
  import opened Common
  import opened RefreshFlight

  // ----- one run at a time, and generations in order -----

  // The state's own bookkeeping: the flag is up exactly while one call is
  // active, no stamp, ticket or coverage is ahead of the counter, and the active
  // run's stamp is not behind any coverage.
  predicate OneActive(s: System) {
    (forall a, b :: a in s.calls && b in s.calls && Active(s.calls[a].pc) && Active(s.calls[b].pc) ==> a == b)
    && (s.running <==> exists a :: a in s.calls && Active(s.calls[a].pc))
  }

  predicate InOrder(s: System) {
    (forall d :: d in s.coverage ==> s.coverage[d].gen <= s.generation)
    && (forall a :: a in s.calls && s.calls[a].ticket.Some? ==> s.calls[a].ticket.value <= s.generation)
    && (forall a :: a in s.calls && (s.calls[a].pc.Stamped? || s.calls[a].pc.Listed?) ==>
        s.calls[a].pc.gen <= s.generation)
  }

  predicate StampAhead(s: System) {
    forall a, d :: a in s.calls && d in s.coverage && (s.calls[a].pc.Stamped? || s.calls[a].pc.Listed?)
      ==> s.coverage[d].gen <= s.calls[a].pc.gen
  }

  predicate Sound(s: System) {
    OneActive(s) && InOrder(s) && StampAhead(s)
  }

  lemma OthersUntouched(s: System, t: System, id: CallId, pc: Pc)
    requires id in s.calls && t.calls == s.calls[id := s.calls[id].(pc := pc)]
    ensures forall a :: a in s.calls && a != id ==> a in t.calls && t.calls[a] == s.calls[a]
  {
  }

  lemma SettlesSound(s: System, id: CallId, outcome: Outcome)
    requires Sound(s) && id in s.calls && s.calls[id].pc.Waiting?
    ensures Sound(Move(s, id, Returned(outcome)))
  {
    OthersUntouched(s, Move(s, id, Returned(outcome)), id, Returned(outcome));
  }

  lemma StartsSound(s: System, id: CallId)
    requires Sound(s) && id in s.calls && s.calls[id].pc.Waiting? && !s.running
    ensures Sound(Move(s, id, Fetching).(running := true))
  {
    var t := Move(s, id, Fetching).(running := true);
    OthersUntouched(s, t, id, Fetching);
    assert id in t.calls && Active(t.calls[id].pc);
  }

  lemma AdvancesSound(s: System, id: CallId, pc: Pc)
    requires Sound(s) && id in s.calls && Active(s.calls[id].pc) && (pc.Stamped? || pc.Listed?)
    requires pc.gen <= s.generation && forall d :: d in s.coverage ==> s.coverage[d].gen <= pc.gen
    ensures Sound(Move(s, id, pc))
  {
    var t := Move(s, id, pc);
    OthersUntouched(s, t, id, pc);
    assert id in t.calls && Active(t.calls[id].pc);
  }

  lemma FailsSound(s: System, id: CallId)
    requires Sound(s) && id in s.calls && Active(s.calls[id].pc)
    ensures Sound(Move(s, id, Returned(Failed)).(running := false))
  {
    OthersUntouched(s, Move(s, id, Returned(Failed)).(running := false), id, Returned(Failed));
  }

  lemma SucceedsSound(s: System, id: CallId, report: Report)
    requires Sound(s) && id in s.calls && s.calls[id].pc.Listed?
    ensures Sound(Finished(s, id, report))
  {
    assert Active(s.calls[id].pc);
    OthersUntouched(s, Finished(s, id, report), id, Returned(Done(report)));
  }

  lemma TurnKeepsSound(s: System, id: CallId, late: bool, laterStill: bool)
    requires Sound(s) && id in s.calls && s.calls[id].pc.Waiting?
    ensures Sound(Turn(s, id, late, laterStill))
  {
    var t := Turn(s, id, late, laterStill);
    if t.calls[id].pc.Fetching? {
      StartsSound(s, id);
    } else if t.calls[id].pc.Returned? {
      SettlesSound(s, id, t.calls[id].pc.outcome);
    }
  }

  lemma EnteredKeepsSound(s: System, id: CallId, dir: Dir, wait: bool)
    requires Sound(s) && id !in s.calls
    ensures Sound(Entered(s, id, dir, wait))
  {
    var t := Entered(s, id, dir, wait);
    assert forall a :: a in s.calls ==> a in t.calls && t.calls[a] == s.calls[a];
  }

  lemma RefusedKeepsSound(s: System, id: CallId, c: Call)
    requires Sound(s) && id !in s.calls && c.pc.Returned? && c.ticket.None?
    ensures Sound(s.(calls := s.calls[id := c]))
  {
    var t := s.(calls := s.calls[id := c]);
    assert forall a :: a in s.calls ==> a in t.calls && t.calls[a] == s.calls[a];
  }

  lemma StepKeepsSound(s: System, a: Action)
    requires Sound(s) && Enabled(s, a)
    ensures Sound(Next(s, a))
  {
    match a
    case Publish(_, _) =>
    case Delete(_, _) =>
    case Enter(id, dir, wait, timeoutValid, late, laterStill) =>
      if wait && !timeoutValid {
        RefusedKeepsSound(s, id, Call(dir, None, Returned(BadTimeout)));
      } else {
        EnteredKeepsSound(s, id, dir, wait);
        TurnKeepsSound(Entered(s, id, dir, wait), id, late, laterStill);
      }
    case Wake(id, late, laterStill) => TurnKeepsSound(s, id, late, laterStill);
    case Stamp(id) => AdvancesSound(s, id, Stamped(s.generation));
    case List(id) => AdvancesSound(s, id, Listed(s.calls[id].pc.gen, Images(s, s.calls[id].dir)));
    case Succeed(id, report) => SucceedsSound(s, id, report);
    case Fail(id) => FailsSound(s, id);
  }

  lemma {:induction false} RunIsSound(ss: seq<System>, n: nat)
    requires Run(ss) && n < |ss|
    ensures Sound(ss[n])
  {
    if n > 0 {
      RunIsSound(ss, n - 1);
      assert Step(ss[n - 1], ss[n - 1 + 1]);
      var a :| Enabled(ss[n - 1], a) && ss[n] == Next(ss[n - 1], a);
      StepKeepsSound(ss[n - 1], a);
    }
  }

  // In every interleaving at most one refresh is under way.
  lemma AtMostOneRun(ss: seq<System>, n: nat, a: CallId, b: CallId)
    requires Run(ss) && n < |ss| && a in ss[n].calls && b in ss[n].calls
    requires Active(ss[n].calls[a].pc) && Active(ss[n].calls[b].pc)
    ensures a == b && ss[n].running
  {
    RunIsSound(ss, n);
  }

  // ----- what one step can change -----

  // A call that waits registers a ticket newer than every stamp so far.
  predicate CallsLand(s: System, t: System) {
    s.generation <= t.generation
    && (forall c :: c in s.calls ==> c in t.calls)
    && (forall c :: c in s.calls ==> t.calls[c].dir == s.calls[c].dir && t.calls[c].ticket == s.calls[c].ticket)
    && (forall c :: c in s.calls && s.calls[c].pc.Returned? ==> t.calls[c] == s.calls[c])
    && (forall c :: c in t.calls && c !in s.calls && t.calls[c].ticket.Some? ==> t.calls[c].ticket.value > s.generation)
  }

  // A listing appears as what the catalog holds at that moment.
  predicate ListingsLand(s: System, t: System) {
    forall c :: c in t.calls && t.calls[c].pc.Listed?
      ==> (c in s.calls && s.calls[c] == t.calls[c]) || t.calls[c].pc.images == Images(t, t.calls[c].dir)
  }

  predicate FinishedBy(s: System, t: System, d: Dir, r: CallId) {
    r in s.calls && r in t.calls && s.calls[r].dir == d && d in t.coverage
    && s.calls[r].pc.Listed? && s.calls[r].pc.gen == t.coverage[d].gen
    && t.calls[r].pc == Returned(Done(t.coverage[d].report))
  }

  ghost predicate CoverageLands(s: System, t: System) {
    forall d :: d in t.coverage ==>
        (d in s.coverage && s.coverage[d] == t.coverage[d]) || exists r :: FinishedBy(s, t, d, r)
  }

  // Success is reported to a waiter only out of coverage of its ticket.
  predicate SuccessLands(s: System, t: System) {
    forall c :: c in t.calls && t.calls[c].ticket.Some? && t.calls[c].pc.Returned? && t.calls[c].pc.outcome.Done?
      ==> (c in s.calls && s.calls[c] == t.calls[c])
          || (t.calls[c].dir in t.coverage
              && t.coverage[t.calls[c].dir].gen >= t.calls[c].ticket.value
              && t.coverage[t.calls[c].dir].report == t.calls[c].pc.outcome.report)
  }

  ghost predicate Lands(s: System, t: System) {
    CallsLand(s, t) && ListingsLand(s, t) && CoverageLands(s, t) && SuccessLands(s, t)
  }

  // A run's own ticket is covered by its own stamp.
  predicate OwnTicket(s: System) {
    forall c :: c in s.calls && s.calls[c].ticket.Some? && (s.calls[c].pc.Stamped? || s.calls[c].pc.Listed?)
      ==> s.calls[c].ticket.value <= s.calls[c].pc.gen
  }

  // One call moves and nothing becomes stamped except by the stamp itself.
  lemma MoveKeepsOwnTicket(s: System, t: System, id: CallId, pc: Pc)
    requires OwnTicket(s) && id in s.calls && t.calls == s.calls[id := s.calls[id].(pc := pc)]
    requires pc.Stamped? || pc.Listed? ==> s.calls[id].ticket.None? || s.calls[id].ticket.value <= pc.gen
    ensures OwnTicket(t)
  {
  }

  lemma TurnKeepsOwnTicket(s: System, id: CallId, late: bool, laterStill: bool)
    requires OwnTicket(s) && id in s.calls && s.calls[id].pc.Waiting?
    ensures OwnTicket(Turn(s, id, late, laterStill))
  {
    var t := Turn(s, id, late, laterStill);
    if t != s {
      MoveKeepsOwnTicket(s, t, id, t.calls[id].pc);
    }
  }

  lemma StepKeepsOwnTicket(s: System, a: Action)
    requires InOrder(s) && OwnTicket(s) && Enabled(s, a)
    ensures OwnTicket(Next(s, a))
  {
    match a
    case Publish(_, _) =>
    case Delete(_, _) =>
    case Enter(id, dir, wait, _, late, laterStill) =>
      TurnKeepsOwnTicket(Entered(s, id, dir, wait), id, late, laterStill);
    case Wake(id, late, laterStill) => TurnKeepsOwnTicket(s, id, late, laterStill);
    case Stamp(id) => MoveKeepsOwnTicket(s, Next(s, a), id, Stamped(s.generation));
    case List(id) => MoveKeepsOwnTicket(s, Next(s, a), id, Next(s, a).calls[id].pc);
    case Succeed(id, report) => MoveKeepsOwnTicket(s, Next(s, a), id, Returned(Done(report)));
    case Fail(id) => MoveKeepsOwnTicket(s, Next(s, a), id, Returned(Failed));
  }

  // A waiting call settles, starts or goes on waiting.
  lemma MoveLands(s: System, t: System, id: CallId, pc: Pc)
    requires id in s.calls && s.calls[id].pc.Waiting? && (pc.Waiting? || pc.Fetching? || pc.Returned?)
    requires t.calls == s.calls[id := s.calls[id].(pc := pc)] && t.coverage == s.coverage
      && t.generation == s.generation
    requires pc.Returned? && pc.outcome.Done? && s.calls[id].ticket.Some?
             ==> s.calls[id].dir in s.coverage
                 && s.coverage[s.calls[id].dir].gen >= s.calls[id].ticket.value
                 && s.coverage[s.calls[id].dir].report == pc.outcome.report
    ensures Lands(s, t)
  {
  }

  lemma TurnShape(s: System, id: CallId, late: bool, laterStill: bool) returns (pc: Pc)
    requires id in s.calls && s.calls[id].pc.Waiting?
    ensures var t := Turn(s, id, late, laterStill);
      t.calls == s.calls[id := s.calls[id].(pc := pc)] && t.coverage == s.coverage && t.generation == s.generation
    ensures pc.Waiting? || pc.Fetching? || pc.Returned?
    ensures pc.Returned? && pc.outcome.Done? && s.calls[id].ticket.Some?
            ==> s.calls[id].dir in s.coverage
                && s.coverage[s.calls[id].dir].gen >= s.calls[id].ticket.value
                && s.coverage[s.calls[id].dir].report == pc.outcome.report
  {
    var t := Turn(s, id, late, laterStill);
    pc := t.calls[id].pc;
    assert t == s ==> t.calls == s.calls[id := s.calls[id]];
  }

  lemma TurnLands(s: System, id: CallId, late: bool, laterStill: bool)
    requires id in s.calls && s.calls[id].pc.Waiting?
    ensures Lands(s, Turn(s, id, late, laterStill))
  {
    var pc := TurnShape(s, id, late, laterStill);
    MoveLands(s, Turn(s, id, late, laterStill), id, pc);
  }

  // The same for a call that was not there before.
  lemma NewCallLands(s: System, t: System, id: CallId, c: Call)
    requires id !in s.calls && t.calls == s.calls[id := c] && t.coverage == s.coverage && t.generation >= s.generation
    requires c.ticket.Some? ==> c.ticket.value > s.generation
    requires c.pc.Waiting? || c.pc.Fetching? || c.pc.Returned?
    requires c.pc.Returned? && c.pc.outcome.Done? && c.ticket.Some?
             ==> c.dir in s.coverage
                 && s.coverage[c.dir].gen >= c.ticket.value
                 && s.coverage[c.dir].report == c.pc.outcome.report
    ensures Lands(s, t)
  {
  }

  lemma EnterLands(s: System, id: CallId, dir: Dir, wait: bool, late: bool, laterStill: bool)
    requires id !in s.calls
    ensures Lands(s, Turn(Entered(s, id, dir, wait), id, late, laterStill))
  {
    var mid := Entered(s, id, dir, wait);
    var pc := TurnShape(mid, id, late, laterStill);
    var c := mid.calls[id].(pc := pc);
    assert mid.calls[id := c] == s.calls[id := c];
    NewCallLands(s, Turn(mid, id, late, laterStill), id, c);
  }

  lemma SucceedLands(s: System, a: Action)
    requires OwnTicket(s) && a.Succeed? && Enabled(s, a)
    ensures Lands(s, Next(s, a))
  {
    var t := Next(s, a);
    var d := s.calls[a.id].dir;
    assert FinishedBy(s, t, d, a.id);
  }

  lemma StepLands(s: System, a: Action)
    requires OwnTicket(s) && Enabled(s, a)
    ensures Lands(s, Next(s, a))
  {
    match a
    case Publish(_, _) =>
    case Delete(_, _) =>
    case Enter(id, dir, wait, timeoutValid, late, laterStill) =>
      if wait && !timeoutValid {
        NewCallLands(s, Next(s, a), id, Call(dir, None, Returned(BadTimeout)));
      } else {
        EnterLands(s, id, dir, wait, late, laterStill);
      }
    case Wake(id, late, laterStill) => TurnLands(s, id, late, laterStill);
    case Stamp(_) =>
    case List(_) =>
    case Succeed(_, _) => SucceedLands(s, a);
    case Fail(_) =>
  }

  lemma {:induction false} RunOwnsTickets(ss: seq<System>, n: nat)
    requires Run(ss) && n < |ss|
    ensures Sound(ss[n]) && OwnTicket(ss[n])
  {
    if n > 0 {
      RunOwnsTickets(ss, n - 1);
      assert Step(ss[n - 1], ss[n - 1 + 1]);
      var a :| Enabled(ss[n - 1], a) && ss[n] == Next(ss[n - 1], a);
      StepKeepsOwnTicket(ss[n - 1], a);
      StepKeepsSound(ss[n - 1], a);
    }
  }

  lemma RunLands(ss: seq<System>, n: nat)
    requires Run(ss) && n + 1 < |ss|
    ensures Lands(ss[n], ss[n + 1]) && ss[n].generation <= ss[n + 1].generation && InOrder(ss[n])
  {
    RunOwnsTickets(ss, n);
    assert Step(ss[n], ss[n + 1]);
    var a :| Enabled(ss[n], a) && ss[n + 1] == Next(ss[n], a);
    StepLands(ss[n], a);
  }

  // ----- what a reported success stands for -----

  // At state k the run r had just read the listing of dir that it stamped g.
  predicate ReadAt(ss: seq<System>, k: nat, r: CallId, dir: Dir, g: nat) {
    k < |ss| && r in ss[k].calls && ss[k].calls[r].dir == dir && ss[k].calls[r].pc == Listed(g, Images(ss[k], dir))
  }

  // Every ticket up to g was already registered at state k.
  predicate RegisteredBy(ss: seq<System>, k: nat, n: nat, g: nat) {
    k <= n < |ss|
    && forall c :: c in ss[n].calls && ss[n].calls[c].ticket.Some? && ss[n].calls[c].ticket.value <= g ==>
        c in ss[k].calls
  }

  predicate Reported(s: System, r: CallId, report: Report) {
    r in s.calls && s.calls[r].pc == Returned(Done(report))
  }

  ghost predicate ListingHeld(ss: seq<System>, n: nat, r: CallId, dir: Dir, g: nat, images: set<Image>) {
    exists k: nat :: ReadAt(ss, k, r, dir, g) && RegisteredBy(ss, k, n, g) && Images(ss[k], dir) == images
  }

  ghost predicate Backed(ss: seq<System>, n: nat, dir: Dir, g: nat, report: Report) {
    exists k: nat, r :: ReadAt(ss, k, r, dir, g) && RegisteredBy(ss, k, n, g) && Reported(ss[n], r, report)
  }

  ghost predicate TicketServed(ss: seq<System>, n: nat, dir: Dir, ticket: nat, report: Report) {
    exists g :: g >= ticket && Backed(ss, n, dir, g, report)
  }

  ghost predicate Kept(ss: seq<System>, n: nat)
    requires n < |ss|
  {
    (forall r :: r in ss[n].calls && ss[n].calls[r].pc.Listed?
       ==> ListingHeld(ss, n, r, ss[n].calls[r].dir, ss[n].calls[r].pc.gen, ss[n].calls[r].pc.images))
    && (forall d :: d in ss[n].coverage ==> Backed(ss, n, d, ss[n].coverage[d].gen, ss[n].coverage[d].report))
    && (forall c | c in ss[n].calls && ss[n].calls[c].ticket.Some? && ss[n].calls[c].pc.Returned?
          && ss[n].calls[c].pc.outcome.Done? ::
          TicketServed(ss, n, ss[n].calls[c].dir, ss[n].calls[c].ticket.value, ss[n].calls[c].pc.outcome.report))
  }

  lemma RegisteredOn(ss: seq<System>, k: nat, n: nat, g: nat)
    requires RegisteredBy(ss, k, n, g) && n + 1 < |ss| && CallsLand(ss[n], ss[n + 1]) && g <= ss[n].generation
    ensures RegisteredBy(ss, k, n + 1, g)
  {
  }

  lemma ListingCarries(ss: seq<System>, n: nat, r: CallId)
    requires n + 1 < |ss| && Kept(ss, n) && Lands(ss[n], ss[n + 1]) && InOrder(ss[n])
    requires r in ss[n + 1].calls && ss[n + 1].calls[r].pc.Listed?
    ensures var c := ss[n + 1].calls[r]; ListingHeld(ss, n + 1, r, c.dir, c.pc.gen, c.pc.images)
  {
    var c := ss[n + 1].calls[r];
    if r in ss[n].calls && ss[n].calls[r] == c {
      var k: nat :| ReadAt(ss, k, r, c.dir, c.pc.gen) && RegisteredBy(ss, k, n, c.pc.gen)
          && Images(ss[k], c.dir) == c.pc.images;
      RegisteredOn(ss, k, n, c.pc.gen);
    } else {
      assert ReadAt(ss, n + 1, r, c.dir, c.pc.gen);
      assert RegisteredBy(ss, n + 1, n + 1, c.pc.gen);
    }
  }

  lemma BackedCarries(ss: seq<System>, n: nat, dir: Dir, g: nat, report: Report)
    requires n + 1 < |ss| && CallsLand(ss[n], ss[n + 1]) && g <= ss[n].generation && Backed(ss, n, dir, g, report)
    ensures Backed(ss, n + 1, dir, g, report)
  {
    var k: nat, r :| ReadAt(ss, k, r, dir, g) && RegisteredBy(ss, k, n, g) && Reported(ss[n], r, report);
    RegisteredOn(ss, k, n, g);
    assert Reported(ss[n + 1], r, report);
  }

  lemma NewlyBacked(ss: seq<System>, n: nat, d: Dir, r: CallId)
    requires n + 1 < |ss| && Kept(ss, n) && CallsLand(ss[n], ss[n + 1]) && InOrder(ss[n])
      && FinishedBy(ss[n], ss[n + 1], d, r)
    ensures Backed(ss, n + 1, d, ss[n + 1].coverage[d].gen, ss[n + 1].coverage[d].report)
  {
    var pc := ss[n].calls[r].pc;
    assert ListingHeld(ss, n, r, d, pc.gen, pc.images);
    var k: nat :| ReadAt(ss, k, r, d, pc.gen) && RegisteredBy(ss, k, n, pc.gen);
    RegisteredOn(ss, k, n, pc.gen);
    assert Reported(ss[n + 1], r, ss[n + 1].coverage[d].report);
  }

  lemma CoverageCarries(ss: seq<System>, n: nat, d: Dir)
    requires n + 1 < |ss| && Kept(ss, n) && Lands(ss[n], ss[n + 1]) && InOrder(ss[n]) && d in ss[n + 1].coverage
    ensures Backed(ss, n + 1, d, ss[n + 1].coverage[d].gen, ss[n + 1].coverage[d].report)
  {
    var cov := ss[n + 1].coverage[d];
    if d in ss[n].coverage && ss[n].coverage[d] == cov {
      BackedCarries(ss, n, d, cov.gen, cov.report);
    } else {
      var r :| FinishedBy(ss[n], ss[n + 1], d, r);
      NewlyBacked(ss, n, d, r);
    }
  }

  // Backing is only ever given by stamps the counter has reached.
  lemma ServedCarries(ss: seq<System>, n: nat, dir: Dir, ticket: nat, report: Report)
    requires n + 1 < |ss| && CallsLand(ss[n], ss[n + 1]) && StampsBehind(ss, n)
      && TicketServed(ss, n, dir, ticket, report)
    ensures TicketServed(ss, n + 1, dir, ticket, report)
  {
    var g :| g >= ticket && Backed(ss, n, dir, g, report);
    var k: nat, r :| ReadAt(ss, k, r, dir, g) && RegisteredBy(ss, k, n, g) && Reported(ss[n], r, report);
    assert ListedUpTo(ss[k], ss[n].generation);
    BackedCarries(ss, n, dir, g, report);
  }

  predicate ListedUpTo(s: System, g: nat) {
    forall r :: r in s.calls && s.calls[r].pc.Listed? ==> s.calls[r].pc.gen <= g
  }

  predicate StampsBehind(ss: seq<System>, n: nat) {
    n < |ss| && forall k :: 0 <= k <= n ==> ListedUpTo(ss[k], ss[n].generation)
  }

  lemma {:induction false} RunStampsBehind(ss: seq<System>, n: nat)
    requires Run(ss) && n < |ss|
    ensures StampsBehind(ss, n)
  {
    RunIsSound(ss, n);
    if n > 0 {
      RunStampsBehind(ss, n - 1);
      RunLands(ss, n - 1);
    }
  }

  lemma {:induction false} RunKeeps(ss: seq<System>, n: nat)
    requires Run(ss) && n < |ss|
    ensures Kept(ss, n)
  {
    if n > 0 {
      RunKeeps(ss, n - 1);
      KeptNext(ss, n - 1, n);
    } else {
      KeptAtFirst(ss);
    }
  }

  lemma KeptNext(ss: seq<System>, n: nat, next: nat)
    requires Run(ss) && next == n + 1 < |ss| && Kept(ss, n)
    ensures Kept(ss, next)
  {
    RunLands(ss, n);
    RunStampsBehind(ss, n);
    KeptCarries(ss, n);
  }

  lemma KeptAtFirst(ss: seq<System>)
    requires Run(ss)
    ensures Kept(ss, 0)
  {
  }

  lemma KeptCarries(ss: seq<System>, n: nat)
    requires n + 1 < |ss| && Kept(ss, n) && Lands(ss[n], ss[n + 1]) && InOrder(ss[n]) && StampsBehind(ss, n)
    ensures Kept(ss, n + 1)
  {
    var t := ss[n + 1];
    forall r | r in t.calls && t.calls[r].pc.Listed?
      ensures ListingHeld(ss, n + 1, r, t.calls[r].dir, t.calls[r].pc.gen, t.calls[r].pc.images)
    {
      ListingCarries(ss, n, r);
    }
    forall d | d in t.coverage ensures Backed(ss, n + 1, d, t.coverage[d].gen, t.coverage[d].report) {
      CoverageCarries(ss, n, d);
    }
    forall c | c in t.calls && t.calls[c].ticket.Some? && t.calls[c].pc.Returned? && t.calls[c].pc.outcome.Done?
      ensures TicketServed(ss, n + 1, t.calls[c].dir, t.calls[c].ticket.value, t.calls[c].pc.outcome.report)
    {
      if c in ss[n].calls && ss[n].calls[c] == t.calls[c] {
        ServedCarries(ss, n, t.calls[c].dir, t.calls[c].ticket.value, t.calls[c].pc.outcome.report);
      } else {
        assert Backed(ss, n + 1, t.calls[c].dir, t.coverage[t.calls[c].dir].gen, t.coverage[t.calls[c].dir].report);
      }
    }
  }

  predicate CoverageOnwards(s: System, t: System) {
    forall d :: d in s.coverage ==> d in t.coverage && s.coverage[d].gen <= t.coverage[d].gen
  }

  lemma TurnKeepsCoverage(s: System, id: CallId, late: bool, laterStill: bool)
    requires id in s.calls
    ensures Turn(s, id, late, laterStill).coverage == s.coverage
  {
  }

  // Coverage of a directory never goes back, so a covered waiter stays covered.
  lemma CoverageGrows(s: System, a: Action)
    requires Sound(s) && Enabled(s, a)
    ensures CoverageOnwards(s, Next(s, a))
  {
    match a
    case Publish(_, _) =>
    case Delete(_, _) =>
    case Enter(id, dir, wait, _, late, laterStill) =>
      TurnKeepsCoverage(Entered(s, id, dir, wait), id, late, laterStill);
    case Wake(id, late, laterStill) => TurnKeepsCoverage(s, id, late, laterStill);
    case Stamp(_) =>
    case List(_) =>
    case Succeed(id, _) =>
      assert s.calls[id].dir in s.coverage ==> s.coverage[s.calls[id].dir].gen <= s.calls[id].pc.gen;
    case Fail(_) =>
  }

  lemma RunCoverage(ss: seq<System>, n: nat)
    requires Run(ss) && n + 1 < |ss|
    ensures CoverageOnwards(ss[n], ss[n + 1])
  {
    RunIsSound(ss, n);
    assert Step(ss[n], ss[n + 1]);
    var a :| Enabled(ss[n], a) && ss[n + 1] == Next(ss[n], a);
    CoverageGrows(ss[n], a);
  }

  predicate Onwards(s: System, t: System) {
    (forall c :: c in s.calls ==> c in t.calls) && CoverageOnwards(s, t)
  }

  lemma RunOnwards(ss: seq<System>, n: nat)
    requires Run(ss) && n + 1 < |ss|
    ensures Onwards(ss[n], ss[n + 1])
  {
    RunLands(ss, n);
    RunCoverage(ss, n);
  }

  predicate AllOnwards(ss: seq<System>) {
    forall i :: 0 <= i < |ss| - 1 ==> Onwards(ss[i], ss[i + 1])
  }

  lemma {:induction false} ChainOnwards(ss: seq<System>, i: nat, n: nat)
    requires AllOnwards(ss) && i <= n < |ss|
    ensures Onwards(ss[i], ss[n])
    decreases n - i
  {
    if i < n {
      ChainOnwards(ss, i, n - 1);
      assert Onwards(ss[n - 1], ss[n - 1 + 1]);
      OnwardsThrough(ss[i], ss[n - 1], ss[n]);
    }
  }

  // Calls are never forgotten and coverage never goes back.
  lemma CallsStay(ss: seq<System>, i: nat, n: nat)
    requires Run(ss) && i <= n < |ss|
    ensures Onwards(ss[i], ss[n])
  {
    forall k | 0 <= k < |ss| - 1 ensures Onwards(ss[k], ss[k + 1]) {
      RunOnwards(ss, k);
    }
    ChainOnwards(ss, i, n);
  }

  lemma OnwardsThrough(s: System, t: System, u: System)
    requires Onwards(s, t) && Onwards(t, u)
    ensures Onwards(s, u)
  {
  }

  // A waiting call that returns success was served by a successful run for its
  // own directory whose listing held every image that was durable before the
  // call and not deleted since. A failed run never serves anyone.
  lemma WaiterSawItsImage(ss: seq<System>, i: nat, n: nat, c: CallId, image: Image) returns (k: nat, r: CallId)
    requires Run(ss) && i <= n < |ss| && c !in ss[i].calls && c in ss[n].calls
    requires ss[n].calls[c].ticket.Some? && ss[n].calls[c].pc.Returned? && ss[n].calls[c].pc.outcome.Done?
    requires forall j :: i <= j <= n ==> image in Images(ss[j], ss[n].calls[c].dir)
    ensures i < k <= n && r in ss[k].calls && r in ss[n].calls
    ensures ss[k].calls[r].dir == ss[n].calls[c].dir
    ensures ss[k].calls[r].pc.Listed? && image in ss[k].calls[r].pc.images
    ensures ss[n].calls[r].pc == ss[n].calls[c].pc
  {
    RunKeeps(ss, n);
    var call := ss[n].calls[c];
    var g :| g >= call.ticket.value && Backed(ss, n, call.dir, g, call.pc.outcome.report);
    k, r :| ReadAt(ss, k, r, call.dir, g) && RegisteredBy(ss, k, n, g) && Reported(ss[n], r, call.pc.outcome.report);
    if k <= i {
      CallsStay(ss, k, i);
    }
  }
}

// The process-wide guard itself, each method one critical section.
module RefreshGuard {
  import opened Common
  import opened RefreshFlight

  // A finished run already serves this ticket.
  predicate Served(coverage: map<Dir, Coverage>, dir: Dir, ticket: Option<nat>) {
    ticket.Some? && dir in coverage && ticket.value <= coverage[dir].gen
  }

  // Where a turn leaves the caller: a ticket holder out of time gives up, one that is
  // served takes that report, whoever finds no run starts one, and of the rest only
  // ticket holders wait, as long as they have time.
  predicate TurnLeaves(running: bool, coverage: map<Dir, Coverage>, dir: Dir, ticket: Option<nat>,
                       late: bool, laterStill: bool, pc: Pc)
  {
    var served := Served(coverage, dir, ticket);
    var expired := ticket.Some? && late;
    && (pc.Fetching? <==> !expired && !served && !running)
    && (pc.Waiting? <==> !expired && !served && running && ticket.Some? && !laterStill)
    && (pc.Returned? ==>
          match pc.outcome
          case Done(report) => !expired && served && report == coverage[dir].report
          case TimedOut => expired || (!served && running && ticket.Some? && laterStill)
          case AlreadyRunning => ticket.None? && running
          case Failed => false
          case BadTimeout => false)
    && !pc.Stamped? && !pc.Listed?
  }

  class Guard {
    var running: bool
    var generation: nat
    var coverage: map<Dir, Coverage>

    constructor ()
      ensures Shows(InitialSystem(map[]))
    {
      running, generation, coverage := false, 0, map[];
    }

    // The guard's fields are the shared part of s.
    ghost predicate Shows(s: System)
      reads this
    {
      running == s.running && generation == s.generation && coverage == s.coverage
    }

    // A call comes in: take a ticket if it waits.
    method Register(ghost s: System, ghost id: CallId, dir: Dir, wait: bool) returns (ticket: Option<nat>)
      requires Shows(s)
      modifies this
      ensures Shows(Entered(s, id, dir, wait)) && Entered(s, id, dir, wait).calls[id] == Call(dir, ticket, Waiting)
      ensures running == old(running) && coverage == old(coverage)
      ensures generation == old(generation) + (if wait then 1 else 0)
      ensures ticket == if wait then Some(generation) else None
    {
      if wait {
        generation := generation + 1;
        ticket := Some(generation);
      } else {
        ticket := None;
      }
    }

    // One turn of the waiting loop: where the caller stands after it.
    method TakeTurn(ghost s: System, ghost id: CallId, dir: Dir, ticket: Option<nat>, late: bool, laterStill: bool)
      returns (pc: Pc)
      requires Shows(s) && id in s.calls && s.calls[id] == Call(dir, ticket, Waiting)
      modifies this
      ensures Shows(Turn(s, id, late, laterStill)) && Turn(s, id, late, laterStill).calls[id] == Call(dir, ticket, pc)
      ensures TurnLeaves(old(running), old(coverage), dir, ticket, late, laterStill, pc)
      ensures running == (old(running) || pc.Fetching?) && coverage == old(coverage) && generation == old(generation)
    {
      if ticket.Some? && late {
        return Returned(TimedOut);
      }
      if ticket.Some? && dir in coverage && coverage[dir].gen >= ticket.value {
        return Returned(Done(coverage[dir].report));
      }
      if !running {
        running := true;
        return Fetching;
      }
      if ticket.None? {
        return Returned(AlreadyRunning);
      }
      return if laterStill then Returned(TimedOut) else Waiting;
    }

    method MarkSnapshot(ghost s: System, ghost id: CallId) returns (gen: nat)
      requires Shows(s) && id in s.calls && s.calls[id].pc.Fetching?
      ensures Shows(Next(s, Stamp(id))) && Next(s, Stamp(id)).calls[id].pc == Stamped(gen)
      ensures gen == generation
    {
      gen := generation;
    }

    // The run is over; only a success with a snapshot is entered as coverage.
    method Release(ghost s: System, ghost id: CallId, dir: Dir, snapshot: Option<nat>, result: Option<Report>)
      requires Shows(s) && id in s.calls && s.calls[id].dir == dir && Active(s.calls[id].pc)
      requires result.Some? ==> s.calls[id].pc.Listed?
      requires s.calls[id].pc.Listed? ==> snapshot == Some(s.calls[id].pc.gen)
      modifies this
      ensures result.Some? ==> Shows(Next(s, Succeed(id, result.value)))
      ensures result.None? ==> Shows(Next(s, Fail(id)))
      ensures !running && generation == old(generation)
      ensures coverage == if result.None? then old(coverage)
                          else old(coverage)[dir := Coverage(snapshot.value, result.value)]
    {
      if result.Some? && snapshot.Some? {
        coverage := coverage[dir := Coverage(snapshot.value, result.value)];
      }
      running := false;
    }
  }
}
