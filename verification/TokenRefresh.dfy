// Catalog token refresh: rotation under the store lock, recovery with the
// previous token when a response was lost, and a device that keeps retrying.
module TokenRefresh {
  import opened Common

  type Token = string
  type RequestId = nat

  // Epoch seconds; expiry 0 means never.
  datatype Record = Record(value: Token, expires: int, refreshExpires: Option<int>, revoked: bool)

  // One device's catalog credentials as persisted.
  datatype Secrets = Secrets(current: Option<Record>, previous: Option<Record>)

  datatype Config = Config(overlap: int, grace: int, ttl: int)

  datatype Slot = Current | Previous

  // The condition of the device's instruction keys, found under the lock.
  datatype Instruction = Present | MissingMinted | Unusable | InstructionRevoked

  datatype Reply =
    | Bag(token: Token, expires: int)
    | Unauthorized
    | DeviceRevoked
    | KeyUnavailable
    | PersistFailed

  predicate Valid(r: Record, now: real, grace: int) {
    !r.revoked && (r.expires == 0 || now < (r.expires + grace) as real)
  }

  // The strict index resolves a non-empty value owned by exactly one record; a
  // duplicate anywhere (another device's included) leaves it empty.
  function Lookup(s: Secrets, token: Token, clash: bool): (r: Option<Slot>)
    ensures r == Some(Current) ==> s.current.Some? && s.current.value.value == token
    ensures r == Some(Previous) ==> s.previous.Some? && s.previous.value.value == token
  {
    var own := s.current.Some? && s.previous.Some? && s.current.value.value == s.previous.value.value
        && s.current.value.value != "";
    if clash || own || token == "" then None
    else if s.current.Some? && s.current.value.value == token then Some(Current)
    else if s.previous.Some? && s.previous.value.value == token then Some(Previous)
    else None
  }

  predicate WithinDeadline(prev: Record, now: real, grace: int) {
    match prev.refreshExpires
    case None => Valid(prev, now, grace)
    case Some(d) => d == 0 || now < (d + grace) as real
  }

  // Which credential the token refresh route accepts this token as.
  function Resolve(s: Secrets, token: Token, now: real, grace: int, clash: bool): (r: Option<Slot>)
    ensures r == Some(Current) ==>
      s.current.Some? && s.current.value.value == token && Valid(s.current.value, now, grace)
    ensures r == Some(Previous) ==> s.previous.Some? && s.previous.value.value == token
  {
    match Lookup(s, token, clash)
    case None => None
    case Some(Current) => if Valid(s.current.value, now, grace) then Some(Current) else None
    case Some(Previous) =>
      var prev := s.previous.value;
      if prev.revoked || !WithinDeadline(prev, now, grace) then None
      else if s.current.None? || !Valid(s.current.value, now, grace) then None
      else Some(Previous)
  }

  // A fresh value replaces the current token; the replaced one stays usable for
  // recovery until its own original expiry.
  function Rotated(s: Secrets, minted: Token, now: real, cfg: Config): Secrets
    requires s.current.Some?
  {
    var c := s.current.value;
    Secrets(
      Some(Record(minted, if cfg.ttl != 0 then Truncated(now) + cfg.ttl else 0, None, false)),
      Some(Record(c.value, Truncated(now) + cfg.overlap, Some(c.expires), false)))
  }

  // What the outside contributes to one handling of a request.
  datatype Context = Context(now: real, clash: bool, instruction: Instruction, minted: Token, persist: Persist)

  // A reported failure may have left either store durable.
  datatype Persist = Stored | FailedBefore | FailedAfter

  // The part of the handler under the store lock: the durable store after it and
  // the reply.
  function Handle(s: Secrets, token: Token, x: Context, cfg: Config): (Secrets, Reply) {
    if s.current.Some? && s.current.value.revoked then (s, DeviceRevoked)
    else
      match Resolve(s, token, x.now, cfg.grace, x.clash)
      case None => (s, Unauthorized)
      case Some(slot) =>
        if x.instruction.Unusable? then (s, KeyUnavailable)
        else if x.instruction.InstructionRevoked? then (s, DeviceRevoked)
        else
          var next := if slot.Current? then Rotated(s, x.minted, x.now, cfg) else s;
          var writes := slot.Current? || x.instruction.MissingMinted?;
          if writes && x.persist.FailedBefore? then (s, PersistFailed)
          else if writes && x.persist.FailedAfter? then (next, PersistFailed)
          else (next, Bag(next.current.value.value, next.current.value.expires))
  }

  predicate Rotates(s: Secrets, token: Token, x: Context, cfg: Config) {
    Handle(s, token, x, cfg).0 != s
  }

  function Revoked(s: Secrets): Secrets {
    Secrets(
      if s.current.Some? then Some(s.current.value.(revoked := true)) else None,
      if s.previous.Some? then Some(s.previous.value.(revoked := true)) else None)
  }

  // ----- the protocol -----

  datatype Stage = Sent | Admitted | Answered(reply: Reply)

  datatype Request = Request(token: Token, stage: Stage)

  // held is the token in the device's configuration; attempt the one request
  // whose response it still waits for.
  datatype System = System(
    secrets: Secrets,
    minted: set<Token>,
    held: Token,
    attempt: Option<RequestId>,
    requests: map<RequestId, Request>)

  datatype Action =
    | Send(id: RequestId)                          // a new attempt; an older one is given up
    | Duplicate(id: RequestId, copy: RequestId)    // the network repeats a request
    | Guard(id: RequestId, now: real, clash: bool) // authorization before the lock
    | Locked(id: RequestId, x: Context)
    | Deliver(id: RequestId)                       // the response arrives and is written to disk
    | Lose                                         // the response or the configuration write fails
    | Revoke

  predicate Enabled(s: System, a: Action) {
    match a
    case Send(id) => id !in s.requests
    case Duplicate(id, copy) => id in s.requests && copy !in s.requests
    case Guard(id, _, _) => id in s.requests && s.requests[id].stage.Sent?
    case Locked(id, x) => id in s.requests && s.requests[id].stage.Admitted? && x.minted !in s.minted && x.minted != ""
    case Deliver(id) => s.attempt == Some(id) && id in s.requests && s.requests[id].stage.Answered?
        && s.requests[id].stage.reply.Bag?
    case Lose => true
    case Revoke => true
  }

  function At(s: System, id: RequestId, stage: Stage): System
    requires id in s.requests
  {
    s.(requests := s.requests[id := s.requests[id].(stage := stage)])
  }

  function Next(s: System, a: Action, cfg: Config): System
    requires Enabled(s, a)
  {
    match a
    case Send(id) => s.(requests := s.requests[id := Request(s.held, Sent)], attempt := Some(id))
    case Duplicate(id, copy) => s.(requests := s.requests[copy := Request(s.requests[id].token, Sent)])
    case Guard(id, now, clash) =>
      if Resolve(s.secrets, s.requests[id].token, now, cfg.grace, clash).Some? then At(s, id, Admitted)
      else At(s, id, Answered(Unauthorized))
    case Locked(id, x) =>
      var h := Handle(s.secrets, s.requests[id].token, x, cfg);
      At(s, id, Answered(h.1)).(secrets := h.0, minted := s.minted + {x.minted})
    case Deliver(id) => s.(held := s.requests[id].stage.reply.token, attempt := None)
    case Lose => s.(attempt := None)
    case Revoke => s.(secrets := Revoked(s.secrets))
  }

  // The device was just given its first token.
  predicate Enrolled(s: System) {
    s.secrets.current.Some? && s.secrets.previous.None? && s.held != ""
    && s.secrets.current.value.value == s.held && s.minted == {s.held}
    && s.attempt.None? && s.requests == map[]
  }

  datatype Run = Run(cfg: Config, states: seq<System>, actions: seq<Action>)

  predicate IsRun(r: Run) {
    |r.states| == |r.actions| + 1
    && Enrolled(r.states[0])
    && forall i :: 0 <= i < |r.actions| ==> Follows(r, i)
  }

  predicate Follows(r: Run, i: nat)
    requires i < |r.actions| && |r.states| == |r.actions| + 1
  {
    Enabled(r.states[i], r.actions[i]) && r.states[i + 1] == Next(r.states[i], r.actions[i], r.cfg)
  }
}

module TokenRuns {
  import opened Common
  import opened TokenRefresh

  // ----- one handling -----

  // The store changes only by rotating the current token, when it was valid and
  // presented.
  lemma HandleCases(s: Secrets, token: Token, x: Context, cfg: Config)
    requires x.minted != token
    ensures var h := Handle(s, token, x, cfg);
      Rotates(s, token, x, cfg) ==>
        s.current.Some? && s.current.value.value == token && Valid(s.current.value, x.now, cfg.grace)
        && h.0 == Rotated(s, x.minted, x.now, cfg)
    ensures var h := Handle(s, token, x, cfg);
      h.1.Bag? ==> h.0.current.Some? && h.0.current.value.value == h.1.token
                   && h.0.previous.Some? && h.0.previous.value.value == token
  {
  }

  // ----- what a presented token comes to -----

  // Not yet past this expiry, with the grace allowed; 0 never expires.
  predicate Before(expiry: int, now: real, grace: int) {
    expiry == 0 || now < (expiry + grace) as real
  }

  // The token is the stored current one and nothing else's, neither revoked nor
  // expired.
  predicate FitsCurrent(s: Secrets, token: Token, x: Context, cfg: Config) {
    token != "" && !x.clash
    && s.current.Some? && s.current.value.value == token
    && !(s.previous.Some? && s.previous.value.value == token)
    && !s.current.value.revoked && Before(s.current.value.expires, x.now, cfg.grace)
  }

  // Until when a replaced token can be used to ask for its successor: its own
  // original expiry, or for an old record that lacks it the end of its overlap.
  function RecoveryEnd(prev: Record): int {
    if prev.refreshExpires.Some? then prev.refreshExpires.value else prev.expires
  }

  // The token is the stored previous one and nothing else's, not revoked and not past
  // its end, and its successor is still good.
  predicate FitsPrevious(s: Secrets, token: Token, x: Context, cfg: Config) {
    token != "" && !x.clash
    && s.previous.Some? && s.previous.value.value == token && !s.previous.value.revoked
    && Before(RecoveryEnd(s.previous.value), x.now, cfg.grace)
    && s.current.Some? && s.current.value.value != token
    && !s.current.value.revoked && Before(s.current.value.expires, x.now, cfg.grace)
  }

  // After a rotation: the minted token is current for its time to live, and the one
  // presented is previous, with its overlap and the expiry it had.
  predicate TurnedOver(s: Secrets, token: Token, x: Context, cfg: Config, t: Secrets) {
    && t.current.Some? && t.previous.Some? && s.current.Some?
    && t.current.value.value == x.minted && !t.current.value.revoked && t.current.value.refreshExpires.None?
    && t.current.value.expires == (if cfg.ttl == 0 then 0 else Truncated(x.now) + cfg.ttl)
    && t.previous.value.value == token && !t.previous.value.revoked
    && t.previous.value.expires == Truncated(x.now) + cfg.overlap
    && t.previous.value.refreshExpires == Some(s.current.value.expires)
  }

  predicate KeysUsable(x: Context) {
    x.instruction.Present? || x.instruction.MissingMinted?
  }

  // The whole answer of the locked section.
  predicate Answers(s: Secrets, token: Token, x: Context, cfg: Config, t: Secrets, reply: Reply) {
    if s.current.Some? && s.current.value.revoked then t == s && reply == DeviceRevoked
    else if !FitsCurrent(s, token, x, cfg) && !FitsPrevious(s, token, x, cfg) then t == s && reply == Unauthorized
    else if !KeysUsable(x) then t == s && reply == (if x.instruction.Unusable? then KeyUnavailable else DeviceRevoked)
    else if FitsCurrent(s, token, x, cfg) then
      (if x.persist.FailedBefore? then t == s else TurnedOver(s, token, x, cfg, t))
      && reply == (if x.persist.Stored? then Bag(x.minted, if cfg.ttl == 0 then 0 else Truncated(x.now) + cfg.ttl)
                   else PersistFailed)
    else
      t == s
      && reply == (if x.instruction.MissingMinted? && !x.persist.Stored? then PersistFailed
                   else Bag(s.current.value.value, s.current.value.expires))
  }

  lemma ResolvesAs(s: Secrets, token: Token, x: Context, cfg: Config)
    ensures Resolve(s, token, x.now, cfg.grace, x.clash) == Some(Current) <==> FitsCurrent(s, token, x, cfg)
    ensures Resolve(s, token, x.now, cfg.grace, x.clash) == Some(Previous) <==> FitsPrevious(s, token, x, cfg)
  {
  }

  lemma HandleAnswers(s: Secrets, token: Token, x: Context, cfg: Config)
    ensures Answers(s, token, x, cfg, Handle(s, token, x, cfg).0, Handle(s, token, x, cfg).1)
  {
    ResolvesAs(s, token, x, cfg);
  }

  // A request gets as far as the lock exactly if its token fits.
  lemma GuardAdmitsFitting(s: System, id: RequestId, x: Context, cfg: Config)
    requires Enabled(s, Guard(id, x.now, x.clash))
    ensures var t := Next(s, Guard(id, x.now, x.clash), cfg);
      var token := s.requests[id].token;
      t.secrets == s.secrets && id in t.requests
      && t.requests[id].stage == (if FitsCurrent(s.secrets, token, x, cfg) || FitsPrevious(s.secrets, token, x, cfg)
                                  then Admitted else Answered(Unauthorized))
  {
    ResolvesAs(s.secrets, s.requests[id].token, x, cfg);
  }

  // A token the store holds as previous is answered with the current bag, and the
  // store is left as it was, exactly when the successor is valid, the deadline
  // has not passed and nothing else is wrong.
  lemma RecoveryIffInDeadline(s: Secrets, token: Token, x: Context, cfg: Config)
    requires s.previous.Some? && s.previous.value.value == token
    requires s.current.Some? && s.current.value.value != token
    ensures var h := Handle(s, token, x, cfg);
      h.0 == s
      && (h.1.Bag? ==> h.1 == Bag(s.current.value.value, s.current.value.expires))
      && (h.1.Bag? <==>
            token != "" && !x.clash
            && !s.current.value.revoked
            && (s.current.value.expires == 0 || x.now < (s.current.value.expires + cfg.grace) as real)
            && !s.previous.value.revoked
            && (RecoveryEnd(s.previous.value) == 0 || x.now < (RecoveryEnd(s.previous.value) + cfg.grace) as real)
            && (x.instruction.Present? || (x.instruction.MissingMinted? && x.persist.Stored?)))
  {
  }

  // ----- what every run keeps -----

  predicate Minted(s: System) {
    s.secrets.current.Some? && s.secrets.current.value.value in s.minted
    && (s.secrets.previous.Some? ==> s.secrets.previous.value.value in s.minted)
    && s.held in s.minted && "" !in s.minted
    && forall id :: id in s.requests ==> s.requests[id].token in s.minted
  }

  predicate Apart(s: System)
    requires s.secrets.current.Some?
  {
    s.secrets.previous.Some? ==> s.secrets.previous.value.value != s.secrets.current.value.value
  }

  // The device holds the current token, or the previous one and has not yet seen
  // the current one.
  predicate HeldIsStored(s: System)
    requires s.secrets.current.Some?
  {
    s.held == s.secrets.current.value.value
    || (s.secrets.previous.Some? && s.held == s.secrets.previous.value.value
        && forall id :: id in s.requests ==> s.requests[id].token != s.secrets.current.value.value)
  }

  // A bag on its way to the waiting device carries the current token, and the
  // device still holds the previous one.
  predicate BagIsCurrent(s: System)
    requires s.secrets.current.Some?
  {
    s.attempt.Some? ==>
      s.attempt.value in s.requests
      && s.requests[s.attempt.value].token == s.held
      && (s.requests[s.attempt.value].stage.Answered? && s.requests[s.attempt.value].stage.reply.Bag? ==>
            s.requests[s.attempt.value].stage.reply.token == s.secrets.current.value.value
            && s.held != s.secrets.current.value.value)
  }

  predicate Inv(s: System) {
    Minted(s) && Apart(s) && HeldIsStored(s) && BagIsCurrent(s)
  }

  lemma LockedKeepsInv(s: System, id: RequestId, x: Context, cfg: Config)
    requires Inv(s) && Enabled(s, Locked(id, x))
    ensures Inv(Next(s, Locked(id, x), cfg))
  {
    var token := s.requests[id].token;
    HandleCases(s.secrets, token, x, cfg);
    var t := Next(s, Locked(id, x), cfg);
    if t.secrets != s.secrets {
      assert t.secrets == Rotated(s.secrets, x.minted, x.now, cfg);
      assert s.held == token;
    }
  }

  lemma StepKeepsInv(s: System, a: Action, cfg: Config)
    requires Inv(s) && Enabled(s, a)
    ensures Inv(Next(s, a, cfg))
  {
    match a
    case Locked(id, x) => LockedKeepsInv(s, id, x, cfg);
    case Send(_) =>
    case Duplicate(_, _) =>
    case Guard(_, _, _) =>
    case Deliver(_) =>
    case Lose =>
    case Revoke =>
  }

  lemma {:induction false} RunKeepsInv(r: Run, n: nat)
    requires IsRun(r) && n < |r.states|
    ensures Inv(r.states[n])
  {
    if n > 0 {
      RunKeepsInv(r, n - 1);
      assert Follows(r, n - 1);
      StepKeepsInv(r.states[n - 1], r.actions[n - 1], r.cfg);
    }
  }

  // Whatever is lost, repeated or delayed, the device's token is the stored
  // current or previous one.
  lemma DeviceIsNeverStranded(r: Run, n: nat)
    requires IsRun(r) && n < |r.states|
    ensures var s := r.states[n];
      s.secrets.current.Some?
      && (s.held == s.secrets.current.value.value
          || (s.secrets.previous.Some? && s.held == s.secrets.previous.value.value))
  {
    RunKeepsInv(r, n);
  }

  // ----- at most one rotation per token value -----

  predicate RotatesAt(r: Run, i: nat, token: Token) {
    i < |r.actions| && i + 1 < |r.states| && r.actions[i].Locked?
    && r.actions[i].id in r.states[i].requests && r.states[i].requests[r.actions[i].id].token == token
    && Rotates(r.states[i].secrets, token, r.actions[i].x, r.cfg)
  }

  // A minted value that is not current now will not be current later.
  predicate Spent(s: System, token: Token) {
    token in s.minted && s.secrets.current.Some? && s.secrets.current.value.value != token
  }

  lemma StepKeepsSpent(s: System, a: Action, cfg: Config, token: Token)
    requires Inv(s) && Enabled(s, a) && Spent(s, token)
    ensures Spent(Next(s, a, cfg), token)
  {
    if a.Locked? {
      HandleCases(s.secrets, s.requests[a.id].token, a.x, cfg);
    }
  }

  lemma {:induction false} SpentStays(r: Run, i: nat, n: nat, token: Token)
    requires IsRun(r) && i <= n < |r.states| && Spent(r.states[i], token)
    ensures Spent(r.states[n], token)
    decreases n - i
  {
    if i < n {
      SpentStays(r, i, n - 1, token);
      RunKeepsInv(r, n - 1);
      assert Follows(r, n - 1);
      StepKeepsSpent(r.states[n - 1], r.actions[n - 1], r.cfg, token);
    }
  }

  lemma RotatesOnce(r: Run, i: nat, j: nat, token: Token)
    requires IsRun(r) && RotatesAt(r, i, token) && RotatesAt(r, j, token)
    ensures i == j
  {
    var first, second := if i < j then i else j, if i < j then j else i;
    if first < second {
      assert Follows(r, first) && Follows(r, second);
      RunKeepsInv(r, first);
      var s := r.states[first];
      HandleCases(s.secrets, token, r.actions[first].x, r.cfg);
      assert Spent(r.states[first + 1], token);
      SpentStays(r, first + 1, second, token);
      RunKeepsInv(r, second);
      HandleCases(r.states[second].secrets, token, r.actions[second].x, r.cfg);
    }
  }

  // ----- revocation -----

  predicate IsRevoked(s: System) {
    s.secrets.current.Some? && s.secrets.current.value.revoked
  }

  lemma {:induction false} RevocationStays(r: Run, i: nat, n: nat)
    requires IsRun(r) && i <= n < |r.states| && IsRevoked(r.states[i])
    ensures IsRevoked(r.states[n])
    ensures r.states[n].secrets.current.value.value == r.states[i].secrets.current.value.value
    decreases n - i
  {
    if i < n {
      RevocationStays(r, i, n - 1);
      assert Follows(r, n - 1);
    }
  }

  // A revocation stops the device for good: whatever is presented from then on is
  // answered so, and the store does not change.
  lemma RevokedForGood(r: Run, i: nat, n: nat, token: Token, x: Context)
    requires IsRun(r) && i < n < |r.states| && r.actions[i].Revoke?
    ensures Handle(r.states[n].secrets, token, x, r.cfg) == (r.states[n].secrets, DeviceRevoked)
  {
    assert Follows(r, i);
    RunKeepsInv(r, i);
    RevocationStays(r, i + 1, n);
  }

  // The answer the device takes is the stored current token.
  lemma DeliveredIsCurrent(r: Run, i: nat)
    requires IsRun(r) && i < |r.actions| && r.actions[i].Deliver?
    ensures var s := r.states[i + 1];
      s.secrets.current.Some? && s.held == s.secrets.current.value.value && s.held != r.states[i].held
  {
    assert Follows(r, i);
    RunKeepsInv(r, i);
  }

  // ----- the recovery window -----

  // The store still offers token for recovery until its original expiry.
  predicate Recoverable(s: System, token: Token, successor: Token, expiry: int) {
    s.secrets.current.Some? && s.secrets.current.value.value == successor
    && s.secrets.previous.Some? && s.secrets.previous.value.value == token
    && s.secrets.previous.value.refreshExpires == Some(expiry)
    && s.held == token
  }

  lemma StepKeepsRecoverable(s: System, a: Action, cfg: Config, token: Token, successor: Token, expiry: int)
    requires Inv(s) && Enabled(s, a) && Recoverable(s, token, successor, expiry) && Next(s, a, cfg).held == token
    ensures Recoverable(Next(s, a, cfg), token, successor, expiry)
  {
    if a.Locked? {
      HandleCases(s.secrets, s.requests[a.id].token, a.x, cfg);
    }
  }

  lemma {:induction false} RecoverableStays(r: Run, i: nat, n: nat, token: Token, successor: Token, expiry: int)
    requires IsRun(r) && i <= n < |r.states| && Recoverable(r.states[i], token, successor, expiry)
    requires forall k :: i <= k <= n ==> r.states[k].held == token
    ensures Recoverable(r.states[n], token, successor, expiry)
    decreases n - i
  {
    if i < n {
      RecoverableStays(r, i, n - 1, token, successor, expiry);
      RunKeepsInv(r, n - 1);
      assert Follows(r, n - 1);
      StepKeepsRecoverable(r.states[n - 1], r.actions[n - 1], r.cfg, token, successor, expiry);
    }
  }

  // After its token was rotated away, a device that never got the answer can
  // retry any time before that token's original expiry: it is handed the
  // successor minted back then and the store does not change.
  lemma RetryReturnsSuccessor(r: Run, i: nat, n: nat, token: Token, x: Context)
    requires IsRun(r) && RotatesAt(r, i, token) && i < n < |r.states|
    requires forall k :: i <= k <= n ==> r.states[k].held == token
    requires var s := r.states[n].secrets;
      s.current.Some? && Valid(s.current.value, x.now, r.cfg.grace) && s.previous.Some? && !s.previous.value.revoked
    requires !x.clash && x.instruction.Present?
    requires var e := r.states[i].secrets.current;
      e.Some? && (e.value.expires == 0 || x.now < (e.value.expires + r.cfg.grace) as real)
    ensures var s := r.states[n].secrets;
      var h := Handle(s, token, x, r.cfg);
      h.0 == s && h.1 == Bag(s.current.value.value, s.current.value.expires)
      && s.current.value.value == r.actions[i].x.minted
  {
    var s := r.states[i];
    assert Follows(r, i);
    RunKeepsInv(r, i);
    HandleCases(s.secrets, token, r.actions[i].x, r.cfg);
    var expiry := s.secrets.current.value.expires;
    assert Recoverable(r.states[i + 1], token, r.actions[i].x.minted, expiry);
    RecoverableStays(r, i + 1, n, token, r.actions[i].x.minted, expiry);
    RunKeepsInv(r, n);
    RecoveryIffInDeadline(r.states[n].secrets, token, x, r.cfg);
  }

  // ----- and after it -----

  // The store no longer has token as its current one, and if it has it as the
  // previous one it knows token's original expiry.
  predicate Replaced(s: System, token: Token, expiry: int) {
    Spent(s, token)
    && (s.secrets.previous.Some? && s.secrets.previous.value.value == token ==>
          s.secrets.previous.value.refreshExpires == Some(expiry))
  }

  lemma StepKeepsReplaced(s: System, a: Action, cfg: Config, token: Token, expiry: int)
    requires Inv(s) && Enabled(s, a) && Replaced(s, token, expiry)
    ensures Replaced(Next(s, a, cfg), token, expiry)
  {
    StepKeepsSpent(s, a, cfg, token);
    if a.Locked? {
      HandleCases(s.secrets, s.requests[a.id].token, a.x, cfg);
    }
  }

  lemma {:induction false} ReplacedStays(r: Run, i: nat, n: nat, token: Token, expiry: int)
    requires IsRun(r) && i <= n < |r.states| && Replaced(r.states[i], token, expiry)
    ensures Replaced(r.states[n], token, expiry)
    decreases n - i
  {
    if i < n {
      ReplacedStays(r, i, n - 1, token, expiry);
      RunKeepsInv(r, n - 1);
      assert Follows(r, n - 1);
      StepKeepsReplaced(r.states[n - 1], r.actions[n - 1], r.cfg, token, expiry);
    }
  }

  lemma RotationReplaces(r: Run, i: nat, token: Token)
    requires IsRun(r) && RotatesAt(r, i, token)
    ensures r.states[i].secrets.current.Some?
    ensures Replaced(r.states[i + 1], token, r.states[i].secrets.current.value.expires)
    ensures var c, x := r.states[i].secrets.current.value, r.actions[i].x;
      c.value == token && !c.revoked && (c.expires == 0 || x.now < (c.expires + r.cfg.grace) as real)
  {
    assert Follows(r, i);
    RunKeepsInv(r, i);
    HandleCases(r.states[i].secrets, token, r.actions[i].x, r.cfg);
  }

  // A token past its expiry is never rotated, and once it was rotated away it is worth
  // nothing from its original expiry on, grace included: whoever presents it, whenever
  // and however often, is refused and nothing changes.
  lemma LateRetryIsRefused(r: Run, i: nat, n: nat, token: Token, x: Context)
    requires IsRun(r) && RotatesAt(r, i, token) && i < n < |r.states|
    requires var c := r.states[i].secrets.current;
      c.Some? && c.value.expires != 0 && x.now >= (c.value.expires + r.cfg.grace) as real
    ensures var h := Handle(r.states[n].secrets, token, x, r.cfg);
      h.0 == r.states[n].secrets && (h.1 == Unauthorized || h.1 == DeviceRevoked)
  {
    RotationReplaces(r, i, token);
    ReplacedStays(r, i + 1, n, token, r.states[i].secrets.current.value.expires);
    HandleAnswers(r.states[n].secrets, token, x, r.cfg);
  }

  lemma ExpiredNeverRotates(r: Run, i: nat, token: Token)
    requires IsRun(r) && RotatesAt(r, i, token)
    ensures var c, x := r.states[i].secrets.current, r.actions[i].x;
      c.Some? && c.value.value == token && !c.value.revoked
      && (c.value.expires == 0 || x.now < (c.value.expires + r.cfg.grace) as real)
  {
    RotationReplaces(r, i, token);
  }
}

// The handler's locked section as it updates the store.
module TokenHandler {
  import opened Common
  import opened TokenRefresh
  import opened TokenRuns

  class SecretStore {
    var secrets: Secrets
    const cfg: Config

    constructor (s: Secrets, c: Config)
      ensures secrets == s && cfg == c
    {
      secrets, cfg := s, c;
    }

    method HandleTokenRefresh(token: Token, x: Context) returns (reply: Reply)
      modifies this
      ensures secrets == Handle(old(secrets), token, x, cfg).0
      ensures reply == Handle(old(secrets), token, x, cfg).1
      ensures Answers(old(secrets), token, x, cfg, secrets, reply)
    {
      HandleAnswers(secrets, token, x, cfg);
      var before := secrets;
      if before.current.Some? && before.current.value.revoked {
        return DeviceRevoked;
      }
      var slot := Resolve(before, token, x.now, cfg.grace, x.clash);
      if slot.None? {
        return Unauthorized;
      }
      if x.instruction.Unusable? {
        return KeyUnavailable;
      }
      if x.instruction.InstructionRevoked? {
        return DeviceRevoked;
      }
      var rotating := slot.value.Current?;
      if rotating {
        var was := before.current.value;
        var overlapEnd := Truncated(x.now) + cfg.overlap;
        secrets := secrets.(previous := Some(Record(was.value, overlapEnd, Some(was.expires), false)));
        var expires := if cfg.ttl != 0 then Truncated(x.now) + cfg.ttl else 0;
        secrets := secrets.(current := Some(Record(x.minted, expires, None, false)));
      }
      if (rotating || x.instruction.MissingMinted?) && !x.persist.Stored? {
        if x.persist.FailedBefore? {
          secrets := before;
        }
        return PersistFailed;
      }
      return Bag(secrets.current.value.value, secrets.current.value.expires);
    }
  }
}
