// The process-local registry behind one-use capabilities: presenting a token
// takes it out of the registry before anything else is checked.
module IoxCapabilities {
  import opened Common
  import opened IoxJournal

  type Token = string

  type Registry = map<Token, Capability>

  // What presenting a token comes to: it is gone, and it authorizes the event only
  // if it was live and bound to exactly this journal, revision, phase and event.
  function Presented(live: Registry, token: Token, j: Journal, ev: Event): (Registry, bool) {
    (live - {token}, token in live && Authorizes(live[token], j, ev))
  }

  function Invalidated(live: Registry, attemptId: string): Registry {
    map token | token in live && live[token].attemptId != attemptId :: live[token]
  }

  datatype Action =
    | Issue(token: Token, capability: Capability)
    | Present(token: Token, journal: Journal, event: Event)
    | Invalidate(attemptId: string)

  // The registry and every token ever issued; a new token is a value never used.
  datatype State = State(live: Registry, issued: set<Token>)

  predicate Enabled(s: State, a: Action) {
    a.Issue? ==> a.token !in s.issued
  }

  function Next(s: State, a: Action): State
    requires Enabled(s, a)
  {
    match a
    case Issue(token, capability) => State(s.live[token := capability], s.issued + {token})
    case Present(token, j, ev) => s.(live := Presented(s.live, token, j, ev).0)
    case Invalidate(attemptId) => s.(live := Invalidated(s.live, attemptId))
  }

  predicate Follows(ss: seq<State>, actions: seq<Action>, i: nat)
    requires |ss| == |actions| + 1 && i < |actions|
  {
    Enabled(ss[i], actions[i]) && ss[i + 1] == Next(ss[i], actions[i])
  }

  predicate Run(ss: seq<State>, actions: seq<Action>) {
    |ss| == |actions| + 1 && ss[0] == State(map[], {})
    && forall i :: 0 <= i < |actions| ==> Follows(ss, actions, i)
  }

  // Presented, and accepted for the event it was presented with.
  predicate AcceptedAt(ss: seq<State>, actions: seq<Action>, i: nat)
    requires |ss| == |actions| + 1 && i < |actions|
  {
    actions[i].Present? && Presented(ss[i].live, actions[i].token, actions[i].journal, actions[i].event).1
  }

  // A token that was issued and is not live will not be live again.
  predicate Spent(s: State, token: Token) {
    token in s.issued && token !in s.live
  }

  lemma {:induction false} LiveIsIssued(ss: seq<State>, actions: seq<Action>, n: nat)
    requires Run(ss, actions) && n < |ss|
    ensures forall token :: token in ss[n].live ==> token in ss[n].issued
  {
    if n > 0 {
      LiveIsIssued(ss, actions, n - 1);
      assert Follows(ss, actions, n - 1);
    }
  }

  lemma {:induction false} SpentStays(ss: seq<State>, actions: seq<Action>, i: nat, n: nat, token: Token)
    requires Run(ss, actions) && i <= n < |ss| && Spent(ss[i], token)
    ensures Spent(ss[n], token)
    decreases n - i
  {
    if i < n {
      SpentStays(ss, actions, i, n - 1, token);
      assert Follows(ss, actions, n - 1);
    }
  }

  // An issued capability is burnt by its first presentation, accepted or refused,
  // and by invalidation of its attempt: no later presentation is accepted.
  lemma BurntOnFirstUse(ss: seq<State>, actions: seq<Action>, i: nat, n: nat)
    requires Run(ss, actions) && i < n < |actions| && actions[i].Present? && actions[n].Present?
    requires actions[n].token == actions[i].token && actions[i].token in ss[i].issued
    ensures !AcceptedAt(ss, actions, n)
  {
    assert Follows(ss, actions, i);
    SpentStays(ss, actions, i + 1, n, actions[i].token);
  }

  lemma InvalidatedForGood(ss: seq<State>, actions: seq<Action>, i: nat, n: nat)
    requires Run(ss, actions) && i < n < |actions| && actions[i].Invalidate? && actions[n].Present?
    requires actions[n].token in ss[i].live && ss[i].live[actions[n].token].attemptId == actions[i].attemptId
    ensures !AcceptedAt(ss, actions, n)
  {
    assert Follows(ss, actions, i);
    LiveIsIssued(ss, actions, i);
    SpentStays(ss, actions, i + 1, n, actions[n].token);
  }

  // So each token is accepted at most once over the whole life of the process, for
  // the one journal, revision, phase and event it was issued for.
  lemma AcceptedAtMostOnce(ss: seq<State>, actions: seq<Action>, i: nat, n: nat)
    requires Run(ss, actions) && i <= n < |actions| && AcceptedAt(ss, actions, i) && AcceptedAt(ss, actions, n)
    requires actions[n].token == actions[i].token
    ensures i == n
  {
    if i < n {
      LiveIsIssued(ss, actions, i);
      BurntOnFirstUse(ss, actions, i, n);
    }
  }

  // ----- the registry as the process keeps it -----

  class CapabilityRegistry {
    var live: Registry

    constructor ()
      ensures live == map[]
    {
      live := map[];
    }

    method Consume(token: Token, j: Journal, ev: Event) returns (accepted: bool)
      modifies this
      ensures live == old(live) - {token}
      ensures accepted <==> token in old(live) && Authorizes(old(live)[token], j, ev)
    {
      var actual := if token in live then Some(live[token]) else None;
      live := live - {token};
      if actual.None? {
        return false;
      }
      var c := actual.value;
      accepted := c.controllerId == j.binding.controllerId && c.recordId == j.binding.recordId
        && c.transactionId == j.binding.transactionId && c.boardIdentity == j.binding.boardIdentity
        && c.revision == j.revision && c.phase == j.progress.phase && c.event == ev
        && c.attemptId in EvidenceAttempts(j, ev);
    }

    // Drop every unconsumed capability of one attempt.
    method InvalidateAttempt(attemptId: string)
      modifies this
      ensures live == Invalidated(old(live), attemptId)
    {
      var before := live;
      var stale := set token | token in live && live[token].attemptId == attemptId;
      var todo := stale;
      while todo != {}
        invariant todo <= stale
        invariant forall token :: token in live <==> token in before && (token !in stale || token in todo)
        invariant forall token :: token in live ==> live[token] == before[token]
        decreases |todo|
      {
        var token :| token in todo;
        live := live - {token};
        todo := todo - {token};
      }
      assert live == Invalidated(before, attemptId);
    }
  }
}
