// Which addresses the seeder must block: derived from the endpoints seen, the
// policy's verdict on each, and a protected origin address. The policy's own
// evaluation is given.
module Blocklist {
  import opened Common
  import opened TextOrder

  type Ip = string
  type Key = string

  datatype Endpoint = Endpoint(key: Key, ptype: string, pid: string, ip: Ip)

  datatype Participant = Participant(ptype: string, ip: Ip)

  // What a principal at an address is subject to: the policy's verdict on it, and
  // whether it and the origin permit each other.
  datatype Rules = Rules(
    denies: (string, string, Ip) -> bool,
    mutual: (string, string, Ip) -> bool,
    revoked: set<Key>,
    origin: Ip,
    originKnown: bool)

  predicate Counts(r: Rules, e: Endpoint) {
    e.ip != r.origin
  }

  predicate Denied(r: Rules, e: Endpoint) {
    e.key in r.revoked || r.denies(e.ptype, e.pid, e.ip)
  }

  predicate ProspectivelyDenied(r: Rules, e: Endpoint) {
    Denied(r, e) || !r.mutual(e.ptype, e.pid, e.ip)
  }

  // ----- endpoints grouped by address -----

  type Groups = map<Ip, set<Key>>

  function IpsOf(eps: set<Endpoint>, pick: Endpoint -> bool): set<Ip> {
    set e | e in eps && pick(e) :: e.ip
  }

  function KeysAt(eps: set<Endpoint>, pick: Endpoint -> bool, ip: Ip): set<Key> {
    set e | e in eps && pick(e) && e.ip == ip :: e.key
  }

  // The keys seen at each address, among the endpoints that satisfy pick.
  function Group(eps: set<Endpoint>, pick: Endpoint -> bool): Groups {
    map ip | ip in IpsOf(eps, pick) :: KeysAt(eps, pick, ip)
  }

  function Noted(g: Groups, ip: Ip, key: Key): Groups {
    g[ip := (if ip in g then g[ip] else {}) + {key}]
  }

  datatype Conflict = Conflict(ip: Ip, permitted: Key, denied: Key)

  datatype Resolution = Resolution(denied: seq<Ip>, conflicts: seq<Conflict>)

  predicate Shared(denied: Groups, permitted: Groups, ip: Ip) {
    ip in denied && ip in permitted
  }

  predicate WellFormed(g: Groups) {
    forall ip :: ip in g ==> g[ip] != {}
  }

  function ConflictAt(denied: Groups, permitted: Groups, ip: Ip): Conflict
    requires WellFormed(denied) && WellFormed(permitted) && Shared(denied, permitted, ip)
  {
    Conflict(ip, Least(permitted[ip]), Least(denied[ip]))
  }

  function ConflictsAmong(denied: Groups, permitted: Groups, ips: seq<Ip>): seq<Conflict>
    requires WellFormed(denied) && WellFormed(permitted)
  {
    if ips == [] then []
    else if Shared(denied, permitted, ips[0]) then
      [ConflictAt(denied, permitted, ips[0])] + ConflictsAmong(denied, permitted, ips[1..])
    else ConflictsAmong(denied, permitted, ips[1..])
  }

  function ClearAmong(permitted: Groups, ips: seq<Ip>): seq<Ip> {
    if ips == [] then []
    else if ips[0] in permitted then ClearAmong(permitted, ips[1..])
    else [ips[0]] + ClearAmong(permitted, ips[1..])
  }

  // An address somebody is permitted at is a conflict, not a block.
  function Resolved(denied: Groups, permitted: Groups): Resolution
    requires WellFormed(denied) && WellFormed(permitted)
  {
    var ips := Sorted(denied.Keys);
    Resolution(ClearAmong(permitted, ips), ConflictsAmong(denied, permitted, ips))
  }

  // ----- the derived set -----

  datatype Derived = Derived(
    now: Resolution,
    applyEmpty: bool,
    failClosed: bool,
    prospective: Option<Resolution>,
    newlyDenied: Option<seq<string>>)

  function CurrentDenied(r: Rules, eps: set<Endpoint>): (g: Groups)
    ensures WellFormed(g)
  {
    GroupWellFormed(eps, e => Counts(r, e) && Denied(r, e));
    Group(eps, e => Counts(r, e) && Denied(r, e))
  }

  function CurrentPermitted(r: Rules, eps: set<Endpoint>): (g: Groups)
    ensures WellFormed(g)
  {
    GroupWellFormed(eps, e => Counts(r, e) && !Denied(r, e));
    Group(eps, e => Counts(r, e) && !Denied(r, e))
  }

  function FutureDenied(r: Rules, eps: set<Endpoint>): (g: Groups)
    ensures WellFormed(g)
  {
    GroupWellFormed(eps, e => Counts(r, e) && ProspectivelyDenied(r, e));
    Group(eps, e => Counts(r, e) && ProspectivelyDenied(r, e))
  }

  function FuturePermitted(r: Rules, eps: set<Endpoint>): (g: Groups)
    ensures WellFormed(g)
  {
    GroupWellFormed(eps, e => Counts(r, e) && !ProspectivelyDenied(r, e));
    Group(eps, e => Counts(r, e) && !ProspectivelyDenied(r, e))
  }

  lemma GroupWellFormed(eps: set<Endpoint>, pick: Endpoint -> bool)
    ensures WellFormed(Group(eps, pick))
  {
    forall ip | ip in Group(eps, pick) ensures Group(eps, pick)[ip] != {} {
      var e :| e in eps && pick(e) && e.ip == ip;
      assert e.key in Group(eps, pick)[ip];
    }
  }

  function DevicesAt(r: Rules, eps: set<Endpoint>, ips: set<Ip>): set<string> {
    set e | e in eps && Counts(r, e) && e.ptype == "device" && e.ip in ips :: e.pid
  }

  function Elements(s: seq<Ip>): set<Ip> {
    set a | a in s
  }

  function DeriveValid(r: Rules, eps: set<Endpoint>): Derived {
    var now := Resolved(CurrentDenied(r, eps), CurrentPermitted(r, eps));
    if !r.originKnown then Derived(now, true, false, None, None)
    else
      var later := Resolved(FutureDenied(r, eps), FuturePermitted(r, eps));
      Derived(now, true, false, Some(later),
          Some(Sorted(DevicesAt(r, eps, Elements(later.denied) - Elements(now.denied)))))
  }

  // With no usable policy every attributable address but the services' is blocked.
  function EmergencyIps(eps: set<Endpoint>, active: set<Participant>, origin: Ip): set<Ip> {
    (set e | e in eps && e.ptype != "service" && e.ip != origin :: e.ip)
    + (set p | p in active && p.ip != "" && p.ip != origin && p.ptype != "service" :: p.ip)
  }

  function DeriveEmergency(eps: set<Endpoint>, active: set<Participant>, origin: Ip): Derived {
    var ips := Sorted(EmergencyIps(eps, active, origin));
    Derived(Resolution(ips, []), ips != [], true, None, None)
  }

  function DeriveDenied(failClosed: bool, r: Rules, eps: set<Endpoint>, active: set<Participant>): Derived {
    if failClosed then DeriveEmergency(eps, active, r.origin) else DeriveValid(r, eps)
  }

  // ----- what it means -----

  ghost predicate HasDenied(r: Rules, eps: set<Endpoint>, ip: Ip) {
    exists e :: e in eps && Counts(r, e) && Denied(r, e) && e.ip == ip
  }

  ghost predicate HasPermitted(r: Rules, eps: set<Endpoint>, ip: Ip) {
    exists e :: e in eps && Counts(r, e) && !Denied(r, e) && e.ip == ip
  }

  lemma {:induction false} ClearMembers(permitted: Groups, ips: seq<Ip>)
    ensures forall a :: a in ClearAmong(permitted, ips) <==> a in ips && a !in permitted
  {
    if ips != [] {
      ClearMembers(permitted, ips[1..]);
      assert ips == [ips[0]] + ips[1..];
    }
  }

  ghost predicate ConflictOn(cs: seq<Conflict>, ip: Ip) {
    exists k :: 0 <= k < |cs| && cs[k].ip == ip
  }

  lemma {:induction false} ConflictMembers(denied: Groups, permitted: Groups, ips: seq<Ip>)
    requires WellFormed(denied) && WellFormed(permitted) && forall a :: a in ips ==> a in denied
    ensures forall a :: ConflictOn(ConflictsAmong(denied, permitted, ips), a) <==> a in ips && a in permitted
  {
    if ips != [] {
      ConflictMembers(denied, permitted, ips[1..]);
      var cs, rest := ConflictsAmong(denied, permitted, ips), ConflictsAmong(denied, permitted, ips[1..]);
      assert ips == [ips[0]] + ips[1..];
      forall a ensures ConflictOn(cs, a) <==> a in ips && a in permitted {
        if ips[0] in permitted {
          assert cs == [ConflictAt(denied, permitted, ips[0])] + rest;
          if ConflictOn(rest, a) {
            var k :| 0 <= k < |rest| && rest[k].ip == a;
            assert cs[k + 1].ip == a;
          }
          if a == ips[0] {
            assert cs[0].ip == a;
          }
          if ConflictOn(cs, a) && a != ips[0] {
            var k :| 0 <= k < |cs| && cs[k].ip == a;
            assert rest[k - 1].ip == a;
          }
        }
      }
    }
  }

  // Blocked and conflicting addresses are disjoint and are together exactly the
  // unprotected addresses with a denied principal.
  lemma DeniedAndConflictsPartition(r: Rules, eps: set<Endpoint>, ip: Ip)
    ensures var d := DeriveValid(r, eps).now;
      (ip in d.denied <==> HasDenied(r, eps, ip) && !HasPermitted(r, eps, ip))
      && (ConflictOn(d.conflicts, ip) <==> HasDenied(r, eps, ip) && HasPermitted(r, eps, ip))
  {
    var denied, permitted := CurrentDenied(r, eps), CurrentPermitted(r, eps);
    ClearMembers(permitted, Sorted(denied.Keys));
    ConflictMembers(denied, permitted, Sorted(denied.Keys));
    assert ip in denied <==> HasDenied(r, eps, ip);
    assert ip in permitted <==> HasPermitted(r, eps, ip);
  }

  // With a known origin, what is blocked now would also be blocked prospectively.
  lemma DeniedStaysDenied(r: Rules, eps: set<Endpoint>, ip: Ip)
    requires r.originKnown && ip in DeriveValid(r, eps).now.denied
    ensures DeriveValid(r, eps).prospective.Some? && ip in DeriveValid(r, eps).prospective.value.denied
  {
    DeniedAndConflictsPartition(r, eps, ip);
    var e :| e in eps && Counts(r, e) && Denied(r, e) && e.ip == ip;
    var denied, permitted := FutureDenied(r, eps), FuturePermitted(r, eps);
    assert ProspectivelyDenied(r, e);
    assert ip in denied;
    ClearMembers(permitted, Sorted(denied.Keys));
  }

  // Failing closed over the same endpoints blocks a denied address exactly if it
  // is attributed to some principal that is not a service, or such a participant
  // is active there.
  lemma EmergencyCoversDenied(r: Rules, eps: set<Endpoint>, active: set<Participant>, ip: Ip)
    requires ip in DeriveValid(r, eps).now.denied
    ensures ip in DeriveEmergency(eps, active, r.origin).now.denied
       <==> (exists e :: e in eps && e.ip == ip && e.ptype != "service")
            || (exists p :: p in active && p.ip == ip && p.ip != "" && p.ptype != "service")
  {
    DeniedAndConflictsPartition(r, eps, ip);
    var e :| e in eps && Counts(r, e) && Denied(r, e) && e.ip == ip;
    assert ip != r.origin;
  }
}

// The derived set told address by address, from the endpoints alone.
module BlocklistMeaning {
  import opened Common
  import opened TextOrder
  import opened Blocklist

  predicate Ascending(ips: seq<string>) {
    Distinct(ips) && forall i, j :: 0 <= i < j < |ips| ==> Leq(ips[i], ips[j])
  }

  // Some principal at this address is to be kept out, or let in.
  ghost predicate KeptOut(eps: set<Endpoint>, origin: Ip, bad: Endpoint -> bool, ip: Ip) {
    ip != origin && exists e :: e in eps && e.ip == ip && bad(e)
  }

  ghost predicate LetIn(eps: set<Endpoint>, origin: Ip, bad: Endpoint -> bool, ip: Ip) {
    ip != origin && exists e :: e in eps && e.ip == ip && !bad(e)
  }

  // The conflict names the first principal let in and the first kept out there.
  ghost predicate NamesBoth(eps: set<Endpoint>, bad: Endpoint -> bool, c: Conflict) {
    && IsLeast(set e | e in eps && e.ip == c.ip && !bad(e) :: e.key, c.permitted)
    && IsLeast(set e | e in eps && e.ip == c.ip && bad(e) :: e.key, c.denied)
  }

  function IpsIn(cs: seq<Conflict>): (ips: seq<Ip>)
    ensures |ips| == |cs| && forall k :: 0 <= k < |cs| ==> ips[k] == cs[k].ip
  {
    seq(|cs|, k requires 0 <= k < |cs| => cs[k].ip)
  }

  // Blocked are the addresses where only principals to keep out are; where there are
  // others too it is a conflict. Both lists ascend and name an address once.
  ghost predicate Sifted(eps: set<Endpoint>, origin: Ip, bad: Endpoint -> bool, res: Resolution) {
    && Ascending(res.denied)
    && (forall ip :: ip in res.denied <==> KeptOut(eps, origin, bad, ip) && !LetIn(eps, origin, bad, ip))
    && Ascending(IpsIn(res.conflicts))
    && (forall ip :: ip in IpsIn(res.conflicts) <==> KeptOut(eps, origin, bad, ip) && LetIn(eps, origin, bad, ip))
    && forall k :: 0 <= k < |res.conflicts| ==> NamesBoth(eps, bad, res.conflicts[k])
  }

  // Revoked, or denied by the policy.
  predicate OutNow(r: Rules, e: Endpoint) {
    e.key in r.revoked || r.denies(e.ptype, e.pid, e.ip)
  }

  // Or not on mutual terms with the origin.
  predicate OutLater(r: Rules, e: Endpoint) {
    OutNow(r, e) || !r.mutual(e.ptype, e.pid, e.ip)
  }

  // A device with an endpoint at an address that is blocked later and not now.
  ghost predicate NewlyOut(r: Rules, eps: set<Endpoint>, now: seq<Ip>, later: seq<Ip>, id: string) {
    exists e :: e in eps && e.ptype == "device" && e.pid == id && e.ip != r.origin && e.ip in later && e.ip !in now
  }

  ghost predicate DerivedAs(failClosed: bool, r: Rules, eps: set<Endpoint>, active: set<Participant>, d: Derived) {
    if failClosed then
      // Without a usable policy: everyone but services, and no empty list applied.
      && d.failClosed && d.now.conflicts == [] && d.prospective.None? && d.newlyDenied.None?
      && (d.applyEmpty <==> d.now.denied != []) && Ascending(d.now.denied)
      && (forall ip :: ip in d.now.denied <==>
            ip != r.origin
            && ((exists e :: e in eps && e.ip == ip && e.ptype != "service")
                || (ip != "" && exists p :: p in active && p.ip == ip && p.ptype != "service")))
    else
      && !d.failClosed && d.applyEmpty && Sifted(eps, r.origin, e => OutNow(r, e), d.now)
      && (d.prospective.Some? <==> r.originKnown) && (d.newlyDenied.Some? <==> r.originKnown)
      && (r.originKnown ==>
            && Sifted(eps, r.origin, e => OutLater(r, e), d.prospective.value)
            && Ascending(d.newlyDenied.value)
            && forall id :: id in d.newlyDenied.value <==>
                 NewlyOut(r, eps, d.now.denied, d.prospective.value.denied, id))
  }

  // ----- the derivation is so -----

  lemma SortedIsAscending(s: set<string>)
    ensures Ascending(Sorted(s))
  {
    SortedAscends(s);
  }

  lemma AscendingTail(ips: seq<string>)
    requires Ascending(ips) && ips != []
    ensures Ascending(ips[1..]) && forall x :: x in ips[1..] ==> x != ips[0] && Leq(ips[0], x)
  {
    forall x | x in ips[1..] ensures x != ips[0] && Leq(ips[0], x) {
      var k :| 0 <= k < |ips[1..]| && ips[1..][k] == x;
      assert ips[k + 1] == x;
    }
    assert forall i :: 0 <= i < |ips[1..]| ==> ips[1..][i] == ips[i + 1];
  }

  lemma AscendingCons(x: string, rest: seq<string>)
    requires Ascending(rest) && forall y :: y in rest ==> y != x && Leq(x, y)
    ensures Ascending([x] + rest)
  {
    assert forall i :: 0 <= i < |rest| ==> rest[i] in rest;
  }

  lemma {:induction false} ClearAscends(permitted: Groups, ips: seq<Ip>)
    requires Ascending(ips)
    ensures Ascending(ClearAmong(permitted, ips))
  {
    if ips != [] {
      AscendingTail(ips);
      ClearAscends(permitted, ips[1..]);
      ClearMembers(permitted, ips[1..]);
      if ips[0] !in permitted {
        AscendingCons(ips[0], ClearAmong(permitted, ips[1..]));
      }
    }
  }

  // These are the conflicts at these addresses.
  ghost predicate ConflictsAt(denied: Groups, permitted: Groups, ips: seq<Ip>, cs: seq<Conflict>)
    requires WellFormed(denied) && WellFormed(permitted)
  {
    && Ascending(IpsIn(cs))
    && (forall ip :: ip in IpsIn(cs) <==> ip in ips && Shared(denied, permitted, ip))
    && forall k :: 0 <= k < |cs| ==>
         Shared(denied, permitted, cs[k].ip) && cs[k] == ConflictAt(denied, permitted, cs[k].ip)
  }

  lemma OneConflictMore(denied: Groups, permitted: Groups, ip: Ip, ips: seq<Ip>, rest: seq<Conflict>)
    requires WellFormed(denied) && WellFormed(permitted) && Shared(denied, permitted, ip)
    requires ConflictsAt(denied, permitted, ips, rest) && forall x :: x in ips ==> x != ip && Leq(ip, x)
    ensures ConflictsAt(denied, permitted, [ip] + ips, [ConflictAt(denied, permitted, ip)] + rest)
  {
    var cs := [ConflictAt(denied, permitted, ip)] + rest;
    assert IpsIn(cs) == [ip] + IpsIn(rest);
    AscendingCons(ip, IpsIn(rest));
  }

  lemma NoConflictMore(denied: Groups, permitted: Groups, ip: Ip, ips: seq<Ip>, rest: seq<Conflict>)
    requires WellFormed(denied) && WellFormed(permitted) && !Shared(denied, permitted, ip)
    requires ConflictsAt(denied, permitted, ips, rest)
    ensures ConflictsAt(denied, permitted, [ip] + ips, rest)
  {
  }

  lemma {:induction false} ConflictsAscend(denied: Groups, permitted: Groups, ips: seq<Ip>)
    requires WellFormed(denied) && WellFormed(permitted) && Ascending(ips)
    ensures ConflictsAt(denied, permitted, ips, ConflictsAmong(denied, permitted, ips))
  {
    if ips != [] {
      var ip, tail := ips[0], ips[1..];
      AscendingTail(ips);
      ConflictsAscend(denied, permitted, tail);
      assert ips == [ip] + tail;
      if Shared(denied, permitted, ip) {
        OneConflictMore(denied, permitted, ip, tail, ConflictsAmong(denied, permitted, tail));
      } else {
        NoConflictMore(denied, permitted, ip, tail, ConflictsAmong(denied, permitted, tail));
      }
    }
  }

  // The keys at each address of those to keep out, or let in.
  ghost predicate GroupsOut(eps: set<Endpoint>, origin: Ip, bad: Endpoint -> bool, g: Groups) {
    forall ip :: (ip in g <==> KeptOut(eps, origin, bad, ip))
                 && (ip in g ==> g[ip] == set e | e in eps && e.ip == ip && bad(e) :: e.key)
  }

  ghost predicate GroupsIn(eps: set<Endpoint>, origin: Ip, bad: Endpoint -> bool, g: Groups) {
    forall ip :: (ip in g <==> LetIn(eps, origin, bad, ip))
                 && (ip in g ==> g[ip] == set e | e in eps && e.ip == ip && !bad(e) :: e.key)
  }

  lemma ResolvedIsSifted(eps: set<Endpoint>, origin: Ip, bad: Endpoint -> bool, denied: Groups, permitted: Groups)
    requires WellFormed(denied) && WellFormed(permitted)
    requires GroupsOut(eps, origin, bad, denied) && GroupsIn(eps, origin, bad, permitted)
    ensures Sifted(eps, origin, bad, Resolved(denied, permitted))
  {
    var ips := Sorted(denied.Keys);
    SortedIsAscending(denied.Keys);
    ClearAscends(permitted, ips);
    ClearMembers(permitted, ips);
    ConflictsAscend(denied, permitted, ips);
    ConflictsName(eps, origin, bad, denied, permitted, ips, ConflictsAmong(denied, permitted, ips));
  }

  lemma ConflictsName(eps: set<Endpoint>, origin: Ip, bad: Endpoint -> bool, denied: Groups, permitted: Groups,
                      ips: seq<Ip>, cs: seq<Conflict>)
    requires WellFormed(denied) && WellFormed(permitted) && ConflictsAt(denied, permitted, ips, cs)
    requires GroupsOut(eps, origin, bad, denied) && GroupsIn(eps, origin, bad, permitted)
    ensures forall k :: 0 <= k < |cs| ==> NamesBoth(eps, bad, cs[k])
  {
    forall k | 0 <= k < |cs| ensures NamesBoth(eps, bad, cs[k]) {
      assert cs[k] == ConflictAt(denied, permitted, cs[k].ip);
    }
  }

  lemma NowIsSifted(r: Rules, eps: set<Endpoint>)
    ensures Sifted(eps, r.origin, e => OutNow(r, e), DeriveValid(r, eps).now)
  {
    var bad := e => OutNow(r, e);
    assert GroupsOut(eps, r.origin, bad, CurrentDenied(r, eps));
    assert GroupsIn(eps, r.origin, bad, CurrentPermitted(r, eps));
    ResolvedIsSifted(eps, r.origin, bad, CurrentDenied(r, eps), CurrentPermitted(r, eps));
  }

  lemma LaterIsSifted(r: Rules, eps: set<Endpoint>)
    requires r.originKnown
    ensures Sifted(eps, r.origin, e => OutLater(r, e), DeriveValid(r, eps).prospective.value)
  {
    var bad := e => OutLater(r, e);
    assert GroupsOut(eps, r.origin, bad, FutureDenied(r, eps));
    assert GroupsIn(eps, r.origin, bad, FuturePermitted(r, eps));
    ResolvedIsSifted(eps, r.origin, bad, FutureDenied(r, eps), FuturePermitted(r, eps));
  }

  lemma NewlyDeniedIs(r: Rules, eps: set<Endpoint>)
    requires r.originKnown
    ensures var d := DeriveValid(r, eps);
      Ascending(d.newlyDenied.value)
      && forall id :: id in d.newlyDenied.value <==> NewlyOut(r, eps, d.now.denied, d.prospective.value.denied, id)
  {
    var d := DeriveValid(r, eps);
    SortedIsAscending(DevicesAt(r, eps, Elements(d.prospective.value.denied) - Elements(d.now.denied)));
  }

  // Which addresses are blocked, now and prospectively, which are conflicts, who is
  // newly affected and what happens without a policy, all from the endpoints.
  lemma DerivationMeans(failClosed: bool, r: Rules, eps: set<Endpoint>, active: set<Participant>)
    ensures DerivedAs(failClosed, r, eps, active, DeriveDenied(failClosed, r, eps, active))
  {
    if failClosed {
      SortedIsAscending(EmergencyIps(eps, active, r.origin));
      EmergencyIs(eps, active, r.origin);
    } else {
      NowIsSifted(r, eps);
      if r.originKnown {
        LaterIsSifted(r, eps);
        NewlyDeniedIs(r, eps);
      }
    }
  }

  lemma EmergencyIs(eps: set<Endpoint>, active: set<Participant>, origin: Ip)
    ensures forall ip :: ip in EmergencyIps(eps, active, origin) <==>
      ip != origin
      && ((exists e :: e in eps && e.ip == ip && e.ptype != "service")
          || (ip != "" && exists p :: p in active && p.ip == ip && p.ptype != "service"))
  {
  }
}

// The loops that fill the tables.
module BlocklistLoops {
  import opened Common
  import opened TextOrder
  import opened Blocklist
  import opened BlocklistMeaning

  lemma GroupOneMore(eps: set<Endpoint>, pick: Endpoint -> bool, e: Endpoint)
    ensures Group(eps + {e}, pick) == if pick(e) then Noted(Group(eps, pick), e.ip, e.key) else Group(eps, pick)
  {
    var a, b := Group(eps + {e}, pick), Group(eps, pick);
    if pick(e) {
      var c := Noted(b, e.ip, e.key);
      assert a.Keys == c.Keys;
      forall ip | ip in a ensures a[ip] == c[ip] {
        assert KeysAt(eps + {e}, pick, ip)
            == if ip == e.ip then KeysAt(eps, pick, ip) + {e.key} else KeysAt(eps, pick, ip);
        assert ip !in b ==> KeysAt(eps, pick, ip) == {};
      }
    } else {
      assert a.Keys == b.Keys;
      forall ip | ip in a ensures a[ip] == b[ip] {
        assert KeysAt(eps + {e}, pick, ip) == KeysAt(eps, pick, ip);
      }
    }
  }

  datatype Tables = Tables(denied: Groups, permitted: Groups, laterDenied: Groups, laterPermitted: Groups,
                           devices: Groups)

  ghost predicate Filled(r: Rules, eps: set<Endpoint>, t: Tables) {
    t.denied == CurrentDenied(r, eps) && t.permitted == CurrentPermitted(r, eps)
    && (r.originKnown ==>
          t.laterDenied == FutureDenied(r, eps) && t.laterPermitted == FuturePermitted(r, eps)
          && t.devices == Devices(r, eps))
  }

  // Device ids by address.
  function Devices(r: Rules, eps: set<Endpoint>): Groups {
    map ip | ip in IpsOf(eps, e => Counts(r, e) && e.ptype == "device") :: DevicesAt(r, eps, {ip})
  }

  predicate IsDevice(r: Rules, e: Endpoint) {
    Counts(r, e) && e.ptype == "device"
  }

  lemma IdsOneMore(r: Rules, eps: set<Endpoint>, e: Endpoint, ip: Ip)
    ensures DevicesAt(r, eps + {e}, {ip})
         == if IsDevice(r, e) && ip == e.ip then DevicesAt(r, eps, {ip}) + {e.pid} else DevicesAt(r, eps, {ip})
    ensures ip !in Devices(r, eps) ==> DevicesAt(r, eps, {ip}) == {}
  {
  }

  lemma DeviceIpsOneMore(r: Rules, eps: set<Endpoint>, e: Endpoint)
    ensures Devices(r, eps + {e}).Keys == if IsDevice(r, e) then Devices(r, eps).Keys + {e.ip} else Devices(r, eps).Keys
  {
  }

  lemma DevicesOneMore(r: Rules, eps: set<Endpoint>, e: Endpoint)
    ensures Devices(r, eps + {e}) == if IsDevice(r, e) then Noted(Devices(r, eps), e.ip, e.pid) else Devices(r, eps)
  {
    var a, b := Devices(r, eps + {e}), Devices(r, eps);
    var c := if IsDevice(r, e) then Noted(b, e.ip, e.pid) else b;
    DeviceIpsOneMore(r, eps, e);
    forall ip | ip in a ensures a[ip] == c[ip] {
      IdsOneMore(r, eps, e, ip);
    }
    assert a.Keys == c.Keys;
  }

  lemma FilledOneMore(r: Rules, eps: set<Endpoint>, e: Endpoint)
    ensures CurrentDenied(r, eps + {e})
         == if Counts(r, e) && Denied(r, e) then Noted(CurrentDenied(r, eps), e.ip, e.key) else CurrentDenied(r, eps)
    ensures CurrentPermitted(r, eps + {e})
         == if Counts(r, e) && !Denied(r, e) then Noted(CurrentPermitted(r, eps), e.ip, e.key)
            else CurrentPermitted(r, eps)
    ensures FutureDenied(r, eps + {e})
         == if Counts(r, e) && ProspectivelyDenied(r, e) then Noted(FutureDenied(r, eps), e.ip, e.key)
            else FutureDenied(r, eps)
    ensures FuturePermitted(r, eps + {e})
         == if Counts(r, e) && !ProspectivelyDenied(r, e) then Noted(FuturePermitted(r, eps), e.ip, e.key)
            else FuturePermitted(r, eps)
  {
    GroupOneMore(eps, x => Counts(r, x) && Denied(r, x), e);
    GroupOneMore(eps, x => Counts(r, x) && !Denied(r, x), e);
    GroupOneMore(eps, x => Counts(r, x) && ProspectivelyDenied(r, x), e);
    GroupOneMore(eps, x => Counts(r, x) && !ProspectivelyDenied(r, x), e);
  }

  // Enter one endpoint into the tables.
  method Enter(r: Rules, ghost eps: set<Endpoint>, before: Tables, e: Endpoint) returns (t: Tables)
    requires Filled(r, eps, before)
    ensures Filled(r, eps + {e}, t)
  {
    FilledOneMore(r, eps, e);
    DevicesOneMore(r, eps, e);
    t := before;
    if e.ip == r.origin {
      return;
    }
    var denied := e.key in r.revoked || r.denies(e.ptype, e.pid, e.ip);
    if denied {
      t := t.(denied := Noted(t.denied, e.ip, e.key));
    } else {
      t := t.(permitted := Noted(t.permitted, e.ip, e.key));
    }
    if !r.originKnown {
      return;
    }
    if denied || !r.mutual(e.ptype, e.pid, e.ip) {
      t := t.(laterDenied := Noted(t.laterDenied, e.ip, e.key));
    } else {
      t := t.(laterPermitted := Noted(t.laterPermitted, e.ip, e.key));
    }
    if e.ptype == "device" {
      t := t.(devices := Noted(t.devices, e.ip, e.pid));
    }
  }

  function Endpoints(eps: seq<Endpoint>): set<Endpoint> {
    set e | e in eps
  }

  function Participants(active: seq<Participant>): set<Participant> {
    set p | p in active
  }

  method Fill(r: Rules, eps: seq<Endpoint>) returns (t: Tables)
    ensures Filled(r, Endpoints(eps), t)
  {
    t := Tables(map[], map[], map[], map[], map[]);
    for i := 0 to |eps|
      invariant Filled(r, Endpoints(eps[..i]), t)
    {
      t := Enter(r, Endpoints(eps[..i]), t, eps[i]);
      assert Endpoints(eps[..i + 1]) == Endpoints(eps[..i]) + {eps[i]};
    }
    assert eps[..|eps|] == eps;
  }

  lemma ResolveStep(denied: Groups, permitted: Groups, ips: seq<Ip>, i: nat, clear: seq<Ip>, conflicts: seq<Conflict>)
    requires WellFormed(denied) && WellFormed(permitted) && i < |ips| && ips[i] in denied
    ensures clear + ClearAmong(permitted, ips[i..])
         == (if ips[i] in permitted then clear else clear + [ips[i]]) + ClearAmong(permitted, ips[i + 1..])
    ensures conflicts + ConflictsAmong(denied, permitted, ips[i..])
         == (if ips[i] in permitted then conflicts + [ConflictAt(denied, permitted, ips[i])] else conflicts)
            + ConflictsAmong(denied, permitted, ips[i + 1..])
  {
    assert ips[i..][1..] == ips[i + 1..];
  }

  method Resolve(denied: Groups, permitted: Groups) returns (res: Resolution)
    requires WellFormed(denied) && WellFormed(permitted)
    ensures res == Resolved(denied, permitted)
  {
    var ips, clear, conflicts := Sorted(denied.Keys), [], [];
    ghost var restClear, restConflicts := ClearAmong(permitted, ips), ConflictsAmong(denied, permitted, ips);
    for i := 0 to |ips|
      invariant restClear == ClearAmong(permitted, ips[i..])
        && restConflicts == ConflictsAmong(denied, permitted, ips[i..])
      invariant clear + restClear == ClearAmong(permitted, ips)
      invariant conflicts + restConflicts == ConflictsAmong(denied, permitted, ips)
    {
      assert ips[i] in ips;
      ResolveStep(denied, permitted, ips, i, clear, conflicts);
      restClear, restConflicts := ClearAmong(permitted, ips[i + 1..]), ConflictsAmong(denied, permitted, ips[i + 1..]);
      if ips[i] in permitted {
        conflicts := conflicts + [ConflictAt(denied, permitted, ips[i])];
      } else {
        clear := clear + [ips[i]];
      }
    }
    res := Resolution(clear, conflicts);
  }

  // Devices at addresses that are blocked only prospectively.
  method NewlyDenied(r: Rules, ghost eps: set<Endpoint>, devices: Groups, added: set<Ip>) returns (ids: set<string>)
    requires devices == Devices(r, eps)
    ensures ids == DevicesAt(r, eps, added)
  {
    ids := set ip, id | ip in added && ip in devices && id in devices[ip] :: id;
    forall id | id in DevicesAt(r, eps, added) ensures id in ids {
      DeviceListed(r, eps, added, id);
    }
    forall ip, id | ip in added && ip in devices && id in devices[ip] ensures id in DevicesAt(r, eps, added) {
      assert id in DevicesAt(r, eps, {ip});
    }
  }

  lemma DeviceListed(r: Rules, eps: set<Endpoint>, ips: set<Ip>, id: string)
    requires id in DevicesAt(r, eps, ips)
    ensures exists ip :: ip in ips && ip in Devices(r, eps) && id in Devices(r, eps)[ip]
  {
    var e :| e in eps && Counts(r, e) && e.ptype == "device" && e.ip in ips && e.pid == id;
    assert id in DevicesAt(r, eps, {e.ip});
    assert e.ip in Devices(r, eps);
  }

  // The whole derivation. The order of the snapshots makes no difference: the
  // result is a function of the set of endpoints in them.
  method DeriveDeniedSet(failClosed: bool, r: Rules, durable: seq<Endpoint>, pending: seq<Endpoint>,
                         active: seq<Participant>)
    returns (d: Derived)
    ensures d == DeriveDenied(failClosed, r, Endpoints(durable + pending), Participants(active))
    ensures DerivedAs(failClosed, r, Endpoints(durable + pending), Participants(active), d)
  {
    DerivationMeans(failClosed, r, Endpoints(durable + pending), Participants(active));
    if failClosed {
      var ips := EmergencySweep(durable + pending, active, r.origin);
      var denied := Sorted(ips);
      return Derived(Resolution(denied, []), denied != [], true, None, None);
    }
    ghost var eps := Endpoints(durable + pending);
    var t := Fill(r, durable + pending);
    var now := Resolve(t.denied, t.permitted);
    if !r.originKnown {
      return Derived(now, true, false, None, None);
    }
    var later := Resolve(t.laterDenied, t.laterPermitted);
    var ids := NewlyDenied(r, eps, t.devices, Elements(later.denied) - Elements(now.denied));
    d := Derived(now, true, false, Some(later), Some(Sorted(ids)));
  }

  method EmergencySweep(eps: seq<Endpoint>, active: seq<Participant>, origin: Ip) returns (ips: set<Ip>)
    ensures ips == EmergencyIps(Endpoints(eps), Participants(active), origin)
  {
    ips := {};
    for i := 0 to |eps|
      invariant ips == EmergencyIps(Endpoints(eps[..i]), {}, origin)
    {
      assert Endpoints(eps[..i + 1]) == Endpoints(eps[..i]) + {eps[i]};
      if eps[i].ptype != "service" && eps[i].ip != origin {
        ips := ips + {eps[i].ip};
      }
    }
    assert eps[..|eps|] == eps;
    for i := 0 to |active|
      invariant ips == EmergencyIps(Endpoints(eps), Participants(active[..i]), origin)
    {
      assert Participants(active[..i + 1]) == Participants(active[..i]) + {active[i]};
      if active[i].ip != "" && active[i].ip != origin && active[i].ptype != "service" {
        ips := ips + {active[i].ip};
      }
    }
    assert active[..|active|] == active;
  }
}
