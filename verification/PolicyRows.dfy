// Per-device image approval rows: the conditional write, and the transfer plans
// it mints and carries forward.
module PolicyRows {
  import opened Common

  const MAX_ASSIGNED_IMAGES: nat := 10

  datatype Plan = Plan(planId: string, transferId: string, plannedAt: int, infoHash: Option<string>)

  // A stored row in any of its historical shapes.
  datatype Row = Row(approvedIds: Option<seq<string>>, approvedId: Option<string>,
                     plans: map<string, Plan>, instruction: Option<string>)

  datatype Image = Image(quarantined: bool, infoHash: Option<string>)

  // The catalog document; None while the file does not exist.
  type Catalog = Option<map<string, Image>>

  datatype PolicyError =
    | TooManyImages | DuplicateImage | NoSuchImage | QuarantinedImage(id: string)
    | PolicyConflict(current: seq<string>)

  datatype Assignment = Assignment(before: seq<string>, after: seq<string>, removed: seq<string>)

  function NonEmpty(ids: seq<string>): (r: seq<string>)
    ensures forall x :: x in r <==> x in ids && x != ""
    ensures "" !in ids ==> r == ids
  {
    if ids == [] then []
    else (if ids[0] == "" then [] else [ids[0]]) + NonEmpty(ids[1..])
  }

  // How every reader sees a row: the plural list wins, the singular field of an
  // old row reads as a one-element list, empty ids are dropped.
  function Normalize(row: Option<Row>): seq<string> {
    if row.None? then []
    else if row.value.approvedIds.Some? then NonEmpty(row.value.approvedIds.value)
    else if row.value.approvedId.Some? then NonEmpty([row.value.approvedId.value])
    else []
  }

  function Without(ids: seq<string>, drop: seq<string>): (r: seq<string>)
    ensures forall x :: x in r <==> x in ids && x !in drop
  {
    if ids == [] then []
    else (if ids[0] in drop then [] else [ids[0]]) + Without(ids[1..], drop)
  }

  // The first id that may not be assigned, in request order.
  function Blocked(catalog: map<string, Image>, ids: seq<string>): (e: Option<PolicyError>)
    ensures e.None? <==> forall i :: 0 <= i < |ids| ==> ids[i] in catalog && !catalog[ids[i]].quarantined
  {
    if ids == [] then None
    else if ids[0] !in catalog then Some(NoSuchImage)
    else if catalog[ids[0]].quarantined then Some(QuarantinedImage(ids[0]))
    else Blocked(catalog, ids[1..])
  }

  // Accept or refuse a write against the ids the row currently holds.
  function Decide(catalog: Catalog, current: seq<string>, ids: seq<string>, expected: Option<seq<string>>)
    : Result<Assignment, PolicyError>
  {
    if |ids| > MAX_ASSIGNED_IMAGES then Err(TooManyImages)
    else if !Distinct(ids) then Err(DuplicateImage)
    else if catalog.Some? && Blocked(catalog.value, ids).Some? then Err(Blocked(catalog.value, ids).value)
    else if expected.Some? && expected.value != current then Err(PolicyConflict(current))
    else Ok(Assignment(current, ids, Without(current, ids)))
  }

  predicate PlanOk(p: Plan) {
    LowerHex(p.planId, 32) && LowerHex(p.transferId, 32)
  }

  // The random pair drawn for each image that needs one.
  type Mint = map<string, (string, string)>

  function InfoHash(catalog: Catalog, id: string): Option<string> {
    if catalog.Some? && id in catalog.value then catalog.value[id].infoHash else None
  }

  function PrevPlans(row: Option<Row>): map<string, Plan> {
    if row.Some? then row.value.plans else map[]
  }

  // An image that already has a usable plan keeps it verbatim.
  function PlanFor(catalog: Catalog, prev: map<string, Plan>, id: string, mint: Mint, now: int): Plan
    requires id in mint
  {
    if id in prev && PlanOk(prev[id]) then prev[id]
    else Plan(mint[id].0, mint[id].1, now, InfoHash(catalog, id))
  }

  function Plans(catalog: Catalog, prev: map<string, Plan>, ids: seq<string>, mint: Mint, now: int): map<string, Plan>
    requires forall id :: id in ids ==> id in mint
  {
    map id | id in ids :: PlanFor(catalog, prev, id, mint, now)
  }

  function Written(catalog: Catalog, row: Option<Row>, ids: seq<string>, mint: Mint, now: int): Row
    requires forall id :: id in ids ==> id in mint
  {
    Row(Some(ids), if ids == [] then None else Some(ids[0]),
        Plans(catalog, PrevPlans(row), ids, mint, now),
        if row.Some? then row.value.instruction else None)
  }

  datatype Request = Request(catalog: Catalog, ids: seq<string>, expected: Option<seq<string>>,
                             skipUnchanged: bool, mint: Mint, now: int)

  // The row after the call: untouched when the write is refused or skipped.
  function SetPolicy(row: Option<Row>, q: Request): (r: (Result<Assignment, PolicyError>, Option<Row>))
    requires forall id :: id in q.ids ==> id in q.mint
  {
    var current := Normalize(row);
    var decision := Decide(q.catalog, current, q.ids, q.expected);
    if decision.Err? || (q.skipUnchanged && current == q.ids) then (decision, row)
    else (decision, Some(Written(q.catalog, row, q.ids, q.mint, q.now)))
  }

  // ----- what a call does, in its own words -----

  // The ids a reader finds in a row of any shape.
  ghost predicate ReadsAs(row: Option<Row>, ids: seq<string>) {
    && (row.None? ==> ids == [])
    && (row.Some? && row.value.approvedIds.Some? ==>
          (forall x :: x in ids <==> x in row.value.approvedIds.value && x != "")
          && ("" !in row.value.approvedIds.value ==> ids == row.value.approvedIds.value))
    && (row.Some? && row.value.approvedIds.None? ==>
          ids == if row.value.approvedId.Some? && row.value.approvedId.value != "" then [row.value.approvedId.value]
                 else [])
  }

  predicate MayName(catalog: Catalog, ids: seq<string>) {
    catalog.Some? ==> forall i :: 0 <= i < |ids| ==> ids[i] in catalog.value && !catalog.value[ids[i]].quarantined
  }

  // At most ten images, each once, known and not quarantined, over the row expected.
  predicate Writable(q: Request, current: seq<string>) {
    |q.ids| <= 10 && Distinct(q.ids) && MayName(q.catalog, q.ids) && (q.expected.Some? ==> q.expected.value == current)
  }

  // Why a write is refused, in the order the checks are made.
  ghost predicate RefusedAs(q: Request, current: seq<string>, e: PolicyError) {
    if |q.ids| > 10 then e == TooManyImages
    else if !Distinct(q.ids) then e == DuplicateImage
    else if !MayName(q.catalog, q.ids) then FirstTrouble(q.catalog.value, q.ids, e)
    else e == PolicyConflict(current)
  }

  // The first image that may not be named, and what is wrong with it.
  predicate TroubleAt(catalog: map<string, Image>, ids: seq<string>, e: PolicyError, k: nat) {
    && k < |ids| && (forall i :: 0 <= i < k ==> ids[i] in catalog && !catalog[ids[i]].quarantined)
    && (if ids[k] !in catalog then e == NoSuchImage
        else catalog[ids[k]].quarantined && e == QuarantinedImage(ids[k]))
  }

  ghost predicate FirstTrouble(catalog: map<string, Image>, ids: seq<string>, e: PolicyError) {
    exists k: nat :: TroubleAt(catalog, ids, e, k)
  }

  // The plan of one image in the new row: the one it had if it is usable, else a new
  // one of this moment, for the image as the catalog has it.
  predicate PlannedAs(row: Option<Row>, q: Request, id: string, plan: Plan)
    requires id in q.mint
  {
    if row.Some? && id in row.value.plans
       && LowerHex(row.value.plans[id].planId, 32) && LowerHex(row.value.plans[id].transferId, 32)
    then plan == row.value.plans[id]
    else plan.planId == q.mint[id].0 && plan.transferId == q.mint[id].1 && plan.plannedAt == q.now
         && plan.infoHash == (if q.catalog.Some? && id in q.catalog.value then q.catalog.value[id].infoHash else None)
  }

  // The row as it is written: the ids, the first of them for old readers, a plan for
  // each, and the instruction stamp it had.
  predicate WrittenAs(row: Option<Row>, q: Request, r: Row)
    requires forall id :: id in q.ids ==> id in q.mint
  {
    && r.approvedIds == Some(q.ids) && r.approvedId == (if |q.ids| > 0 then Some(q.ids[0]) else None)
    && r.instruction == (if row.Some? then row.value.instruction else None)
    && r.plans.Keys == (set id | id in q.ids) && forall id :: id in q.ids ==> PlannedAs(row, q, id, r.plans[id])
  }

  ghost predicate SetDoes(row: Option<Row>, q: Request, decision: Result<Assignment, PolicyError>, after: Option<Row>)
    requires forall id :: id in q.ids ==> id in q.mint
  {
    exists current :: ReadsAs(row, current) && SetDoesOver(row, current, q, decision, after)
  }

  ghost predicate SetDoesOver(row: Option<Row>, current: seq<string>, q: Request,
                              decision: Result<Assignment, PolicyError>, after: Option<Row>)
    requires forall id :: id in q.ids ==> id in q.mint
  {
    && (decision.Ok? <==> Writable(q, current))
    && (decision.Err? ==> RefusedAs(q, current, decision.error))
    && (decision.Ok? ==> decision.value.before == current && decision.value.after == q.ids
                         && forall x :: x in decision.value.removed <==> x in current && x !in q.ids)
    && (if decision.Err? || (q.skipUnchanged && current == q.ids) then after == row
        else after.Some? && WrittenAs(row, q, after.value))
  }

  // Both keep what they keep in order.
  lemma {:induction false} WithoutSplits(a: seq<string>, b: seq<string>, drop: seq<string>)
    ensures Without(a + b, drop) == Without(a, drop) + Without(b, drop)
  {
    if a == [] {
      assert a + b == b;
    } else {
      assert (a + b)[1..] == a[1..] + b;
      WithoutSplits(a[1..], b, drop);
    }
  }

  lemma {:induction false} NonEmptySplits(a: seq<string>, b: seq<string>)
    ensures NonEmpty(a + b) == NonEmpty(a) + NonEmpty(b)
  {
    if a == [] {
      assert a + b == b;
    } else {
      assert (a + b)[1..] == a[1..] + b;
      NonEmptySplits(a[1..], b);
    }
  }

  lemma NormalizeReads(row: Option<Row>)
    ensures ReadsAs(row, Normalize(row))
  {
    if row.Some? && row.value.approvedIds.None? && row.value.approvedId.Some? {
      var id := row.value.approvedId.value;
      assert [id][0] == id && [id][1..] == [];
    }
  }

  lemma {:induction false} BlockedIsTrouble(catalog: map<string, Image>, ids: seq<string>) returns (k: nat)
    requires Blocked(catalog, ids).Some?
    ensures TroubleAt(catalog, ids, Blocked(catalog, ids).value, k)
  {
    if ids[0] in catalog && !catalog[ids[0]].quarantined {
      var j := BlockedIsTrouble(catalog, ids[1..]);
      k := j + 1;
      assert forall i :: 0 < i < |ids| ==> ids[i] == ids[1..][i - 1];
    } else {
      k := 0;
    }
  }

  lemma DecideIs(q: Request, current: seq<string>)
    ensures var d := Decide(q.catalog, current, q.ids, q.expected);
      && (d.Ok? <==> Writable(q, current))
      && (d.Err? ==> RefusedAs(q, current, d.error))
      && (d.Ok? ==> d.value == Assignment(current, q.ids, Without(current, q.ids)))
  {
    if q.catalog.Some? && Blocked(q.catalog.value, q.ids).Some? {
      var k := BlockedIsTrouble(q.catalog.value, q.ids);
    }
  }

  lemma SetPolicyDoes(row: Option<Row>, q: Request)
    requires forall id :: id in q.ids ==> id in q.mint
    ensures SetDoes(row, q, SetPolicy(row, q).0, SetPolicy(row, q).1)
  {
    var current := Normalize(row);
    NormalizeReads(row);
    DecideIs(q, current);
    assert SetDoesOver(row, current, q, SetPolicy(row, q).0, SetPolicy(row, q).1);
  }

  // The store's keyed policy rows.
  class PolicyStore {
    var rows: map<string, Row>

    constructor ()
      ensures rows == map[]
    {
      rows := map[];
    }

    function RowOf(device: string): Option<Row>
      reads this
    {
      if device in rows then Some(rows[device]) else None
    }

    // Plan by plan, in request order.
    method MergePlans(catalog: Catalog, prev: map<string, Plan>, ids: seq<string>, mint: Mint, now: int)
      returns (plans: map<string, Plan>)
      requires forall id :: id in ids ==> id in mint
      ensures plans == Plans(catalog, prev, ids, mint, now)
    {
      plans := map[];
      for i := 0 to |ids|
        invariant plans.Keys == set id | id in ids[..i]
        invariant forall id :: id in plans ==> id in mint && plans[id] == PlanFor(catalog, prev, id, mint, now)
      {
        var id := ids[i];
        assert ids[..i + 1] == ids[..i] + [id];
        if id in prev && PlanOk(prev[id]) {
          plans := plans[id := prev[id]];
        } else {
          plans := plans[id := Plan(mint[id].0, mint[id].1, now, InfoHash(catalog, id))];
        }
      }
      assert ids[..|ids|] == ids;
    }

    method Set(device: string, q: Request) returns (decision: Result<Assignment, PolicyError>)
      requires forall id :: id in q.ids ==> id in q.mint
      modifies this
      ensures (decision, RowOf(device)) == SetPolicy(old(RowOf(device)), q)
      ensures SetDoes(old(RowOf(device)), q, decision, RowOf(device))
      ensures forall d :: d != device ==> RowOf(d) == old(RowOf(d))
    {
      SetPolicyDoes(RowOf(device), q);
      if |q.ids| > MAX_ASSIGNED_IMAGES {
        return Err(TooManyImages);
      }
      if !Distinct(q.ids) {
        return Err(DuplicateImage);
      }
      if q.catalog.Some? {
        var blocked := FirstBlocked(q.catalog.value, q.ids);
        if blocked.Some? {
          return Err(blocked.value);
        }
      }
      var prev := RowOf(device);
      var current := Normalize(prev);
      if q.expected.Some? && q.expected.value != current {
        return Err(PolicyConflict(current));
      }
      decision := Ok(Assignment(current, q.ids, Without(current, q.ids)));
      if q.skipUnchanged && current == q.ids {
        return;
      }
      var plans := MergePlans(q.catalog, PrevPlans(prev), q.ids, q.mint, q.now);
      rows := rows[device := Row(Some(q.ids), if q.ids == [] then None else Some(q.ids[0]), plans,
                                 if prev.Some? then prev.value.instruction else None)];
    }

    method FirstBlocked(catalog: map<string, Image>, ids: seq<string>) returns (e: Option<PolicyError>)
      ensures e == Blocked(catalog, ids)
    {
      for i := 0 to |ids|
        invariant Blocked(catalog, ids) == Blocked(catalog, ids[i..])
      {
        var id := ids[i];
        if id !in catalog {
          return Some(NoSuchImage);
        }
        if catalog[id].quarantined {
          return Some(QuarantinedImage(id));
        }
      }
      return None;
    }
  }
}

// Runs of writes to one device's row: the identity of transfer plans over time.
module PlanRuns {
  import opened Common
  import opened PolicyRows

  // A row as this release writes it.
  predicate WellFormed(row: Row) {
    && row.approvedIds.Some? && "" !in row.approvedIds.value
    && row.plans.Keys == (set id | id in row.approvedIds.value)
    && forall id :: id in row.plans ==> PlanOk(row.plans[id])
  }

  predicate RowOk(row: Option<Row>) {
    row.Some? ==> WellFormed(row.value)
  }

  predicate Holds(row: Option<Row>, id: string) {
    row.Some? && id in row.value.plans
  }

  predicate Uses(p: Plan, token: string) {
    p.planId == token || p.transferId == token
  }

  // Tokens drawn for this call: well formed, pairwise different, never used.
  ghost predicate FreshMint(mint: Mint, ids: seq<string>, used: set<string>) {
    && (forall id :: id in ids ==> id in mint && id != "")
    && (forall id :: id in mint ==>
          && LowerHex(mint[id].0, 32) && LowerHex(mint[id].1, 32)
          && mint[id].0 !in used && mint[id].1 !in used && mint[id].0 != mint[id].1)
    && (forall a, b :: a in mint && b in mint && a != b ==>
          mint[a].0 != mint[b].0 && mint[a].1 != mint[b].1 && mint[a].0 != mint[b].1)
  }

  function Drawn(mint: Mint): set<string> {
    (set id | id in mint :: mint[id].0) + (set id | id in mint :: mint[id].1)
  }

  // The row and every token drawn so far.
  datatype Point = Point(row: Option<Row>, used: set<string>)

  ghost predicate PointOk(p: Point) {
    && RowOk(p.row)
    && forall id :: Holds(p.row, id) ==>
         p.row.value.plans[id].planId in p.used && p.row.value.plans[id].transferId in p.used
  }

  ghost predicate Next(p: Point, q: Request, n: Point) {
    && FreshMint(q.mint, q.ids, p.used)
    && n.row == SetPolicy(p.row, q).1
    && n.used == p.used + Drawn(q.mint)
  }

  ghost predicate Run(ps: seq<Point>, qs: seq<Request>) {
    && |ps| == |qs| + 1 && PointOk(ps[0])
    && forall i :: 0 <= i < |qs| ==> Next(ps[i], qs[i], ps[i + 1])
  }

  lemma HeldIsApproved(row: Option<Row>, id: string)
    requires RowOk(row)
    ensures Holds(row, id) <==> id in Normalize(row)
  {
  }

  // What one write does to one image's plan.
  ghost predicate PlanStep(p: Point, n: Point, id: string) {
    Holds(n.row, id) ==>
      if Holds(p.row, id) then n.row.value.plans[id] == p.row.value.plans[id]
      else n.row.value.plans[id].planId !in p.used && n.row.value.plans[id].transferId !in p.used
  }

  ghost predicate PlansStep(p: Point, n: Point) {
    PointOk(p) && PointOk(n) && p.used <= n.used && forall id :: PlanStep(p, n, id)
  }

  // A write never drops, changes or invents a plan except as the approved set
  // demands: plan keys are the approved ids, images that stay keep their plan,
  // images that arrive get a pair no plan ever had.
  lemma WriteKeepsPlans(p: Point, q: Request, n: Point)
    requires PointOk(p) && Next(p, q, n)
    ensures PlansStep(p, n)
  {
    forall id | id in q.ids && id in q.mint
      ensures q.mint[id].0 in Drawn(q.mint) && q.mint[id].1 in Drawn(q.mint)
    {
    }
  }

  // A refused or skipped write changes nothing, and every accepted write leaves
  // exactly the requested set with its plans.
  lemma WriteOutcome(row: Option<Row>, q: Request)
    requires RowOk(row) && (forall id :: id in q.ids ==> id in q.mint && id != "")
    ensures SetPolicy(row, q).0.Err? ==> SetPolicy(row, q).1 == row
    ensures q.skipUnchanged && Normalize(row) == q.ids ==> SetPolicy(row, q).1 == row
    ensures SetPolicy(row, q).0.Ok? ==>
              && Normalize(SetPolicy(row, q).1) == q.ids
              && SetPolicy(row, q).0.value.before == Normalize(row)
              && SetPolicy(row, q).0.value.after == q.ids
  {
  }

  lemma {:induction false} RunPoints(ps: seq<Point>, qs: seq<Request>, n: nat)
    requires Run(ps, qs) && n < |ps|
    ensures PointOk(ps[n])
  {
    if n > 0 {
      RunPoints(ps, qs, n - 1);
      WriteKeepsPlans(ps[n - 1], qs[n - 1], ps[n]);
    }
  }

  // The run as a chain of plan steps.
  ghost predicate Chain(ps: seq<Point>) {
    forall i :: 0 <= i < |ps| - 1 ==> PlansStep(ps[i], ps[i + 1])
  }

  lemma RunIsChain(ps: seq<Point>, qs: seq<Request>)
    requires Run(ps, qs)
    ensures Chain(ps)
  {
    forall i | 0 <= i < |ps| - 1 ensures PlansStep(ps[i], ps[i + 1]) {
      RunPoints(ps, qs, i);
      assert Next(ps[i], qs[i], ps[i + 1]);
      WriteKeepsPlans(ps[i], qs[i], ps[i + 1]);
    }
  }

  lemma {:induction false} UsedGrows(ps: seq<Point>, i: nat, j: nat)
    requires Chain(ps) && i <= j < |ps|
    ensures ps[i].used <= ps[j].used
  {
    if i < j {
      UsedGrows(ps, i, j - 1);
      assert PlansStep(ps[j - 1], ps[j]);
    }
  }

  ghost predicate Stays(ps: seq<Point>, i: nat, j: nat, id: string)
    requires i <= j < |ps|
  {
    forall k :: i <= k <= j ==> Holds(ps[k].row, id)
  }

  // While an image stays approved its plan does not change.
  lemma {:induction false} PlanStays(ps: seq<Point>, i: nat, j: nat, id: string)
    requires Chain(ps) && i <= j < |ps| && Stays(ps, i, j, id)
    ensures ps[j].row.value.plans[id] == ps[i].row.value.plans[id]
  {
    if i < j {
      PlanStays(ps, i, j - 1, id);
      assert PlansStep(ps[j - 1], ps[j]);
      assert PlanStep(ps[j - 1], ps[j], id);
    }
  }

  // If it left and came back, both its ids are tokens that did not exist when
  // it left.
  lemma {:induction false} PlanReplaced(ps: seq<Point>, i: nat, j: nat, id: string)
    requires Chain(ps) && i <= j < |ps| && Holds(ps[j].row, id) && !Stays(ps, i, j, id)
    ensures ps[j].row.value.plans[id].planId !in ps[i].used
    ensures ps[j].row.value.plans[id].transferId !in ps[i].used
  {
    assert PlansStep(ps[j - 1], ps[j]);
    assert PlanStep(ps[j - 1], ps[j], id);
    if Holds(ps[j - 1].row, id) {
      PlanReplaced(ps, i, j - 1, id);
    } else {
      UsedGrows(ps, i, j - 1);
    }
  }

  // Along any run an image keeps the same pair of ids exactly while it stays in
  // the approved set.
  lemma PlanIdentity(ps: seq<Point>, qs: seq<Request>, i: nat, j: nat, id: string)
    requires Run(ps, qs) && i <= j < |ps|
    requires id in Normalize(ps[i].row) && id in Normalize(ps[j].row)
    ensures Holds(ps[i].row, id) && Holds(ps[j].row, id)
    ensures (ps[j].row.value.plans[id].planId == ps[i].row.value.plans[id].planId
             <==> forall k :: i <= k <= j ==> id in Normalize(ps[k].row))
    ensures (ps[j].row.value.plans[id].transferId == ps[i].row.value.plans[id].transferId
             <==> forall k :: i <= k <= j ==> id in Normalize(ps[k].row))
  {
    RunIsChain(ps, qs);
    forall k | i <= k <= j ensures Holds(ps[k].row, id) <==> id in Normalize(ps[k].row) {
      RunPoints(ps, qs, k);
      HeldIsApproved(ps[k].row, id);
    }
    if Stays(ps, i, j, id) {
      PlanStays(ps, i, j, id);
    } else {
      PlanReplaced(ps, i, j, id);
      RunPoints(ps, qs, i);
    }
  }
}
