// Hash-verification quarantine: verdicts mark images quarantined under a lock,
// and the follow-up actions (stop seeding, unassign everywhere) run outside it,
// interleaved with everyone else and open to failure and crash.
module Quarantine {
  import opened Common

  type Image = string
  type Device = string

  datatype Finding = Verified | Mismatch | NotInFeed

  datatype Verdict = Verdict(finding: Finding, feed: string, deferral: bool)

  // ack is the feed hash an operator overrode; complete records that every
  // quarantine action has succeeded.
  datatype Entry = Entry(sha512: string, quarantined: bool, complete: bool, ack: Option<string>,
                         finding: Option<Finding>)

  // ----- hash texts -----

  predicate Blank(c: char) {
    c == ' ' || '\t' <= c <= '\r'
  }

  function StripFront(s: string): string {
    if s != "" && Blank(s[0]) then StripFront(s[1..]) else s
  }

  function StripBack(s: string): string {
    if s != "" && Blank(s[|s| - 1]) then StripBack(s[..|s| - 1]) else s
  }

  function Lower(s: string): string {
    if s == "" then ""
    else [if 'A' <= s[0] <= 'Z' then s[0] - 'A' + 'a' else s[0]] + Lower(s[1..])
  }

  function Normal(s: string): string {
    Lower(StripBack(StripFront(s)))
  }

  // ----- verdicts and releases -----

  // The operator already overrode this very feed value. An empty value never counts.
  predicate Acknowledged(ack: Option<string>, v: Verdict) {
    v.finding.Mismatch? && Normal(v.feed) != "" && ack == Some(Normal(v.feed))
  }

  function Judged(e: Entry, v: Verdict): Entry {
    var ack := if v.finding.Verified? then None else e.ack;
    var seen := e.(finding := Some(v.finding), ack := ack);
    if v.finding.Mismatch? && !v.deferral && !e.quarantined && !Acknowledged(ack, v)
    then seen.(quarantined := true, complete := false)
    else seen
  }

  function Applied(images: map<Image, Entry>, verdicts: map<Image, Verdict>): map<Image, Entry> {
    map x | x in images :: if x in verdicts then Judged(images[x], verdicts[x]) else images[x]
  }

  function Recorded(store: map<Image, Verdict>, images: map<Image, Entry>, verdicts: map<Image, Verdict>):
    map<Image, Verdict>
  {
    store + map x | x in verdicts && x in images :: verdicts[x]
  }

  function StoredFeed(store: map<Image, Verdict>, x: Image): string {
    if x in store then Normal(store[x].feed) else ""
  }

  // No recorded feed value counts as a mismatch.
  predicate StillMismatching(e: Entry, feed: string) {
    feed == "" || feed != Normal(e.sha512)
  }

  datatype ReleaseError = NoSuchImage | NotQuarantined | StillMismatched

  function Releasing(images: map<Image, Entry>, store: map<Image, Verdict>, x: Image, override: bool):
    Result<Entry, ReleaseError>
  {
    if x !in images then Err(NoSuchImage)
    else if !images[x].quarantined then Err(NotQuarantined)
    else
      var feed := StoredFeed(store, x);
      if StillMismatching(images[x], feed) then
        if override then Ok(images[x].(quarantined := false, complete := true, ack := Some(feed)))
        else Err(StillMismatched)
      else Ok(images[x].(quarantined := false, complete := true, ack := None, finding := Some(Verified)))
  }

  function ReleasedStore(images: map<Image, Entry>, store: map<Image, Verdict>, x: Image): map<Image, Verdict>
    requires x in images
  {
    if !StillMismatching(images[x], StoredFeed(store, x)) && x in store
    then store[x := store[x].(finding := Verified)]
    else store
  }

  // ----- assignment -----

  predicate IsQuarantined(images: map<Image, Entry>, x: Image) {
    x in images && images[x].quarantined
  }

  // What set_policy accepts: every named image exists and is not quarantined.
  predicate Assignable(images: map<Image, Entry>, ids: seq<Image>) {
    forall i :: 0 <= i < |ids| ==> ids[i] in images && !images[ids[i]].quarantined
  }

  function Row(rows: map<Device, seq<Image>>, d: Device): seq<Image> {
    if d in rows then rows[d] else []
  }

  function Unquarantined(images: map<Image, Entry>, ids: seq<Image>): seq<Image> {
    if ids == [] then []
    else if IsQuarantined(images, ids[0]) then Unquarantined(images, ids[1..])
    else [ids[0]] + Unquarantined(images, ids[1..])
  }

  function Holders(rows: map<Device, seq<Image>>, x: Image): set<Device> {
    set d | d in rows && x in rows[d]
  }

  // ----- the apply run, step by step -----

  // Where the run stands with the image at the head of its queue.
  datatype Stage =
    | Opening                                        // before stop-seeding
    | Listing(ok: bool)                              // before the policy snapshot
    | Sweeping(ok: bool, todo: set<Device>)
    | Read(ok: bool, todo: set<Device>, d: Device, row: seq<Image>, kept: seq<Image>)   // row still to look at
    | Ready(ok: bool, todo: set<Device>, d: Device, remaining: seq<Image>)
    | Marking

  datatype Apply = Idle | Firing(queue: seq<Image>, stage: Stage)

  datatype System = System(
    images: map<Image, Entry>,
    store: map<Image, Verdict>,
    rows: map<Device, seq<Image>>,
    apply: Apply)

  datatype Action =
    | Publish(x: Image, sha512: string)
    | Delete(x: Image)
    | Assign(d: Device, ids: seq<Image>)
    | DropRow(d: Device)
    | Release(x: Image, override: bool, torn: bool)    // torn: crash between the two durable writes
    | Verify(verdicts: map<Image, Verdict>, torn: bool)
    | OpenFire(seedOk: bool)
    | ListRows
    | ReadRow(d: Device)
    | FilterRow                                        // one image of the row, by the catalog of that moment
    | Unassign(fails: bool)
    | CloseFire
    | Mark
    | FinishRun
    | Crash

  // Quarantined images whose actions have not all succeeded, in some order.
  ghost predicate IsQueue(images: map<Image, Entry>, queue: seq<Image>) {
    forall x :: x in queue <==> x in images && images[x].quarantined && !images[x].complete
  }

  // The retry queue is sorted in the source; any order serves here.
  ghost predicate Enabled(s: System, a: Action) {
    match a
    case Publish(_, _) => true
    case Delete(_) => true
    case Assign(_, _) => true
    case DropRow(_) => true
    case Release(_, _, _) => true
    case Verify(_, _) => s.apply.Idle?
    case OpenFire(_) => s.apply.Firing? && s.apply.queue != [] && s.apply.stage.Opening?
    case ListRows => s.apply.Firing? && s.apply.queue != [] && s.apply.stage.Listing?
    case ReadRow(d) => s.apply.Firing? && s.apply.queue != [] && s.apply.stage.Sweeping? && d in s.apply.stage.todo
    case FilterRow => s.apply.Firing? && s.apply.queue != [] && s.apply.stage.Read?
    case Unassign(_) => s.apply.Firing? && s.apply.queue != [] && s.apply.stage.Ready?
    case CloseFire => s.apply.Firing? && s.apply.queue != [] && s.apply.stage.Sweeping? && s.apply.stage.todo == {}
    case Mark => s.apply.Firing? && s.apply.queue != [] && s.apply.stage.Marking?
    case FinishRun => s.apply.Firing? && s.apply.queue == []
    case Crash => true
  }

  function Stepped(s: System, stage: Stage): System
    requires s.apply.Firing?
  {
    s.(apply := Firing(s.apply.queue, stage))
  }

  function NextImage(s: System): System
    requires s.apply.Firing? && s.apply.queue != []
  {
    s.(apply := Firing(s.apply.queue[1..], Opening))
  }

  // The state after an action that belongs to no apply run.
  function Outside(s: System, a: Action): System
    requires a.Publish? || a.Delete? || a.Assign? || a.DropRow? || a.Release?
  {
    match a
    case Publish(x, sha512) => s.(images := s.images[x := Entry(sha512, false, false, None, None)])
    case Delete(x) => s.(images := s.images - {x})
    case Assign(d, ids) => if Assignable(s.images, ids) then s.(rows := s.rows[d := ids]) else s
    case DropRow(d) => s.(rows := s.rows - {d})
    case Release(x, override, torn) =>
      match Releasing(s.images, s.store, x, override)
      case Err(_) => s
      case Ok(e) => s.(images := s.images[x := e],
                       store := if torn then s.store else ReleasedStore(s.images, s.store, x))
  }

  function VerifiedImages(s: System, a: Action): System
    requires a.Verify?
  {
    s.(images := Applied(s.images, a.verdicts),
       store := if a.torn then s.store else Recorded(s.store, s.images, a.verdicts))
  }

  // One step of the run in flight.
  function Fired(s: System, a: Action): System
    requires s.apply.Firing? && s.apply.queue != []
    requires a.OpenFire? || a.ListRows? || a.ReadRow? || a.FilterRow? || a.Unassign? || a.CloseFire? || a.Mark?
    requires a.ListRows? ==> s.apply.stage.Listing?
    requires a.ReadRow? ==> s.apply.stage.Sweeping?
    requires a.FilterRow? ==> s.apply.stage.Read?
    requires a.Unassign? ==> s.apply.stage.Ready?
    requires a.CloseFire? ==> s.apply.stage.Sweeping?
  {
    var x, st := s.apply.queue[0], s.apply.stage;
    match a
    case OpenFire(seedOk) => if x in s.images then Stepped(s, Listing(seedOk)) else Stepped(s, Marking)
    case ListRows => Stepped(s, Sweeping(st.ok, Holders(s.rows, x)))
    case ReadRow(d) => Stepped(s, Read(st.ok, st.todo, d, Row(s.rows, d), []))
    case FilterRow =>
      if st.row == [] then Stepped(s, Ready(st.ok, st.todo, st.d, st.kept))
      else
        var kept := if IsQuarantined(s.images, st.row[0]) then st.kept else st.kept + [st.row[0]];
        Stepped(s, Read(st.ok, st.todo, st.d, st.row[1..], kept))
    case Unassign(fails) =>
      if fails || !Assignable(s.images, st.remaining) then Stepped(s, Sweeping(false, st.todo - {st.d}))
      else Stepped(s, Sweeping(st.ok, st.todo - {st.d})).(rows := s.rows[st.d := st.remaining])
    case CloseFire => if st.ok then Stepped(s, Marking) else NextImage(s)
    case Mark =>
      if IsQuarantined(s.images, x) then NextImage(s).(images := s.images[x := s.images[x].(complete := true)])
      else NextImage(s)
  }

  ghost predicate Step(s: System, a: Action, t: System) {
    Enabled(s, a)
    && match a
       case Publish(_, _) => t == Outside(s, a)
       case Delete(_) => t == Outside(s, a)
       case Assign(_, _) => t == Outside(s, a)
       case DropRow(_) => t == Outside(s, a)
       case Release(_, _, _) => t == Outside(s, a)
       case Verify(_, torn) =>
         var u := VerifiedImages(s, a);
         if torn then t == u
         else exists queue :: IsQueue(u.images, queue) && t == u.(apply := Firing(queue, Opening))
       case FinishRun => t == s.(apply := Idle)
       case Crash => t == s.(apply := Idle)
       case _ => t == Fired(s, a)
  }

  datatype Run = Run(states: seq<System>, actions: seq<Action>)

  ghost predicate Follows(r: Run, i: nat)
    requires i < |r.actions| && |r.states| == |r.actions| + 1
  {
    Step(r.states[i], r.actions[i], r.states[i + 1])
  }

  // A run starts before anything was ever quarantined.
  ghost predicate IsRun(r: Run) {
    |r.states| == |r.actions| + 1
    && r.states[0].apply.Idle? && r.states[0].store == map[]
    && (forall x :: x in r.states[0].images ==> !r.states[0].images[x].quarantined && r.states[0].images[x].ack.None?)
    && forall i :: 0 <= i < |r.actions| ==> Follows(r, i)
  }
}

// How hashes are read before they are compared.
module HashTexts {
  import opened Quarantine

  lemma {:induction false} StripFrontIs(s: string) returns (i: nat)
    ensures i <= |s| && StripFront(s) == s[i..] && (forall k :: 0 <= k < i ==> Blank(s[k]))
    ensures i < |s| ==> !Blank(s[i])
  {
    if s != "" && Blank(s[0]) {
      var j := StripFrontIs(s[1..]);
      i := j + 1;
      assert s[1..][j..] == s[i..];
      assert forall k :: 0 < k < i ==> s[k] == s[1..][k - 1];
    } else {
      i := 0;
    }
  }

  lemma {:induction false} StripBackIs(s: string) returns (j: nat)
    ensures j <= |s| && StripBack(s) == s[..j] && (forall k :: j <= k < |s| ==> Blank(s[k]))
    ensures 0 < j ==> !Blank(s[j - 1])
  {
    if s != "" && Blank(s[|s| - 1]) {
      j := StripBackIs(s[..|s| - 1]);
      assert s[..|s| - 1][..j] == s[..j];
    } else {
      j := |s|;
    }
  }

  function LowerChar(c: char): char {
    if 'A' <= c <= 'Z' then (c as int + 32) as char else c
  }

  lemma {:induction false} LowerIs(s: string)
    ensures |Lower(s)| == |s| && forall i :: 0 <= i < |s| ==> Lower(s)[i] == LowerChar(s[i])
  {
    if s != "" {
      LowerIs(s[1..]);
    }
  }

  // A hash text is read without the blanks around it and in lower case.
  lemma NormalIs(s: string) returns (i: nat, j: nat)
    ensures i <= j <= |s| && |Normal(s)| == j - i
    ensures forall k :: 0 <= k < |s| && !(i <= k < j) ==> Blank(s[k])
    ensures i < j ==> !Blank(s[i]) && !Blank(s[j - 1])
    ensures forall k :: i <= k < j ==> Normal(s)[k - i] == LowerChar(s[k])
  {
    i := StripFrontIs(s);
    var t := s[i..];
    var n := StripBackIs(t);
    j := i + n;
    LowerIs(t[..n]);
    assert forall k :: i <= k < |s| ==> s[k] == t[k - i];
  }
}

module QuarantineRuns {
  import opened Common
  import opened Quarantine

  // ----- a completed quarantine holds everywhere -----

  predicate HeldOnlyBy(rows: map<Device, seq<Image>>, x: Image, todo: set<Device>) {
    forall d :: d in rows && x in rows[d] ==> d in todo
  }

  predicate CompleteIsClear(s: System) {
    forall x :: x in s.images && s.images[x].quarantined && s.images[x].complete ==> HeldOnlyBy(s.rows, x, {})
  }

  // While every action so far succeeded, only the devices still to do can hold
  // the image, as long as it stays quarantined.
  predicate SweepCovers(s: System) {
    s.apply.Firing? && s.apply.queue != [] && IsQuarantined(s.images, s.apply.queue[0]) ==>
      match s.apply.stage
      case Opening => true
      case Listing(_) => true
      case Sweeping(ok, todo) => ok ==> HeldOnlyBy(s.rows, s.apply.queue[0], todo)
      case Read(ok, todo, d, _, _) => ok ==> HeldOnlyBy(s.rows, s.apply.queue[0], todo)
      case Ready(ok, todo, d, _) => ok ==> HeldOnlyBy(s.rows, s.apply.queue[0], todo)
      case Marking => HeldOnlyBy(s.rows, s.apply.queue[0], {})
  }

  predicate Inv(s: System) {
    CompleteIsClear(s) && SweepCovers(s)
  }

  // Writing an assignable row gives no quarantined image to anyone.
  lemma WriteKeepsHolders(images: map<Image, Entry>, rows: map<Device, seq<Image>>, d: Device, ids: seq<Image>,
                          x: Image, todo: set<Device>)
    requires Assignable(images, ids) && IsQuarantined(images, x) && HeldOnlyBy(rows, x, todo)
    ensures HeldOnlyBy(rows[d := ids], x, todo) && HeldOnlyBy(rows[d := ids], x, todo - {d})
  {
    forall e | e in rows[d := ids] && x in rows[d := ids][e] ensures e in todo - {d} {
    }
  }

  // Nothing outside the verdict write quarantines an image.
  predicate NoNewQuarantine(images: map<Image, Entry>, after: map<Image, Entry>) {
    forall x :: x in after && after[x].quarantined ==>
        x in images && images[x].quarantined && (after[x].complete ==> images[x].complete)
  }

  lemma QuieterKeepsInv(s: System, t: System)
    requires Inv(s) && t.rows == s.rows && t.apply == s.apply && NoNewQuarantine(s.images, t.images)
    ensures Inv(t)
  {
  }

  lemma WriteKeepsInv(s: System, d: Device, ids: seq<Image>)
    requires Inv(s) && Assignable(s.images, ids)
    ensures Inv(s.(rows := s.rows[d := ids]))
  {
    var t := s.(rows := s.rows[d := ids]);
    forall x | x in t.images && t.images[x].quarantined && t.images[x].complete ensures HeldOnlyBy(t.rows, x, {}) {
      WriteKeepsHolders(s.images, s.rows, d, ids, x, {});
    }
    if s.apply.Firing? && s.apply.queue != [] && IsQuarantined(s.images, s.apply.queue[0]) {
      var x, st := s.apply.queue[0], s.apply.stage;
      if st.Sweeping? && st.ok {
        WriteKeepsHolders(s.images, s.rows, d, ids, x, st.todo);
      } else if st.Read? && st.ok {
        WriteKeepsHolders(s.images, s.rows, d, ids, x, st.todo);
      } else if st.Ready? && st.ok {
        WriteKeepsHolders(s.images, s.rows, d, ids, x, st.todo);
      } else if st.Marking? {
        WriteKeepsHolders(s.images, s.rows, d, ids, x, {});
      }
    }
  }

  lemma OutsideKeepsInv(s: System, a: Action)
    requires Inv(s) && (a.Publish? || a.Delete? || a.Assign? || a.DropRow? || a.Release?)
    ensures Inv(Outside(s, a))
  {
    match a
    case Publish(_, _) => QuieterKeepsInv(s, Outside(s, a));
    case Delete(_) => QuieterKeepsInv(s, Outside(s, a));
    case Release(_, _, _) => QuieterKeepsInv(s, Outside(s, a).(store := s.store));
    case Assign(d, ids) =>
      if Assignable(s.images, ids) {
        WriteKeepsInv(s, d, ids);
      }
    case DropRow(d) =>
      assert forall e :: e in s.rows - {d} ==> e in s.rows && (s.rows - {d})[e] == s.rows[e];
  }

  lemma UnassignKeepsInv(s: System, fails: bool)
    requires Inv(s) && s.apply.Firing? && s.apply.queue != [] && s.apply.stage.Ready?
    ensures Inv(Fired(s, Unassign(fails)))
  {
    var st, x := s.apply.stage, s.apply.queue[0];
    if !fails && Assignable(s.images, st.remaining) {
      WriteKeepsInv(s, st.d, st.remaining);
      if IsQuarantined(s.images, x) && st.ok {
        WriteKeepsHolders(s.images, s.rows, st.d, st.remaining, x, st.todo);
      }
    }
  }

  lemma MarkKeepsInv(s: System)
    requires Inv(s) && s.apply.Firing? && s.apply.queue != [] && s.apply.stage.Marking?
    ensures Inv(Fired(s, Mark))
  {
  }

  lemma FiredKeepsInv(s: System, a: Action)
    requires Inv(s) && Enabled(s, a)
    requires a.OpenFire? || a.ListRows? || a.ReadRow? || a.FilterRow? || a.Unassign? || a.CloseFire? || a.Mark?
    ensures Inv(Fired(s, a))
  {
    match a
    case Unassign(fails) => UnassignKeepsInv(s, fails);
    case Mark => MarkKeepsInv(s);
    case OpenFire(_) =>
    case ListRows =>
    case ReadRow(_) =>
    case FilterRow =>
    case CloseFire =>
  }

  lemma VerifyKeepsInv(s: System, a: Action, queue: seq<Image>)
    requires Inv(s) && a.Verify? && s.apply.Idle?
    ensures Inv(VerifiedImages(s, a)) && Inv(VerifiedImages(s, a).(apply := Firing(queue, Opening)))
  {
  }

  lemma StepKeepsInv(s: System, a: Action, t: System)
    requires Inv(s) && Step(s, a, t)
    ensures Inv(t)
  {
    match a
    case Publish(_, _) => OutsideKeepsInv(s, a);
    case Delete(_) => OutsideKeepsInv(s, a);
    case Assign(_, _) => OutsideKeepsInv(s, a);
    case DropRow(_) => OutsideKeepsInv(s, a);
    case Release(_, _, _) => OutsideKeepsInv(s, a);
    case Verify(_, torn) =>
      VerifyKeepsInv(s, a, if t.apply.Firing? then t.apply.queue else []);
    case FinishRun =>
    case Crash =>
    case _ => FiredKeepsInv(s, a);
  }

  lemma {:induction false} RunKeepsInv(r: Run, n: nat)
    requires IsRun(r) && n < |r.states|
    ensures Inv(r.states[n])
  {
    if n > 0 {
      RunKeepsInv(r, n - 1);
      assert Follows(r, n - 1);
      StepKeepsInv(r.states[n - 1], r.actions[n - 1], r.states[n]);
    }
  }

  // An image quarantined with its actions complete is approved for no device.
  lemma QuarantineHoldsEverywhere(r: Run, n: nat, x: Image, d: Device)
    requires IsRun(r) && n < |r.states|
    requires x in r.states[n].images && r.states[n].images[x].quarantined && r.states[n].images[x].complete
    ensures x !in Row(r.states[n].rows, d)
  {
    RunKeepsInv(r, n);
    assert HeldOnlyBy(r.states[n].rows, x, {});
  }

  // ----- how a quarantine starts and ends -----

  // Only a release, a deletion or a new publish of that image ends one.
  lemma QuarantineEndsDeliberately(s: System, a: Action, t: System, x: Image)
    requires Step(s, a, t) && IsQuarantined(s.images, x) && !IsQuarantined(t.images, x)
    ensures (a.Release? || a.Delete? || a.Publish?) && a.x == x
  {
  }

  // The image's own hash is the last one the feed gave for it, both trimmed and
  // lower-cased, and the feed gave one.
  predicate HashesAgree(e: Entry, feed: string) {
    Normal(feed) != "" && Normal(feed) == Normal(e.sha512)
  }

  // The last recorded feed hash of x as it was written.
  function RecordedFeed(store: map<Image, Verdict>, x: Image): string {
    if x in store then store[x].feed else ""
  }

  // A release ends a quarantine only if the operator overrides or the hashes agree.
  lemma ReleaseNeedsReason(s: System, a: Action, t: System, x: Image)
    requires Step(s, a, t) && a.Release? && a.x == x && IsQuarantined(s.images, x) && !IsQuarantined(t.images, x)
    ensures a.override || HashesAgree(s.images[x], RecordedFeed(s.store, x))
  {
  }

  // Told from the run: the feed hash is that of the last verdict recorded for x.
  lemma ReleasedForReason(r: Run, n: nat, x: Image)
    requires IsRun(r) && n < |r.actions| && r.actions[n].Release? && r.actions[n].x == x
    requires IsQuarantined(r.states[n].images, x) && !IsQuarantined(r.states[n + 1].images, x)
    ensures r.actions[n].override
            || (FeedTold(r, n, x) != "" && FeedTold(r, n, x) == Normal(r.states[n].images[x].sha512))
  {
    assert Follows(r, n);
    StoreIsHistory(r, n, x);
    ReleaseNeedsReason(r.states[n], r.actions[n], r.states[n + 1], x);
  }

  // Only a verdict for that image starts one.
  lemma QuarantineStartsByVerdict(s: System, a: Action, t: System, x: Image)
    requires Step(s, a, t) && !IsQuarantined(s.images, x) && IsQuarantined(t.images, x)
    ensures a.Verify? && x in a.verdicts && x in s.images && !t.images[x].complete
  {
  }

  // ----- what the operator has acknowledged, told from the run so far -----

  // The feed value of the last verdict recorded for x before step n.
  ghost function FeedTold(r: Run, n: nat, x: Image): string
    requires n < |r.states| && |r.states| == |r.actions| + 1
  {
    if n == 0 then ""
    else
      match r.actions[n - 1]
      case Verify(verdicts, torn) =>
        if !torn && x in verdicts && x in r.states[n - 1].images then Normal(verdicts[x].feed)
        else FeedTold(r, n - 1, x)
      case _ => FeedTold(r, n - 1, x)
  }

  // What a step means for the acknowledgement of an image.
  datatype Mark = Overrode(feed: string) | Settled | Nothing

  // A release of a quarantined image that its last feed value does not match
  // overrides that value. A clean release, a verified verdict, a deletion and a new
  // publish settle the image. Nothing else touches it, a refused release included.
  ghost function MarkOf(s: System, a: Action, x: Image, feed: string): Mark {
    match a
    case Verify(verdicts, _) => if x in verdicts && verdicts[x].finding.Verified? then Settled else Nothing
    case Release(y, override, _) =>
      if y != x || !IsQuarantined(s.images, x) then Nothing
      else if !StillMismatching(s.images[x], feed) then Settled
      else if override then Overrode(feed)
      else Nothing
    case Publish(y, _) => if y == x then Settled else Nothing
    case Delete(y) => if y == x then Settled else Nothing
    case _ => Nothing
  }

  // What a mark makes of an acknowledgement.
  function Heeded(ack: Option<string>, mark: Mark): Option<string> {
    match mark
    case Overrode(h) => Some(h)
    case Settled => None
    case Nothing => ack
  }

  ghost function MarkAt(r: Run, k: nat, x: Image): Mark
    requires k < |r.actions| && |r.states| == |r.actions| + 1
  {
    MarkOf(r.states[k], r.actions[k], x, FeedTold(r, k, x))
  }

  // The acknowledgement of x the first n steps leave.
  ghost function AckTold(r: Run, n: nat, x: Image): Option<string>
    requires n < |r.states| && |r.states| == |r.actions| + 1
  {
    if n == 0 then None else Heeded(AckTold(r, n - 1, x), MarkAt(r, n - 1, x))
  }

  lemma OutsideAck(s: System, a: Action, x: Image, before: Option<string>)
    requires a.Publish? || a.Delete? || a.Assign? || a.DropRow? || a.Release?
    requires x in Outside(s, a).images && (x in s.images ==> s.images[x].ack == before)
    ensures Outside(s, a).images[x].ack == Heeded(before, MarkOf(s, a, x, StoredFeed(s.store, x)))
  {
  }

  lemma VerifyAck(s: System, a: Action, x: Image, before: Option<string>)
    requires a.Verify? && x in s.images && s.images[x].ack == before
    ensures x in VerifiedImages(s, a).images
    ensures VerifiedImages(s, a).images[x].ack == Heeded(before, MarkOf(s, a, x, StoredFeed(s.store, x)))
  {
  }

  // No step of the run in flight touches an acknowledgement.
  lemma FiredAck(s: System, a: Action, t: System, x: Image)
    requires Step(s, a, t) && !a.Verify? && !a.Publish? && !a.Delete? && !a.Release?
    ensures x in t.images <==> x in s.images
    ensures x in t.images ==> t.images[x].ack == s.images[x].ack
  {
  }

  lemma StepAck(s: System, a: Action, t: System, x: Image, before: Option<string>)
    requires Step(s, a, t) && x in t.images && (x in s.images ==> s.images[x].ack == before)
    ensures t.images[x].ack == Heeded(before, MarkOf(s, a, x, StoredFeed(s.store, x)))
  {
    match a
    case Publish(_, _) => OutsideAck(s, a, x, before);
    case Delete(_) => OutsideAck(s, a, x, before);
    case Release(_, _, _) => OutsideAck(s, a, x, before);
    case Verify(_, _) => VerifyAck(s, a, x, before);
    case _ => FiredAck(s, a, t, x);
  }

  lemma StepStore(s: System, a: Action, t: System, x: Image)
    requires Step(s, a, t)
    ensures StoredFeed(t.store, x) ==
      if a.Verify? && !a.torn && x in a.verdicts && x in s.images then Normal(a.verdicts[x].feed)
      else StoredFeed(s.store, x)
  {
  }

  lemma {:induction false} StoreIsHistory(r: Run, n: nat, x: Image)
    requires IsRun(r) && n < |r.states|
    ensures StoredFeed(r.states[n].store, x) == FeedTold(r, n, x)
  {
    if n > 0 {
      StoreIsHistory(r, n - 1, x);
      assert Follows(r, n - 1);
      StepStore(r.states[n - 1], r.actions[n - 1], r.states[n], x);
    }
  }

  lemma {:induction false} AckIsHistory(r: Run, n: nat, x: Image)
    requires IsRun(r) && n < |r.states| && x in r.states[n].images
    ensures r.states[n].images[x].ack == AckTold(r, n, x)
  {
    if n > 0 {
      assert Follows(r, n - 1);
      if x in r.states[n - 1].images {
        AckIsHistory(r, n - 1, x);
      }
      StoreIsHistory(r, n - 1, x);
      StepAck(r.states[n - 1], r.actions[n - 1], r.states[n], x, AckTold(r, n - 1, x));
    }
  }

  ghost function Marks(r: Run, x: Image): (marks: seq<Mark>)
    requires |r.states| == |r.actions| + 1
    ensures |marks| == |r.actions| && forall k :: 0 <= k < |marks| ==> marks[k] == MarkAt(r, k, x)
  {
    seq(|r.actions|, k requires 0 <= k < |r.actions| => MarkAt(r, k, x))
  }

  // Step i overrode feed value h and no step between i and n settled the image.
  predicate StandsSince(marks: seq<Mark>, i: nat, n: nat, h: string)
    requires n <= |marks|
  {
    i < n && marks[i] == Overrode(h) && forall k :: i < k < n ==> marks[k] == Nothing
  }

  ghost predicate Stands(marks: seq<Mark>, n: nat, h: string)
    requires n <= |marks|
  {
    exists i: nat :: StandsSince(marks, i, n, h)
  }

  function LastWord(marks: seq<Mark>, n: nat): Option<string>
    requires n <= |marks|
  {
    if n == 0 then None else Heeded(LastWord(marks, n - 1), marks[n - 1])
  }

  lemma {:induction false} LastWordStands(marks: seq<Mark>, n: nat, h: string)
    requires n <= |marks|
    ensures LastWord(marks, n) == Some(h) <==> Stands(marks, n, h)
  {
    if n > 0 {
      LastWordStands(marks, n - 1, h);
      if Stands(marks, n, h) {
        var i: nat :| StandsSince(marks, i, n, h);
        assert i < n - 1 ==> StandsSince(marks, i, n - 1, h);
      }
      if marks[n - 1] == Overrode(h) {
        assert StandsSince(marks, n - 1, n, h);
      } else if marks[n - 1] == Nothing && Stands(marks, n - 1, h) {
        var i: nat :| StandsSince(marks, i, n - 1, h);
        assert StandsSince(marks, i, n, h);
      }
    }
  }

  lemma {:induction false} AckIsLastWord(r: Run, marks: seq<Mark>, n: nat, x: Image)
    requires |r.states| == |r.actions| + 1 && n <= |r.actions| == |marks|
    requires forall k :: 0 <= k < |marks| ==> marks[k] == MarkAt(r, k, x)
    ensures AckTold(r, n, x) == LastWord(marks, n)
  {
    if n > 0 {
      AckIsLastWord(r, marks, n - 1, x);
    }
  }

  // The acknowledgement in force is the feed value of an earlier override release
  // with nothing since that settles the image.
  lemma AckIsStandingOverride(r: Run, n: nat, x: Image, h: string)
    requires IsRun(r) && n <= |r.actions|
    ensures AckTold(r, n, x) == Some(h) <==> Stands(Marks(r, x), n, h)
  {
    AckIsLastWord(r, Marks(r, x), n, x);
    LastWordStands(Marks(r, x), n, h);
  }

  // A verdict on an image that is not quarantined fires exactly on a mismatch that
  // is not deferred, unless an earlier override release acknowledged this very
  // feed value and nothing since settled the image.
  lemma FiresExactlyWhenUnacknowledged(r: Run, n: nat, x: Image)
    requires IsRun(r) && n < |r.actions| && r.actions[n].Verify? && x in r.actions[n].verdicts
    requires x in r.states[n].images && !r.states[n].images[x].quarantined
    ensures x in r.states[n + 1].images
    ensures var v := r.actions[n].verdicts[x];
      r.states[n + 1].images[x].quarantined <==>
        v.finding.Mismatch? && !v.deferral
        && !(Normal(v.feed) != "" && Stands(Marks(r, x), n, Normal(v.feed)))
  {
    assert Follows(r, n);
    AckIsHistory(r, n, x);
    AckIsStandingOverride(r, n, x, Normal(r.actions[n].verdicts[x].feed));
  }
}

// A quarantine that runs its course.
module QuarantineCourse {
  import opened Common
  import opened Quarantine

  // An apply run takes on exactly the quarantines with actions outstanding.
  lemma RunTakesOnOpenOnes(s: System, a: Action, t: System, x: Image)
    requires Step(s, a, t) && a.Verify? && !a.torn
    ensures t.apply.Firing? && t.apply.stage.Opening?
    ensures x in t.apply.queue <==> x in t.images && t.images[x].quarantined && !t.images[x].complete
  {
  }

  // While it lasts, a quarantine is completed only as the last step of its own actions.
  lemma CompletedByItsActions(s: System, a: Action, t: System, x: Image)
    requires Step(s, a, t) && IsQuarantined(s.images, x) && !s.images[x].complete
    requires IsQuarantined(t.images, x) && t.images[x].complete
    ensures a.Mark? && s.apply.Firing? && s.apply.queue != [] && s.apply.queue[0] == x && s.apply.stage.Marking?
  {
  }

  // The image is verified as a mismatch while one device has it.
  function Found(x: Image, d: Device, sha: string): System {
    System(map[x := Entry(sha, true, false, None, Some(Mismatch))], map[x := Verdict(Mismatch, "", false)],
           map[d := [x]], Firing([x], Opening))
  }

  function Mismatching(x: Image): map<Image, Verdict> {
    map[x := Verdict(Mismatch, "", false)]
  }

  // The steps from publishing the image to its quarantine, and those of its actions.
  function CourseActions(x: Image, d: Device, sha: string): seq<Action> {
    [Publish(x, sha), Assign(d, [x]), Verify(Mismatching(x), false),
     OpenFire(true), ListRows, ReadRow(d), FilterRow, FilterRow, Unassign(false), CloseFire, Mark, FinishRun]
  }

  lemma StartsCourse(x: Image, d: Device, sha: string) returns (s1: System, s2: System)
    ensures var s0 := System(map[], map[], map[], Idle);
      Step(s0, Publish(x, sha), s1) && Step(s1, Assign(d, [x]), s2)
      && Step(s2, Verify(Mismatching(x), false), Found(x, d, sha))
  {
    var s0 := System(map[], map[], map[], Idle);
    s1 := Outside(s0, Publish(x, sha));
    s2 := Outside(s1, Assign(d, [x]));
    assert s2.rows == map[d := [x]];
    var u := VerifiedImages(s2, Verify(Mismatching(x), false));
    assert Normal("") == "";
    assert u == Found(x, d, sha).(apply := Idle);
    assert IsQueue(u.images, [x]);
  }

  // The run in this stage with the image still in the row.
  function Held(x: Image, d: Device, sha: string, stage: Stage): System {
    Found(x, d, sha).(apply := Firing([x], stage))
  }

  function Cleared(x: Image, d: Device, sha: string, complete: bool, apply: Apply): System {
    System(map[x := Entry(sha, true, complete, None, Some(Mismatch))], map[x := Verdict(Mismatch, "", false)],
           map[d := []], apply)
  }

  lemma ReadsOut(x: Image, d: Device, sha: string)
    ensures Step(Found(x, d, sha), OpenFire(true), Held(x, d, sha, Listing(true)))
    ensures Step(Held(x, d, sha, Listing(true)), ListRows, Held(x, d, sha, Sweeping(true, {d})))
    ensures Step(Held(x, d, sha, Sweeping(true, {d})), ReadRow(d), Held(x, d, sha, Read(true, {d}, d, [x], [])))
  {
    assert Holders(Found(x, d, sha).rows, x) == {d};
  }

  lemma FiltersOut(x: Image, d: Device, sha: string)
    ensures Step(Held(x, d, sha, Read(true, {d}, d, [x], [])), FilterRow, Held(x, d, sha, Read(true, {d}, d, [], [])))
    ensures Step(Held(x, d, sha, Read(true, {d}, d, [], [])), FilterRow, Held(x, d, sha, Ready(true, {d}, d, [])))
  {
    assert [x][1..] == [];
  }

  lemma ClearsOut(x: Image, d: Device, sha: string)
    ensures Step(Held(x, d, sha, Ready(true, {d}, d, [])), Unassign(false),
                 Cleared(x, d, sha, false, Firing([x], Sweeping(true, {}))))
    ensures Step(Cleared(x, d, sha, false, Firing([x], Sweeping(true, {}))), CloseFire,
                 Cleared(x, d, sha, false, Firing([x], Marking)))
  {
    assert {d} - {d} == {};
    assert map[d := [x]][d := []] == map[d := []];
  }

  lemma MarksOut(x: Image, d: Device, sha: string)
    ensures Step(Cleared(x, d, sha, false, Firing([x], Marking)), Mark, Cleared(x, d, sha, true, Firing([], Opening)))
    ensures Step(Cleared(x, d, sha, true, Firing([], Opening)), FinishRun, Cleared(x, d, sha, true, Idle))
  {
    assert [x][1..] == [];
  }

  // The steps lead from the first state through these.
  ghost predicate Leads(ss: seq<System>, actions: seq<Action>) {
    |ss| == |actions| + 1 && forall i :: 0 <= i < |actions| ==> Step(ss[i], actions[i], ss[i + 1])
  }

  lemma LeadsOn(ss: seq<System>, actions: seq<Action>, a: Action, t: System) returns (longer: seq<System>)
    requires Leads(ss, actions) && Step(ss[|actions|], a, t)
    ensures Leads(longer, actions + [a]) && longer[|actions| + 1] == t && longer[0] == ss[0]
  {
    longer := ss + [t];
  }

  lemma Begins(x: Image, d: Device, sha: string) returns (ss: seq<System>)
    ensures Leads(ss, [Publish(x, sha), Assign(d, [x]), Verify(Mismatching(x), false)])
    ensures ss[0] == System(map[], map[], map[], Idle) && ss[3] == Found(x, d, sha)
  {
    var s1, s2 := StartsCourse(x, d, sha);
    ss := [System(map[], map[], map[], Idle), s1, s2, Found(x, d, sha)];
  }

  lemma Sweeps(x: Image, d: Device, sha: string, before: seq<System>, actions: seq<Action>) returns (ss: seq<System>)
    requires Leads(before, actions) && before[|actions|] == Found(x, d, sha)
    ensures Leads(ss, actions + [OpenFire(true)] + [ListRows] + [ReadRow(d)] + [FilterRow] + [FilterRow])
    ensures ss[|actions| + 5] == Held(x, d, sha, Ready(true, {d}, d, [])) && ss[0] == before[0]
  {
    ReadsOut(x, d, sha);
    FiltersOut(x, d, sha);
    var done := actions;
    ss := LeadsOn(before, done, OpenFire(true), Held(x, d, sha, Listing(true)));
    done := done + [OpenFire(true)];
    ss := LeadsOn(ss, done, ListRows, Held(x, d, sha, Sweeping(true, {d})));
    done := done + [ListRows];
    ss := LeadsOn(ss, done, ReadRow(d), Held(x, d, sha, Read(true, {d}, d, [x], [])));
    done := done + [ReadRow(d)];
    ss := LeadsOn(ss, done, FilterRow, Held(x, d, sha, Read(true, {d}, d, [], [])));
    done := done + [FilterRow];
    ss := LeadsOn(ss, done, FilterRow, Held(x, d, sha, Ready(true, {d}, d, [])));
  }

  lemma Closes(x: Image, d: Device, sha: string, before: seq<System>, actions: seq<Action>) returns (ss: seq<System>)
    requires Leads(before, actions) && before[|actions|] == Held(x, d, sha, Ready(true, {d}, d, []))
    ensures Leads(ss, actions + [Unassign(false)] + [CloseFire] + [Mark] + [FinishRun])
    ensures ss[|actions| + 4] == Cleared(x, d, sha, true, Idle) && ss[0] == before[0]
  {
    ClearsOut(x, d, sha);
    MarksOut(x, d, sha);
    var done := actions;
    ss := LeadsOn(before, done, Unassign(false), Cleared(x, d, sha, false, Firing([x], Sweeping(true, {}))));
    done := done + [Unassign(false)];
    ss := LeadsOn(ss, done, CloseFire, Cleared(x, d, sha, false, Firing([x], Marking)));
    done := done + [CloseFire];
    ss := LeadsOn(ss, done, Mark, Cleared(x, d, sha, true, Firing([], Opening)));
    done := done + [Mark];
    ss := LeadsOn(ss, done, FinishRun, Cleared(x, d, sha, true, Idle));
  }

  // Nothing in the way, an apply run takes the image out of every row and completes
  // its quarantine.
  lemma QuarantineCompletes(x: Image, d: Device, sha: string) returns (r: Run)
    ensures IsRun(r) && r.actions == CourseActions(x, d, sha)
    ensures var s := r.states[|r.actions|];
      IsQuarantined(s.images, x) && s.images[x].complete && x !in Row(s.rows, d) && s.apply.Idle?
  {
    var ss := Begins(x, d, sha);
    var actions := [Publish(x, sha), Assign(d, [x]), Verify(Mismatching(x), false)];
    ss := Sweeps(x, d, sha, ss, actions);
    actions := actions + [OpenFire(true)] + [ListRows] + [ReadRow(d)] + [FilterRow] + [FilterRow];
    ss := Closes(x, d, sha, ss, actions);
    actions := actions + [Unassign(false)] + [CloseFire] + [Mark] + [FinishRun];
    assert actions == CourseActions(x, d, sha);
    r := Run(ss, actions);
    forall i | 0 <= i < |r.actions| ensures Follows(r, i) {
    }
  }
}

// A quarantine that no number of apply runs can complete.
module QuarantineStuck {
  import opened Common
  import opened Quarantine
  import opened QuarantineRuns

  // What the run in flight holds of d's row still names g.
  predicate InHandNames(s: System, d: Device, g: Image) {
    s.apply.Firing? ==>
      match s.apply.stage
      case Read(_, _, e, row, kept) => e == d ==> g in row || g in kept
      case Ready(_, _, e, remaining) => e == d ==> g in remaining
      case _ => true
  }

  // d's row holds the quarantined x together with g, which the catalog has not.
  predicate Stuck(s: System, x: Image, d: Device, g: Image) {
    IsQuarantined(s.images, x) && x in Row(s.rows, d) && g in Row(s.rows, d) && g !in s.images && InHandNames(s, d, g)
  }

  // Somebody else steps in: the row is rewritten or dropped, g comes back, or x is
  // released, deleted or published anew.
  predicate StepsIn(a: Action, x: Image, d: Device, g: Image) {
    match a
    case Assign(e, _) => e == d
    case DropRow(e) => e == d
    case Publish(y, _) => y == g || y == x
    case Delete(y) => y == x
    case Release(y, _, _) => y == x
    case _ => false
  }

  lemma UnknownIsUnassignable(images: map<Image, Entry>, ids: seq<Image>, g: Image)
    requires g in ids && g !in images
    ensures !Assignable(images, ids)
  {
    var i :| 0 <= i < |ids| && ids[i] == g;
  }

  lemma OutsideKeepsStuck(s: System, a: Action, x: Image, d: Device, g: Image)
    requires Stuck(s, x, d, g) && !StepsIn(a, x, d, g)
    requires a.Publish? || a.Delete? || a.Assign? || a.DropRow? || a.Release?
    ensures Stuck(Outside(s, a), x, d, g)
  {
  }

  lemma FiredKeepsStuck(s: System, a: Action, x: Image, d: Device, g: Image)
    requires Stuck(s, x, d, g) && Enabled(s, a)
    requires a.OpenFire? || a.ListRows? || a.ReadRow? || a.FilterRow? || a.Unassign? || a.CloseFire? || a.Mark?
    ensures Stuck(Fired(s, a), x, d, g)
  {
    match a
    case FilterRow =>
    case Unassign(_) =>
      if s.apply.stage.d == d {
        UnknownIsUnassignable(s.images, s.apply.stage.remaining, g);
      }
    case OpenFire(_) =>
    case ListRows =>
    case ReadRow(_) =>
    case CloseFire =>
    case Mark =>
  }

  lemma StepKeepsStuck(s: System, a: Action, t: System, x: Image, d: Device, g: Image)
    requires Stuck(s, x, d, g) && Step(s, a, t) && !StepsIn(a, x, d, g)
    ensures Stuck(t, x, d, g)
  {
    match a
    case Publish(_, _) => OutsideKeepsStuck(s, a, x, d, g);
    case Delete(_) => OutsideKeepsStuck(s, a, x, d, g);
    case Assign(_, _) => OutsideKeepsStuck(s, a, x, d, g);
    case DropRow(_) => OutsideKeepsStuck(s, a, x, d, g);
    case Release(_, _, _) => OutsideKeepsStuck(s, a, x, d, g);
    case Verify(_, _) =>
    case FinishRun =>
    case Crash =>
    case _ => FiredKeepsStuck(s, a, x, d, g);
  }

  // However many apply runs come and go, the row keeps the image and its
  // quarantine stays incomplete until somebody else steps in.
  lemma {:induction false} StaysIncomplete(r: Run, i: nat, n: nat, x: Image, d: Device, g: Image)
    requires IsRun(r) && i <= n < |r.states| && Stuck(r.states[i], x, d, g)
    requires forall k :: i <= k < n ==> !StepsIn(r.actions[k], x, d, g)
    ensures Stuck(r.states[n], x, d, g) && !r.states[n].images[x].complete
    decreases n - i
  {
    if i < n {
      StaysIncomplete(r, i, n - 1, x, d, g);
      assert Follows(r, n - 1);
      StepKeepsStuck(r.states[n - 1], r.actions[n - 1], r.states[n], x, d, g);
    }
    if r.states[n].images[x].complete {
      QuarantineHoldsEverywhere(r, n, x, d);
    }
  }

  // The shortest way there: publish both images, assign both, delete one, and get
  // a mismatch on the other.
  lemma StuckIsReachable(x: Image, d: Device, g: Image, sha: string) returns (r: Run)
    requires x != g
    ensures IsRun(r) && |r.actions| == 5 && Stuck(r.states[5], x, d, g)
    ensures r.actions[2] == Assign(d, [x, g]) && r.actions[3] == Delete(g) && r.actions[4].Verify?
  {
    var v := map[x := Verdict(Mismatch, "", false)];
    var actions := [Publish(x, sha), Publish(g, sha), Assign(d, [x, g]), Delete(g), Verify(v, false)];
    var s0 := System(map[], map[], map[], Idle);
    var s1 := Outside(s0, actions[0]);
    var s2 := Outside(s1, actions[1]);
    var s3 := Outside(s2, actions[2]);
    BothAssigned(x, d, g, sha, s2);
    var s4 := Outside(s3, actions[3]);
    var s5 := MismatchFires(s4, x, v);
    r := Run([s0, s1, s2, s3, s4, s5], actions);
    assert Follows(r, 0) && Follows(r, 1) && Follows(r, 2) && Follows(r, 3) && Follows(r, 4);
  }

  lemma BothAssigned(x: Image, d: Device, g: Image, sha: string, s: System)
    requires x != g && s.rows == map[] && s.apply.Idle?
    requires s.images == map[x := Entry(sha, false, false, None, None), g := Entry(sha, false, false, None, None)]
    ensures Outside(s, Assign(d, [x, g])) == s.(rows := map[d := [x, g]])
    ensures Outside(s.(rows := map[d := [x, g]]), Delete(g)).images == map[x := Entry(sha, false, false, None, None)]
  {
  }

  lemma MismatchFires(s: System, x: Image, v: map<Image, Verdict>) returns (t: System)
    requires s.apply.Idle? && s.images.Keys == {x} && !s.images[x].quarantined
      && v == map[x := Verdict(Mismatch, "", false)]
    ensures Step(s, Verify(v, false), t) && t.rows == s.rows && t.apply == Firing([x], Opening)
    ensures t.images.Keys == {x} && IsQuarantined(t.images, x)
  {
    var u := VerifiedImages(s, Verify(v, false));
    assert u.images[x] == Judged(s.images[x], v[x]);
    assert Normal("") == "";
    assert IsQueue(u.images, [x]);
    t := u.(apply := Firing([x], Opening));
  }
}

// The catalog as its methods change it.
module QuarantineStore {
  import opened Common
  import opened Quarantine
  import opened QuarantineRuns
  import TextOrder

  datatype PolicyError = UnknownImage(x: Image) | Refused(x: Image) | WriteFailed

  class Catalog {
    var images: map<Image, Entry>
    var store: map<Image, Verdict>
    var rows: map<Device, seq<Image>>

    constructor ()
      ensures images == map[] && store == map[] && rows == map[]
    {
      images, store, rows := map[], map[], map[];
    }

    // The assignment gate; broken stands for a failing row write.
    method SetPolicy(d: Device, ids: seq<Image>, broken: bool) returns (failure: Option<PolicyError>)
      modifies this`rows
      ensures failure.None? <==> Assignable(images, ids) && !broken
      ensures rows == if failure.None? then old(rows)[d := ids] else old(rows)
      ensures failure.Some? && failure.value.Refused? ==>
        failure.value.x in ids && IsQuarantined(images, failure.value.x)
    {
      for i := 0 to |ids|
        invariant forall k :: 0 <= k < i ==> ids[k] in images && !images[ids[k]].quarantined
      {
        if ids[i] !in images {
          return Some(UnknownImage(ids[i]));
        }
        if images[ids[i]].quarantined {
          return Some(Refused(ids[i]));
        }
      }
      if broken {
        return Some(WriteFailed);
      }
      rows := rows[d := ids];
      failure := None;
    }

    // The locked part of an apply run.
    method WriteVerdicts(order: seq<Image>, verdicts: map<Image, Verdict>) returns (newly: seq<Image>)
      requires Distinct(order) && forall x :: x in order <==> x in verdicts
      modifies this`images, this`store
      ensures images == Applied(old(images), verdicts)
      ensures store == Recorded(old(store), old(images), verdicts)
      ensures VerdictsWritten(old(images), old(store), verdicts, images, store)
      ensures forall x :: x in newly <==> IsQuarantined(images, x) && !IsQuarantined(old(images), x)
    {
      AppliedIsWritten(images, store, verdicts);
      newly := JudgeAll(order, verdicts);
    }

    // One verdict after the other, in any order.
    method JudgeAll(order: seq<Image>, verdicts: map<Image, Verdict>) returns (newly: seq<Image>)
      requires Distinct(order) && forall x :: x in order <==> x in verdicts
      modifies this`images, this`store
      ensures images == Applied(old(images), verdicts)
      ensures store == Recorded(old(store), old(images), verdicts)
      ensures forall x :: x in newly <==> IsQuarantined(images, x) && !IsQuarantined(old(images), x)
    {
      ghost var was, had, done := images, store, map[];
      newly := [];
      for i := 0 to |order|
        invariant done.Keys <= verdicts.Keys && (forall x :: x in done ==> done[x] == verdicts[x])
        invariant forall k :: 0 <= k < |order| ==> (order[k] in done <==> k < i)
        invariant images == Applied(was, done) && store == Recorded(had, was, done)
        invariant forall x :: x in newly <==> IsQuarantined(images, x) && !IsQuarantined(was, x)
      {
        ghost var x := order[i];
        assert x in order;
        var isNew := Judge(order[i], verdicts[order[i]], was, had, done);
        done := done[x := verdicts[x]];
        if isNew {
          newly := newly + [order[i]];
        }
      }
      assert done == verdicts by {
        forall x | x in verdicts ensures x in done {
          var k :| 0 <= k < |order| && order[k] == x;
        }
      }
    }

    // One verdict; done are those before it.
    method Judge(x: Image, v: Verdict, ghost was: map<Image, Entry>, ghost had: map<Image, Verdict>,
                 ghost done: map<Image, Verdict>)
      returns (isNew: bool)
      requires x !in done && images == Applied(was, done) && store == Recorded(had, was, done)
      modifies this`images, this`store
      ensures images == Applied(was, done[x := v]) && store == Recorded(had, was, done[x := v])
      ensures isNew <==> IsQuarantined(images, x) && !IsQuarantined(was, x)
      ensures forall y :: y != x ==> (IsQuarantined(images, y) <==> IsQuarantined(old(images), y))
      ensures IsQuarantined(old(images), x) <==> IsQuarantined(was, x)
    {
      isNew := false;
      assert x in images ==> images[x] == was[x];
      if x in images {
        var judged := Judged(images[x], v);
        isNew := judged.quarantined && !images[x].quarantined;
        images := images[x := judged];
        store := store[x := v];
      }
      AppliedOneMore(was, done, x, v);
      RecordedOneMore(had, was, done, x, v);
    }

    // Stop seeding, then take the quarantined images out of every row that has this
    // one. True only if everything succeeded, and then no row has it, unless it was
    // released meanwhile. An image deleted meanwhile needs nothing. A row that also
    // names an image no longer in the catalog cannot be rewritten.
    method FireQuarantine(x: Image, seedOk: bool, order: seq<Device>, broken: set<Device>) returns (ok: bool)
      requires Distinct(order) && forall d :: d in order <==> d in Holders(rows, x)
      modifies this`rows
      ensures x !in images ==> ok && rows == old(rows)
      ensures x in images ==> (ok <==> seedOk && Removable(images, old(rows), x, broken))
      ensures x in images ==> rows == Swept(images, old(rows), {x}, broken)
      ensures ok && IsQuarantined(images, x) ==> HeldOnlyBy(rows, x, {})
    {
      if x !in images {
        return true;
      }
      ghost var before := rows;
      HoldersHaveRows(before, order, x);
      ok := seedOk;
      for i := 0 to |order|
        invariant rows.Keys == before.Keys
        invariant forall k :: i <= k < |order| ==> rows[order[k]] == before[order[k]]
        invariant forall k :: 0 <= k < i ==> rows[order[k]] == SweptRow(images, before, {x}, broken, order[k])
        invariant ok <==> seedOk && forall k :: 0 <= k < i ==> Clearable(images, before, broken, order[k])
        invariant ok && IsQuarantined(images, x) ==> forall k :: 0 <= k < i ==> x !in rows[order[k]]
        invariant forall d :: d in rows && d !in order ==> rows[d] == before[d]
      {
        ghost var held := rows;
        var done := UnassignRow(x, order[i], order[i] in broken);
        assert forall k :: 0 <= k < |order| && k != i ==> rows[order[k]] == held[order[k]];
        ok := ok && done;
      }
      ClearOf(before, order, x);
      SweptByRow(images, before, x, broken, order, rows);
    }

    // One device's row without its quarantined images.
    method UnassignRow(x: Image, d: Device, broken: bool) returns (ok: bool)
      requires d in rows
      modifies this`rows
      ensures ok <==> !broken && Rewritable(images, old(rows)[d])
      ensures rows == if ok then old(rows)[d := Unquarantined(images, old(rows)[d])] else old(rows)
      ensures ok && IsQuarantined(images, x) ==> x !in rows[d]
    {
      var remaining := Unquarantined(images, rows[d]);
      var failure := SetPolicy(d, remaining, broken);
      ok := failure.None?;
    }

    // The invariant every method keeps: a completed quarantine is clear.
    ghost predicate Clear()
      reads this
    {
      CompleteIsClear(System(images, store, rows, Idle))
    }

    // A no-op unless the image is still quarantined.
    method MarkComplete(x: Image)
      modifies this`images
      ensures images == if !IsQuarantined(old(images), x) then old(images)
                        else old(images)[x := old(images)[x].(complete := true)]
    {
      if x in images && images[x].quarantined {
        images := images[x := images[x].(complete := true)];
      }
    }

    // Fire one image's actions and mark them complete if all succeeded.
    method FireAndMark(x: Image, seedOk: bool, broken: set<Device>)
      requires Clear() && IsQuarantined(images, x)
      modifies this`images, this`rows
      ensures Clear() && rows == Swept(old(images), old(rows), {x}, broken)
      ensures images == if seedOk && Removable(old(images), old(rows), x, broken)
                        then old(images)[x := old(images)[x].(complete := true)] else old(images)
    {
      TextOrder.SortedAscends(Holders(rows, x));
      ghost var before := rows;
      var ok := FireQuarantine(x, seedOk, TextOrder.Sorted(Holders(rows, x)), broken);
      RowsShrink(images, store, before, {x}, broken);
      if ok {
        MarkComplete(x);
      }
    }

    // A whole apply run with nothing in between: the verdicts are written, then
    // every quarantine still open is acted on.
    method ApplyHashVerification(verdicts: map<Image, Verdict>, unseeded: set<Image>, broken: set<Device>)
      returns (queue: seq<Image>, newly: seq<Image>)
      requires Clear()
      modifies this
      ensures Clear()
      ensures store == Recorded(old(store), old(images), verdicts)
      ensures forall x :: x in queue <==> Open(Applied(old(images), verdicts), x)
      ensures Handled(Applied(old(images), verdicts), old(rows), queue, unseeded, broken, images, rows)
      ensures forall x :: x in queue ==>
        x in images
        && (images[x].complete <==>
              x !in unseeded && Removable(Applied(old(images), verdicts), old(rows), x, broken))
      ensures forall x :: x in newly <==> IsQuarantined(images, x) && !IsQuarantined(old(images), x)
    {
      TextOrder.SortedAscends(verdicts.Keys);
      newly := WriteVerdicts(TextOrder.Sorted(verdicts.Keys), verdicts);
      queue := TextOrder.Sorted(set x | x in images && Open(images, x));
      FireAll(queue, unseeded, broken);
    }

    // Every open quarantine in turn. Rows are swept for all of them, and an image ends
    // complete exactly if its seeding stopped and every row that held it at the start
    // could be rewritten, whichever images came before it.
    method FireAll(queue: seq<Image>, unseeded: set<Image>, broken: set<Device>)
      requires Clear() && forall x :: x in queue ==> IsQuarantined(images, x)
      modifies this`images, this`rows
      ensures Clear() && Handled(old(images), old(rows), queue, unseeded, broken, images, rows)
    {
      ghost var judged, before := images, rows;
      NothingHandled(judged, before, unseeded, broken);
      for i := 0 to |queue|
        invariant Clear()
        invariant Handled(judged, before, queue[..i], unseeded, broken, images, rows)
      {
        assert queue[i] in queue;
        HandledOneMore(judged, before, queue, i, unseeded, broken, images, rows);
        FireAndMark(queue[i], queue[i] !in unseeded, broken);
      }
      assert queue[..|queue|] == queue;
    }

    // Lift a quarantine, cleanly or by override.
    method ReleaseQuarantine(x: Image, override: bool) returns (failure: Option<ReleaseError>)
      modifies this`images, this`store
      ensures failure.None? <==> Releasing(old(images), old(store), x, override).Ok?
      ensures failure.Some? ==> failure.value == Releasing(old(images), old(store), x, override).error
      ensures failure.Some? ==> images == old(images) && store == old(store)
      ensures failure.None? ==>
        images == old(images)[x := Releasing(old(images), old(store), x, override).value]
        && store == ReleasedStore(old(images), old(store), x)
      ensures failure == ReleaseRefusal(old(images), old(store), x, override)
      ensures failure.None? ==> Released(old(images), old(store), x, images, store)
    {
      if x !in images {
        return Some(NoSuchImage);
      }
      var e := images[x];
      if !e.quarantined {
        return Some(NotQuarantined);
      }
      var feed := StoredFeed(store, x);
      var still := feed == "" || feed != Normal(e.sha512);
      if still && !override {
        return Some(StillMismatched);
      }
      e := e.(quarantined := false, complete := true);
      if still {
        e := e.(ack := Some(feed));
      } else {
        e := e.(ack := None, finding := Some(Verified));
        if x in store {
          store := store[x := store[x].(finding := Verified)];
        }
      }
      images := images[x := e];
      failure := None;
    }
  }

  // What a verdict leaves of an entry. It fires on a mismatch that is not deferred,
  // unless the image is quarantined already or this very hash was acknowledged.
  predicate JudgedAs(e: Entry, v: Verdict, t: Entry) {
    var fires := v.finding.Mismatch? && !v.deferral && !e.quarantined
                 && !(Normal(v.feed) != "" && e.ack == Some(Normal(v.feed)));
    && t.sha512 == e.sha512 && t.finding == Some(v.finding)
    && t.ack == (if v.finding.Verified? then None else e.ack)
    && t.quarantined == (e.quarantined || fires) && t.complete == (!fires && e.complete)
  }

  // Each verdict on an image of the catalog is applied to its entry and recorded;
  // nothing else changes.
  ghost predicate VerdictsWritten(images: map<Image, Entry>, store: map<Image, Verdict>, verdicts: map<Image, Verdict>,
                                  judged: map<Image, Entry>, recorded: map<Image, Verdict>)
  {
    && judged.Keys == images.Keys
    && (forall x :: x in images ==>
          if x in verdicts then JudgedAs(images[x], verdicts[x], judged[x]) else judged[x] == images[x])
    && recorded.Keys == store.Keys + (verdicts.Keys * images.Keys)
    && forall x :: x in recorded ==> recorded[x] == if x in verdicts && x in images then verdicts[x] else store[x]
  }

  lemma AppliedIsWritten(images: map<Image, Entry>, store: map<Image, Verdict>, verdicts: map<Image, Verdict>)
    ensures VerdictsWritten(images, store, verdicts, Applied(images, verdicts), Recorded(store, images, verdicts))
  {
  }

  // Why a release is refused, if it is.
  function ReleaseRefusal(images: map<Image, Entry>, store: map<Image, Verdict>, x: Image, override: bool)
    : Option<ReleaseError>
  {
    if x !in images then Some(NoSuchImage)
    else if !images[x].quarantined then Some(NotQuarantined)
    else if !override && !HashesAgree(images[x], RecordedFeed(store, x)) then Some(StillMismatched)
    else None
  }

  // What a release leaves: the image is free with nothing outstanding. If the hashes
  // agree it counts as verified, in the entry and in the record, and nothing is
  // acknowledged; if not, the feed's hash is acknowledged and the finding stands.
  predicate Released(images: map<Image, Entry>, store: map<Image, Verdict>, x: Image,
                     freed: map<Image, Entry>, recorded: map<Image, Verdict>)
  {
    && x in images && x in freed
    && freed == images[x := freed[x]] && freed[x].sha512 == images[x].sha512
    && !freed[x].quarantined && freed[x].complete
    && (if HashesAgree(images[x], RecordedFeed(store, x)) then
          freed[x].ack == None && freed[x].finding == Some(Verified)
          && recorded == (if x in store then store[x := store[x].(finding := Verified)] else store)
        else
          freed[x].ack == Some(Normal(RecordedFeed(store, x))) && freed[x].finding == images[x].finding
          && recorded == store)
  }

  // Quarantined with actions outstanding.
  predicate Open(images: map<Image, Entry>, x: Image) {
    IsQuarantined(images, x) && !images[x].complete
  }

  // Every image of the row that stays is still in the catalog.
  predicate Rewritable(images: map<Image, Entry>, row: seq<Image>) {
    Assignable(images, Unquarantined(images, row))
  }

  // The quarantined images can be taken out of d's row.
  predicate Clearable(images: map<Image, Entry>, rows: map<Device, seq<Image>>, broken: set<Device>, d: Device)
    requires d in rows
  {
    d !in broken && Rewritable(images, rows[d])
  }

  // x can be taken out of every row.
  predicate Removable(images: map<Image, Entry>, rows: map<Device, seq<Image>>, x: Image, broken: set<Device>) {
    forall d :: d in Holders(rows, x) ==> Clearable(images, rows, broken, d)
  }

  predicate HitBy(row: seq<Image>, hit: set<Image>) {
    exists x :: x in row && x in hit
  }

  function SweptRow(images: map<Image, Entry>, rows: map<Device, seq<Image>>, hit: set<Image>, broken: set<Device>,
                    d: Device): seq<Image>
    requires d in rows
  {
    if HitBy(rows[d], hit) && Clearable(images, rows, broken, d) then Unquarantined(images, rows[d]) else rows[d]
  }

  // The rows after the actions of the images in hit: every row that held one of them
  // lost all its quarantined images, if it could be rewritten.
  function Swept(images: map<Image, Entry>, rows: map<Device, seq<Image>>, hit: set<Image>, broken: set<Device>)
    : map<Device, seq<Image>>
  {
    map d | d in rows :: SweptRow(images, rows, hit, broken, d)
  }

  // The entries after them: those whose actions all succeeded are complete.
  function Completed(images: map<Image, Entry>, rows: map<Device, seq<Image>>, hit: set<Image>,
                     unseeded: set<Image>, broken: set<Device>): map<Image, Entry>
  {
    map x | x in images ::
      if x in hit && x !in unseeded && Removable(images, rows, x, broken) then images[x].(complete := true)
      else images[x]
  }

  function Members(queue: seq<Image>): set<Image> {
    set x | x in queue
  }

  lemma MembersOneMore(queue: seq<Image>, i: nat)
    requires i < |queue|
    ensures Members(queue[..i + 1]) == Members(queue[..i]) + {queue[i]}
  {
    assert queue[..i + 1] == queue[..i] + [queue[i]];
  }

  // What an apply run has made of images and rows after the images of queue.
  predicate Handled(judged: map<Image, Entry>, before: map<Device, seq<Image>>, queue: seq<Image>,
                    unseeded: set<Image>, broken: set<Device>, images: map<Image, Entry>, rows: map<Device, seq<Image>>)
  {
    var hit := Members(queue);
    images == Completed(judged, before, hit, unseeded, broken) && rows == Swept(judged, before, hit, broken)
  }

  lemma NothingHandled(images: map<Image, Entry>, rows: map<Device, seq<Image>>, unseeded: set<Image>,
                     broken: set<Device>)
    ensures Handled(images, rows, [], unseeded, broken, images, rows)
  {
  }

  // Entries that differ only in what is complete.
  predicate SameMarks(a: map<Image, Entry>, b: map<Image, Entry>) {
    a.Keys == b.Keys && forall x :: x in a ==> a[x].quarantined == b[x].quarantined
  }

  lemma {:induction false} SameUnquarantined(a: map<Image, Entry>, b: map<Image, Entry>, ids: seq<Image>)
    requires SameMarks(a, b)
    ensures Unquarantined(a, ids) == Unquarantined(b, ids) && (Rewritable(a, ids) <==> Rewritable(b, ids))
  {
    if ids != [] {
      SameUnquarantined(a, b, ids[1..]);
    }
  }

  lemma {:induction false} NoneQuarantinedLeft(images: map<Image, Entry>, ids: seq<Image>, x: Image)
    requires IsQuarantined(images, x)
    ensures x !in Unquarantined(images, ids)
  {
    if ids != [] {
      NoneQuarantinedLeft(images, ids[1..], x);
    }
  }

  // A row swept before holds x still only if it was left alone.
  lemma SweptRowAgain(images: map<Image, Entry>, rows: map<Device, seq<Image>>, hit: set<Image>, broken: set<Device>,
                      x: Image, d: Device)
    requires IsQuarantined(images, x) && d in rows
    ensures var swept := Swept(images, rows, hit, broken);
      SweptRow(images, swept, {x}, broken, d) == SweptRow(images, rows, hit + {x}, broken, d)
      && (x in swept[d] ==> swept[d] == rows[d])
      && (swept[d] != rows[d] ==> Clearable(images, rows, broken, d))
  {
    NoneQuarantinedLeft(images, rows[d], x);
  }

  lemma SweptAgain(images: map<Image, Entry>, rows: map<Device, seq<Image>>, hit: set<Image>, broken: set<Device>,
                   x: Image)
    requires IsQuarantined(images, x)
    ensures Swept(images, Swept(images, rows, hit, broken), {x}, broken) == Swept(images, rows, hit + {x}, broken)
  {
    var swept := Swept(images, rows, hit, broken);
    forall d | d in rows
      ensures SweptRow(images, swept, {x}, broken, d) == SweptRow(images, rows, hit + {x}, broken, d)
    {
      SweptRowAgain(images, rows, hit, broken, x, d);
    }
  }

  lemma StillRemovable(images: map<Image, Entry>, rows: map<Device, seq<Image>>, hit: set<Image>, broken: set<Device>,
                       x: Image)
    requires IsQuarantined(images, x)
    ensures Removable(images, Swept(images, rows, hit, broken), x, broken) <==> Removable(images, rows, x, broken)
  {
    var swept := Swept(images, rows, hit, broken);
    forall d | d in rows
      ensures d in Holders(swept, x) ==> d in Holders(rows, x) && swept[d] == rows[d]
      ensures d in Holders(rows, x) && d !in Holders(swept, x) ==> Clearable(images, rows, broken, d)
    {
      SweptRowAgain(images, rows, hit, broken, x, d);
    }
  }

  lemma SameSwept(a: map<Image, Entry>, b: map<Image, Entry>, rows: map<Device, seq<Image>>, hit: set<Image>,
                  broken: set<Device>)
    requires SameMarks(a, b)
    ensures Swept(a, rows, hit, broken) == Swept(b, rows, hit, broken)
    ensures forall x :: Removable(a, rows, x, broken) <==> Removable(b, rows, x, broken)
  {
    forall d | d in rows
      ensures SweptRow(a, rows, hit, broken, d) == SweptRow(b, rows, hit, broken, d)
      ensures Clearable(a, rows, broken, d) <==> Clearable(b, rows, broken, d)
    {
      SameUnquarantined(a, b, rows[d]);
    }
  }

  // One image more: its actions find the rows as swept for those before it, and
  // succeed exactly if they would have on the rows as they were.
  lemma HandledOneMore(judged: map<Image, Entry>, before: map<Device, seq<Image>>, queue: seq<Image>, i: nat,
                       unseeded: set<Image>, broken: set<Device>,
                       images: map<Image, Entry>, rows: map<Device, seq<Image>>)
    requires i < |queue| && IsQuarantined(judged, queue[i])
    requires Handled(judged, before, queue[..i], unseeded, broken, images, rows)
    ensures var x := queue[i];
      IsQuarantined(images, x)
      && Handled(judged, before, queue[..i + 1], unseeded, broken,
                 if x !in unseeded && Removable(images, rows, x, broken)
                 then images[x := images[x].(complete := true)] else images,
                 Swept(images, rows, {x}, broken))
  {
    var x, hit := queue[i], Members(queue[..i]);
    MembersOneMore(queue, i);
    SameSwept(images, judged, rows, {x}, broken);
    SweptAgain(judged, before, hit, broken, x);
    StillRemovable(judged, before, hit, broken, x);
  }

  // The rows a sweep has been through one by one are the swept rows.
  lemma SweptByRow(images: map<Image, Entry>, before: map<Device, seq<Image>>, x: Image, broken: set<Device>,
                   order: seq<Device>, rows: map<Device, seq<Image>>)
    requires forall d :: d in order <==> d in Holders(before, x)
    requires rows.Keys == before.Keys && forall d :: d in rows && d !in order ==> rows[d] == before[d]
    requires forall k :: 0 <= k < |order| ==>
      order[k] in before && rows[order[k]] == SweptRow(images, before, {x}, broken, order[k])
    ensures rows == Swept(images, before, {x}, broken)
  {
    forall d | d in rows ensures rows[d] == SweptRow(images, before, {x}, broken, d) {
      if d in order {
        var k :| 0 <= k < |order| && order[k] == d;
      } else {
        assert !HitBy(before[d], {x});
      }
    }
  }

  lemma {:induction false} UnquarantinedWithin(images: map<Image, Entry>, ids: seq<Image>)
    ensures forall x :: x in Unquarantined(images, ids) ==> x in ids
  {
    if ids != [] {
      UnquarantinedWithin(images, ids[1..]);
    }
  }

  // Taking images out of rows gives no image to anyone.
  lemma RowsShrink(images: map<Image, Entry>, store: map<Image, Verdict>, before: map<Device, seq<Image>>,
                   hit: set<Image>, broken: set<Device>)
    requires CompleteIsClear(System(images, store, before, Idle))
    ensures CompleteIsClear(System(images, store, Swept(images, before, hit, broken), Idle))
  {
    var after := Swept(images, before, hit, broken);
    forall x | x in images && images[x].quarantined && images[x].complete ensures HeldOnlyBy(after, x, {}) {
      assert HeldOnlyBy(before, x, {});
      forall d | d in after ensures x !in after[d] {
        UnquarantinedWithin(images, before[d]);
      }
    }
  }

  lemma AppliedOneMore(was: map<Image, Entry>, done: map<Image, Verdict>, x: Image, v: Verdict)
    requires x !in done
    ensures Applied(was, done[x := v])
         == if x in was then Applied(was, done)[x := Judged(was[x], v)] else Applied(was, done)
  {
  }

  lemma RecordedOneMore(had: map<Image, Verdict>, was: map<Image, Entry>, done: map<Image, Verdict>, x: Image,
                        v: Verdict)
    ensures Recorded(had, was, done[x := v])
         == if x in was then Recorded(had, was, done)[x := v] else Recorded(had, was, done)
  {
    var a, b := Recorded(had, was, done[x := v]), Recorded(had, was, done);
    assert a.Keys == if x in was then b.Keys + {x} else b.Keys;
  }

  lemma HoldersHaveRows(rows: map<Device, seq<Image>>, order: seq<Device>, x: Image)
    requires forall d :: d in order <==> d in Holders(rows, x)
    ensures forall k :: 0 <= k < |order| ==> order[k] in rows && x in rows[order[k]]
  {
    forall k | 0 <= k < |order| ensures order[k] in rows && x in rows[order[k]] {
      assert order[k] in order;
      assert order[k] in Holders(rows, x);
    }
  }

  lemma ClearOf(rows: map<Device, seq<Image>>, order: seq<Device>, x: Image)
    requires forall d :: d in order <==> d in Holders(rows, x)
    ensures forall d :: d in rows && x in rows[d] ==> exists k :: 0 <= k < |order| && order[k] == d
  {
    forall d | d in rows && x in rows[d] ensures exists k :: 0 <= k < |order| && order[k] == d {
      assert d in Holders(rows, x);
    }
  }
}
