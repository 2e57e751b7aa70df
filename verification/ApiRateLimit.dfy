// The console API's aggregate limiter: a read, a write and a total bucket, with
// all-or-nothing admission under one lock and whatever the clock reads.
module ApiRateLimit {
  import opened Common

  // rate 0 disables a bucket; updated is the timestamp recorded last.
  datatype Bucket = Bucket(rate: real, capacity: nat, tokens: real, updated: Option<real>)

  datatype Kind = Read | Write

  datatype Limiter = Limiter(read: Bucket, write: Bucket, total: Bucket)

  predicate BucketOk(b: Bucket) {
    b.rate >= 0.0 && 1 <= b.capacity <= 1000 && 0.0 <= b.tokens <= b.capacity as real
  }

  predicate LimiterOk(l: Limiter) {
    BucketOk(l.read) && BucketOk(l.write) && BucketOk(l.total)
  }

  function Selected(l: Limiter, kind: Kind): Bucket {
    if kind.Read? then l.read else l.write
  }

  function WithSelected(l: Limiter, kind: Kind, b: Bucket): Limiter {
    if kind.Read? then l.(read := b) else l.(write := b)
  }

  function Later(x: real, y: Option<real>): (r: real)
    ensures r >= x && (y.Some? ==> r >= y.value)
  {
    if y.Some? && y.value > x then y.value else x
  }

  // The reading used: never behind a selected bucket's timestamp.
  function Now(l: Limiter, kind: Kind, clock: real): real {
    Later(Later(clock, Selected(l, kind).updated), l.total.updated)
  }

  function Refilled(b: Bucket, now: real): Bucket {
    if b.rate <= 0.0 then b
    else if b.updated.None? then b.(updated := Some(now))
    else
      var elapsed := if now > b.updated.value then now - b.updated.value else 0.0;
      b.(tokens := RealMin(b.capacity as real, b.tokens + elapsed * b.rate), updated := Some(now))
  }

  predicate Short(b: Bucket) {
    b.rate > 0.0 && b.tokens < 1.0
  }

  function Wait(b: Bucket): real
    requires Short(b)
  {
    (1.0 - b.tokens) / b.rate
  }

  function Debited(b: Bucket): Bucket {
    if b.rate > 0.0 then b.(tokens := b.tokens - 1.0) else b
  }

  function LongestWait(a: Bucket, b: Bucket): real
    requires Short(a) || Short(b)
  {
    if !Short(b) then Wait(a) else if !Short(a) then Wait(b)
    else if Wait(a) >= Wait(b) then Wait(a) else Wait(b)
  }

  datatype Answer = Answer(allowed: bool, retryAfter: int)

  function Admit(l: Limiter, kind: Kind, clock: real): (Limiter, Answer) {
    var now := Now(l, kind, clock);
    var own, total := Refilled(Selected(l, kind), now), Refilled(l.total, now);
    if Short(own) || Short(total) then
      var wait := Ceiling(LongestWait(own, total));
      (WithSelected(l, kind, own).(total := total), Answer(false, if wait < 1 then 1 else wait))
    else (WithSelected(l, kind, Debited(own)).(total := Debited(total)), Answer(true, 0))
  }

  // ----- runs -----

  datatype Call = Call(kind: Kind, clock: real)

  // The limiter before call n.
  function After(l: Limiter, calls: seq<Call>, n: nat): Limiter
    requires n <= |calls|
  {
    if n == 0 then l
    else Admit(After(l, calls, n - 1), calls[n - 1].kind, calls[n - 1].clock).0
  }

  function Allowed(l: Limiter, calls: seq<Call>, n: nat): bool
    requires n < |calls|
  {
    Admit(After(l, calls, n), calls[n].kind, calls[n].clock).1.allowed
  }

  // Which bucket we look at.
  datatype Which = Own(kind: Kind) | Total

  function Look(l: Limiter, w: Which): Bucket {
    match w
    case Own(kind) => Selected(l, kind)
    case Total => l.total
  }

  predicate Uses(w: Which, c: Call) {
    w.Total? || w.kind == c.kind
  }

  lemma AdmitKeepsOk(l: Limiter, kind: Kind, clock: real)
    requires LimiterOk(l)
    ensures LimiterOk(Admit(l, kind, clock).0)
  {
    var now := Now(l, kind, clock);
    RefilledOk(Selected(l, kind), now);
    RefilledOk(l.total, now);
  }

  lemma RefilledOk(b: Bucket, now: real)
    requires BucketOk(b)
    ensures BucketOk(Refilled(b, now)) && Refilled(b, now).tokens >= b.tokens
  {
    if b.rate > 0.0 && b.updated.Some? && now > b.updated.value {
      Times(now - b.updated.value, b.rate);
    }
  }

  lemma Times(x: real, y: real)
    requires x >= 0.0 && y >= 0.0
    ensures x * y >= 0.0
  {
  }

  // What a call does to a bucket: if it uses it, the timestamp does not go back,
  // the bucket gains what the rate allows for the recorded time, up to its
  // capacity, and loses one token exactly if the call is admitted.
  datatype Beat = Beat(used: bool, allowed: bool)

  predicate Gains(b: Bucket, a: Bucket, paid: real) {
    a.updated.Some?
    && (b.updated.None? ==> a.tokens + paid == b.tokens)
    && (b.updated.Some? ==>
          a.updated.value >= b.updated.value
          && a.tokens + paid == RealMin(b.capacity as real, b.tokens + (a.updated.value - b.updated.value) * b.rate))
  }

  predicate BucketStep(b: Bucket, a: Bucket, k: Beat) {
    a.rate == b.rate && a.capacity == b.capacity
    && if k.used then Gains(b, a, if k.allowed then 1.0 else 0.0) else a == b
  }

  lemma RefillGains(b: Bucket, now: real)
    requires b.rate > 0.0 && (b.updated.Some? ==> now >= b.updated.value)
    ensures Gains(b, Refilled(b, now), 0.0) && Gains(b, Debited(Refilled(b, now)), 1.0)
  {
  }

  lemma AdmitStep(l: Limiter, c: Call, w: Which)
    requires Look(l, w).rate > 0.0
    ensures BucketStep(Look(l, w), Look(Admit(l, c.kind, c.clock).0, w),
      Beat(Uses(w, c), Admit(l, c.kind, c.clock).1.allowed))
  {
    if Uses(w, c) {
      RefillGains(Look(l, w), Now(l, c.kind, c.clock));
    }
  }

  // One bucket's history: bs[k] before beat k.
  predicate History(bs: seq<Bucket>, ks: seq<Beat>) {
    |bs| == |ks| + 1
    && (forall k :: 0 <= k < |bs| ==> BucketOk(bs[k]) && bs[k].rate > 0.0)
    && forall k :: 0 <= k < |ks| ==> BucketStep(bs[k], bs[k + 1], ks[k])
  }

  // Admissions charged to the bucket by beats i to n - 1.
  function Admissions(ks: seq<Beat>, i: nat, n: nat): nat
    requires i <= n <= |ks|
    decreases n - i
  {
    if n == i then 0 else Admissions(ks, i, n - 1) + if ks[n - 1].used && ks[n - 1].allowed then 1 else 0
  }

  lemma Distribute(r: real, c: real, b: real, a: real)
    ensures r * (c - a) == (c - b) * r + r * (b - a)
  {
  }

  predicate Bounded(first: Bucket, last: Bucket, admitted: nat) {
    first.updated.Some? && last.updated.Some? && last.rate == first.rate && last.capacity == first.capacity
    && admitted as real + last.tokens <= last.capacity as real + last.rate * (last.updated.value - first.updated.value)
  }

  lemma BoundedStep(first: Bucket, mid: Bucket, last: Bucket, k: Beat, admitted: nat)
    requires Bounded(first, mid, admitted) && BucketStep(mid, last, k)
    ensures Bounded(first, last, admitted + if k.used && k.allowed then 1 else 0)
  {
    if k.used {
      Distribute(last.rate, last.updated.value, mid.updated.value, first.updated.value);
    }
  }

  // From any use of the bucket on, it admits at most its capacity plus the rate
  // times the difference of the recorded timestamps, less what it still holds.
  lemma {:induction false} HistoryBounded(bs: seq<Bucket>, ks: seq<Beat>, i: nat, n: nat)
    requires History(bs, ks) && i < n <= |ks| && ks[i].used
    ensures Bounded(bs[i + 1], bs[n], Admissions(ks, i, n))
    decreases n
  {
    assert BucketStep(bs[n - 1], bs[n - 1 + 1], ks[n - 1]);
    if n == i + 1 {
      assert Admissions(ks, i, i) == 0;
    } else {
      HistoryBounded(bs, ks, i, n - 1);
      BoundedStep(bs[i + 1], bs[n - 1], bs[n], ks[n - 1], Admissions(ks, i, n - 1));
    }
  }

  function Buckets(l: Limiter, calls: seq<Call>, w: Which): (bs: seq<Bucket>)
    ensures |bs| == |calls| + 1 && forall k :: 0 <= k <= |calls| ==> bs[k] == Look(After(l, calls, k), w)
  {
    seq(|calls| + 1, k requires 0 <= k <= |calls| => Look(After(l, calls, k), w))
  }

  function Beats(l: Limiter, calls: seq<Call>, w: Which): (ks: seq<Beat>)
    ensures |ks| == |calls| && forall k :: 0 <= k < |calls| ==> ks[k] == Beat(Uses(w, calls[k]), Allowed(l, calls, k))
  {
    seq(|calls|, k requires 0 <= k < |calls| => Beat(Uses(w, calls[k]), Allowed(l, calls, k)))
  }

  lemma {:induction false} RateStays(l: Limiter, calls: seq<Call>, w: Which, n: nat)
    requires LimiterOk(l) && Look(l, w).rate > 0.0 && n <= |calls|
    ensures LimiterOk(After(l, calls, n))
    ensures Look(After(l, calls, n), w).rate == Look(l, w).rate
      && Look(After(l, calls, n), w).capacity == Look(l, w).capacity
  {
    if n > 0 {
      RateStays(l, calls, w, n - 1);
      AdmitKeepsOk(After(l, calls, n - 1), calls[n - 1].kind, calls[n - 1].clock);
      AdmitStep(After(l, calls, n - 1), calls[n - 1], w);
    }
  }

  lemma RunIsHistory(l: Limiter, calls: seq<Call>, w: Which)
    requires LimiterOk(l) && Look(l, w).rate > 0.0
    ensures History(Buckets(l, calls, w), Beats(l, calls, w))
  {
    var bs, ks := Buckets(l, calls, w), Beats(l, calls, w);
    forall k | 0 <= k < |bs| ensures BucketOk(bs[k]) && bs[k].rate > 0.0 {
      RateStays(l, calls, w, k);
    }
    forall k | 0 <= k < |ks| ensures BucketStep(bs[k], bs[k + 1], ks[k]) {
      RateStays(l, calls, w, k);
      AdmitStep(After(l, calls, k), calls[k], w);
    }
  }

  // At most burst plus rate times the recorded time between two states of a bucket.
  predicate WithinBudget(b: Bucket, first: Bucket, last: Bucket, admitted: nat) {
    first.updated.Some? && last.updated.Some?
    && admitted as real <= b.capacity as real + b.rate * (last.updated.value - first.updated.value)
  }

  lemma BoundedIsWithinBudget(b: Bucket, first: Bucket, last: Bucket, admitted: nat)
    requires Bounded(first, last, admitted) && last.tokens >= 0.0 && last.rate == b.rate && last.capacity == b.capacity
    ensures WithinBudget(b, first, last, admitted)
  {
  }

  // Whatever the clock reads: between any two of its calls an enabled bucket
  // admits at most burst plus rate times the difference of the timestamps those
  // calls recorded.
  lemma BurstPlusRate(l: Limiter, calls: seq<Call>, w: Which, i: nat, n: nat)
    requires LimiterOk(l) && Look(l, w).rate > 0.0 && i < n <= |calls| && Uses(w, calls[i])
    ensures WithinBudget(Look(l, w), Buckets(l, calls, w)[i + 1], Buckets(l, calls, w)[n],
                         Admissions(Beats(l, calls, w), i, n))
  {
    RunIsHistory(l, calls, w);
    RateStays(l, calls, w, n);
    HistoryWithinBudget(Look(l, w), Buckets(l, calls, w), Beats(l, calls, w), i, n);
  }

  lemma HistoryWithinBudget(b: Bucket, bs: seq<Bucket>, ks: seq<Beat>, i: nat, n: nat)
    requires History(bs, ks) && i < n <= |ks| && ks[i].used && bs[n].rate == b.rate && bs[n].capacity == b.capacity
    ensures WithinBudget(b, bs[i + 1], bs[n], Admissions(ks, i, n))
  {
    HistoryBounded(bs, ks, i, n);
    BoundedIsWithinBudget(b, bs[i + 1], bs[n], Admissions(ks, i, n));
  }

  // ----- refusals -----

  // A refused call takes nothing from either bucket, and says no to a bucket that
  // really is short.
  lemma RefusalDebitsNothing(l: Limiter, kind: Kind, clock: real)
    requires LimiterOk(l) && !Admit(l, kind, clock).1.allowed
    ensures var after := Admit(l, kind, clock).0;
      Selected(after, kind).tokens >= Selected(l, kind).tokens && after.total.tokens >= l.total.tokens
      && (Short(Selected(after, kind)) || Short(after.total))
  {
    var now := Now(l, kind, clock);
    RefilledOk(Selected(l, kind), now);
    RefilledOk(l.total, now);
  }

  lemma WaitFills(b: Bucket, now: real, later: real)
    requires BucketOk(b) && b.rate > 0.0 && b.updated == Some(now) && later >= now
    requires Short(b) ==> later >= now + Wait(b)
    ensures !Short(Refilled(b, later))
  {
    RefilledOk(b, later);
    if Short(b) {
      var x, y := Wait(b), later - now;
      assert x * b.rate == 1.0 - b.tokens;
      Times(y - x, b.rate);
      assert y * b.rate == (y - x) * b.rate + x * b.rate;
    }
  }

  lemma StaysEnough(b: Bucket, later: real)
    requires BucketOk(b) && b.rate <= 0.0
    ensures !Short(Refilled(b, later))
  {
  }

  // A retry made retry_after past the recorded timestamp, with nothing in
  // between, is admitted.
  lemma RetryIsAdmitted(l: Limiter, kind: Kind, clock: real, later: real)
    requires LimiterOk(l) && !Admit(l, kind, clock).1.allowed
    requires later >= Now(l, kind, clock) + Admit(l, kind, clock).1.retryAfter as real
    ensures Admit(Admit(l, kind, clock).0, kind, later).1.allowed
  {
    var now, after := Now(l, kind, clock), Admit(l, kind, clock).0;
    AdmitKeepsOk(l, kind, clock);
    var own, total := Selected(after, kind), after.total;
    var retryTime := Now(after, kind, later);
    assert Short(own) ==> Wait(own) <= LongestWait(own, total);
    assert Short(total) ==> Wait(total) <= LongestWait(own, total);
    if own.rate > 0.0 {
      WaitFills(own, now, retryTime);
    } else {
      StaysEnough(own, retryTime);
    }
    if total.rate > 0.0 {
      WaitFills(total, now, retryTime);
    } else {
      StaysEnough(total, retryTime);
    }
  }

  // ----- the limiter as it runs -----

  // A full bucket, or None for a configuration that is rejected.
  function NewBucket(rate: real, burst: int): (r: Option<Bucket>)
    ensures r.Some? <==> rate >= 0.0 && 1 <= burst <= 1000
    ensures r.Some? ==> BucketOk(r.value) && r.value.tokens == burst as real && r.value.updated.None?
  {
    if rate >= 0.0 && 1 <= burst <= 1000 then Some(Bucket(rate, burst, burst as real, None)) else None
  }

  function Other(kind: Kind): Kind {
    if kind.Read? then Write else Read
  }

  // ----- one call, in its own words -----

  // The clock as the call takes it: never behind what a selected bucket recorded.
  predicate TakenAt(l: Limiter, kind: Kind, clock: real, now: real) {
    var a, b := Selected(l, kind).updated, l.total.updated;
    && now >= clock && (a.Some? ==> now >= a.value) && (b.Some? ==> now >= b.value)
    && (now == clock || a == Some(now) || b == Some(now))
  }

  // What a bucket holds at a time: what it held, and its rate since, up to its
  // capacity. One that was never used holds what it started with.
  function HeldAt(b: Bucket, now: real): real {
    if b.updated.None? then b.tokens
    else if b.tokens + (now - b.updated.value) * b.rate <= b.capacity as real
    then b.tokens + (now - b.updated.value) * b.rate
    else b.capacity as real
  }

  // A bucket that is switched off has always enough.
  predicate Enough(b: Bucket, now: real) {
    b.rate > 0.0 ==> HeldAt(b, now) >= 1.0
  }

  // The bucket after the call: filled up, and one token less if the call was let in.
  predicate Filled(b: Bucket, a: Bucket, now: real, spent: real) {
    if b.rate > 0.0 then a == b.(tokens := HeldAt(b, now) - spent, updated := Some(now)) else a == b
  }

  // Seconds after which both buckets would have a token, nothing else happening.
  predicate Suffices(own: Bucket, total: Bucket, now: real, seconds: int) {
    (own.rate > 0.0 ==> HeldAt(own, now) + seconds as real * own.rate >= 1.0)
    && (total.rate > 0.0 ==> HeldAt(total, now) + seconds as real * total.rate >= 1.0)
  }

  // A call is let in exactly if both its buckets have a token, and then both pay one.
  // Otherwise neither does, and the wait it is told is the shortest in whole seconds,
  // but at least one. The third bucket is not touched.
  predicate Answered(l: Limiter, kind: Kind, now: real, after: Limiter, allowed: bool, retryAfter: int) {
    var own, total := Selected(l, kind), l.total;
    && LimiterOk(after) && Selected(after, Other(kind)) == Selected(l, Other(kind))
    && (allowed <==> Enough(own, now) && Enough(total, now))
    && Filled(own, Selected(after, kind), now, if allowed then 1.0 else 0.0)
    && Filled(total, after.total, now, if allowed then 1.0 else 0.0)
    && (if allowed then retryAfter == 0
        else retryAfter >= 1 && Suffices(own, total, now, retryAfter)
             && (retryAfter > 1 ==> !Suffices(own, total, now, retryAfter - 1)))
  }

  lemma NowIsTaken(l: Limiter, kind: Kind, clock: real)
    ensures TakenAt(l, kind, clock, Now(l, kind, clock))
  {
  }

  lemma RefilledHolds(b: Bucket, now: real)
    requires BucketOk(b) && (b.updated.Some? ==> now >= b.updated.value)
    ensures Filled(b, Refilled(b, now), now, 0.0) && (Short(Refilled(b, now)) <==> !Enough(b, now))
  {
    RefilledOk(b, now);
  }

  lemma TimesRate(a: real, b: real, rate: real)
    requires rate > 0.0
    ensures a >= b <==> a * rate >= b * rate
  {
    if a >= b {
      assert (a - b) * rate >= 0.0;
    } else {
      assert (b - a) * rate > 0.0;
    }
  }

  // The wait of a short bucket is exactly what it lacks at its rate.
  lemma WaitIsExact(b: Bucket, seconds: real)
    requires Short(b)
    ensures seconds >= Wait(b) <==> b.tokens + seconds * b.rate >= 1.0
  {
    var wait := Wait(b);
    assert wait * b.rate == 1.0 - b.tokens;
    TimesRate(seconds, wait, b.rate);
  }

  lemma EnoughSuffices(b: Bucket, seconds: int)
    requires BucketOk(b) && !Short(b) && seconds >= 0
    ensures b.rate > 0.0 ==> b.tokens + seconds as real * b.rate >= 1.0
  {
    Times(seconds as real, b.rate);
  }

  // The wait told suffices and one second less does not.
  lemma WaitIsLeast(own: Bucket, total: Bucket, seconds: int)
    requires BucketOk(own) && BucketOk(total) && (Short(own) || Short(total)) && seconds >= 0
    ensures seconds as real >= LongestWait(own, total) <==>
      (own.rate > 0.0 ==> own.tokens + seconds as real * own.rate >= 1.0)
      && (total.rate > 0.0 ==> total.tokens + seconds as real * total.rate >= 1.0)
  {
    if Short(own) {
      WaitIsExact(own, seconds as real);
    } else {
      EnoughSuffices(own, seconds);
    }
    if Short(total) {
      WaitIsExact(total, seconds as real);
    } else {
      EnoughSuffices(total, seconds);
    }
  }

  function ToldWait(own: Bucket, total: Bucket): int
    requires Short(own) || Short(total)
  {
    var wait := Ceiling(LongestWait(own, total));
    if wait < 1 then 1 else wait
  }

  lemma WaitAnswers(a: Bucket, b: Bucket, own: Bucket, total: Bucket, now: real)
    requires Filled(a, own, now, 0.0) && Filled(b, total, now, 0.0) && BucketOk(own) && BucketOk(total)
    requires Short(own) || Short(total)
    ensures var w := ToldWait(own, total);
      w >= 1 && Suffices(a, b, now, w) && (w > 1 ==> !Suffices(a, b, now, w - 1))
  {
    var w := ToldWait(own, total);
    WaitIsLeast(own, total, w);
    WaitIsLeast(own, total, w - 1);
    SufficesAs(a, b, own, total, now, w);
    SufficesAs(a, b, own, total, now, w - 1);
  }

  lemma SufficesAs(a: Bucket, b: Bucket, own: Bucket, total: Bucket, now: real, seconds: int)
    requires Filled(a, own, now, 0.0) && Filled(b, total, now, 0.0)
    ensures Suffices(a, b, now, seconds) <==>
      (own.rate > 0.0 ==> own.tokens + seconds as real * own.rate >= 1.0)
      && (total.rate > 0.0 ==> total.tokens + seconds as real * total.rate >= 1.0)
  {
  }

  lemma SpentFills(b: Bucket, now: real)
    requires Filled(b, Refilled(b, now), now, 0.0)
    ensures Filled(b, Debited(Refilled(b, now)), now, 1.0)
  {
  }

  lemma AdmitIs(l: Limiter, kind: Kind, clock: real)
    ensures var now := Now(l, kind, clock);
      var own, total := Refilled(Selected(l, kind), now), Refilled(l.total, now);
      var (after, answer) := Admit(l, kind, clock);
      if Short(own) || Short(total) then
        !answer.allowed && answer.retryAfter == ToldWait(own, total)
        && Selected(after, kind) == own && after.total == total
        && Selected(after, Other(kind)) == Selected(l, Other(kind))
      else
        answer.allowed && answer.retryAfter == 0
        && Selected(after, kind) == Debited(own) && after.total == Debited(total)
        && Selected(after, Other(kind)) == Selected(l, Other(kind))
  {
  }

  lemma AdmitAnswers(l: Limiter, kind: Kind, clock: real)
    requires LimiterOk(l)
    ensures var (after, answer) := Admit(l, kind, clock);
      Answered(l, kind, Now(l, kind, clock), after, answer.allowed, answer.retryAfter)
  {
    var now := Now(l, kind, clock);
    AdmitKeepsOk(l, kind, clock);
    NowIsTaken(l, kind, clock);
    AdmitIs(l, kind, clock);
    var a, b := Selected(l, kind), l.total;
    RefilledHolds(a, now);
    RefilledHolds(b, now);
    var own, total := Refilled(a, now), Refilled(b, now);
    if Short(own) || Short(total) {
      RefilledOk(a, now);
      RefilledOk(b, now);
      WaitAnswers(a, b, own, total, now);
    } else {
      SpentFills(a, now);
      SpentFills(b, now);
    }
  }

  class AggregateRateLimiter {
    var read: Bucket
    var write: Bucket
    var total: Bucket

    constructor (l: Limiter)
      requires LimiterOk(l)
      ensures Valid() && Value() == l
    {
      read, write, total := l.read, l.write, l.total;
    }

    ghost function Value(): Limiter
      reads this
    {
      Limiter(read, write, total)
    }

    ghost predicate Valid()
      reads this
    {
      LimiterOk(Value())
    }

    // Refill and debit in place; either both selected buckets pay or neither does.
    method AdmitCall(kind: Kind, clock: real) returns (allowed: bool, retryAfter: int)
      requires Valid()
      modifies this
      ensures Valid()
      ensures exists now :: TakenAt(old(Value()), kind, clock, now)
                            && Answered(old(Value()), kind, now, Value(), allowed, retryAfter)
      ensures (allowed, retryAfter)
        == (Admit(old(Value()), kind, clock).1.allowed, Admit(old(Value()), kind, clock).1.retryAfter)
      ensures Value() == Admit(old(Value()), kind, clock).0
    {
      AdmitAnswers(Value(), kind, clock);
      NowIsTaken(Value(), kind, clock);
      var own := if kind.Read? then read else write;
      var now := Later(Later(clock, own.updated), total.updated);
      own := Refilled(own, now);
      total := Refilled(total, now);
      allowed, retryAfter := true, 0;
      if Short(own) || Short(total) {
        var wait := Ceiling(LongestWait(own, total));
        allowed, retryAfter := false, if wait < 1 then 1 else wait;
      } else {
        own := Debited(own);
        total := Debited(total);
      }
      if kind.Read? {
        read := own;
      } else {
        write := own;
      }
    }
  }

  // A limiter with three full buckets, or None for a configuration that is
  // rejected.
  method NewLimiter(rates: (real, real, real), bursts: (int, int, int)) returns (r: Option<AggregateRateLimiter>)
    ensures r.Some? <==>
              NewBucket(rates.0, bursts.0).Some? && NewBucket(rates.1, bursts.1).Some?
                  && NewBucket(rates.2, bursts.2).Some?
    ensures r.Some? ==> fresh(r.value) && r.value.Valid()
    ensures r.Some? ==>
      r.value.read == Bucket(rates.0, bursts.0, bursts.0 as real, None)
      && r.value.write == Bucket(rates.1, bursts.1, bursts.1 as real, None)
      && r.value.total == Bucket(rates.2, bursts.2, bursts.2 as real, None)
  {
    var read, write, total := NewBucket(rates.0, bursts.0), NewBucket(rates.1, bursts.1), NewBucket(rates.2, bursts.2);
    if read.None? || write.None? || total.None? {
      return None;
    }
    var l := new AggregateRateLimiter(Limiter(read.value, write.value, total.value));
    return Some(l);
  }
}
