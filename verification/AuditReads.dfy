// Reading the trail: each answer defined on the events in file order, and both
// the indexed and the streaming loop proved to give it.
module AuditQueries {
  import opened Common
  import opened AuditLines

  datatype Filter = Filter(before: Option<real>, after: Option<real>, category: Option<string>)

  predicate Passes(f: Filter, ts: Option<real>, category: Option<string>) {
    ((f.before.Some? || f.after.Some?) ==>
       ts.Some? && (f.before.Some? ==> ts.value < f.before.value) && (f.after.Some? ==> ts.value >= f.after.value))
    && (f.category.Some? ==> category == f.category)
  }

  // The matching ones of the first n events, newest (last appended) first.
  function Newest(events: seq<Event>, n: nat, f: Filter): seq<Event>
    requires n <= |events|
  {
    if n == 0 then []
    else if Passes(f, events[n - 1].ts, events[n - 1].category) then [events[n - 1]] + Newest(events, n - 1, f)
    else Newest(events, n - 1, f)
  }

  // All of them.
  function Matching(events: seq<Event>, f: Filter): seq<Event> {
    Newest(events, |events|, f)
  }

  function Limited(events: seq<Event>, limit: Option<int>): seq<Event> {
    if limit.None? || limit.value >= |events| then events
    else if limit.value <= 0 then []
    else events[..limit.value]
  }

  // ----- histogram -----

  datatype Window = Window(since: real, until: real, buckets: nat, category: Option<string>)

  predicate InWindow(w: Window, ts: Option<real>, category: Option<string>) {
    ts.Some? && w.since <= ts.value < w.until && (w.category.Some? ==> category == w.category)
  }

  const HISTOGRAM_MAX_BUCKETS: int := 200

  function Clamped(buckets: int): (n: nat)
    ensures 1 <= n <= HISTOGRAM_MAX_BUCKETS
  {
    if buckets < 1 then 1 else if buckets > HISTOGRAM_MAX_BUCKETS then HISTOGRAM_MAX_BUCKETS else buckets
  }

  function Bucket(w: Window, ts: real): (b: nat)
    requires w.since <= ts < w.until && w.buckets >= 1
    ensures b < w.buckets
  {
    var width := (w.until - w.since) / w.buckets as real;
    var k := ((ts - w.since) / width).Floor;
    if k >= w.buckets then w.buckets - 1 else if k < 0 then 0 else k
  }

  // Where bucket b begins; the window's end for b one past the last.
  function Edge(w: Window, b: nat): real
    requires w.buckets >= 1
  {
    w.since + b as real * (if w.until > w.since then (w.until - w.since) / w.buckets as real else 0.0)
  }

  lemma FloorIs(y: real, b: int)
    ensures y.Floor == b <==> b as real <= y < (b + 1) as real
  {
    var k := y.Floor;
    assert k as real <= y < (k + 1) as real;
    if b as real <= y < (b + 1) as real {
      assert k as real < (b + 1) as real && (b as real) < (k + 1) as real;
    }
  }

  lemma TimesWidth(a: real, b: real, width: real)
    requires width > 0.0
    ensures a <= b <==> a * width <= b * width
  {
    if a <= b {
      assert (b - a) * width >= 0.0;
    } else {
      assert (a - b) * width > 0.0;
    }
  }

  lemma QuotientBelow(x: real, width: real, h: real)
    requires width > 0.0
    ensures x / width < h <==> x < h * width
  {
    assert x / width * width == x;
    TimesWidth(h, x / width, width);
  }

  lemma FloorOfQuotient(x: real, width: real, b: int)
    requires width > 0.0
    ensures (x / width).Floor == b <==> b as real * width <= x < (b + 1) as real * width
  {
    FloorIs(x / width, b);
    QuotientBelow(x, width, b as real);
    QuotientBelow(x, width, (b + 1) as real);
  }

  lemma QuotientInRange(x: real, span: real, n: nat)
    requires 0.0 <= x < span && n >= 1
    ensures var width := span / n as real; width > 0.0 && n as real * width == span && 0 <= (x / width).Floor < n
  {
    var width := span / n as real;
    assert n as real * width == span;
    var y := x / width;
    assert y * width == x;
    TimesWidth(0.0, y, width);
    TimesWidth(n as real, y, width);
  }

  // A bucket holds exactly the times from its own beginning up to the next one's.
  lemma BucketIsItsSpan(w: Window, ts: real, b: nat)
    requires w.since <= ts < w.until && b < w.buckets
    ensures Bucket(w, ts) == b <==> Edge(w, b) <= ts < Edge(w, b + 1)
    ensures Edge(w, 0) == w.since && Edge(w, w.buckets) == w.until
  {
    var width := (w.until - w.since) / w.buckets as real;
    QuotientInRange(ts - w.since, w.until - w.since, w.buckets);
    FloorOfQuotient(ts - w.since, width, b);
  }

  // How many events fall into bucket b.
  function Tally(events: seq<Event>, w: Window, b: nat): nat
    requires w.buckets >= 1
  {
    if events == [] then 0
    else
      var e := events[|events| - 1];
      Tally(events[..|events| - 1], w, b)
      + if InWindow(w, e.ts, e.category) && Bucket(w, e.ts.value) == b then 1 else 0
  }

  function InWindowCount(events: seq<Event>, w: Window): nat {
    if events == [] then 0
    else
      var e := events[|events| - 1];
      InWindowCount(events[..|events| - 1], w) + if InWindow(w, e.ts, e.category) then 1 else 0
  }

  function TallySum(events: seq<Event>, w: Window, n: nat): nat
    requires w.buckets >= 1 && n <= w.buckets
  {
    if n == 0 then 0 else TallySum(events, w, n - 1) + Tally(events, w, n - 1)
  }

  lemma {:induction false} TallyOfNone(w: Window, n: nat)
    requires w.buckets >= 1 && n <= w.buckets
    ensures TallySum([], w, n) == 0
  {
    if n > 0 {
      TallyOfNone(w, n - 1);
    }
  }

  lemma {:induction false} TallyOneMore(events: seq<Event>, w: Window, n: nat)
    requires w.buckets >= 1 && n <= w.buckets && events != []
    ensures var e := events[|events| - 1];
      TallySum(events, w, n) == TallySum(events[..|events| - 1], w, n)
        + if InWindow(w, e.ts, e.category) && Bucket(w, e.ts.value) < n then 1 else 0
  {
    if n > 0 {
      TallyOneMore(events, w, n - 1);
    }
  }

  // Every event of the window is in exactly one bucket: the buckets add up.
  lemma {:induction false} BucketsAddUp(events: seq<Event>, w: Window)
    requires w.buckets >= 1
    ensures TallySum(events, w, w.buckets) == InWindowCount(events, w)
    decreases |events|
  {
    if events == [] {
      TallyOfNone(w, w.buckets);
    } else {
      BucketsAddUp(events[..|events| - 1], w);
      TallyOneMore(events, w, w.buckets);
    }
  }

  // ----- prune -----

  predicate Survives(p: Parser, cutoff: real, line: Bytes) {
    p(line).Object? && p(line).event.ts.Some? && p(line).event.ts.value >= cutoff
  }

  function Surviving(lines: seq<Bytes>, p: Parser, cutoff: real): seq<Bytes> {
    if lines == [] then []
    else if Survives(p, cutoff, lines[0]) then [lines[0]] + Surviving(lines[1..], p, cutoff)
    else Surviving(lines[1..], p, cutoff)
  }

  function NonBlank(lines: seq<Bytes>, p: Parser): nat {
    if lines == [] then 0 else (if p(lines[0]).Blank? then 0 else 1) + NonBlank(lines[1..], p)
  }

  function Capped(lines: seq<Bytes>, cap: nat): seq<Bytes> {
    if |lines| > cap then lines[|lines| - cap..] else lines
  }

  // How many lines a full prune drops.
  function Dropped(data: Bytes, p: Parser, cutoff: real, cap: nat): int {
    var lines := ReadLines(data, 0);
    NonBlank(lines, p) - |Capped(Surviving(lines, p, cutoff), cap)|
  }

  predicate NothingAged(entries: seq<Entry>, cutoff: real) {
    forall k :: 0 <= k < |entries| ==> entries[k].ts.Some? && entries[k].ts.value >= cutoff
  }

  // The cheap look at the index: nothing unreadable (an unterminated tail counts
  // as one), not over the cap, nothing aged out.
  predicate CheapClean(data: Bytes, p: Parser, cutoff: real, cap: nat) {
    var sc := Scan(data, 0, p);
    sc.garbage + (if |data| > sc.end then 1 else 0) == 0 && |sc.entries| <= cap && NothingAged(sc.entries, cutoff)
  }
}

module AuditPrune {
  import opened Common
  import opened AuditLines
  import opened AuditIndexProofs
  import opened AuditQueries

  lemma {:induction false} SurvivingAtMost(lines: seq<Bytes>, p: Parser, cutoff: real)
    ensures |Surviving(lines, p, cutoff)| <= NonBlank(lines, p)
  {
    if lines != [] {
      SurvivingAtMost(lines[1..], p, cutoff);
    }
  }

  // Nothing is lost among the lines exactly when the index of the same data shows
  // no garbage and nothing aged, and then the survivors are the indexed lines.
  lemma {:induction false} SurvivorsAreEntries(data: Bytes, i: nat, p: Parser, cutoff: real)
    requires i <= |data| && EndFrom(data, i) == |data|
    ensures var sc := Scan(data, i, p);
      var lines := ReadLines(data, i);
      (|Surviving(lines, p, cutoff)| == NonBlank(lines, p) <==> sc.garbage == 0 && NothingAged(sc.entries, cutoff))
      && (sc.garbage == 0 ==> NonBlank(lines, p) == |sc.entries|)
    decreases |data| - i
  {
    match FindNewline(data, i)
    case None =>
    case Some(k) =>
      SurvivorsAreEntries(data, k + 1, p, cutoff);
      LineStep(data, i, k, p, cutoff);
      SurvivingAtMost(ReadLines(data, k + 1), p, cutoff);
      LineVerdict(i, data[i..k], p, cutoff);
      AgedJoin(Summary(i, data[i..k], p), EntriesFrom(data, k + 1, p), cutoff);
  }

  lemma LineVerdict(i: nat, line: Bytes, p: Parser, cutoff: real)
    ensures NothingAged(Summary(i, line, p), cutoff) <==> (p(line).Object? ==> Survives(p, cutoff, line))
  {
    if p(line).Object? {
      var e := p(line).event;
      assert Summary(i, line, p)[0] == Entry(i, |line|, e.ts, e.category);
    }
  }

  lemma AgedJoin(a: seq<Entry>, b: seq<Entry>, cutoff: real)
    ensures NothingAged(a + b, cutoff) <==> NothingAged(a, cutoff) && NothingAged(b, cutoff)
  {
    if NothingAged(a + b, cutoff) {
      assert forall k :: 0 <= k < |a| ==> a[k] == (a + b)[k];
      assert forall k :: 0 <= k < |b| ==> b[k] == (a + b)[|a| + k];
    }
  }

  lemma LineStep(data: Bytes, i: nat, k: nat, p: Parser, cutoff: real)
    requires i <= |data| && FindNewline(data, i) == Some(k)
    ensures var line := data[i..k];
      |Surviving(ReadLines(data, i), p, cutoff)|
          == |Surviving(ReadLines(data, k + 1), p, cutoff)| + (if Survives(p, cutoff, line) then 1 else 0)
      && NonBlank(ReadLines(data, i), p) == NonBlank(ReadLines(data, k + 1), p) + (if p(line).Blank? then 0 else 1)
  {
    assert ReadLines(data, i)[1..] == ReadLines(data, k + 1);
  }

  // The early return is taken only when a full prune would drop nothing; on
  // newline-terminated data it is taken exactly then.
  lemma CheapReturnIsExact(data: Bytes, p: Parser, cutoff: real, cap: nat)
    ensures CheapClean(data, p, cutoff, cap) ==> Dropped(data, p, cutoff, cap) == 0
    ensures Terminated(data) ==> (CheapClean(data, p, cutoff, cap) <==> Dropped(data, p, cutoff, cap) <= 0)
  {
    var sc, lines := Scan(data, 0, p), ReadLines(data, 0);
    if Terminated(data) {
      TerminatedEnd(data, 0);
    }
    if sc.end == |data| {
      SurvivorsAreEntries(data, 0, p, cutoff);
    }
    SurvivingAtMost(lines, p, cutoff);
  }
}
