// What filtered reads, histograms and prunes select, told by positions in the
// trail and by the times and categories themselves.
module AuditMeaning {
  import opened Common
  import opened AuditLines
  import opened AuditQueries

  // Before one time, not before another, and of one category, where asked for. An
  // event without a usable time is in no time range.
  predicate Fits(f: Filter, e: Event) {
    && (f.before.Some? ==> e.ts.Some? && e.ts.value < f.before.value)
    && (f.after.Some? ==> e.ts.Some? && f.after.value <= e.ts.value)
    && (f.category.Some? ==> e.category == f.category)
  }

  predicate Descending(ps: seq<int>) {
    forall i, j :: 0 <= i < j < |ps| ==> ps[j] < ps[i]
  }

  // The events at these positions, and they fit.
  predicate FoundAt(events: seq<Event>, f: Filter, out: seq<Event>, ps: seq<int>) {
    |ps| == |out| && Descending(ps)
    && forall k :: 0 <= k < |ps| ==> 0 <= ps[k] < |events| && out[k] == events[ps[k]] && Fits(f, out[k])
  }

  // Nothing that fits was passed over, unless the limit was reached before it.
  predicate NothingMissed(events: seq<Event>, f: Filter, limit: Option<int>, ps: seq<int>) {
    forall i :: 0 <= i < |events| && Fits(f, events[i]) && i !in ps ==>
      limit.Some? && |ps| >= limit.value && forall k :: 0 <= k < |ps| ==> i < ps[k]
  }

  // The newest fitting events, newest first, up to the limit.
  ghost predicate NewestFitting(events: seq<Event>, f: Filter, limit: Option<int>, out: seq<Event>) {
    && (limit.Some? ==> |out| <= Max(limit.value, 0))
    && exists ps: seq<int> :: FoundAt(events, f, out, ps) && NothingMissed(events, f, limit, ps)
  }

  lemma PassesIsFits(f: Filter, e: Event)
    ensures Passes(f, e.ts, e.category) <==> Fits(f, e)
  {
  }

  // All the positions below n that fit, from the last.
  predicate AllBelow(events: seq<Event>, n: nat, f: Filter, ps: seq<int>)
    requires n <= |events|
  {
    FoundAt(events, f, Newest(events, n, f), ps)
    && (forall k :: 0 <= k < |ps| ==> ps[k] < n)
    && forall i :: 0 <= i < n && Fits(f, events[i]) ==> i in ps
  }

  lemma {:induction false} NewestAt(events: seq<Event>, n: nat, f: Filter) returns (ps: seq<int>)
    requires n <= |events|
    ensures AllBelow(events, n, f, ps)
  {
    if n == 0 {
      ps := [];
    } else {
      var last := n - 1;
      var rest := NewestAt(events, last, f);
      ps := OnePlaceMore(events, last, n, f, rest);
    }
  }

  lemma OnePlaceMore(events: seq<Event>, last: nat, n: nat, f: Filter, rest: seq<int>) returns (ps: seq<int>)
    requires n == last + 1 <= |events| && AllBelow(events, last, f, rest)
    ensures AllBelow(events, n, f, ps)
  {
    PassesIsFits(f, events[last]);
    NewestOneMore(events, last, n, f);
    if Fits(f, events[last]) {
      ps := [last] + rest;
      FoundCons(events, f, Newest(events, last, f), rest, last);
      assert last in ps && forall x :: x in rest ==> x in ps;
    } else {
      ps := rest;
    }
  }

  lemma NewestOneMore(events: seq<Event>, last: nat, n: nat, f: Filter)
    requires n == last + 1 <= |events|
    ensures Newest(events, n, f)
         == if Passes(f, events[last].ts, events[last].category) then [events[last]] + Newest(events, last, f)
            else Newest(events, last, f)
  {
  }

  lemma FoundCons(events: seq<Event>, f: Filter, out: seq<Event>, ps: seq<int>, i: nat)
    requires FoundAt(events, f, out, ps) && i < |events| && Fits(f, events[i])
    requires forall k :: 0 <= k < |ps| ==> ps[k] < i
    ensures FoundAt(events, f, [events[i]] + out, [i] + ps)
  {
  }

  lemma MatchingIsNewestFitting(events: seq<Event>, f: Filter, limit: Option<int>)
    ensures NewestFitting(events, f, limit, Limited(Matching(events, f), limit))
  {
    var all := NewestAt(events, |events|, f);
    var n := |Limited(Matching(events, f), limit)|;
    assert Limited(Matching(events, f), limit) == Matching(events, f)[..n];
    FirstFound(events, f, Matching(events, f), all, n);
    FirstMissNothing(events, f, limit, all, n);
  }

  lemma FirstFound(events: seq<Event>, f: Filter, out: seq<Event>, ps: seq<int>, n: nat)
    requires FoundAt(events, f, out, ps) && n <= |out|
    ensures FoundAt(events, f, out[..n], ps[..n])
  {
  }

  lemma FirstMissNothing(events: seq<Event>, f: Filter, limit: Option<int>, ps: seq<int>, n: nat)
    requires Descending(ps) && n <= |ps| && (n == |ps| || (limit.Some? && n >= limit.value))
    requires forall i :: 0 <= i < |events| && Fits(f, events[i]) ==> i in ps
    ensures NothingMissed(events, f, limit, ps[..n])
  {
    forall i | 0 <= i < |events| && Fits(f, events[i]) && i !in ps[..n]
      ensures limit.Some? && n >= limit.value && forall k :: 0 <= k < n ==> i < ps[k]
    {
      var j :| 0 <= j < |ps| && ps[j] == i;
      assert forall k :: 0 <= k < n ==> ps[..n][k] == ps[k] && ps[k] in ps[..n];
    }
  }

  // ----- histogram -----

  // How many events of the category, if one is given, have a time in this span.
  function CountIn(events: seq<Event>, category: Option<string>, from: real, to: real): nat {
    if events == [] then 0
    else
      var e := events[|events| - 1];
      CountIn(events[..|events| - 1], category, from, to)
      + (if e.ts.Some? && from <= e.ts.value < to && (category.Some? ==> e.category == category) then 1 else 0)
  }

  // A bucket counts the events of its own span.
  lemma {:induction false} TallyCountsSpan(events: seq<Event>, w: Window, b: nat)
    requires b < w.buckets && w.since < w.until
    ensures Tally(events, w, b) == CountIn(events, w.category, Edge(w, b), Edge(w, b + 1))
    decreases |events|
  {
    if events != [] {
      var e := events[|events| - 1];
      TallyCountsSpan(events[..|events| - 1], w, b);
      if e.ts.Some? {
        SpanInWindow(w, b);
        if w.since <= e.ts.value < w.until {
          BucketIsItsSpan(w, e.ts.value, b);
        }
      }
    }
  }

  lemma EdgesRise(since: real, width: real, a: nat, b: nat)
    requires width > 0.0 && a <= b
    ensures since + a as real * width <= since + b as real * width
  {
    TimesWidth(a as real, b as real, width);
  }

  lemma SpanInWindow(w: Window, b: nat)
    requires b < w.buckets && w.since < w.until
    ensures w.since <= Edge(w, b) <= Edge(w, b + 1) <= w.until
  {
    var width := (w.until - w.since) / w.buckets as real;
    BucketIsItsSpan(w, w.since, b);
    EdgesRise(w.since, width, 0, b);
    EdgesRise(w.since, width, b, b + 1);
    EdgesRise(w.since, width, b + 1, w.buckets);
    assert Edge(w, b) == w.since + b as real * width;
    assert Edge(w, b + 1) == w.since + (b + 1) as real * width;
  }

  // A window that is empty counts nothing.
  lemma {:induction false} EmptyWindowCountsNothing(events: seq<Event>, w: Window, b: nat)
    requires w.buckets >= 1 && w.until <= w.since
    ensures Tally(events, w, b) == 0
    decreases |events|
  {
    if events != [] {
      EmptyWindowCountsNothing(events[..|events| - 1], w, b);
    }
  }

  // What bucket b has to count.
  function SpanCount(events: seq<Event>, w: Window, b: nat): nat
    requires w.buckets >= 1
  {
    if w.since < w.until then CountIn(events, w.category, Edge(w, b), Edge(w, b + 1)) else 0
  }

  lemma TallyIsSpanCount(events: seq<Event>, w: Window, b: nat)
    requires b < w.buckets
    ensures Tally(events, w, b) == SpanCount(events, w, b)
  {
    if w.since < w.until {
      TallyCountsSpan(events, w, b);
    } else {
      EmptyWindowCountsNothing(events, w, b);
    }
  }

  // ----- prune -----

  // An object with a usable time that has not aged out.
  predicate Keeps(p: Parser, cutoff: real, line: Bytes) {
    p(line).Object? && p(line).event.ts.Some? && cutoff <= p(line).event.ts.value
  }

  predicate Rising(ps: seq<int>) {
    forall i, j :: 0 <= i < j < |ps| ==> ps[i] < ps[j]
  }

  predicate KeptAt(lines: seq<Bytes>, p: Parser, cutoff: real, kept: seq<Bytes>, ps: seq<int>) {
    |ps| == |kept| && Rising(ps)
    && forall k :: 0 <= k < |ps| ==> 0 <= ps[k] < |lines| && kept[k] == lines[ps[k]] && Keeps(p, cutoff, kept[k])
  }

  // Only lines older than every kept one are given up to the cap.
  predicate NothingLost(lines: seq<Bytes>, p: Parser, cutoff: real, cap: nat, ps: seq<int>) {
    forall i :: 0 <= i < |lines| && Keeps(p, cutoff, lines[i]) && i !in ps ==>
      |ps| == cap && forall k :: 0 <= k < |ps| ==> i < ps[k]
  }

  // The last lines worth keeping, in order, up to the cap.
  ghost predicate LastKept(lines: seq<Bytes>, p: Parser, cutoff: real, cap: nat, kept: seq<Bytes>) {
    |kept| <= cap && exists ps: seq<int> :: KeptAt(lines, p, cutoff, kept, ps) && NothingLost(lines, p, cutoff, cap, ps)
  }

  function Shifted(ps: seq<int>): (r: seq<int>)
    ensures |r| == |ps| && forall k :: 0 <= k < |ps| ==> r[k] == ps[k] + 1
  {
    seq(|ps|, k requires 0 <= k < |ps| => ps[k] + 1)
  }

  predicate AllKept(lines: seq<Bytes>, p: Parser, cutoff: real, ps: seq<int>) {
    KeptAt(lines, p, cutoff, Surviving(lines, p, cutoff), ps)
    && forall i :: 0 <= i < |lines| && Keeps(p, cutoff, lines[i]) ==> i in ps
  }

  lemma {:induction false} SurvivingAt(lines: seq<Bytes>, p: Parser, cutoff: real) returns (ps: seq<int>)
    ensures AllKept(lines, p, cutoff, ps)
  {
    if lines == [] {
      ps := [];
    } else {
      var rest := SurvivingAt(lines[1..], p, cutoff);
      ps := OneLineMore(lines[0], lines[1..], p, cutoff, rest);
      assert lines == [lines[0]] + lines[1..];
    }
  }

  lemma OneLineMore(line: Bytes, tail: seq<Bytes>, p: Parser, cutoff: real, rest: seq<int>) returns (ps: seq<int>)
    requires AllKept(tail, p, cutoff, rest)
    ensures AllKept([line] + tail, p, cutoff, ps)
  {
    SurvivingOneMore(line, tail, p, cutoff);
    KeptShifts(line, tail, p, cutoff, Surviving(tail, p, cutoff), rest);
    ShiftCovers(line, tail, p, cutoff, rest);
    if Survives(p, cutoff, line) {
      ps := [0] + Shifted(rest);
      KeptCons(line, tail, p, cutoff, Surviving(tail, p, cutoff), Shifted(rest));
      assert 0 in ps && forall x :: x in Shifted(rest) ==> x in ps;
    } else {
      ps := Shifted(rest);
    }
  }

  lemma SurvivingOneMore(line: Bytes, tail: seq<Bytes>, p: Parser, cutoff: real)
    ensures Surviving([line] + tail, p, cutoff)
         == if Survives(p, cutoff, line) then [line] + Surviving(tail, p, cutoff) else Surviving(tail, p, cutoff)
    ensures Survives(p, cutoff, line) <==> Keeps(p, cutoff, line)
  {
    assert ([line] + tail)[1..] == tail;
  }

  lemma KeptShifts(line: Bytes, tail: seq<Bytes>, p: Parser, cutoff: real, kept: seq<Bytes>, ps: seq<int>)
    requires KeptAt(tail, p, cutoff, kept, ps)
    ensures KeptAt([line] + tail, p, cutoff, kept, Shifted(ps))
    ensures forall k :: 0 <= k < |ps| ==> Shifted(ps)[k] > 0
  {
    var lines, qs := [line] + tail, Shifted(ps);
    forall k | 0 <= k < |ps| ensures 0 < qs[k] < |lines| && kept[k] == lines[qs[k]] {
      assert lines[qs[k]] == tail[ps[k]];
    }
  }

  lemma KeptCons(line: Bytes, tail: seq<Bytes>, p: Parser, cutoff: real, kept: seq<Bytes>, ps: seq<int>)
    requires KeptAt([line] + tail, p, cutoff, kept, ps) && Keeps(p, cutoff, line)
    requires forall k :: 0 <= k < |ps| ==> ps[k] > 0
    ensures KeptAt([line] + tail, p, cutoff, [line] + kept, [0] + ps)
  {
  }

  lemma ShiftCovers(line: Bytes, tail: seq<Bytes>, p: Parser, cutoff: real, ps: seq<int>)
    requires forall i :: 0 <= i < |tail| && Keeps(p, cutoff, tail[i]) ==> i in ps
    ensures forall i :: 0 < i < |[line] + tail| && Keeps(p, cutoff, ([line] + tail)[i]) ==> i in Shifted(ps)
  {
    forall i | 0 < i < |[line] + tail| && Keeps(p, cutoff, ([line] + tail)[i]) ensures i in Shifted(ps) {
      assert ([line] + tail)[i] == tail[i - 1];
      var k :| 0 <= k < |ps| && ps[k] == i - 1;
      assert Shifted(ps)[k] == i;
    }
  }

  lemma CappedIsLastKept(lines: seq<Bytes>, p: Parser, cutoff: real, cap: nat)
    ensures LastKept(lines, p, cutoff, cap, Capped(Surviving(lines, p, cutoff), cap))
  {
    var all := SurvivingAt(lines, p, cutoff);
    var survivors := Surviving(lines, p, cutoff);
    var cut := |survivors| - |Capped(survivors, cap)|;
    assert Capped(survivors, cap) == survivors[cut..];
    LastOnes(lines, p, cutoff, survivors, all, cut);
    LastLoseNothing(lines, p, cutoff, cap, all, cut);
  }

  lemma LastOnes(lines: seq<Bytes>, p: Parser, cutoff: real, kept: seq<Bytes>, ps: seq<int>, cut: nat)
    requires KeptAt(lines, p, cutoff, kept, ps) && cut <= |kept|
    ensures KeptAt(lines, p, cutoff, kept[cut..], ps[cut..])
  {
    assert forall k :: 0 <= k < |ps| - cut ==> ps[cut..][k] == ps[cut + k] && kept[cut..][k] == kept[cut + k];
  }

  lemma LastLoseNothing(lines: seq<Bytes>, p: Parser, cutoff: real, cap: nat, ps: seq<int>, cut: nat)
    requires Rising(ps) && cut <= |ps| && (cut == 0 || |ps| - cut == cap)
    requires forall i :: 0 <= i < |lines| && Keeps(p, cutoff, lines[i]) ==> i in ps
    ensures NothingLost(lines, p, cutoff, cap, ps[cut..])
  {
    var last := ps[cut..];
    assert forall k :: 0 <= k < |last| ==> last[k] == ps[cut + k] && ps[cut + k] in last;
    forall i | 0 <= i < |lines| && Keeps(p, cutoff, lines[i]) && i !in last
      ensures |last| == cap && forall k :: 0 <= k < |last| ==> i < last[k]
    {
      var j :| 0 <= j < |ps| && ps[j] == i;
      assert forall k :: cut <= k < |ps| ==> ps[k] == last[k - cut];
    }
  }
}
