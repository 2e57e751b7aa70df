// The loops that read, count and prune the audit trail, with or without an index.
module AuditAnswers {
  import opened Common
  import opened AuditLines
  import opened AuditIndexProofs
  import opened AuditQueries
  import opened AuditMeaning

  // out is what has been found so far, rest what is still to be found.
  predicate Split(all: seq<Event>, out: seq<Event>, rest: seq<Event>) {
    all == out + rest
  }

  lemma SplitStep(all: seq<Event>, out: seq<Event>, e: Event, rest: seq<Event>)
    requires Split(all, out, [e] + rest)
    ensures Split(all, out + [e], rest)
  {
    assert out + ([e] + rest) == (out + [e]) + rest;
  }

  lemma SplitDone(all: seq<Event>, out: seq<Event>, rest: seq<Event>, limit: Option<int>)
    requires Split(all, out, rest) && (limit.Some? ==> |out| <= limit.value)
    requires rest == [] || Full(out, limit)
    ensures out == Limited(all, limit)
  {
  }

  lemma NewestStep(events: seq<Event>, i: nat, f: Filter) returns (rest: seq<Event>)
    requires i < |events|
    ensures rest == Newest(events, i, f)
    ensures Newest(events, i + 1, f) == if Passes(f, events[i].ts, events[i].category) then [events[i]] + rest else rest
  {
    rest := Newest(events, i, f);
  }

  predicate Full(out: seq<Event>, limit: Option<int>) {
    limit.Some? && |out| >= limit.value
  }

  // Walk the index backwards, reading only the lines that make the page.
  method ReadIndexed(data: Bytes, entries: seq<Entry>, p: Parser, f: Filter, limit: Option<int>)
    returns (out: seq<Event>)
    requires EntriesFit(data, entries, p)
    ensures out == Limited(Matching(EventsOf(data, entries, p), f), limit)
  {
    out := [];
    if limit.Some? && limit.value <= 0 {
      return;
    }
    ghost var events := EventsOf(data, entries, p);
    ghost var all, rest := Matching(events, f), Matching(events, f);
    var i := |entries|;
    while i > 0 && !Full(out, limit)
      invariant 0 <= i <= |entries|
      invariant limit.Some? ==> |out| <= limit.value
      invariant rest == Newest(events, i, f) && Split(all, out, rest)
    {
      i := i - 1;
      rest := NewestStep(events, i, f);
      var e := entries[i];
      assert EntryFits(data, e, p);
      if Passes(f, e.ts, e.category) {
        SplitStep(all, out, events[i], rest);
        out := out + [EventAt(data, e, p)];
      }
    }
    SplitDone(all, out, rest, limit);
  }

  // The matching events among the first i lines, newest first.
  function NewestLines(lines: seq<Bytes>, i: nat, p: Parser, f: Filter): seq<Event>
    requires i <= |lines|
  {
    if i == 0 then []
    else if LineMatches(lines[i - 1], p, f) then [p(lines[i - 1]).event] + NewestLines(lines, i - 1, p, f)
    else NewestLines(lines, i - 1, p, f)
  }

  predicate LineMatches(line: Bytes, p: Parser, f: Filter) {
    p(line).Object? && Passes(f, p(line).event.ts, p(line).event.category)
  }

  // The same answer by reading every line.
  method ReadStream(lines: seq<Bytes>, p: Parser, f: Filter, limit: Option<int>) returns (out: seq<Event>)
    ensures out == Limited(NewestLines(lines, |lines|, p, f), limit)
  {
    out := [];
    if limit.Some? && limit.value <= 0 {
      return;
    }
    ghost var all, rest := NewestLines(lines, |lines|, p, f), NewestLines(lines, |lines|, p, f);
    var i := |lines|;
    while i > 0 && !Full(out, limit)
      invariant 0 <= i <= |lines|
      invariant limit.Some? ==> |out| <= limit.value
      invariant rest == NewestLines(lines, i, p, f) && Split(all, out, rest)
    {
      i := i - 1;
      rest := NewestLines(lines, i, p, f);
      if LineMatches(lines[i], p, f) {
        var e := p(lines[i]).event;
        SplitStep(all, out, e, rest);
        out := out + [e];
      }
    }
    SplitDone(all, out, rest, limit);
  }

  lemma {:induction false} ObjectsLast(lines: seq<Bytes>, p: Parser)
    requires lines != []
    ensures var n := |lines| - 1;
      Objects(lines, p) == Objects(lines[..n], p) + if p(lines[n]).Object? then [p(lines[n]).event] else []
  {
    var n := |lines| - 1;
    if n > 0 {
      ObjectsLast(lines[1..], p);
      assert lines[1..][..n - 1] == lines[..n][1..];
    } else {
      assert lines[..0] == [] && lines[1..] == [];
    }
  }

  lemma {:induction false} NewestOfPrefix(events: seq<Event>, more: seq<Event>, n: nat, f: Filter)
    requires n <= |events|
    ensures Newest(events + more, n, f) == Newest(events, n, f)
  {
    if n > 0 {
      NewestOfPrefix(events, more, n - 1, f);
    }
  }

  // Reading lines and reading the events among them is the same.
  lemma {:induction false} LinesAreEvents(lines: seq<Bytes>, i: nat, p: Parser, f: Filter)
    requires i <= |lines|
    ensures NewestLines(lines, i, p, f) == Matching(Objects(lines[..i], p), f)
  {
    if i > 0 {
      LinesAreEvents(lines, i - 1, p, f);
      ObjectsLast(lines[..i], p);
      assert lines[..i][..i - 1] == lines[..i - 1];
      var events := Objects(lines[..i - 1], p);
      if p(lines[i - 1]).Object? {
        NewestOfPrefix(events, [p(lines[i - 1]).event], |events|, f);
      } else {
        assert Objects(lines[..i], p) == events;
      }
    }
  }

  // The tail is an event the filter lets through.
  predicate TailMatches(data: Bytes, p: Parser, f: Filter) {
    var tail := TailEvents(data, 0, p);
    tail != [] && Passes(f, tail[0].ts, tail[0].category)
  }

  function Streamed(data: Bytes, p: Parser): seq<Event> {
    Objects(ReadLines(data, 0), p)
  }

  function Indexed(data: Bytes, p: Parser): seq<Event> {
    ScanFits(data, 0, p);
    EventsOf(data, EntriesFrom(data, 0, p), p)
  }

  lemma MatchingOneMore(events: seq<Event>, e: Event, f: Filter)
    ensures Matching(events + [e], f) == (if Passes(f, e.ts, e.category) then [e] else []) + Matching(events, f)
  {
    NewestOfPrefix(events, [e], |events|, f);
  }

  // The indexed answer and the streaming one are the same exactly when the trail
  // does not end in an unterminated line that is an event the filter accepts.
  lemma AnswersAgree(data: Bytes, p: Parser, f: Filter)
    ensures Matching(Indexed(data, p), f) == Matching(Streamed(data, p), f) <==> !TailMatches(data, p, f)
  {
    StreamIsIndexAndTail(data, 0, p);
    var tail := TailEvents(data, 0, p);
    if tail != [] {
      assert tail == [tail[0]];
      MatchingOneMore(Indexed(data, p), tail[0], f);
      if Passes(f, tail[0].ts, tail[0].category) {
        assert |Matching(Streamed(data, p), f)| == 1 + |Matching(Indexed(data, p), f)|;
      }
    } else {
      assert Streamed(data, p) == Indexed(data, p);
    }
  }

  // With an index the complete lines are read, without one the tail as well; the
  // answer is the streaming one unless the tail is an event the filter accepts.
  method ReadEvents(data: Bytes, view: Option<seq<Entry>>, p: Parser, f: Filter, limit: Option<int>)
    returns (out: seq<Event>)
    requires view.Some? ==> view.value == EntriesFrom(data, 0, p)
    ensures out == Limited(Matching(if view.Some? then Indexed(data, p) else Streamed(data, p), f), limit)
    ensures !TailMatches(data, p, f) ==> out == Limited(Matching(Streamed(data, p), f), limit)
    ensures NewestFitting(if view.Some? then Indexed(data, p) else Streamed(data, p), f, limit, out)
  {
    AnswersAgree(data, p, f);
    MatchingIsNewestFitting(if view.Some? then Indexed(data, p) else Streamed(data, p), f, limit);
    if view.Some? {
      ScanFits(data, 0, p);
      out := ReadIndexed(data, view.value, p, f, limit);
    } else {
      var lines := ReadLines(data, 0);
      out := ReadStream(lines, p, f, limit);
      LinesAreEvents(lines, |lines|, p, f);
      assert lines[..|lines|] == lines;
    }
  }

  method CountIndexed(data: Bytes, entries: seq<Entry>, p: Parser, w: Window) returns (counts: seq<nat>)
    requires EntriesFit(data, entries, p) && w.buckets >= 1
    ensures |counts| == w.buckets && forall b :: 0 <= b < w.buckets ==>
      counts[b] == Tally(EventsOf(data, entries, p), w, b)
  {
    ghost var events := EventsOf(data, entries, p);
    counts := seq(w.buckets, _ => 0);
    for i := 0 to |entries|
      invariant |counts| == w.buckets
      invariant forall b :: 0 <= b < w.buckets ==> counts[b] == Tally(events[..i], w, b)
    {
      assert events[..i + 1][..i] == events[..i];
      var e := entries[i];
      if InWindow(w, e.ts, e.category) {
        var b := Bucket(w, e.ts.value);
        counts := counts[b := counts[b] + 1];
      }
    }
    assert events[..|entries|] == events;
  }

  // How many of the first n lines are events in bucket b.
  function TallyLines(lines: seq<Bytes>, n: nat, p: Parser, w: Window, b: nat): nat
    requires w.buckets >= 1 && n <= |lines|
  {
    if n == 0 then 0
    else TallyLines(lines, n - 1, p, w, b)
         + if LineIn(lines[n - 1], p, w) && LineBucket(lines[n - 1], p, w) == b then 1 else 0
  }

  predicate LineIn(line: Bytes, p: Parser, w: Window) {
    p(line).Object? && InWindow(w, p(line).event.ts, p(line).event.category)
  }

  function LineBucket(line: Bytes, p: Parser, w: Window): (b: nat)
    requires w.buckets >= 1 && LineIn(line, p, w)
    ensures b < w.buckets
  {
    Bucket(w, p(line).event.ts.value)
  }

  lemma TallyOneMoreEvent(events: seq<Event>, e: Event, w: Window, b: nat)
    requires w.buckets >= 1
    ensures Tally(events + [e], w, b)
         == Tally(events, w, b) + if InWindow(w, e.ts, e.category) && Bucket(w, e.ts.value) == b then 1 else 0
  {
    assert (events + [e])[..|events|] == events;
  }

  lemma {:induction false} TallyOfLines(lines: seq<Bytes>, n: nat, p: Parser, w: Window, b: nat)
    requires w.buckets >= 1 && n <= |lines|
    ensures TallyLines(lines, n, p, w, b) == Tally(Objects(lines[..n], p), w, b)
  {
    if n > 0 {
      TallyOfLines(lines, n - 1, p, w, b);
      ObjectsLast(lines[..n], p);
      assert lines[..n][..n - 1] == lines[..n - 1];
      var events := Objects(lines[..n - 1], p);
      if p(lines[n - 1]).Object? {
        TallyOneMoreEvent(events, p(lines[n - 1]).event, w, b);
      } else {
        assert Objects(lines[..n], p) == events;
      }
    }
  }

  method CountStream(lines: seq<Bytes>, p: Parser, w: Window) returns (counts: seq<nat>)
    requires w.buckets >= 1
    ensures |counts| == w.buckets && forall b :: 0 <= b < w.buckets ==> counts[b] == TallyLines(lines, |lines|, p, w, b)
  {
    counts := seq(w.buckets, _ => 0);
    for i := 0 to |lines|
      invariant |counts| == w.buckets
      invariant forall b :: 0 <= b < w.buckets ==> counts[b] == TallyLines(lines, i, p, w, b)
    {
      if LineIn(lines[i], p, w) {
        var b := LineBucket(lines[i], p, w);
        counts := counts[b := counts[b] + 1];
      }
    }
  }

  // The tail is an event of the window.
  predicate TailCounts(data: Bytes, p: Parser, w: Window) {
    var tail := TailEvents(data, 0, p);
    tail != [] && InWindow(w, tail[0].ts, tail[0].category)
  }

  ghost predicate SameTally(a: seq<Event>, b: seq<Event>, w: Window)
    requires w.buckets >= 1
  {
    forall k :: 0 <= k < w.buckets ==> Tally(a, w, k) == Tally(b, w, k)
  }

  // The two histograms are the same exactly when the trail does not end in an
  // unterminated line that is an event of the window.
  lemma TalliesAgree(data: Bytes, p: Parser, w: Window)
    requires w.buckets >= 1
    ensures SameTally(Indexed(data, p), Streamed(data, p), w) <==> !TailCounts(data, p, w)
  {
    StreamIsIndexAndTail(data, 0, p);
    var tail := TailEvents(data, 0, p);
    if tail != [] {
      assert tail == [tail[0]];
      forall k | 0 <= k < w.buckets
        ensures Tally(Streamed(data, p), w, k)
             == Tally(Indexed(data, p), w, k)
                + if InWindow(w, tail[0].ts, tail[0].category) && Bucket(w, tail[0].ts.value) == k then 1 else 0
      {
        TallyOneMoreEvent(Indexed(data, p), tail[0], w, k);
      }
      if InWindow(w, tail[0].ts, tail[0].category) {
        var k := Bucket(w, tail[0].ts.value);
        assert Tally(Streamed(data, p), w, k) == Tally(Indexed(data, p), w, k) + 1;
      }
    } else {
      assert Streamed(data, p) == Indexed(data, p);
    }
  }

  method Histogram(data: Bytes, view: Option<seq<Entry>>, p: Parser,
                   since: real, until: real, buckets: int, category: Option<string>)
    returns (starts: seq<int>, counts: seq<nat>)
    requires view.Some? ==> view.value == EntriesFrom(data, 0, p)
    ensures |starts| == |counts| == Clamped(buckets)
    ensures var w := Window(since, until, Clamped(buckets), category);
      forall b :: 0 <= b < |starts| ==> starts[b] == Truncated(Edge(w, b))
    ensures var w := Window(since, until, Clamped(buckets), category);
      forall b :: 0 <= b < |counts| ==>
        counts[b] == Tally(if view.Some? then Indexed(data, p) else Streamed(data, p), w, b)
    ensures var w := Window(since, until, Clamped(buckets), category);
      !TailCounts(data, p, w) ==> forall b :: 0 <= b < |counts| ==> counts[b] == Tally(Streamed(data, p), w, b)
    ensures var w := Window(since, until, Clamped(buckets), category);
      forall b :: 0 <= b < |counts| ==>
        counts[b] == SpanCount(if view.Some? then Indexed(data, p) else Streamed(data, p), w, b)
  {
    var w := Window(since, until, Clamped(buckets), category);
    TalliesAgree(data, p, w);
    starts := seq(w.buckets, b requires 0 <= b => Truncated(Edge(w, b)));
    if view.Some? {
      ScanFits(data, 0, p);
      counts := CountIndexed(data, view.value, p, w);
    } else {
      var lines := ReadLines(data, 0);
      counts := CountStream(lines, p, w);
      assert lines[..|lines|] == lines;
      forall b | 0 <= b < w.buckets ensures counts[b] == Tally(Objects(lines, p), w, b) {
        TallyOfLines(lines, |lines|, p, w, b);
      }
    }
    TalliesCountSpans(if view.Some? then Indexed(data, p) else Streamed(data, p), w);
  }

  lemma TalliesCountSpans(events: seq<Event>, w: Window)
    requires w.buckets >= 1
    ensures forall b :: 0 <= b < w.buckets ==> Tally(events, w, b) == SpanCount(events, w, b)
  {
    forall b | 0 <= b < w.buckets ensures Tally(events, w, b) == SpanCount(events, w, b) {
      TallyIsSpanCount(events, w, b);
    }
  }

  lemma SurvivingStep(lines: seq<Bytes>, i: nat, p: Parser, cutoff: real, kept: seq<Bytes>)
    requires i < |lines|
    ensures kept + Surviving(lines[i..], p, cutoff)
         == (if Survives(p, cutoff, lines[i]) then kept + [lines[i]] else kept) + Surviving(lines[i + 1..], p, cutoff)
    ensures NonBlank(lines[i..], p) == (if p(lines[i]).Blank? then 0 else 1) + NonBlank(lines[i + 1..], p)
  {
    assert lines[i..][1..] == lines[i + 1..];
  }

  // The full prune: the surviving lines and how many were dropped.
  method PruneLines(data: Bytes, p: Parser, cutoff: real, cap: nat) returns (kept: seq<Bytes>, dropped: int)
    ensures kept == Capped(Surviving(ReadLines(data, 0), p, cutoff), cap)
    ensures dropped == Dropped(data, p, cutoff, cap)
    ensures LastKept(ReadLines(data, 0), p, cutoff, cap, kept)
  {
    CappedIsLastKept(ReadLines(data, 0), p, cutoff, cap);
    var lines := ReadLines(data, 0);
    var total;
    kept, total := KeepSurvivors(lines, p, cutoff);
    if |kept| > cap {
      kept := kept[|kept| - cap..];
    }
    dropped := total - |kept|;
  }

  method KeepSurvivors(lines: seq<Bytes>, p: Parser, cutoff: real) returns (kept: seq<Bytes>, total: nat)
    ensures kept == Surviving(lines, p, cutoff) && total == NonBlank(lines, p)
  {
    kept, total := [], 0;
    ghost var rest := Surviving(lines, p, cutoff);
    for i := 0 to |lines|
      invariant rest == Surviving(lines[i..], p, cutoff) && kept + rest == Surviving(lines, p, cutoff)
      invariant total + NonBlank(lines[i..], p) == NonBlank(lines, p)
    {
      SurvivingStep(lines, i, p, cutoff, kept);
      rest := Surviving(lines[i + 1..], p, cutoff);
      if !p(lines[i]).Blank? {
        total := total + 1;
        if Survives(p, cutoff, lines[i]) {
          kept := kept + [lines[i]];
        }
      }
    }
  }
}
