// The audit trail: a file of lines, an index of them grown as the file grows,
// and the scans the index must agree with. How a line parses is given.
module AuditLines {
  import opened Common

  // A byte by its code. Nothing here depends on codes staying below 256.
  type Byte = int
  type Bytes = seq<Byte>

  const NEWLINE: Byte := 10
  const INDEX_HEAD: nat := 512

  // What a line is to its readers. A non-numeric timestamp is None.
  datatype Event = Event(ts: Option<real>, category: Option<string>, body: Bytes)
  datatype Line = Blank | Garbage | Object(event: Event)

  type Parser = Bytes -> Line

  function FindNewline(data: Bytes, i: nat): (r: Option<nat>)
    ensures r.Some? ==> i <= r.value < |data|
    decreases |data| - i
  {
    if i >= |data| then None else if data[i] == NEWLINE then Some(i) else FindNewline(data, i + 1)
  }

  // ----- the streaming view -----

  // Every line, an unterminated tail included.
  function ReadLines(data: Bytes, i: nat): seq<Bytes>
    decreases |data| - i
  {
    match FindNewline(data, i)
    case Some(k) => [data[i..k]] + ReadLines(data, k + 1)
    case None => if i < |data| then [data[i..]] else []
  }

  // The events among lines, in file order.
  function Objects(lines: seq<Bytes>, p: Parser): seq<Event> {
    if lines == [] then []
    else if p(lines[0]).Object? then [p(lines[0]).event] + Objects(lines[1..], p)
    else Objects(lines[1..], p)
  }

  predicate Terminated(data: Bytes) {
    data == [] || data[|data| - 1] == NEWLINE
  }

  // ----- the index -----

  datatype Entry = Entry(offset: nat, length: nat, ts: Option<real>, category: Option<string>)

  datatype Scanned = Scanned(entries: seq<Entry>, garbage: nat, end: nat)

  function Summary(offset: nat, line: Bytes, p: Parser): seq<Entry> {
    match p(line)
    case Object(e) => [Entry(offset, |line|, e.ts, e.category)]
    case _ => []
  }

  function GarbageCount(line: Bytes, p: Parser): nat {
    if p(line).Garbage? then 1 else 0
  }

  // The entries of the complete lines from i on.
  function EntriesFrom(data: Bytes, i: nat, p: Parser): seq<Entry>
    decreases |data| - i
  {
    match FindNewline(data, i)
    case None => []
    case Some(k) => Summary(i, data[i..k], p) + EntriesFrom(data, k + 1, p)
  }

  // How many of them no reader can use.
  function GarbageFrom(data: Bytes, i: nat, p: Parser): nat
    decreases |data| - i
  {
    match FindNewline(data, i)
    case None => 0
    case Some(k) => GarbageCount(data[i..k], p) + GarbageFrom(data, k + 1, p)
  }

  // Just past the last newline.
  function EndFrom(data: Bytes, i: nat): (e: nat)
    ensures i <= e && (i <= |data| ==> e <= |data|)
    decreases |data| - i
  {
    match FindNewline(data, i)
    case None => i
    case Some(k) => EndFrom(data, k + 1)
  }

  function Scan(data: Bytes, i: nat, p: Parser): Scanned
  {
    Scanned(EntriesFrom(data, i, p), GarbageFrom(data, i, p), EndFrom(data, i))
  }

  datatype Index = Index(consumed: nat, head: Option<Bytes>, entries: seq<Entry>, garbage: nat)

  const EmptyIndex: Index := Index(0, None, [], 0)

  function Prefix(data: Bytes, n: nat): Bytes {
    if n <= |data| then data[..n] else data
  }

  // Is the file still the one the index describes, grown?
  predicate Extends(data: Bytes, idx: Index) {
    idx.consumed <= |data|
    && (idx.head.Some? ==> Prefix(data, |idx.head.value|) == idx.head.value)
    && (idx.consumed > 0 ==> data[idx.consumed - 1] == NEWLINE)
  }

  function Grown(idx: Index, data: Bytes, p: Parser): Index
  {
    Index(
      EndFrom(data, idx.consumed),
      if idx.consumed == 0 then Some(Prefix(data, INDEX_HEAD)) else idx.head,
      idx.entries + EntriesFrom(data, idx.consumed, p),
      idx.garbage + GarbageFrom(data, idx.consumed, p))
  }

  // The index after catching up with data, if there is anything to catch up with.
  function Caught(idx: Index, data: Bytes, p: Parser): Index {
    if |data| > idx.consumed then Grown(idx, data, p) else idx
  }

  // The index a reader without one would build.
  function Scratch(data: Bytes, p: Parser): Index {
    Caught(EmptyIndex, data, p)
  }
}

module AuditIndexProofs {
  import opened Common
  import opened AuditLines

  // all is data, possibly grown.
  predicate GrewTo(data: Bytes, all: Bytes) {
    |data| <= |all| && forall k :: 0 <= k < |data| ==> all[k] == data[k]
  }

  lemma {:induction false} FindInPrefix(data: Bytes, all: Bytes, i: nat)
    requires GrewTo(data, all) && FindNewline(data, i).Some?
    ensures FindNewline(all, i) == FindNewline(data, i)
    decreases |data| - i
  {
    if data[i] != NEWLINE {
      FindInPrefix(data, all, i + 1);
    }
  }

  // One line of each scan.
  lemma EntriesStep(data: Bytes, i: nat, k: nat, p: Parser)
    requires i <= |data| && FindNewline(data, i) == Some(k)
    ensures EntriesFrom(data, i, p) == Summary(i, data[i..k], p) + EntriesFrom(data, k + 1, p)
    ensures GarbageFrom(data, i, p) == GarbageCount(data[i..k], p) + GarbageFrom(data, k + 1, p)
    ensures EndFrom(data, i) == EndFrom(data, k + 1)
  {
  }

  // The entries of the grown file are those of the old one and then the rest.
  predicate Extended(data: Bytes, all: Bytes, i: nat, p: Parser) {
    EntriesFrom(all, i, p) == EntriesFrom(data, i, p) + EntriesFrom(all, EndFrom(data, i), p)
  }

  // Scanning the grown file is scanning the old one and then the rest.
  lemma {:induction false} EntriesExtend(data: Bytes, all: Bytes, i: nat, p: Parser)
    requires GrewTo(data, all) && i <= |data|
    ensures Extended(data, all, i, p)
    decreases |data| - i
  {
    var nl := FindNewline(data, i);
    if nl.Some? {
      var next := nl.value + 1;
      EntriesExtend(data, all, next, p);
      LineExtends(data, all, i, nl.value, next, p);
    } else {
      NoLineExtends(data, all, i, p);
    }
  }

  lemma NoLineExtends(data: Bytes, all: Bytes, i: nat, p: Parser)
    requires FindNewline(data, i).None?
    ensures Extended(data, all, i, p)
  {
    NoLine(data, i, p, EntriesFrom(all, i, p));
  }

  lemma LineExtends(data: Bytes, all: Bytes, i: nat, k: nat, next: nat, p: Parser)
    requires GrewTo(data, all) && i <= |data| && FindNewline(data, i) == Some(k) && next == k + 1
    requires Extended(data, all, next, p)
    ensures Extended(data, all, i, p)
  {
    SameLineRead(data, all, i, k);
    LineTaken(data, i, k, next, p);
    LineTaken(all, i, k, next, p);
    Reassociate(Summary(i, data[i..k], p), EntriesFrom(data, next, p), EntriesFrom(all, EndFrom(data, next), p));
  }

  lemma LineTaken(data: Bytes, i: nat, k: nat, next: nat, p: Parser)
    requires i <= |data| && FindNewline(data, i) == Some(k) && next == k + 1
    ensures EntriesFrom(data, i, p) == Summary(i, data[i..k], p) + EntriesFrom(data, next, p)
    ensures EndFrom(data, i) == EndFrom(data, next)
  {
    EntriesStep(data, i, k, p);
  }

  lemma NoLine(data: Bytes, i: nat, p: Parser, more: seq<Entry>)
    requires FindNewline(data, i).None?
    ensures EntriesFrom(data, i, p) + more == more && EndFrom(data, i) == i
  {
  }

  lemma Reassociate(a: seq<Entry>, b: seq<Entry>, c: seq<Entry>)
    ensures a + (b + c) == (a + b) + c && [] + c == c
  {
  }

  lemma SameLineRead(data: Bytes, all: Bytes, i: nat, k: nat)
    requires GrewTo(data, all) && i <= |data| && FindNewline(data, i) == Some(k)
    ensures FindNewline(all, i) == Some(k) && all[i..k] == data[i..k]
  {
    FindInPrefix(data, all, i);
  }

  lemma GarbageLineExtends(data: Bytes, all: Bytes, i: nat, k: nat, p: Parser)
    requires GrewTo(data, all) && i <= |data| && FindNewline(data, i) == Some(k)
    requires GarbageFrom(all, k + 1, p) == GarbageFrom(data, k + 1, p) + GarbageFrom(all, EndFrom(data, k + 1), p)
    ensures GarbageFrom(all, i, p) == GarbageFrom(data, i, p) + GarbageFrom(all, EndFrom(data, i), p)
  {
    SameLineRead(data, all, i, k);
    EntriesStep(data, i, k, p);
    EntriesStep(all, i, k, p);
  }

  lemma {:induction false} GarbageExtends(data: Bytes, all: Bytes, i: nat, p: Parser)
    requires GrewTo(data, all) && i <= |data|
    ensures GarbageFrom(all, i, p) == GarbageFrom(data, i, p) + GarbageFrom(all, EndFrom(data, i), p)
    decreases |data| - i
  {
    var nl := FindNewline(data, i);
    if nl.Some? {
      GarbageExtends(data, all, nl.value + 1, p);
      GarbageLineExtends(data, all, i, nl.value, p);
    }
  }

  lemma {:induction false} EndExtends(data: Bytes, all: Bytes, i: nat)
    requires GrewTo(data, all) && i <= |data|
    ensures EndFrom(all, i) == EndFrom(all, EndFrom(data, i))
    decreases |data| - i
  {
    if FindNewline(data, i).Some? {
      var k := FindNewline(data, i).value;
      SameLineRead(data, all, i, k);
      EndExtends(data, all, k + 1);
    }
  }

  lemma {:induction false} EndIsNewline(data: Bytes, i: nat)
    requires i <= |data|
    ensures EndFrom(data, i) > i ==> data[EndFrom(data, i) - 1] == NEWLINE
    decreases |data| - i
  {
    NewlineFound(data, i);
    if FindNewline(data, i).Some? {
      EndIsNewline(data, FindNewline(data, i).value + 1);
    }
  }

  lemma {:induction false} NewlineFound(data: Bytes, i: nat)
    ensures FindNewline(data, i).Some? ==> data[FindNewline(data, i).value] == NEWLINE
    ensures FindNewline(data, i).None? ==> forall k :: i <= k < |data| ==> data[k] != NEWLINE
    decreases |data| - i
  {
    if i < |data| && data[i] != NEWLINE {
      NewlineFound(data, i + 1);
    }
  }

  // The index says what a scan from scratch would, and its remembered head is
  // how the file begins.
  predicate Describes(idx: Index, data: Bytes, p: Parser) {
    idx.entries == EntriesFrom(data, 0, p) && idx.garbage == GarbageFrom(data, 0, p) && idx.consumed == EndFrom(data, 0)
    && (idx.head.Some? ==> |idx.head.value| <= |data| && data[..|idx.head.value|] == idx.head.value)
    && (idx.head.None? ==> idx.consumed == 0)
  }

  lemma GrowthIsRecognised(idx: Index, data: Bytes, all: Bytes, p: Parser)
    requires Describes(idx, data, p) && GrewTo(data, all)
    ensures Extends(all, idx)
    ensures idx.head.Some? ==> |idx.head.value| <= |all| && all[..|idx.head.value|] == idx.head.value
  {
    EndIsNewline(data, 0);
    if idx.head.Some? {
      assert all[..|idx.head.value|] == data[..|idx.head.value|];
    }
  }

  lemma GrownScan(idx: Index, data: Bytes, all: Bytes, p: Parser)
    requires Describes(idx, data, p) && GrewTo(data, all)
    ensures Grown(idx, all, p).entries == EntriesFrom(all, 0, p)
    ensures Grown(idx, all, p).garbage == GarbageFrom(all, 0, p) && Grown(idx, all, p).consumed == EndFrom(all, 0)
  {
    EntriesExtend(data, all, 0, p);
    GarbageExtends(data, all, 0, p);
    EndExtends(data, all, 0);
  }

  lemma GrowthKeepsIndex(idx: Index, data: Bytes, all: Bytes, p: Parser)
    requires Describes(idx, data, p) && GrewTo(data, all)
    ensures Extends(all, idx)
    ensures Describes(Grown(idx, all, p), all, p)
  {
    GrowthIsRecognised(idx, data, all, p);
    GrownScan(idx, data, all, p);
    var g := Grown(idx, all, p);
    assert idx.consumed == 0 ==> g.head == Some(Prefix(all, INDEX_HEAD));
    assert idx.consumed > 0 ==> g.head == idx.head;
  }

  lemma CatchingUpKeepsIndex(idx: Index, data: Bytes, all: Bytes, p: Parser)
    requires Describes(idx, data, p) && GrewTo(data, all)
    ensures Extends(all, idx) && Describes(Caught(idx, all, p), all, p)
  {
    GrowthKeepsIndex(idx, data, all, p);
    if |all| <= idx.consumed {
      assert all == data;
    }
  }

  // The file after the first n appends.
  function Total(chunks: seq<Bytes>, n: nat): Bytes
    requires n <= |chunks|
  {
    if n == 0 then [] else Total(chunks, n - 1) + chunks[n - 1]
  }

  // The index refreshed after each append.
  function Incremental(chunks: seq<Bytes>, n: nat, p: Parser): (r: Index)
    requires n <= |chunks|
  {
    if n == 0 then EmptyIndex
    else
      var before, data := Incremental(chunks, n - 1, p), Total(chunks, n);
      if Extends(data, before) then Caught(before, data, p) else Scratch(data, p)
  }

  lemma TotalGrows(chunks: seq<Bytes>, n: nat)
    requires 0 < n <= |chunks|
    ensures GrewTo(Total(chunks, n - 1), Total(chunks, n))
  {
  }

  predicate UpToDate(chunks: seq<Bytes>, n: nat, p: Parser)
    requires n <= |chunks|
  {
    Describes(Incremental(chunks, n, p), Total(chunks, n), p)
  }

  lemma {:induction false} StaysUpToDate(chunks: seq<Bytes>, n: nat, p: Parser)
    requires n <= |chunks|
    ensures UpToDate(chunks, n, p)
  {
    if n > 0 {
      var last := n - 1;
      StaysUpToDate(chunks, last, p);
      RefreshKeepsIndex(chunks, last, n, p);
    }
  }

  lemma RefreshKeepsIndex(chunks: seq<Bytes>, last: nat, n: nat, p: Parser)
    requires n == last + 1 <= |chunks| && UpToDate(chunks, last, p)
    ensures UpToDate(chunks, n, p) && Extends(Total(chunks, n), Incremental(chunks, last, p))
  {
    TotalGrows(chunks, n);
    CatchingUpKeepsIndex(Incremental(chunks, last, p), Total(chunks, last), Total(chunks, n), p);
    RefreshIs(chunks, last, n, p);
  }

  lemma RefreshIs(chunks: seq<Bytes>, last: nat, n: nat, p: Parser)
    requires n == last + 1 <= |chunks| && Extends(Total(chunks, n), Incremental(chunks, last, p))
    ensures Incremental(chunks, n, p) == Caught(Incremental(chunks, last, p), Total(chunks, n), p)
  {
  }

  // However the file grew, the incremental index has the entries, garbage count and
  // position of one built from scratch, and it is never mistaken for another file's.
  lemma IncrementalIsFromScratch(chunks: seq<Bytes>, n: nat, p: Parser)
    requires n <= |chunks|
    ensures Describes(Incremental(chunks, n, p), Total(chunks, n), p)
    ensures n > 0 ==> Extends(Total(chunks, n), Incremental(chunks, n - 1, p))
  {
    StaysUpToDate(chunks, n, p);
    if n > 0 {
      StaysUpToDate(chunks, n - 1, p);
      RefreshKeepsIndex(chunks, n - 1, n, p);
    }
  }

  // ----- the remembered head -----

  // The refresh that first saw a complete line, or the latest one if none has: the
  // head is taken anew until then and kept from then on.
  function FirstLine(chunks: seq<Bytes>, n: nat): (k: nat)
    requires n <= |chunks|
    ensures k <= n
  {
    if n == 0 then 0
    else if EndFrom(Total(chunks, n - 1), 0) > 0 then FirstLine(chunks, n - 1)
    else n
  }

  // What is remembered of a file of which this much was seen.
  function HeadOf(seen: Bytes): Option<Bytes> {
    if seen == [] then None else Some(Prefix(seen, INDEX_HEAD))
  }

  lemma {:induction false} TotalsGrow(chunks: seq<Bytes>, k: nat, n: nat)
    requires k <= n <= |chunks|
    ensures GrewTo(Total(chunks, k), Total(chunks, n))
  {
    if k < n {
      TotalsGrow(chunks, k, n - 1);
      TotalGrows(chunks, n);
    }
  }

  lemma {:induction false} IncrementalHead(chunks: seq<Bytes>, n: nat, p: Parser)
    requires n <= |chunks|
    ensures Incremental(chunks, n, p).head == HeadOf(Total(chunks, FirstLine(chunks, n)))
  {
    if n > 0 {
      var last := n - 1;
      IncrementalHead(chunks, last, p);
      StaysUpToDate(chunks, last, p);
      HeadStep(chunks, last, n, p);
    }
  }

  lemma HeadStep(chunks: seq<Bytes>, last: nat, n: nat, p: Parser)
    requires n == last + 1 <= |chunks| && UpToDate(chunks, last, p)
    requires Incremental(chunks, last, p).head == HeadOf(Total(chunks, FirstLine(chunks, last)))
    ensures Incremental(chunks, n, p).head == HeadOf(Total(chunks, FirstLine(chunks, n)))
  {
    RefreshKeepsIndex(chunks, last, n, p);
    RefreshIs(chunks, last, n, p);
    FirstLineStep(chunks, last, n);
  }

  lemma FirstLineStep(chunks: seq<Bytes>, last: nat, n: nat)
    requires n == last + 1 <= |chunks|
    ensures FirstLine(chunks, n) == if EndFrom(Total(chunks, last), 0) > 0 then FirstLine(chunks, last) else n
    ensures EndFrom(Total(chunks, last), 0) <= |Total(chunks, last)| <= |Total(chunks, n)|
    ensures Total(chunks, n) == [] ==> Total(chunks, FirstLine(chunks, last)) == []
  {
    TotalsGrow(chunks, FirstLine(chunks, last), n);
    TotalGrows(chunks, n);
  }

  lemma HeadsAgree(seen: Bytes, data: Bytes)
    requires GrewTo(seen, data)
    ensures HeadOf(seen) == HeadOf(data) <==> |seen| >= INDEX_HEAD || |seen| == |data|
  {
    if |seen| >= INDEX_HEAD {
      assert Prefix(seen, INDEX_HEAD) == Prefix(data, INDEX_HEAD);
    } else if |seen| == |data| {
      assert seen == data;
    } else {
      assert |Prefix(data, INDEX_HEAD)| > |seen| == |Prefix(seen, INDEX_HEAD)|;
    }
  }

  lemma ScratchIs(data: Bytes, p: Parser)
    ensures Scratch(data, p) == Index(EndFrom(data, 0), HeadOf(data), EntriesFrom(data, 0, p), GarbageFrom(data, 0, p))
  {
    assert [] + EntriesFrom(data, 0, p) == EntriesFrom(data, 0, p);
  }

  // The incremental index is the one built from scratch, head and all, exactly when
  // the refresh that first saw a complete line saw enough of the file to remember,
  // or all there is.
  lemma IncrementalEqualsScratch(chunks: seq<Bytes>, n: nat, p: Parser)
    requires n <= |chunks|
    ensures var seen := |Total(chunks, FirstLine(chunks, n))|;
      Incremental(chunks, n, p) == Scratch(Total(chunks, n), p)
      <==> seen >= INDEX_HEAD || seen == |Total(chunks, n)|
  {
    var k := FirstLine(chunks, n);
    StaysUpToDate(chunks, n, p);
    IncrementalHead(chunks, n, p);
    ScratchIs(Total(chunks, n), p);
    TotalsGrow(chunks, k, n);
    HeadsAgree(Total(chunks, k), Total(chunks, n));
  }

  // One complete line seen at first, and then another: the head stays short.
  lemma ShortHead(p: Parser)
    ensures var chunks := [[NEWLINE], [NEWLINE]];
      Incremental(chunks, 2, p).head == Some([NEWLINE])
      && Scratch(Total(chunks, 2), p).head == Some([NEWLINE, NEWLINE])
  {
    var chunks := [[NEWLINE], [NEWLINE]];
    assert Total(chunks, 1) == [NEWLINE];
    assert Total(chunks, 2) == [NEWLINE, NEWLINE];
    TwoRefreshes(chunks, p);
    ScratchIs(Total(chunks, 2), p);
  }

  lemma TwoRefreshes(chunks: seq<Bytes>, p: Parser)
    requires |chunks| == 2 && EndFrom(chunks[0], 0) > 0 && |chunks[0]| <= INDEX_HEAD
    ensures Incremental(chunks, 2, p).head == Some(chunks[0])
  {
    assert Total(chunks, 1) == [] + chunks[0] == chunks[0];
    assert Total(chunks, 0) == [];
    assert FirstLine(chunks, 1) == 1;
    IncrementalHead(chunks, 2, p);
  }

  // What that costs: after the same file was rewritten in place, the incremental
  // index takes it for grown where one built from scratch would not.
  lemma ShortHeadMissesRewrite(a: Byte, b: Byte, p: Parser)
    requires a != b && a != NEWLINE && b != NEWLINE
    ensures var chunks, rewritten := [[NEWLINE], [a, NEWLINE]], [NEWLINE, b, NEWLINE];
      Extends(rewritten, Incremental(chunks, 2, p)) && !Extends(rewritten, Scratch(Total(chunks, 2), p))
  {
    var chunks, rewritten := [[NEWLINE], [a, NEWLINE]], [NEWLINE, b, NEWLINE];
    assert Total(chunks, 1) == [NEWLINE];
    assert Total(chunks, 2) == [NEWLINE, a, NEWLINE];
    TwoRefreshes(chunks, p);
    StaysUpToDate(chunks, 2, p);
    ScratchIs(Total(chunks, 2), p);
    EndOfThree(a);
    assert Prefix(rewritten, 1) == [NEWLINE];
    assert Prefix(rewritten, 3)[1] == b;
  }

  lemma EndOfThree(a: Byte)
    requires a != NEWLINE
    ensures EndFrom([NEWLINE, a, NEWLINE], 0) == 3
  {
    var data := [NEWLINE, a, NEWLINE];
    assert FindNewline(data, 0) == Some(0);
    assert FindNewline(data, 2) == Some(2);
    assert FindNewline(data, 1) == Some(2);
    assert FindNewline(data, 3) == None;
  }

  // ----- entries and events -----

  // The entry names a line of data that parses to an event with its summary.
  predicate EntryFits(data: Bytes, e: Entry, p: Parser) {
    e.offset + e.length <= |data|
    && p(data[e.offset..e.offset + e.length]).Object?
    && p(data[e.offset..e.offset + e.length]).event.ts == e.ts
    && p(data[e.offset..e.offset + e.length]).event.category == e.category
  }

  predicate EntriesFit(data: Bytes, entries: seq<Entry>, p: Parser) {
    forall k :: 0 <= k < |entries| ==> EntryFits(data, entries[k], p)
  }

  function EventAt(data: Bytes, e: Entry, p: Parser): Event
    requires EntryFits(data, e, p)
  {
    p(data[e.offset..e.offset + e.length]).event
  }

  function EventsOf(data: Bytes, entries: seq<Entry>, p: Parser): (r: seq<Event>)
    requires EntriesFit(data, entries, p)
    ensures |r| == |entries| && forall k :: 0 <= k < |r| ==> r[k] == EventAt(data, entries[k], p)
  {
    seq(|entries|, k requires 0 <= k < |entries| => EventAt(data, entries[k], p))
  }

  lemma {:induction false} ScanFits(data: Bytes, i: nat, p: Parser)
    requires i <= |data|
    ensures EntriesFit(data, EntriesFrom(data, i, p), p)
    decreases |data| - i
  {
    var nl := FindNewline(data, i);
    if nl.Some? {
      ScanFits(data, nl.value + 1, p);
      LineFits(data, i, nl.value, p);
    }
  }

  lemma LineFits(data: Bytes, i: nat, k: nat, p: Parser)
    requires i <= |data| && FindNewline(data, i) == Some(k) && EntriesFit(data, EntriesFrom(data, k + 1, p), p)
    ensures EntriesFit(data, EntriesFrom(data, i, p), p)
  {
    LineIsStream(data, i, k, p);
    EventsJoin(data, Summary(i, data[i..k], p), EntriesFrom(data, k + 1, p), p);
    EntriesStep(data, i, k, p);
  }

  lemma EventsJoin(data: Bytes, a: seq<Entry>, b: seq<Entry>, p: Parser)
    requires EntriesFit(data, a, p) && EntriesFit(data, b, p)
    ensures EntriesFit(data, a + b, p) && EventsOf(data, a + b, p) == EventsOf(data, a, p) + EventsOf(data, b, p)
  {
  }

  lemma LineIsStream(data: Bytes, i: nat, k: nat, p: Parser)
    requires i <= k <= |data|
    ensures EntriesFit(data, Summary(i, data[i..k], p), p)
    ensures EventsOf(data, Summary(i, data[i..k], p), p) == if p(data[i..k]).Object? then [p(data[i..k]).event] else []
  {
    assert data[i..i + |data[i..k]|] == data[i..k];
  }

  lemma StreamLine(data: Bytes, i: nat, k: nat, p: Parser)
    requires i <= |data| && FindNewline(data, i) == Some(k)
    ensures Objects(ReadLines(data, i), p)
         == (if p(data[i..k]).Object? then [p(data[i..k]).event] else []) + Objects(ReadLines(data, k + 1), p)
  {
    assert ReadLines(data, i)[1..] == ReadLines(data, k + 1);
  }

  lemma {:induction false} TerminatedEnd(data: Bytes, i: nat)
    requires i <= |data| && Terminated(data)
    ensures EndFrom(data, i) == |data|
    decreases |data| - i
  {
    if FindNewline(data, i).Some? {
      TerminatedEnd(data, FindNewline(data, i).value + 1);
    } else {
      NewlineFound(data, i);
    }
  }

  // The event an unterminated tail parses to, if any.
  function TailEvents(data: Bytes, i: nat, p: Parser): (r: seq<Event>)
    requires i <= |data|
    ensures |r| <= 1 && (EndFrom(data, i) == |data| ==> r == [])
  {
    var e := EndFrom(data, i);
    if e < |data| && p(data[e..]).Object? then [p(data[e..]).event] else []
  }

  lemma NoLineLeft(data: Bytes, i: nat, p: Parser)
    requires i <= |data| && FindNewline(data, i).None?
    ensures EntriesFrom(data, i, p) == [] && Objects(ReadLines(data, i), p) == TailEvents(data, i, p)
  {
    if i < |data| {
      assert ReadLines(data, i) == [data[i..]];
      assert [data[i..]][1..] == [];
    }
  }

  lemma LineJoins(data: Bytes, i: nat, k: nat, p: Parser)
    requires i <= |data| && FindNewline(data, i) == Some(k) && EntriesFit(data, EntriesFrom(data, k + 1, p), p)
    requires Objects(ReadLines(data, k + 1), p)
      == EventsOf(data, EntriesFrom(data, k + 1, p), p) + TailEvents(data, k + 1, p)
    ensures EntriesFit(data, EntriesFrom(data, i, p), p)
    ensures Objects(ReadLines(data, i), p) == EventsOf(data, EntriesFrom(data, i, p), p) + TailEvents(data, i, p)
  {
    LineIsStream(data, i, k, p);
    StreamLine(data, i, k, p);
    EventsJoin(data, Summary(i, data[i..k], p), EntriesFrom(data, k + 1, p), p);
    EntriesStep(data, i, k, p);
    JoinThree(EventsOf(data, Summary(i, data[i..k], p), p), EventsOf(data, EntriesFrom(data, k + 1, p), p),
        TailEvents(data, i, p));
  }

  lemma JoinThree(a: seq<Event>, b: seq<Event>, c: seq<Event>)
    ensures a + (b + c) == (a + b) + c
  {
  }

  // A streaming read finds the events of the index, in order, and after them the
  // event of an unterminated tail, if it is one.
  lemma {:induction false} StreamIsIndexAndTail(data: Bytes, i: nat, p: Parser)
    requires i <= |data|
    ensures EntriesFit(data, EntriesFrom(data, i, p), p)
    ensures Objects(ReadLines(data, i), p) == EventsOf(data, EntriesFrom(data, i, p), p) + TailEvents(data, i, p)
    decreases |data| - i
  {
    var nl := FindNewline(data, i);
    if nl.Some? {
      StreamIsIndexAndTail(data, nl.value + 1, p);
      LineJoins(data, i, nl.value, p);
    } else {
      NoLineLeft(data, i, p);
    }
  }

  // On newline-terminated data the two are the same.
  lemma IndexIsStream(data: Bytes, i: nat, p: Parser)
    requires i <= |data| && Terminated(data)
    ensures EntriesFit(data, EntriesFrom(data, i, p), p)
    ensures EventsOf(data, EntriesFrom(data, i, p), p) == Objects(ReadLines(data, i), p)
  {
    StreamIsIndexAndTail(data, i, p);
    TerminatedEnd(data, i);
  }
}
