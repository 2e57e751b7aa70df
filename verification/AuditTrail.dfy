// The loops of the audit reader, over an index that grows in place.
module AuditTrail {
  import opened Common
  import opened AuditLines
  import opened AuditIndexProofs

  const INDEX_MAX_ENTRIES: nat := 200000

  // found and junk account for the lines of data from base to start.
  ghost predicate SoFar(data: Bytes, base: nat, p: Parser, start: nat, found: seq<Entry>, junk: nat) {
    EntriesFrom(data, base, p) == found + EntriesFrom(data, start, p)
    && GarbageFrom(data, base, p) == junk + GarbageFrom(data, start, p)
    && EndFrom(data, base) == EndFrom(data, start)
  }

  lemma SoFarStep(data: Bytes, base: nat, p: Parser, start: nat, k: nat, found: seq<Entry>, junk: nat)
    requires start <= |data| && FindNewline(data, start) == Some(k) && SoFar(data, base, p, start, found, junk)
    ensures SoFar(data, base, p, k + 1,
                  found + Summary(start, data[start..k], p), junk + GarbageCount(data[start..k], p))
  {
    EntriesStep(data, start, k, p);
    Reassociate(found, Summary(start, data[start..k], p), EntriesFrom(data, k + 1, p));
  }

  lemma SoFarDone(data: Bytes, base: nat, p: Parser, start: nat, found: seq<Entry>, junk: nat)
    requires SoFar(data, base, p, start, found, junk) && FindNewline(data, start).None?
    ensures found == EntriesFrom(data, base, p) && junk == GarbageFrom(data, base, p) && start == EndFrom(data, base)
  {
  }

  // The newline-scanning loop: the lines of data from base on.
  method Summarize(data: Bytes, base: nat, p: Parser) returns (start: nat, found: seq<Entry>, junk: nat)
    requires base <= |data|
    ensures found == EntriesFrom(data, base, p) && junk == GarbageFrom(data, base, p) && start == EndFrom(data, base)
  {
    NothingSoFar(data, base, p);
    start, found, junk := base, [], 0;
    var nl := FindNewline(data, start);
    while nl.Some?
      invariant start <= |data| && nl == FindNewline(data, start)
      invariant SoFar(data, base, p, start, found, junk)
      decreases |data| - start
    {
      start, found, junk := PassLine(data, base, p, start, nl.value, found, junk);
      nl := FindNewline(data, start);
    }
    SoFarDone(data, base, p, start, found, junk);
  }

  lemma NothingSoFar(data: Bytes, base: nat, p: Parser)
    ensures SoFar(data, base, p, base, [], 0)
  {
    Reassociate([], [], EntriesFrom(data, base, p));
  }

  // Take the line up to k and go on behind it.
  method PassLine(data: Bytes, ghost base: nat, p: Parser, start: nat, k: nat, before: seq<Entry>, junkBefore: nat)
    returns (next: nat, found: seq<Entry>, junk: nat)
    requires start <= |data| && FindNewline(data, start) == Some(k) && SoFar(data, base, p, start, before, junkBefore)
    ensures next == k + 1 <= |data| && start < next && SoFar(data, base, p, next, found, junk)
  {
    SoFarStep(data, base, p, start, k, before, junkBefore);
    found, junk := TakeLine(start, data[start..k], p, before, junkBefore);
    next := k + 1;
  }

  // One line summarized after those before it.
  method TakeLine(start: nat, line: Bytes, p: Parser, before: seq<Entry>, junkBefore: nat)
    returns (found: seq<Entry>, junk: nat)
    ensures found == before + Summary(start, line, p) && junk == junkBefore + GarbageCount(line, p)
  {
    found, junk := before, junkBefore;
    match p(line)
    case Blank =>
    case Garbage => junk := junk + 1;
    case Object(e) => found := found + [Entry(start, |line|, e.ts, e.category)];
  }

  class TrailIndex {
    var consumed: nat
    var head: Option<Bytes>
    var entries: seq<Entry>
    var garbage: nat
    var disabled: bool

    constructor ()
      ensures Value() == EmptyIndex && !disabled
    {
      consumed, head, entries, garbage, disabled := 0, None, [], 0, false;
    }

    function Value(): Index
      reads this
    {
      Index(consumed, head, entries, garbage)
    }

    // Index the complete lines not indexed yet; a torn tail is left alone.
    method Grow(data: Bytes, p: Parser)
      requires consumed <= |data|
      modifies this
      ensures Value() == Grown(old(Value()), data, p) && disabled == old(disabled)
    {
      var start, found, junk := Summarize(data, consumed, p);
      if consumed == 0 {
        head := Some(Prefix(data, INDEX_HEAD));
      }
      entries := entries + found;
      garbage := garbage + junk;
      consumed := start;
    }

    // Bring the index up to the file's present content. Another file, or the same
    // one no longer recognised as grown (shorter, beginning differently, or without
    // a newline where the index ends), is indexed afresh. None when there are too
    // many entries to keep. seen is what the index was last brought up to.
    method Refresh(data: Bytes, p: Parser, sameFile: bool, ghost seen: Bytes) returns (view: Option<seq<Entry>>)
      modifies this
      ensures view.Some? ==> view.value == entries && !disabled
      ensures view.None? ==> disabled
      ensures view.Some? && !(sameFile && Recognised(data, old(consumed), old(head))) ==>
                Value() == Scratch(data, p) && Describes(Value(), data, p)
      ensures view.Some? && sameFile && Recognised(data, old(consumed), old(head)) ==>
                Value() == Caught(old(Value()), data, p)
      ensures view.Some? && sameFile && Describes(old(Value()), seen, p) && GrewTo(seen, data) ==>
                Describes(Value(), data, p)
    {
      RecognitionIs(data, Value());
      if sameFile && disabled {
        return None;
      }
      if sameFile {
        CaughtUp(Value(), seen, data, p);
      }
      if !sameFile || !Extends(data, Value()) {
        consumed, head, entries, garbage, disabled := 0, None, [], 0, false;
        FromScratch(data, p);
      }
      if |data| > consumed {
        Grow(data, p);
      }
      if |entries| > INDEX_MAX_ENTRIES {
        disabled, entries, garbage := true, [], 0;
        return None;
      }
      return Some(entries);
    }
  }

  // The file is at least as long as what was indexed, begins as remembered, and what
  // was indexed ends with a newline.
  predicate Recognised(data: Bytes, consumed: nat, head: Option<Bytes>) {
    && consumed <= |data| && (consumed > 0 ==> data[consumed - 1] == NEWLINE)
    && (head.Some? ==> |head.value| <= |data| && forall i :: 0 <= i < |head.value| ==> data[i] == head.value[i])
  }

  lemma RecognitionIs(data: Bytes, idx: Index)
    ensures Extends(data, idx) <==> Recognised(data, idx.consumed, idx.head)
  {
    if idx.head.Some? && |idx.head.value| <= |data| {
      assert Prefix(data, |idx.head.value|) == data[..|idx.head.value|];
    }
  }

  lemma FromScratch(data: Bytes, p: Parser)
    ensures Describes(Scratch(data, p), data, p)
  {
    CatchingUpKeepsIndex(EmptyIndex, [], data, p);
  }

  lemma CaughtUp(idx: Index, seen: Bytes, data: Bytes, p: Parser)
    ensures Describes(idx, seen, p) && GrewTo(seen, data) ==>
      Extends(data, idx) && Describes(Caught(idx, data, p), data, p)
  {
    if Describes(idx, seen, p) && GrewTo(seen, data) {
      CatchingUpKeepsIndex(idx, seen, data, p);
    }
  }
}
