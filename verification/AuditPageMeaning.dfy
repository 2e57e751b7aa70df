// What one page shows and where it starts, told from the entries and the cursor.
module AuditPageMeaning {
  import opened Common
  import opened AuditLines
  import opened AuditIndexProofs
  import opened AuditPages
  import opened AuditMeaning
  import AuditPageProofs
  import AuditQueries

  type Filter = AuditQueries.Filter

  // The entry's event fits the filter and its bytes parse as they stand.
  predicate Shows(t: Trail, entries: seq<Entry>, rd: Reader, f: Filter, i: int)
    requires EntriesFit(t.data, entries, rd.parse) && 0 <= i < |entries|
  {
    assert EntryFits(t.data, entries[i], rd.parse);
    Fits(f, EventAt(t.data, entries[i], rd.parse)) && rd.loads(LineOf(t.data, entries[i]))
  }

  // The cursor names this entry: the same file, the same place, and the same bytes.
  predicate Names(t: Trail, entries: seq<Entry>, rd: Reader, c: Cursor, i: int)
    requires EntriesFit(t.data, entries, rd.parse)
  {
    0 <= i < |entries| && EntryFits(t.data, entries[i], rd.parse)
    && c.file == t.file && c.offset == entries[i].offset && c.length == entries[i].length
    && c.digest == rd.digest(LineOf(t.data, entries[i]))
  }

  // A page starts at the end of the trail, or below the entry its cursor names.
  predicate StartsAt(t: Trail, entries: seq<Entry>, rd: Reader, cursor: Option<Cursor>, stop: int)
    requires EntriesFit(t.data, entries, rd.parse)
  {
    if cursor.None? then stop == |entries| else Names(t, entries, rd, cursor.value, stop)
  }

  // The page holds the events of these entries, later ones first, and they are to be
  // shown.
  predicate Holds(t: Trail, entries: seq<Entry>, rd: Reader, f: Filter, stop: int, page: Page, ps: seq<int>)
    requires EntriesFit(t.data, entries, rd.parse) && 0 <= stop <= |entries|
  {
    |ps| == |page.events| && Descending(ps)
    && forall k :: 0 <= k < |ps| ==>
         0 <= ps[k] < stop && EntryFits(t.data, entries[ps[k]], rd.parse) && Shows(t, entries, rd, f, ps[k])
         && page.events[k] == EventAt(t.data, entries[ps[k]], rd.parse)
  }

  // An entry to be shown below the start that is not on the page.
  predicate LeftOver(t: Trail, entries: seq<Entry>, rd: Reader, f: Filter, stop: int, ps: seq<int>, i: int)
    requires EntriesFit(t.data, entries, rd.parse) && 0 <= stop <= |entries|
  {
    0 <= i < stop && Shows(t, entries, rd, f, i) && i !in ps
  }

  // There is a next cursor exactly if something is left over; then the page is full,
  // what is left lies below it, and the cursor names its last entry.
  ghost predicate GoesOn(t: Trail, entries: seq<Entry>, rd: Reader, f: Filter, limit: Option<int>, stop: int,
                         page: Page, ps: seq<int>)
    requires EntriesFit(t.data, entries, rd.parse) && 0 <= stop <= |entries|
  {
    && (limit.Some? ==> |ps| <= limit.value)
    && (page.next.Some? <==> exists i :: LeftOver(t, entries, rd, f, stop, ps, i))
    && (page.next.Some? ==>
          limit == Some(|ps|) && |ps| > 0 && Names(t, entries, rd, page.next.value, ps[|ps| - 1])
          && forall i :: LeftOver(t, entries, rd, f, stop, ps, i) ==> i < ps[|ps| - 1])
  }

  ghost predicate PageFrom(t: Trail, entries: seq<Entry>, rd: Reader, f: Filter, limit: Option<int>, stop: int,
                           page: Page)
    requires EntriesFit(t.data, entries, rd.parse) && 0 <= stop <= |entries|
  {
    if limit.Some? && limit.value <= 0 then page == Page([], None)
    else exists ps: seq<int> :: Holds(t, entries, rd, f, stop, page, ps)
                                && GoesOn(t, entries, rd, f, limit, stop, page, ps)
  }

  // A cursor that names no entry any more has expired; otherwise the page is read
  // from where it starts.
  ghost predicate PageReads(t: Trail, entries: seq<Entry>, rd: Reader, f: Filter, limit: Option<int>,
                            cursor: Option<Cursor>, r: Result<Page, PageError>)
    requires EntriesFit(t.data, entries, rd.parse)
  {
    if r.Err? then cursor.Some? && forall i :: !Names(t, entries, rd, cursor.value, i)
    else exists stop :: 0 <= stop <= |entries| && StartsAt(t, entries, rd, cursor, stop)
                        && PageFrom(t, entries, rd, f, limit, stop, r.value)
  }

  // ----- the page is so -----

  lemma CardShows(t: Trail, entries: seq<Entry>, rd: Reader, f: Filter, i: nat)
    requires EntriesFit(t.data, entries, rd.parse) && i < |entries|
    ensures var c := Deck(t.data, entries, rd, f)[i];
      && EntryFits(t.data, entries[i], rd.parse)
      && c.event == EventAt(t.data, entries[i], rd.parse) && (c.shown <==> Shows(t, entries, rd, f, i))
      && c.offset == entries[i].offset && c.length == entries[i].length
      && c.digest == rd.digest(LineOf(t.data, entries[i]))
  {
    assert EntryFits(t.data, entries[i], rd.parse);
    PassesIsFits(f, EventAt(t.data, entries[i], rd.parse));
  }

  lemma {:induction false} LocateIs(cards: seq<Card>, offset: nat, length: nat, i: nat)
    requires i <= |cards|
    ensures Locate(cards, offset, length, i).None? ==>
      forall k :: i <= k < |cards| ==> cards[k].offset != offset || cards[k].length != length
    decreases |cards| - i
  {
    if i < |cards| {
      LocateIs(cards, offset, length, i + 1);
    }
  }

  // Entries at one place are one line, so the digest decides for all of them.
  lemma SamePlaceSameDigest(t: Trail, entries: seq<Entry>, rd: Reader, f: Filter, i: nat, k: nat)
    requires EntriesFit(t.data, entries, rd.parse) && i < |entries| && k < |entries|
    requires entries[i].offset == entries[k].offset && entries[i].length == entries[k].length
    ensures Deck(t.data, entries, rd, f)[i].digest == Deck(t.data, entries, rd, f)[k].digest
  {
    CardShows(t, entries, rd, f, i);
    CardShows(t, entries, rd, f, k);
  }

  lemma StopIs(t: Trail, entries: seq<Entry>, rd: Reader, f: Filter, cursor: Option<Cursor>)
    requires EntriesFit(t.data, entries, rd.parse)
    ensures var stop := StopAt(t.file, Deck(t.data, entries, rd, f), cursor);
      if stop.Some? then StartsAt(t, entries, rd, cursor, stop.value)
      else cursor.Some? && forall i :: !Names(t, entries, rd, cursor.value, i)
  {
    var cards := Deck(t.data, entries, rd, f);
    if cursor.Some? && cursor.value.file == t.file {
      var c := cursor.value;
      LocateIs(cards, c.offset, c.length, 0);
      var at := Locate(cards, c.offset, c.length, 0);
      if at.Some? {
        CardShows(t, entries, rd, f, at.value);
      }
      forall i | Names(t, entries, rd, c, i) ensures at.Some? && cards[at.value].digest == c.digest {
        CardShows(t, entries, rd, f, i);
        SamePlaceSameDigest(t, entries, rd, f, i, at.value);
      }
    }
  }

  // The places as plain positions.
  function Positions(places: seq<nat>): (ps: seq<int>)
    ensures |ps| == |places| && forall k :: 0 <= k < |ps| ==> ps[k] == places[k]
  {
    seq(|places|, k requires 0 <= k < |places| => places[k])
  }

  lemma PageIsFrom(t: Trail, entries: seq<Entry>, rd: Reader, f: Filter, limit: Option<int>, stop: nat)
    requires EntriesFit(t.data, entries, rd.parse) && stop <= |entries|
    ensures PageFrom(t, entries, rd, f, limit, stop, PageBelow(t.file, Deck(t.data, entries, rd, f), limit, stop))
  {
    var cards := Deck(t.data, entries, rd, f);
    var all := Places(cards, stop);
    AuditPageProofs.PlacesDescend(cards, stop);
    if !(limit.Some? && limit.value <= 0) {
      var n := if limit.None? || |all| <= limit.value then |all| else limit.value;
      PageHolds(t, entries, rd, f, limit, stop, all, n);
      PageGoesOn(t, entries, rd, f, limit, stop, all, n);
    }
  }

  lemma PageHolds(t: Trail, entries: seq<Entry>, rd: Reader, f: Filter, limit: Option<int>, stop: nat,
                  all: seq<nat>, n: nat)
    requires EntriesFit(t.data, entries, rd.parse) && stop <= |entries| && n <= |all|
    requires all == Places(Deck(t.data, entries, rd, f), stop)
    requires n == if limit.None? || |all| <= limit.value then |all| else limit.value
    requires !(limit.Some? && limit.value <= 0)
    ensures var page := PageBelow(t.file, Deck(t.data, entries, rd, f), limit, stop);
      Holds(t, entries, rd, f, stop, page, Positions(all[..n]))
  {
    var cards := Deck(t.data, entries, rd, f);
    AuditPageProofs.PlacesDescend(cards, stop);
    assert all[..|all|] == all;
    forall k | 0 <= k < n
      ensures EntryFits(t.data, entries[all[k]], rd.parse) && Shows(t, entries, rd, f, all[k])
      ensures cards[all[k]].event == EventAt(t.data, entries[all[k]], rd.parse)
    {
      CardShows(t, entries, rd, f, all[k]);
      assert all[k] in all;
    }
  }

  lemma PageGoesOn(t: Trail, entries: seq<Entry>, rd: Reader, f: Filter, limit: Option<int>, stop: nat,
                   all: seq<nat>, n: nat)
    requires EntriesFit(t.data, entries, rd.parse) && stop <= |entries| && n <= |all|
    requires all == Places(Deck(t.data, entries, rd, f), stop)
    requires n == if limit.None? || |all| <= limit.value then |all| else limit.value
    requires !(limit.Some? && limit.value <= 0)
    ensures var page := PageBelow(t.file, Deck(t.data, entries, rd, f), limit, stop);
      GoesOn(t, entries, rd, f, limit, stop, page, Positions(all[..n]))
  {
    var cards := Deck(t.data, entries, rd, f);
    AuditPageProofs.PlacesDescend(cards, stop);
    NextIs(t.file, cards, limit, stop, all, n);
    LeftsAreRest(t, entries, rd, f, stop, all, n);
    if n < |all| {
      LastIsNamed(t, entries, rd, f, all[n - 1]);
    }
    GoesOnWith(t, entries, rd, f, limit, stop, PageBelow(t.file, cards, limit, stop), all, n);
  }

  lemma GoesOnWith(t: Trail, entries: seq<Entry>, rd: Reader, f: Filter, limit: Option<int>, stop: nat, page: Page,
                   all: seq<nat>, n: nat)
    requires EntriesFit(t.data, entries, rd.parse) && stop <= |entries| && n <= |all|
    requires forall j, k :: 0 <= j < k < |all| ==> all[k] < all[j]
    requires forall i :: LeftOver(t, entries, rd, f, stop, Positions(all[..n]), i) <==> i in all[n..]
    requires limit.Some? ==> n <= limit.value
    requires if n < |all| then limit == Some(n) && 0 < n && page.next.Some? else page.next.None?
    requires n < |all| ==> Names(t, entries, rd, page.next.value, all[n - 1])
    ensures GoesOn(t, entries, rd, f, limit, stop, page, Positions(all[..n]))
  {
    if n < |all| {
      RestIsBelow(all, n);
    }
  }

  lemma NextIs(file: FileId, cards: seq<Card>, limit: Option<int>, stop: nat, all: seq<nat>, n: nat)
    requires stop <= |cards| && all == Places(cards, stop) && n <= |all|
    requires n == if limit.None? || |all| <= limit.value then |all| else limit.value
    requires !(limit.Some? && limit.value <= 0)
    ensures PageBelow(file, cards, limit, stop).next
         == if n < |all| then Some(CursorFor(file, cards[all[n - 1]])) else None
  {
  }

  lemma LastIsNamed(t: Trail, entries: seq<Entry>, rd: Reader, f: Filter, i: nat)
    requires EntriesFit(t.data, entries, rd.parse) && i < |entries|
    ensures Names(t, entries, rd, CursorFor(t.file, Deck(t.data, entries, rd, f)[i]), i)
  {
    CardShows(t, entries, rd, f, i);
  }

  lemma LeftsAreRest(t: Trail, entries: seq<Entry>, rd: Reader, f: Filter, stop: nat, all: seq<nat>, n: nat)
    requires EntriesFit(t.data, entries, rd.parse) && stop <= |entries| && n <= |all|
    requires all == Places(Deck(t.data, entries, rd, f), stop)
    ensures forall i :: LeftOver(t, entries, rd, f, stop, Positions(all[..n]), i) <==> i in all[n..]
  {
    forall i ensures LeftOver(t, entries, rd, f, stop, Positions(all[..n]), i) <==> i in all[n..] {
      LeftIsRest(t, entries, rd, f, stop, all, n, i);
    }
  }

  lemma RestIsBelow(all: seq<nat>, n: nat)
    requires 0 < n < |all| && forall j, k :: 0 <= j < k < |all| ==> all[k] < all[j]
    ensures all[n] in all[n..] && forall i :: i in all[n..] ==> i < all[n - 1]
  {
    assert all[n..][0] == all[n];
    forall i | i in all[n..] ensures i < all[n - 1] {
      var k :| 0 <= k < |all[n..]| && all[n..][k] == i;
      assert all[n + k] == i;
    }
  }

  lemma LeftIsRest(t: Trail, entries: seq<Entry>, rd: Reader, f: Filter, stop: nat, all: seq<nat>, n: nat, i: int)
    requires EntriesFit(t.data, entries, rd.parse) && stop <= |entries| && n <= |all|
    requires all == Places(Deck(t.data, entries, rd, f), stop)
    ensures LeftOver(t, entries, rd, f, stop, Positions(all[..n]), i) <==> i in all[n..]
  {
    var cards := Deck(t.data, entries, rd, f);
    AuditPageProofs.PlacesDescend(cards, stop);
    assert all == all[..n] + all[n..];
    assert i in Positions(all[..n]) <==> i in all[..n] by {
      if i in all[..n] {
        var k :| 0 <= k < n && all[..n][k] == i;
        assert Positions(all[..n])[k] == i;
      }
    }
    if 0 <= i < stop {
      CardShows(t, entries, rd, f, i);
    }
  }

  lemma PageOfReads(t: Trail, entries: seq<Entry>, rd: Reader, f: Filter, limit: Option<int>, cursor: Option<Cursor>)
    requires EntriesFit(t.data, entries, rd.parse)
    ensures PageReads(t, entries, rd, f, limit, cursor, PageOf(t.file, Deck(t.data, entries, rd, f), limit, cursor))
  {
    StopIs(t, entries, rd, f, cursor);
    var stop := StopAt(t.file, Deck(t.data, entries, rd, f), cursor);
    if stop.Some? {
      PageIsFrom(t, entries, rd, f, limit, stop.value);
    }
  }
}
