// Cursor paging through the trail while it grows.
module AuditPages {
  import opened Common
  import opened AuditLines
  import opened AuditIndexProofs
  import opened AuditQueries

  type FileId = (int, int)
  type Digest = string

  // The anchor: the last line returned, by file, place and content.
  datatype Cursor = Cursor(file: FileId, offset: nat, length: nat, digest: Digest)

  datatype Trail = Trail(file: FileId, data: Bytes)

  datatype Page = Page(events: seq<Event>, next: Option<Cursor>)

  datatype PageError = CursorExpired

  // How lines are read: their summary, whether the bytes parse as they stand
  // (without stripping), and their digest.
  datatype Reader = Reader(parse: Parser, loads: Bytes -> bool, digest: Bytes -> Digest)

  // What paging needs of an entry: where it is, its content, and whether it is to
  // be shown under the filter at hand.
  datatype Card = Card(offset: nat, length: nat, digest: Digest, shown: bool, event: Event)

  function LineOf(data: Bytes, e: Entry): Bytes
    requires e.offset + e.length <= |data|
  {
    data[e.offset..e.offset + e.length]
  }

  function CardOf(data: Bytes, e: Entry, rd: Reader, f: Filter): Card
    requires EntryFits(data, e, rd.parse)
  {
    var line := LineOf(data, e);
    Card(e.offset, e.length, rd.digest(line), Passes(f, e.ts, e.category) && rd.loads(line), EventAt(data, e, rd.parse))
  }

  function Deck(data: Bytes, entries: seq<Entry>, rd: Reader, f: Filter): (r: seq<Card>)
    requires EntriesFit(data, entries, rd.parse)
    ensures |r| == |entries| && forall k :: 0 <= k < |r| ==> r[k] == CardOf(data, entries[k], rd, f)
  {
    seq(|entries|, k requires 0 <= k < |entries| => CardOf(data, entries[k], rd, f))
  }

  // The places of the cards to show below stop, last first.
  function Places(cards: seq<Card>, stop: nat): (r: seq<nat>)
    requires stop <= |cards|
    ensures forall k :: 0 <= k < |r| ==> r[k] < stop
  {
    if stop == 0 then []
    else if cards[stop - 1].shown then [stop - 1] + Places(cards, stop - 1)
    else Places(cards, stop - 1)
  }

  predicate Within(places: seq<nat>, n: nat) {
    forall k :: 0 <= k < |places| ==> places[k] < n
  }

  function EventsAt(cards: seq<Card>, places: seq<nat>): (r: seq<Event>)
    requires Within(places, |cards|)
    ensures |r| == |places| && forall k :: 0 <= k < |r| ==> r[k] == cards[places[k]].event
  {
    seq(|places|, k requires 0 <= k < |places| => cards[places[k]].event)
  }

  // The first card at that place.
  function Locate(cards: seq<Card>, offset: nat, length: nat, i: nat): (r: Option<nat>)
    requires i <= |cards|
    ensures r.Some? ==> i <= r.value < |cards| && cards[r.value].offset == offset && cards[r.value].length == length
    decreases |cards| - i
  {
    if i == |cards| then None
    else if cards[i].offset == offset && cards[i].length == length then Some(i)
    else Locate(cards, offset, length, i + 1)
  }

  // Where the page starts: the end, or the cursor's line if it is still there.
  function StopAt(file: FileId, cards: seq<Card>, cursor: Option<Cursor>): (r: Option<nat>)
    ensures r.Some? ==> r.value <= |cards|
  {
    match cursor
    case None => Some(|cards|)
    case Some(c) =>
      if c.file != file then None
      else
        var at := Locate(cards, c.offset, c.length, 0);
        if at.None? || cards[at.value].digest != c.digest then None else at
  }

  function CursorFor(file: FileId, c: Card): Cursor {
    Cursor(file, c.offset, c.length, c.digest)
  }

  // The page of the cards to show below stop: the first limit of them, and a
  // cursor at the last one if there are more.
  function PageBelow(file: FileId, cards: seq<Card>, limit: Option<int>, stop: nat): Page
    requires stop <= |cards|
  {
    var places := Places(cards, stop);
    if limit.Some? && limit.value <= 0 then Page([], None)
    else if limit.None? || |places| <= limit.value then Page(EventsAt(cards, places), None)
    else Page(EventsAt(cards, places[..limit.value]), Some(CursorFor(file, cards[places[limit.value - 1]])))
  }

  function PageOf(file: FileId, cards: seq<Card>, limit: Option<int>, cursor: Option<Cursor>): Result<Page, PageError> {
    match StopAt(file, cards, cursor)
    case None => Err(CursorExpired)
    case Some(stop) => Ok(PageBelow(file, cards, limit, stop))
  }
}

// Pages over a growing deck of cards.
module AuditPageProofs {
  import opened Common
  import opened AuditLines
  import opened AuditPages

  predicate OffsetsAscend(cards: seq<Card>) {
    forall j, k :: 0 <= j < k < |cards| ==> cards[j].offset < cards[k].offset
  }

  lemma {:induction false} LocateFinds(cards: seq<Card>, i: nat, j: nat)
    requires OffsetsAscend(cards) && i <= j < |cards|
    ensures Locate(cards, cards[j].offset, cards[j].length, i) == Some(j)
    decreases j - i
  {
    if i < j {
      LocateFinds(cards, i + 1, j);
    }
  }

  predicate Prefixes(cards: seq<Card>, more: seq<Card>) {
    |cards| <= |more| && forall k :: 0 <= k < |cards| ==> more[k] == cards[k]
  }

  lemma {:induction false} SamePlaces(cards: seq<Card>, more: seq<Card>, stop: nat)
    requires Prefixes(cards, more) && stop <= |cards|
    ensures Places(more, stop) == Places(cards, stop)
    decreases stop
  {
    if stop > 0 {
      SamePlaces(cards, more, stop - 1);
    }
  }

  // Each card is listed at most once, later ones first, and exactly if shown.
  lemma {:induction false} PlacesDescend(cards: seq<Card>, stop: nat)
    requires stop <= |cards|
    ensures forall j, k :: 0 <= j < k < |Places(cards, stop)| ==> Places(cards, stop)[k] < Places(cards, stop)[j]
    ensures forall i :: 0 <= i < stop ==> (i in Places(cards, stop) <==> cards[i].shown)
    decreases stop
  {
    if stop > 0 {
      PlacesDescend(cards, stop - 1);
    }
  }

  // Starting below a shown place, the places left are those after it.
  lemma {:induction false} PlacesBelow(cards: seq<Card>, stop: nat, k: nat)
    requires stop <= |cards| && k < |Places(cards, stop)|
    ensures Places(cards, Places(cards, stop)[k]) == Places(cards, stop)[k + 1..]
    decreases stop
  {
    var all, rest := Places(cards, stop), Places(cards, stop - 1);
    if !cards[stop - 1].shown {
      PlacesBelow(cards, stop - 1, k);
    } else if k > 0 {
      PlacesBelow(cards, stop - 1, k - 1);
      assert all[k] == rest[k - 1] && all[k + 1..] == rest[k..];
    } else {
      assert all[1..] == rest;
    }
  }

  function Upto(a: nat, b: nat): nat {
    if a < b then a else b
  }

  // A page shows the next limit places and points at the last of them when there
  // are more.
  lemma PageShape(file: FileId, cards: seq<Card>, limit: nat, stop: nat, left: seq<nat>)
    requires stop <= |cards| && limit > 0 && left == Places(cards, stop)
    ensures var page := PageBelow(file, cards, Some(limit), stop);
      page.events == EventsAt(cards, left[..Upto(limit, |left|)])
      && (page.next.Some? <==> limit < |left|)
      && (limit < |left| ==> page.next == Some(CursorFor(file, cards[left[limit - 1]])))
  {
    assert |left| <= limit ==> left[..|left|] == left;
  }

  // ----- following the cursors -----

  // What a reader does: the file's cards as they stand before each page, and the
  // page size.
  datatype Walk = Walk(file: FileId, decks: seq<seq<Card>>, limit: nat)

  // Nothing but appends happens.
  predicate OnlyGrows(w: Walk) {
    w.limit > 0 && w.decks != []
    && forall k :: 0 <= k < |w.decks| ==> Prefixes(w.decks[0], w.decks[k]) && OffsetsAscend(w.decks[k])
  }

  // The k-th page: the first without a cursor, each other one with the cursor
  // the page before it gave.
  function NthPage(w: Walk, k: nat): Result<Page, PageError>
    requires k < |w.decks|
  {
    if k == 0 then PageOf(w.file, w.decks[0], Some(w.limit), None)
    else
      var before := NthPage(w, k - 1);
      if before.Err? || before.value.next.None? then Err(CursorExpired)
      else PageOf(w.file, w.decks[k], Some(w.limit), before.value.next)
  }

  // The places to show of the first snapshot.
  function Snapshot(w: Walk): seq<nat>
    requires w.decks != []
  {
    Places(w.decks[0], |w.decks[0]|)
  }

  // Where the k-th page starts: k times the limit.
  function Nth(limit: nat, k: nat): (r: nat)
    ensures limit > 0 ==> r >= k
    ensures k > 0 ==> r >= limit
  {
    if k == 0 then 0 else Nth(limit, k - 1) + limit
  }

  lemma {:induction false} NthIsProduct(limit: nat, k: nat)
    ensures Nth(limit, k) == k * limit
  {
    if k > 0 {
      NthIsProduct(limit, k - 1);
    }
  }

  // The card below which a page looks that has the snapshot from place from on left.
  function StopOf(cards: seq<Card>, snap: seq<nat>, from: nat): nat
    requires from <= |snap|
  {
    if from == 0 then |cards| else snap[from - 1]
  }

  // Looking below that card in a grown deck finds the rest of the snapshot.
  lemma LeftBelow(cards: seq<Card>, more: seq<Card>, snap: seq<nat>, from: nat)
    requires Prefixes(cards, more) && snap == Places(cards, |cards|) && from <= |snap|
    ensures StopOf(cards, snap, from) <= |cards| && Places(more, StopOf(cards, snap, from)) == snap[from..]
  {
    SamePlaces(cards, more, StopOf(cards, snap, from));
    if from > 0 {
      PlacesBelow(cards, |cards|, from - 1);
    }
  }

  // A page that has the snapshot from place from on left: what it shows, and where
  // its cursor points.
  lemma PageFrom(file: FileId, cards: seq<Card>, more: seq<Card>, limit: nat, snap: seq<nat>, from: nat)
    requires Prefixes(cards, more) && snap == Places(cards, |cards|) && from <= |snap| && limit > 0
    ensures StopOf(cards, snap, from) <= |more|
    ensures var page := PageBelow(file, more, Some(limit), StopOf(cards, snap, from));
      page.events == EventsAt(cards, snap[from..Upto(from + limit, |snap|)])
      && (page.next.Some? <==> from + limit < |snap|)
      && (from + limit < |snap| ==> page.next == Some(CursorFor(file, cards[snap[from + limit - 1]])))
  {
    LeftBelow(cards, more, snap, from);
    var left := snap[from..];
    PageShape(file, more, limit, StopOf(cards, snap, from), left);
    assert left[..Upto(limit, |left|)] == snap[from..Upto(from + limit, |snap|)];
    assert from + limit < |snap| ==> left[limit - 1] == snap[from + limit - 1];
  }

  // A cursor to an old card is found in every grown deck.
  lemma CursorFound(file: FileId, cards: seq<Card>, more: seq<Card>, at: nat)
    requires Prefixes(cards, more) && OffsetsAscend(more) && at < |cards|
    ensures StopAt(file, more, Some(CursorFor(file, cards[at]))) == Some(at)
  {
    LocateFinds(more, 0, at);
  }

  // Page k is there and looks below the card it should.
  predicate Stands(w: Walk, snap: seq<nat>, k: nat, from: nat)
    requires k < |w.decks| && from <= |snap|
  {
    var stop := StopOf(w.decks[0], snap, from);
    stop <= |w.decks[k]| && NthPage(w, k).Ok?
        && NthPage(w, k).value == PageBelow(w.file, w.decks[k], Some(w.limit), stop)
  }

  lemma FirstStands(w: Walk, snap: seq<nat>)
    requires w.decks != []
    ensures Stands(w, snap, 0, 0)
  {
  }

  // The page after one that gave a cursor to an old card.
  lemma PageAfter(w: Walk, cards: seq<Card>, j: nat, k: nat, at: nat)
    requires k == j + 1 < |w.decks| && at < |cards| && Prefixes(cards, w.decks[k]) && OffsetsAscend(w.decks[k])
    requires NthPage(w, j).Ok? && NthPage(w, j).value.next == Some(CursorFor(w.file, cards[at]))
    ensures NthPage(w, k).Ok? && NthPage(w, k).value == PageBelow(w.file, w.decks[k], Some(w.limit), at)
  {
    CursorFound(w.file, cards, w.decks[k], at);
  }

  lemma NextStands(w: Walk, snap: seq<nat>, j: nat, k: nat, from: nat, to: nat)
    requires k == j + 1 < |w.decks| && to == from + w.limit < |snap| && Stands(w, snap, j, from)
    requires Prefixes(w.decks[0], w.decks[j]) && Prefixes(w.decks[0], w.decks[k]) && OffsetsAscend(w.decks[k])
    requires w.limit > 0 && snap == Snapshot(w)
    ensures Stands(w, snap, k, to)
  {
    GivesCursor(w, snap, j, from, to);
    PageAfter(w, w.decks[0], j, k, snap[to - 1]);
  }

  lemma GivesCursor(w: Walk, snap: seq<nat>, j: nat, from: nat, to: nat)
    requires j < |w.decks| && to == from + w.limit < |snap| && Stands(w, snap, j, from)
    requires Prefixes(w.decks[0], w.decks[j]) && w.limit > 0 && snap == Snapshot(w)
    ensures snap[to - 1] < |w.decks[0]|
    ensures NthPage(w, j).value.next == Some(CursorFor(w.file, w.decks[0][snap[to - 1]]))
  {
    PageFrom(w.file, w.decks[0], w.decks[j], w.limit, snap, from);
  }

  lemma {:induction false} PageStands(w: Walk, snap: seq<nat>, k: nat, from: nat)
    requires OnlyGrows(w) && k < |w.decks| && snap == Snapshot(w) && from == Nth(w.limit, k)
      && (k == 0 || from < |snap|)
    ensures Stands(w, snap, k, from)
    decreases k
  {
    if k == 0 {
      FirstStands(w, snap);
    } else {
      var j, before := k - 1, Nth(w.limit, k - 1);
      PageStands(w, snap, j, before);
      NextStands(w, snap, j, k, before, from);
    }
  }

  // ----- what the reader sees -----

  datatype Shot = Shot(there: bool, more: bool, events: seq<Event>)

  function ShotAt(w: Walk, k: nat): Shot
    requires k < |w.decks|
  {
    var r := NthPage(w, k);
    if r.Ok? then Shot(true, r.value.next.Some?, r.value.events) else Shot(false, false, [])
  }

  // The events to show of the first snapshot, newest first.
  function SnapshotEvents(w: Walk): (r: seq<Event>)
    requires w.decks != []
    ensures |r| == |Snapshot(w)|
  {
    EventsAt(w.decks[0], Snapshot(w))
  }

  // The page shows that stretch of the snapshot's events, and promises more
  // exactly while some are left.
  predicate Shows(shot: Shot, events: seq<Event>, from: nat, till: nat) {
    shot.there && from <= |events| && from <= till
    && shot.events == events[from..Upto(till, |events|)] && (shot.more <==> till < |events|)
  }

  lemma EventsSlice(cards: seq<Card>, places: seq<nat>, a: nat, b: nat)
    requires Within(places, |cards|) && a <= b <= |places|
    ensures EventsAt(cards, places[a..b]) == EventsAt(cards, places)[a..b]
  {
  }

  lemma ShotShows(w: Walk, k: nat, from: nat)
    requires OnlyGrows(w) && k < |w.decks| && from <= |Snapshot(w)| && Stands(w, Snapshot(w), k, from)
    ensures Shows(ShotAt(w, k), SnapshotEvents(w), from, from + w.limit)
  {
    PageFrom(w.file, w.decks[0], w.decks[k], w.limit, Snapshot(w), from);
    EventsSlice(w.decks[0], Snapshot(w), from, Upto(from + w.limit, |Snapshot(w)|));
  }

  // Page k shows the k-th stretch of the first snapshot's events, and there is a
  // next cursor exactly while some are left, whatever is appended meanwhile.
  lemma PagesShowSnapshot(w: Walk, k: nat)
    requires OnlyGrows(w) && k < |w.decks| && (k == 0 || k * w.limit < |SnapshotEvents(w)|)
    ensures Shows(ShotAt(w, k), SnapshotEvents(w), k * w.limit, (k + 1) * w.limit)
  {
    NthIsProduct(w.limit, k);
    NthIsProduct(w.limit, k + 1);
    PageStands(w, Snapshot(w), k, Nth(w.limit, k));
    ShotShows(w, k, Nth(w.limit, k));
  }

  // ----- the whole walk -----

  predicate ShotLaw(shots: seq<Shot>, events: seq<Event>, limit: nat, k: nat) {
    k < |shots|
    && (k == 0 || Nth(limit, k) < |events| ==> Shows(shots[k], events, Nth(limit, k), Nth(limit, k) + limit))
    && (shots[k].there && k > 0 ==> shots[k - 1].there && shots[k - 1].more)
  }

  predicate ShotsCover(shots: seq<Shot>, events: seq<Event>, limit: nat) {
    forall k :: 0 <= k < |shots| ==> ShotLaw(shots, events, limit, k)
  }

  function Shots(w: Walk): (r: seq<Shot>)
    ensures |r| == |w.decks| && forall k :: 0 <= k < |r| ==> r[k] == ShotAt(w, k)
  {
    seq(|w.decks|, k requires 0 <= k < |w.decks| => ShotAt(w, k))
  }

  lemma ShotObeys(w: Walk, k: nat)
    requires OnlyGrows(w) && k < |w.decks|
    ensures k == 0 || Nth(w.limit, k) < |Snapshot(w)| ==>
      Shows(ShotAt(w, k), SnapshotEvents(w), Nth(w.limit, k), Nth(w.limit, k) + w.limit)
  {
    if k == 0 || Nth(w.limit, k) < |Snapshot(w)| {
      PageStands(w, Snapshot(w), k, Nth(w.limit, k));
      ShotShows(w, k, Nth(w.limit, k));
    }
  }

  lemma ShotFollows(w: Walk, k: nat)
    requires 0 < k < |w.decks| && ShotAt(w, k).there
    ensures ShotAt(w, k - 1).there && ShotAt(w, k - 1).more
  {
  }

  lemma WalkCovers(w: Walk)
    requires OnlyGrows(w)
    ensures ShotsCover(Shots(w), SnapshotEvents(w), w.limit)
  {
    forall k | 0 <= k < |w.decks| ensures ShotLaw(Shots(w), SnapshotEvents(w), w.limit, k) {
      ShotObeys(w, k);
      if k > 0 && ShotAt(w, k).there {
        ShotFollows(w, k);
      }
    }
  }

  // Everything shown on the first n pages.
  function Collected(shots: seq<Shot>, n: nat): seq<Event>
    requires n <= |shots|
  {
    if n == 0 then [] else Collected(shots, n - 1) + shots[n - 1].events
  }

  lemma {:induction false} ShotWithin(shots: seq<Shot>, events: seq<Event>, limit: nat, k: nat)
    requires ShotsCover(shots, events, limit) && k < |shots| && shots[k].there
    ensures Shows(shots[k], events, Nth(limit, k), Nth(limit, k) + limit)
  {
    assert ShotLaw(shots, events, limit, k);
    if k > 0 {
      ShotWithin(shots, events, limit, k - 1);
    }
  }

  lemma {:induction false} CollectedSoFar(shots: seq<Shot>, events: seq<Event>, limit: nat, n: nat)
    requires ShotsCover(shots, events, limit) && n < |shots| && shots[n].there
    ensures Nth(limit, n) <= |events| && Collected(shots, n) == events[..Nth(limit, n)]
  {
    ShotWithin(shots, events, limit, n);
    if n > 0 {
      assert ShotLaw(shots, events, limit, n);
      CollectedSoFar(shots, events, limit, n - 1);
      ShotWithin(shots, events, limit, n - 1);
      assert events[..Nth(limit, n)] == events[..Nth(limit, n - 1)] + events[Nth(limit, n - 1)..Nth(limit, n)];
    }
  }

  lemma ShotsComplete(shots: seq<Shot>, events: seq<Event>, limit: nat, n: nat)
    requires ShotsCover(shots, events, limit) && n < |shots| && shots[n].there && !shots[n].more
    ensures Collected(shots, n + 1) == events
  {
    ShotWithin(shots, events, limit, n);
    CollectedSoFar(shots, events, limit, n);
    assert events == events[..Nth(limit, n)] + events[Nth(limit, n)..];
  }

  lemma {:induction false} NthGrows(limit: nat, a: nat, b: nat)
    requires a <= b
    ensures Nth(limit, a) <= Nth(limit, b)
    decreases b - a
  {
    if a < b {
      NthGrows(limit, a, b - 1);
    }
  }

  lemma EnoughAsked(limit: nat, k: nat, asked: nat, m: nat)
    requires Nth(limit, k) + limit < m <= Nth(limit, asked)
    ensures k + 1 < asked
  {
    if asked <= k + 1 {
      NthGrows(limit, asked, k + 1);
    }
  }

  // A reader that keeps asking comes to a page without a next cursor, if it asks
  // often enough for the pages to hold all events.
  lemma {:induction false} WalkEnds(shots: seq<Shot>, events: seq<Event>, limit: nat, k: nat) returns (n: nat)
    requires limit > 0 && ShotsCover(shots, events, limit) && Nth(limit, |shots|) >= |events|
    requires k < |shots| && shots[k].there
    ensures k <= n < |shots| && shots[n].there && !shots[n].more
    decreases |shots| - k
  {
    ShotWithin(shots, events, limit, k);
    if !shots[k].more {
      n := k;
    } else {
      EnoughAsked(limit, k, |shots|, |events|);
      assert ShotLaw(shots, events, limit, k + 1);
      n := WalkEnds(shots, events, limit, k + 1);
    }
  }

  // The last page is the only one, or the one that is reached and suffices.
  lemma LastShot(shots: seq<Shot>, events: seq<Event>, limit: nat, n: nat)
    requires ShotsCover(shots, events, limit) && n < |shots| && shots[n].there && !shots[n].more
    ensures n == 0 || Nth(limit, n) < |events|
    ensures |events| <= Nth(limit, n) + limit
  {
    ShotWithin(shots, events, limit, n);
    assert ShotLaw(shots, events, limit, n);
    if n > 0 {
      ShotWithin(shots, events, limit, n - 1);
    }
  }

  // The number of pages m events take: m divided by the limit, rounded up, and one
  // page if there is nothing to show.
  predicate IsPageCount(pages: nat, m: nat, limit: nat) {
    pages >= 1 && m <= pages * limit && (pages > 1 ==> (pages - 1) * limit < m)
  }

  // Following the cursors while the file only grows, no cursor expires, and exactly
  // as many pages as the first snapshot's matching events take show each of them
  // once, newest first; the last of these pages has no next cursor.
  lemma WalkIsComplete(w: Walk) returns (n: nat)
    requires OnlyGrows(w) && |w.decks| * w.limit >= |SnapshotEvents(w)|
    ensures n < |w.decks| && ShotAt(w, n).there && !ShotAt(w, n).more
    ensures IsPageCount(n + 1, |SnapshotEvents(w)|, w.limit)
    ensures Collected(Shots(w), n + 1) == SnapshotEvents(w)
  {
    WalkCovers(w);
    NthIsProduct(w.limit, |w.decks|);
    n := CompleteWalk(Shots(w), SnapshotEvents(w), w.limit);
  }

  lemma CompleteWalk(shots: seq<Shot>, events: seq<Event>, limit: nat) returns (n: nat)
    requires limit > 0 && shots != [] && ShotsCover(shots, events, limit) && Nth(limit, |shots|) >= |events|
    ensures n < |shots| && shots[n].there && !shots[n].more
    ensures IsPageCount(n + 1, |events|, limit) && Collected(shots, n + 1) == events
  {
    assert ShotLaw(shots, events, limit, 0);
    n := WalkEnds(shots, events, limit, 0);
    ShotsComplete(shots, events, limit, n);
    LastShot(shots, events, limit, n);
    NthIsProduct(limit, n);
    NthIsProduct(limit, n + 1);
  }
}

// The decks a growing file gives.
module AuditDecks {
  import opened Common
  import opened AuditLines
  import opened AuditIndexProofs
  import opened AuditQueries
  import opened AuditAnswers
  import opened AuditPages
  import opened AuditPageProofs

  predicate EntriesAscend(entries: seq<Entry>, low: nat) {
    (forall k :: 0 <= k < |entries| ==> low <= entries[k].offset)
    && forall j, k :: 0 <= j < k < |entries| ==> entries[j].offset < entries[k].offset
  }

  lemma AscendJoin(i: nat, line: Bytes, rest: seq<Entry>, p: Parser)
    requires EntriesAscend(rest, i + |line| + 1)
    ensures EntriesAscend(Summary(i, line, p) + rest, i)
  {
  }

  lemma LineAscends(data: Bytes, i: nat, k: nat, p: Parser)
    requires i <= |data| && FindNewline(data, i) == Some(k) && EntriesAscend(EntriesFrom(data, k + 1, p), k + 1)
    ensures EntriesAscend(EntriesFrom(data, i, p), i)
  {
    AscendJoin(i, data[i..k], EntriesFrom(data, k + 1, p), p);
    EntriesStep(data, i, k, p);
  }

  lemma {:induction false} ScanAscends(data: Bytes, i: nat, p: Parser)
    requires i <= |data|
    ensures EntriesAscend(EntriesFrom(data, i, p), i)
    decreases |data| - i
  {
    var nl := FindNewline(data, i);
    if nl.Some? {
      ScanAscends(data, nl.value + 1, p);
      LineAscends(data, i, nl.value, p);
    }
  }

  lemma SameCard(data: Bytes, all: Bytes, e: Entry, rd: Reader, f: Filter)
    requires GrewTo(data, all) && EntryFits(data, e, rd.parse)
    ensures EntryFits(all, e, rd.parse) && CardOf(all, e, rd, f) == CardOf(data, e, rd, f)
  {
    assert all[e.offset..e.offset + e.length] == data[e.offset..e.offset + e.length];
  }

  // The deck of the file as it stands.
  function FileDeck(data: Bytes, rd: Reader, f: Filter): (r: seq<Card>) {
    ScanFits(data, 0, rd.parse);
    Deck(data, EntriesFrom(data, 0, rd.parse), rd, f)
  }

  lemma DeckGrows(data: Bytes, entries: seq<Entry>, all: Bytes, more: seq<Entry>, rd: Reader, f: Filter)
    requires GrewTo(data, all) && EntriesFit(data, entries, rd.parse) && EntriesFit(all, entries + more, rd.parse)
    ensures Prefixes(Deck(data, entries, rd, f), Deck(all, entries + more, rd, f))
  {
    forall k | 0 <= k < |entries| ensures Deck(all, entries + more, rd, f)[k] == Deck(data, entries, rd, f)[k] {
      assert EntryFits(data, entries[k], rd.parse) && (entries + more)[k] == entries[k];
      SameCard(data, all, entries[k], rd, f);
    }
  }

  // Appending to the file appends to its deck, in order.
  lemma FileDeckGrows(data: Bytes, all: Bytes, rd: Reader, f: Filter)
    requires GrewTo(data, all)
    ensures Prefixes(FileDeck(data, rd, f), FileDeck(all, rd, f)) && OffsetsAscend(FileDeck(all, rd, f))
  {
    ScanFits(data, 0, rd.parse);
    ScanFits(all, 0, rd.parse);
    EntriesExtend(data, all, 0, rd.parse);
    DeckGrows(data, EntriesFrom(data, 0, rd.parse), all, EntriesFrom(all, EndFrom(data, 0), rd.parse), rd, f);
    ScanAscends(all, 0, rd.parse);
  }

  // A walk through a file that is only appended to is one of the walks above.
  lemma GrowingFileWalk(w: Walk, datas: seq<Bytes>, rd: Reader, f: Filter)
    requires w.limit > 0 && datas != [] && |datas| == |w.decks|
    requires forall k :: 0 <= k < |datas| ==> GrewTo(datas[0], datas[k]) && w.decks[k] == FileDeck(datas[k], rd, f)
    ensures OnlyGrows(w)
  {
    forall k | 0 <= k < |datas| ensures Prefixes(w.decks[0], w.decks[k]) && OffsetsAscend(w.decks[k]) {
      FileDeckGrows(datas[0], datas[k], rd, f);
    }
  }

  // ----- the snapshot is what a plain read of the first file would show -----

  // A reader that takes only lines whose bytes parse as they stand.
  function Strict(rd: Reader): Parser {
    line => if rd.loads(line) then rd.parse(line) else Garbage
  }

  function EntryLines(data: Bytes, entries: seq<Entry>, p: Parser): (r: seq<Bytes>)
    requires EntriesFit(data, entries, p)
    ensures |r| == |entries| && forall k :: 0 <= k < |r| ==>
      EntryFits(data, entries[k], p) && r[k] == LineOf(data, entries[k])
  {
    seq(|entries|, k requires 0 <= k < |entries| => LineOf(data, entries[k]))
  }

  lemma LinesJoin(data: Bytes, a: seq<Entry>, b: seq<Entry>, p: Parser)
    requires EntriesFit(data, a, p) && EntriesFit(data, b, p)
    ensures EntriesFit(data, a + b, p) && EntryLines(data, a + b, p) == EntryLines(data, a, p) + EntryLines(data, b, p)
  {
  }

  lemma SummaryLines(data: Bytes, i: nat, k: nat, p: Parser)
    requires i <= k <= |data|
    ensures EntriesFit(data, Summary(i, data[i..k], p), p)
    ensures EntryLines(data, Summary(i, data[i..k], p), p) == if p(data[i..k]).Object? then [data[i..k]] else []
  {
    assert data[i..i + |data[i..k]|] == data[i..k];
  }

  // What the strict reader makes of one line is what its own index has of it.
  lemma StrictLine(data: Bytes, i: nat, k: nat, rd: Reader)
    requires i <= k <= |data|
    ensures EntriesFit(data, Summary(i, data[i..k], rd.parse), rd.parse)
    ensures EntriesFit(data, Summary(i, data[i..k], Strict(rd)), Strict(rd))
    ensures Objects(EntryLines(data, Summary(i, data[i..k], rd.parse), rd.parse), Strict(rd))
         == EventsOf(data, Summary(i, data[i..k], Strict(rd)), Strict(rd))
  {
    SummaryLines(data, i, k, rd.parse);
    LineIsStream(data, i, k, Strict(rd));
  }

  lemma ObjectsJoin(first: seq<Bytes>, rest: seq<Bytes>, p: Parser)
    requires |first| <= 1
    ensures Objects(first + rest, p) == Objects(first, p) + Objects(rest, p)
  {
    if first != [] {
      assert (first + rest)[1..] == rest;
    } else {
      assert first + rest == rest;
    }
  }

  // Reading the indexed lines strictly gives what a strict index would list.
  lemma {:induction false} StrictlyIndexed(data: Bytes, i: nat, rd: Reader)
    requires i <= |data|
    ensures StrictFrom(data, i, rd)
    decreases |data| - i
  {
    var nl := FindNewline(data, i);
    if nl.Some? {
      StrictlyIndexed(data, nl.value + 1, rd);
      StrictStep(data, i, nl.value, rd);
    }
  }

  ghost predicate StrictFrom(data: Bytes, i: nat, rd: Reader)
    requires i <= |data|
  {
    var entries, strict := EntriesFrom(data, i, rd.parse), EntriesFrom(data, i, Strict(rd));
    EntriesFit(data, entries, rd.parse) && EntriesFit(data, strict, Strict(rd))
    && Objects(EntryLines(data, entries, rd.parse), Strict(rd)) == EventsOf(data, strict, Strict(rd))
  }

  lemma StrictStep(data: Bytes, i: nat, k: nat, rd: Reader)
    requires i <= |data| && FindNewline(data, i) == Some(k) && StrictFrom(data, k + 1, rd)
    ensures StrictFrom(data, i, rd)
  {
    var p := Strict(rd);
    var head, rest := Summary(i, data[i..k], rd.parse), EntriesFrom(data, k + 1, rd.parse);
    StrictLine(data, i, k, rd);
    EntriesStep(data, i, k, rd.parse);
    EntriesStep(data, i, k, p);
    LinesJoin(data, head, rest, rd.parse);
    ObjectsJoin(EntryLines(data, head, rd.parse), EntryLines(data, rest, rd.parse), p);
    EventsJoin(data, Summary(i, data[i..k], p), EntriesFrom(data, k + 1, p), p);
  }

  // Showing cards newest first is reading their lines newest first, strictly.
  lemma {:induction false} PlacesAreMatches(cards: seq<Card>, lines: seq<Bytes>, rd: Reader, f: Filter, stop: nat)
    requires |cards| == |lines| && stop <= |cards|
    requires forall k :: 0 <= k < |cards| ==>
      rd.parse(lines[k]).Object? && cards[k].event == rd.parse(lines[k]).event
      && cards[k].shown == (Passes(f, cards[k].event.ts, cards[k].event.category) && rd.loads(lines[k]))
    ensures EventsAt(cards, Places(cards, stop)) == NewestLines(lines, stop, Strict(rd), f)
    decreases stop
  {
    if stop > 0 {
      PlacesAreMatches(cards, lines, rd, f, stop - 1);
    }
  }

  // The first snapshot's events are those of an indexed, unlimited read of the
  // first file that takes only lines whose bytes parse as they stand. They are
  // those of a plain read exactly when the file does not end in an unterminated
  // line that such a read would take.
  lemma SnapshotIsPlainRead(w: Walk, data: Bytes, rd: Reader, f: Filter)
    requires w.decks != [] && w.decks[0] == FileDeck(data, rd, f)
    ensures SnapshotEvents(w) == Matching(Indexed(data, Strict(rd)), f)
    ensures SnapshotEvents(w) == Matching(Streamed(data, Strict(rd)), f) <==> !TailMatches(data, Strict(rd), f)
  {
    var entries := EntriesFrom(data, 0, rd.parse);
    StrictlyIndexed(data, 0, rd);
    var cards, lines := w.decks[0], EntryLines(data, entries, rd.parse);
    forall k | 0 <= k < |cards|
      ensures rd.parse(lines[k]).Object? && cards[k].event == rd.parse(lines[k]).event
      ensures cards[k].shown == (Passes(f, cards[k].event.ts, cards[k].event.category) && rd.loads(lines[k]))
    {
      assert EntryFits(data, entries[k], rd.parse);
    }
    PlacesAreMatches(cards, lines, rd, f, |cards|);
    LinesAreEvents(lines, |lines|, Strict(rd), f);
    assert lines[..|lines|] == lines;
    AnswersAgree(data, Strict(rd), f);
  }
}

module AuditPaging {
  import opened Common
  import opened AuditLines
  import opened AuditIndexProofs
  import opened AuditQueries
  import opened AuditPages
  import AuditPageMeaning

  // The next entry to show below start.
  method NextShown(t: Trail, entries: seq<Entry>, rd: Reader, f: Filter, start: nat, ghost cards: seq<Card>)
    returns (found: bool, at: nat)
    requires EntriesFit(t.data, entries, rd.parse) && cards == Deck(t.data, entries, rd, f) && start <= |entries|
    ensures !found ==> Places(cards, start) == []
    ensures found ==> at < start && Places(cards, start) == [at] + Places(cards, at)
  {
    at, found := start, false;
    while at > 0 && !found
      invariant at <= start
      invariant !found ==> Places(cards, start) == Places(cards, at)
      invariant found ==> at < start && Places(cards, start) == [at] + Places(cards, at)
      decreases at, !found
    {
      at := at - 1;
      var e := entries[at];
      assert EntryFits(t.data, e, rd.parse);
      found := Passes(f, e.ts, e.category) && rd.loads(LineOf(t.data, e));
    }
  }

  // The first n of the places to show have been taken, rest are left.
  predicate Left(all: seq<nat>, n: nat, rest: seq<nat>) {
    n <= |all| && all[n..] == rest
  }

  lemma LeftStep(all: seq<nat>, n: nat, i: nat, rest: seq<nat>)
    requires Left(all, n, [i] + rest)
    ensures n < |all| && all[n] == i && Left(all, n + 1, rest) && all[..n + 1] == all[..n] + [i]
  {
    assert all[n..][0] == all[n];
    assert all[n + 1..] == all[n..][1..];
  }

  lemma OneMoreEvent(cards: seq<Card>, taken: seq<nat>, i: nat)
    requires Within(taken, |cards|) && i < |cards|
    ensures EventsAt(cards, taken + [i]) == EventsAt(cards, taken) + [cards[i].event]
  {
  }

  // out holds the events of the places taken so far, of which last is the latest.
  ghost predicate Gathered(cards: seq<Card>, all: seq<nat>, out: seq<Event>, last: nat) {
    Within(all, |cards|)
    && last <= |cards| && Left(all, |out|, Places(cards, last)) && out == EventsAt(cards, all[..|out|])
    && (out != [] ==> all[|out| - 1] == last)
  }

  lemma GatheredStep(cards: seq<Card>, all: seq<nat>, out: seq<Event>, last: nat, i: nat)
    requires Gathered(cards, all, out, last) && i < last && Places(cards, last) == [i] + Places(cards, i)
    ensures Gathered(cards, all, out + [cards[i].event], i)
  {
    LeftStep(all, |out|, i, Places(cards, i));
    OneMoreEvent(cards, all[..|out|], i);
  }

  lemma GatheredPage(file: FileId, cards: seq<Card>, limit: Option<int>, stop: nat, out: seq<Event>, last: nat,
                     more: bool)
    requires stop <= |cards| && Gathered(cards, Places(cards, stop), out, last)
    requires limit.Some? ==> 0 < limit.value && |out| <= limit.value
    requires more ==> limit.Some? && |out| == limit.value
    requires more <==> Places(cards, last) != []
    ensures more ==> last < |cards|
    ensures PageBelow(file, cards, limit, stop) == Page(out, if more then Some(CursorFor(file, cards[last])) else None)
  {
    var all := Places(cards, stop);
    if !more {
      assert all[..|all|] == all;
    }
  }

  // The page's loop: backwards from stop, one line read per shown entry, and one
  // more to know whether there is a next page.
  method CollectPage(t: Trail, entries: seq<Entry>, rd: Reader, f: Filter, limit: Option<int>, stop: nat)
    returns (page: Page)
    requires EntriesFit(t.data, entries, rd.parse) && stop <= |entries| && (limit.Some? ==> limit.value > 0)
    ensures page == PageBelow(t.file, Deck(t.data, entries, rd, f), limit, stop)
  {
    var out: seq<Event>, last: nat := [], stop;
    ghost var cards := Deck(t.data, entries, rd, f);
    ghost var all := Places(cards, stop);
    var found: bool, at: nat;
    found, at := NextShown(t, entries, rd, f, stop, cards);
    while found && !(limit.Some? && |out| >= limit.value)
      invariant last <= stop && Gathered(cards, all, out, last)
      invariant limit.Some? ==> |out| <= limit.value
      invariant !found ==> Places(cards, last) == []
      invariant found ==> at < last && Places(cards, last) == [at] + Places(cards, at)
      decreases last
    {
      GatheredStep(cards, all, out, last, at);
      out := out + [EventAt(t.data, entries[at], rd.parse)];
      last := at;
      found, at := NextShown(t, entries, rd, f, last, cards);
    }
    GatheredPage(t.file, cards, limit, stop, out, last, found);
    page := Page(out, None);
    if found {
      var e := entries[last];
      page := Page(out, Some(Cursor(t.file, e.offset, e.length, rd.digest(LineOf(t.data, e)))));
    }
  }

  // The entry at that place, if the line there still has that digest.
  method FindAnchor(t: Trail, entries: seq<Entry>, rd: Reader, f: Filter, c: Cursor) returns (r: Option<nat>)
    requires EntriesFit(t.data, entries, rd.parse)
    ensures r == StopAt(t.file, Deck(t.data, entries, rd, f), Some(c))
  {
    ghost var cards := Deck(t.data, entries, rd, f);
    if c.file != t.file {
      return None;
    }
    var i := 0;
    while i < |entries| && !(entries[i].offset == c.offset && entries[i].length == c.length)
      invariant i <= |entries| && Locate(cards, c.offset, c.length, 0) == Locate(cards, c.offset, c.length, i)
    {
      i := i + 1;
    }
    if i == |entries| || rd.digest(LineOf(t.data, entries[i])) != c.digest {
      return None;
    }
    return Some(i);
  }

  method ReadPage(t: Trail, entries: seq<Entry>, rd: Reader, f: Filter, limit: Option<int>, cursor: Option<Cursor>)
    returns (r: Result<Page, PageError>)
    requires EntriesFit(t.data, entries, rd.parse)
    ensures r == PageOf(t.file, Deck(t.data, entries, rd, f), limit, cursor)
    ensures AuditPageMeaning.PageReads(t, entries, rd, f, limit, cursor, r)
  {
    AuditPageMeaning.PageOfReads(t, entries, rd, f, limit, cursor);
    var stop := |entries|;
    if cursor.Some? {
      var at := FindAnchor(t, entries, rd, f, cursor.value);
      if at.None? {
        return Err(CursorExpired);
      }
      stop := at.value;
    }
    if limit.Some? && limit.value <= 0 {
      return Ok(Page([], None));
    }
    var page := CollectPage(t, entries, rd, f, limit, stop);
    return Ok(page);
  }
}
