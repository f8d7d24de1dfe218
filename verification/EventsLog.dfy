/**
 The append-only audit log and the page that shows it
 (src/nbdmux/_events_log.py, the /ui/events handler of src/nbdmux/_app.py).

 The free-text filter is an arbitrary predicate: `count_events` and
 `search_events` build their WHERE clause from the same helper, which is all
 that pagination relies on.
 */
module EventsLog {
  import opened Wrappers
  import opened TableState

  datatype Event = Event(
    id: nat, kind: string, subjectKind: Option<string>, subjectId: Option<string>, actor: Option<string>,
    sourceIp: Option<string>, summary: string, details: Option<string>, acknowledged: bool)

  ghost predicate IdsIncrease(events: seq<Event>) {
    forall i, j :: 0 <= i < j < |events| ==> events[i].id < events[j].id
  }

  /** The events table; AUTOINCREMENT hands out ids above every id ever used. */
  class Log {
    var events: seq<Event>
    var lastId: nat

    ghost predicate Valid()
      reads this
    {
      IdsIncrease(events) && forall e :: e in events ==> e.id <= lastId
    }

    constructor ()
      ensures Valid() && events == []
    {
      events, lastId := [], 0;
    }

    method Record(kind: string, summary: string, subjectKind: Option<string>, subjectId: Option<string>,
                  actor: Option<string>, sourceIp: Option<string>, details: Option<string>)
      returns (id: nat)
      requires Valid()
      modifies this
      ensures Valid()
      ensures forall e :: e in old(events) ==> e.id < id
      ensures events == old(events)
                        + [Event(id, kind, subjectKind, subjectId, actor, sourceIp, summary, details, false)]
    {
      id := lastId + 1;
      events := events + [Event(id, kind, subjectKind, subjectId, actor, sourceIp, summary, details, false)];
      lastId := id;
    }

    method SetAcknowledged(eventId: nat, value: bool) returns (found: bool)
      requires Valid()
      modifies this`events
      ensures Valid() && |events| == |old(events)|
      ensures found <==> exists e :: e in old(events) && e.id == eventId
      ensures forall i :: 0 <= i < |events| ==>
                events[i] == if old(events)[i].id == eventId then old(events)[i].(acknowledged := value)
                             else old(events)[i]
    {
      found := exists e :: e in events && e.id == eventId;
      var was := events;
      events := seq(|was|, i requires 0 <= i < |was| =>
        if was[i].id == eventId then was[i].(acknowledged := value) else was[i]);
      forall i | 0 <= i < |events|
        ensures events[i].id == was[i].id <= lastId
      {
        assert was[i] in was;
      }
    }
  }

  function Matching(events: seq<Event>, filter: Event -> bool): seq<Event> {
    if events == [] then []
    else (if filter(events[0]) then [events[0]] else []) + Matching(events[1..], filter)
  }

  function Reversed<T>(s: seq<T>): (r: seq<T>)
    ensures |r| == |s|
  {
    if s == [] then [] else Reversed(s[1..]) + [s[0]]
  }

  /** What `ORDER BY id DESC` makes of the matching rows. */
  function NewestFirst(events: seq<Event>, filter: Event -> bool): seq<Event> {
    Reversed(Matching(events, filter))
  }

  function CountEvents(events: seq<Event>, filter: Event -> bool): nat {
    |Matching(events, filter)|
  }

  function SearchEvents(events: seq<Event>, filter: Event -> bool, offset: int, limit: int): seq<Event> {
    var lim := if limit < 1 then 1 else if limit > 500 then 500 else limit;
    var off := if offset < 0 then 0 else offset;
    var rows := NewestFirst(events, filter);
    rows[Min(off, |rows|)..Min(off + lim, |rows|)]
  }

  /** The parameters FastAPI found in the query string of /ui/events. */
  datatype Request = Request(page: Option<int>, perPage: Option<int>)

  datatype View = View(state: PageState, rows: seq<Event>)

  function UiEvents(events: seq<Event>, filter: Event -> bool, request: Request): View {
    var page := if request.page.Some? then request.page.value else 1;
    var perPage := if request.perPage.Some? then request.perPage.value else 25;
    var clampedPerPage := if perPage in PER_PAGE_CHOICES then perPage else DEFAULT_PER_PAGE;
    var clampedPage := Max(1, page);
    var state := ParsePagination(Some(clampedPage), Some(clampedPerPage), CountEvents(events, filter));
    View(state, SearchEvents(events, filter, state.offset, state.perPage))
  }

  /** The target of a numbered page link: `preserved` drops `per_page` when it
      equals DEFAULT_PER_PAGE. */
  function PageLink(state: PageState, page: int): Request {
    Request(Some(page), if state.perPage != DEFAULT_PER_PAGE then Some(state.perPage) else None)
  }

  /** What /ui/events makes of its parameters: page 1 and 25 rows when they are
      missing, 10 rows when the size is none of the choices, and the nearest page
      when there is no such page. */
  lemma UiEventsReadsTheQuery(events: seq<Event>, filter: Event -> bool, request: Request)
    ensures var state := UiEvents(events, filter, request).state;
            && state.perPage == (if request.perPage.None? then 25
                                 else if PageSize(request.perPage.value) then request.perPage.value else 10)
            && (request.page.None? || request.page.value < 1 ==> state.page == 1)
            && (request.page.Some? && 1 <= request.page.value <= state.LastPage() ==> state.page == request.page.value)
            && (request.page.Some? && request.page.value > state.LastPage() ==> state.page == state.LastPage())
            && state.total == CountEvents(events, filter)
  {
    var state := UiEvents(events, filter, request).state;
    PaginationIsClamped(Some(state.page), Some(state.perPage), CountEvents(events, filter));
  }

  /** Whatever the caller asks for, a search gives a stretch of the matching rows
      that starts at the offset and has between one and 500 rows, unless the rows
      run out. */
  lemma SearchIsAStretch(events: seq<Event>, filter: Event -> bool, offset: int, limit: int)
    ensures var rows, found := NewestFirst(events, filter), SearchEvents(events, filter, offset, limit);
            var start := Max(offset, 0);
            && |found| <= 500
            && (1 <= limit <= 500 ==> |found| <= limit)
            && (limit < 1 ==> |found| <= 1)
            && (start >= |rows| ==> found == [])
            && (start < |rows| ==> found != [] && start + |found| <= |rows|)
            && (forall k :: 0 <= k < |found| ==> found[k] == rows[start + k])
            && (start + |found| < |rows| && start < |rows| ==>
                  |found| == if limit < 1 then 1 else if limit > 500 then 500 else limit)
  {
  }

  // ----- the log is what the pages show

  lemma {:induction false} ReversedAt<T>(s: seq<T>, k: nat)
    requires k < |s|
    ensures Reversed(s)[k] == s[|s| - 1 - k]
  {
    if k < |s| - 1 {
      ReversedAt(s[1..], k);
    }
  }

  lemma {:induction false} MatchingIsSubsequence(events: seq<Event>, filter: Event -> bool)
    requires IdsIncrease(events)
    ensures IdsIncrease(Matching(events, filter))
    ensures forall e :: e in Matching(events, filter) <==> e in events && filter(e)
  {
    if events != [] {
      MatchingIsSubsequence(events[1..], filter);
      var rest := Matching(events[1..], filter);
      forall j | 0 <= j < |rest|
        ensures events[0].id < rest[j].id
      {
        assert rest[j] in events[1..];
      }
    }
  }

  lemma ReversedPointwise<T>(s: seq<T>)
    ensures forall k :: 0 <= k < |s| ==> Reversed(s)[k] == s[|s| - 1 - k]
  {
    forall k | 0 <= k < |s|
      ensures Reversed(s)[k] == s[|s| - 1 - k]
    {
      ReversedAt(s, k);
    }
  }

  /** The rows in page order: every matching event exactly once (ids strictly
      decrease, so none repeats), newest first, and nothing else. */
  lemma NewestFirstIsTheMatchingLog(events: seq<Event>, filter: Event -> bool)
    requires IdsIncrease(events)
    ensures var rows := NewestFirst(events, filter);
            && (forall e :: e in rows <==> e in events && filter(e))
            && forall i, j :: 0 <= i < j < |rows| ==> rows[i].id > rows[j].id
  {
    MatchingIsSubsequence(events, filter);
    var m := Matching(events, filter);
    ReversedPointwise(m);
    var rows := NewestFirst(events, filter);
    forall e | e in m
      ensures e in rows
    {
      var k :| 0 <= k < |m| && m[k] == e;
      assert rows[|m| - 1 - k] == m[k];
    }
    forall i, j | 0 <= i < j < |rows|
      ensures rows[i].id > rows[j].id
    {
      assert m[|m| - 1 - j].id < m[|m| - 1 - i].id;
    }
  }

  function PageRows(events: seq<Event>, filter: Event -> bool, per: int, page: int): seq<Event> {
    UiEvents(events, filter, Request(Some(page), Some(per))).rows
  }

  function Concatenated<T>(pages: int -> seq<T>, n: nat): seq<T> {
    if n == 0 then [] else Concatenated(pages, n - 1) + pages(n)
  }

  function FirstPages(events: seq<Event>, filter: Event -> bool, per: int, n: nat): seq<Event> {
    Concatenated(page => PageRows(events, filter, per, page), n)
  }

  function LastPageOf(total: nat, per: int): int
    requires per in PER_PAGE_CHOICES
  {
    ParsePagination(Some(1), Some(per), total).LastPage()
  }

  lemma LastPageIs(events: seq<Event>, filter: Event -> bool, per: int, page: int)
    requires per in PER_PAGE_CHOICES
    ensures var total := CountEvents(events, filter);
            && UiEvents(events, filter, Request(Some(page), Some(per))).state.LastPage() == LastPageOf(total, per)
            && IsPageCount(LastPageOf(total, per), per, total)
  {
    PaginationIsClamped(Some(1), Some(per), CountEvents(events, filter));
  }

  /** A page inside the table is the slice its interval names: the clamps of
      `search_events` never bite. */
  lemma PageIsItsSlice(events: seq<Event>, filter: Event -> bool, per: int, page: int)
    requires per in PER_PAGE_CHOICES && 1 <= page <= LastPageOf(CountEvents(events, filter), per)
    ensures var rows := NewestFirst(events, filter);
            && 0 <= (page - 1) * per <= Min(page * per, |rows|)
            && PageRows(events, filter, per, page) == rows[(page - 1) * per..Min(page * per, |rows|)]
  {
    PaginationIsClamped(Some(page), Some(per), CountEvents(events, filter));
  }

  lemma PrefixGrows<T>(rows: seq<T>, lo: int, hi: int)
    requires 0 <= lo <= hi <= |rows|
    ensures rows[..lo] + rows[lo..hi] == rows[..hi]
  {
  }

  /** Slices of one length that follow each other concatenate to a prefix. */
  lemma {:induction false} SlicesTile<T>(pages: int -> seq<T>, rows: seq<T>, per: int, n: nat)
    requires forall p :: 1 <= p <= n ==>
               0 <= (p - 1) * per <= Min(p * per, |rows|) && pages(p) == rows[(p - 1) * per..Min(p * per, |rows|)]
    ensures n * per >= 0 && Concatenated(pages, n) == rows[..Min(n * per, |rows|)]
  {
    if n > 0 {
      SlicesTile(pages, rows, per, n - 1);
      assert 0 <= (n - 1) * per <= Min(n * per, |rows|);
      PrefixGrows(rows, (n - 1) * per, Min(n * per, |rows|));
    }
  }

  lemma FirstPagesArePrefix(events: seq<Event>, filter: Event -> bool, per: int, n: nat)
    requires per in PER_PAGE_CHOICES && n <= LastPageOf(CountEvents(events, filter), per)
    ensures n * per >= 0
    ensures var rows := NewestFirst(events, filter);
            FirstPages(events, filter, per, n) == rows[..Min(n * per, |rows|)]
  {
    var rows := NewestFirst(events, filter);
    forall p | 1 <= p <= n
      ensures 0 <= (p - 1) * per <= Min(p * per, |rows|)
      ensures PageRows(events, filter, per, p) == rows[(p - 1) * per..Min(p * per, |rows|)]
    {
      PageIsItsSlice(events, filter, per, p);
    }
    SlicesTile(page => PageRows(events, filter, per, page), rows, per, n);
  }

  /** Pages 1 to `last_page` concatenate to the whole matching log. */
  lemma PagesTileTheLog(events: seq<Event>, filter: Event -> bool, per: int)
    requires per in PER_PAGE_CHOICES
    ensures var last := UiEvents(events, filter, Request(Some(1), Some(per))).state.LastPage();
            last >= 1 && FirstPages(events, filter, per, last) == NewestFirst(events, filter)
  {
    var last := LastPageOf(CountEvents(events, filter), per);
    LastPageIs(events, filter, per, 1);
    FirstPagesArePrefix(events, filter, per, last);
  }

  // ----- following the "next page" links

  function Rank(state: PageState): nat
    requires state.perPage > 0
  {
    if state.perPage == DEFAULT_PER_PAGE then 1 else 0
  }

  /** The rows a reader sees from `request` on, following "next" to the end. */
  function Walk(events: seq<Event>, filter: Event -> bool, request: Request): seq<Event>
    decreases Rank(UiEvents(events, filter, request).state),
              UiEvents(events, filter, request).state.LastPage() - UiEvents(events, filter, request).state.page
  {
    var view := UiEvents(events, filter, request);
    if !view.state.HasNext() then view.rows
    else
      view.rows + (StepAdvances(events, filter, request);
                   Walk(events, filter, PageLink(view.state, view.state.page + 1)))
  }

  lemma StepAdvances(events: seq<Event>, filter: Event -> bool, request: Request)
    requires UiEvents(events, filter, request).state.HasNext()
    ensures var s := UiEvents(events, filter, request).state;
            var t := UiEvents(events, filter, PageLink(s, s.page + 1)).state;
            && (s.perPage == DEFAULT_PER_PAGE ==> t.perPage == 25)
            && (s.perPage != DEFAULT_PER_PAGE ==>
                  t.perPage == s.perPage && t.page == s.page + 1 && t.LastPage() == s.LastPage())
  {
  }

  lemma WalkUnfolds(events: seq<Event>, filter: Event -> bool, per: int, page: int)
    requires per in PER_PAGE_CHOICES && per != DEFAULT_PER_PAGE
    requires 1 <= page <= LastPageOf(CountEvents(events, filter), per)
    ensures Walk(events, filter, Request(Some(page), Some(per)))
         == PageRows(events, filter, per, page)
            + if page < LastPageOf(CountEvents(events, filter), per)
              then Walk(events, filter, Request(Some(page + 1), Some(per))) else []
  {
    LastPageIs(events, filter, per, page);
    PaginationIsClamped(Some(page), Some(per), CountEvents(events, filter));
  }

  lemma PageBounds(per: int, page: int, last: int, total: nat)
    requires per > 0 && 1 <= page <= last && IsPageCount(last, per, total)
    ensures 0 <= (page - 1) * per <= Min(page * per, total) <= total
    ensures page == last ==> total <= page * per
    ensures page < last ==> page * per < total
  {
    if page < last {
      ProductMonotone(page, last - 1, per);
    }
    ProductMonotone(1, page, per);
  }

  lemma {:induction false} Telescope<T>(rest: int -> seq<T>, rows: seq<T>, per: int, last: int, page: int)
    requires per > 0 && 1 <= page <= last && IsPageCount(last, per, |rows|)
    requires forall p :: 1 <= p <= last ==> PageThenRest(rest, rows, per, last, p)
    ensures 0 <= (page - 1) * per <= |rows| && rest(page) == rows[(page - 1) * per..]
    decreases last - page
  {
    PageBounds(per, page, last, |rows|);
    assert PageThenRest(rest, rows, per, last, page);
    if page < last {
      Telescope(rest, rows, per, last, page + 1);
      var here, next := (page - 1) * per, page * per;
      assert rows[here..next] + rows[next..] == rows[here..];
    }
  }

  predicate PageThenRest<T(==)>(rest: int -> seq<T>, rows: seq<T>, per: int, last: int, p: int) {
    && 0 <= (p - 1) * per <= Min(p * per, |rows|)
    && rest(p) == rows[(p - 1) * per..Min(p * per, |rows|)] + if p < last then rest(p + 1) else []
  }

  lemma WalkShowsTheRest(events: seq<Event>, filter: Event -> bool, per: int, page: int)
    requires per in PER_PAGE_CHOICES && per != DEFAULT_PER_PAGE
    requires 1 <= page <= LastPageOf(CountEvents(events, filter), per)
    ensures 0 <= (page - 1) * per <= CountEvents(events, filter)
    ensures Walk(events, filter, Request(Some(page), Some(per))) == NewestFirst(events, filter)[(page - 1) * per..]
  {
    var rest := p => Walk(events, filter, Request(Some(p), Some(per)));
    var rows, last := NewestFirst(events, filter), LastPageOf(CountEvents(events, filter), per);
    forall p | 1 <= p <= last
      ensures PageThenRest(rest, rows, per, last, p)
    {
      LastPageIs(events, filter, per, p);
      PageIsItsSlice(events, filter, per, p);
      WalkUnfolds(events, filter, per, p);
    }
    LastPageIs(events, filter, per, page);
    Telescope(rest, rows, per, last, page);
  }

  /** A 10-row page that is not the last links to page two of the 25-row view. */
  lemma DefaultSizeWalk(events: seq<Event>, filter: Event -> bool)
    requires CountEvents(events, filter) > DEFAULT_PER_PAGE
    ensures Walk(events, filter, Request(Some(1), Some(DEFAULT_PER_PAGE)))
         == PageRows(events, filter, DEFAULT_PER_PAGE, 1) + Walk(events, filter, Request(Some(2), None))
  {
    LastPageIs(events, filter, DEFAULT_PER_PAGE, 1);
    PaginationIsClamped(Some(1), Some(DEFAULT_PER_PAGE), CountEvents(events, filter));
  }

  lemma SameViewSameWalk(events: seq<Event>, filter: Event -> bool, r: Request, r': Request)
    requires UiEvents(events, filter, r) == UiEvents(events, filter, r')
    ensures Walk(events, filter, r) == Walk(events, filter, r')
  {
  }

  lemma DefaultSizeWalkLength(events: seq<Event>, filter: Event -> bool)
    requires CountEvents(events, filter) > DEFAULT_PER_PAGE
    ensures |Walk(events, filter, Request(Some(1), Some(DEFAULT_PER_PAGE)))| != CountEvents(events, filter)
  {
    var total := CountEvents(events, filter);
    LastPageIs(events, filter, DEFAULT_PER_PAGE, 1);
    PageIsItsSlice(events, filter, DEFAULT_PER_PAGE, 1);
    DefaultSizeWalk(events, filter);
    LastPageIs(events, filter, 25, 1);
    var second := Min(2, LastPageOf(total, 25));
    WalkShowsTheRest(events, filter, 25, second);
    SameViewSameWalk(events, filter, Request(Some(2), None), Request(Some(second), Some(25)));
  }

  /** Following "next" from the first page shows the log exactly when the page
      size is not the default or one page is enough: the links of a 10-row page
      drop the size, and /ui/events reads a missing size as 25. */
  lemma NextLinksTileUnlessDefaultSize(events: seq<Event>, filter: Event -> bool, per: int)
    requires per in PER_PAGE_CHOICES
    ensures Walk(events, filter, Request(Some(1), Some(per))) == NewestFirst(events, filter)
            <==> per != DEFAULT_PER_PAGE || CountEvents(events, filter) <= DEFAULT_PER_PAGE
  {
    if per != DEFAULT_PER_PAGE {
      LastPageIs(events, filter, per, 1);
      WalkShowsTheRest(events, filter, per, 1);
    } else if CountEvents(events, filter) > DEFAULT_PER_PAGE {
      DefaultSizeWalkLength(events, filter);
    } else {
      SinglePageWalk(events, filter);
    }
  }

  lemma SinglePageWalk(events: seq<Event>, filter: Event -> bool)
    requires CountEvents(events, filter) <= DEFAULT_PER_PAGE
    ensures Walk(events, filter, Request(Some(1), Some(DEFAULT_PER_PAGE))) == NewestFirst(events, filter)
  {
    LastPageIs(events, filter, DEFAULT_PER_PAGE, 1);
    PageIsItsSlice(events, filter, DEFAULT_PER_PAGE, 1);
  }
}
