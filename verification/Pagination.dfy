/** Keyset pagination of the run list, newest first. */
module Pagination {
  import opened Ids

  /** A run as a list query sees it; `id` is its primary key. */
  datatype RunRow = RunRow(id: nat, createdAt: int, status: string, project: nat, agent: nat, updatedAt: int, rejected: bool)

  datatype Filters = Filters(
    statuses: set<string>, project: Option<nat>, agent: Option<nat>, updatedAfter: Option<int>, rejected: Option<bool>)

  datatype Cursor = Cursor(createdAt: int, id: nat)

  /** The text of a cursor: one that was encoded here, or one that decoding rejects. */
  datatype CursorText = Encoded(cursor: Cursor) | Garbled

  /** The answer to a request: a page, or the validation error that was raised first. */
  datatype Reply = Shown(page: Page) | InvalidStatuses(names: set<string>) | InvalidCursor

  const RUN_STATUSES: set<string> :=
    {"authorizing", "waiting_for_approval", "queued", "running", "completed", "failed", "cancelled",
     "reconciliation_required", "dead_lettered"}

  datatype Page = Page(items: seq<RunRow>, next: Option<Cursor>, total: nat)

  predicate Matches(f: Filters, r: RunRow) {
    && (f.statuses != {} ==> r.status in f.statuses)
    && (f.project.Some? ==> r.project == f.project.value)
    && (f.agent.Some? ==> r.agent == f.agent.value)
    && (f.updatedAfter.Some? ==> r.updatedAt >= f.updatedAfter.value)
    && (f.rejected.Some? ==> r.rejected == f.rejected.value)
  }

  function KeyOf(r: RunRow): Cursor {
    Cursor(r.createdAt, r.id)
  }

  /** `a` is listed before `b`: created later, or at the same time with the greater id. */
  predicate Before(a: Cursor, b: Cursor) {
    a.createdAt > b.createdAt || (a.createdAt == b.createdAt && a.id > b.id)
  }

  /** No two rows share their primary key. */
  predicate Keyed(table: set<RunRow>) {
    forall a, b | a in table && b in table && a.id == b.id :: a == b
  }

  // ---------------------------------------------------------------- the order of the list

  predicate First(r: RunRow, table: set<RunRow>) {
    r in table && forall o | o in table && o != r :: Before(KeyOf(r), KeyOf(o))
  }

  lemma {:induction false} FirstExists(table: set<RunRow>)
    requires Keyed(table) && table != {}
    ensures exists r :: First(r, table)
  {
    var x :| x in table;
    if table == {x} {
      assert First(x, table);
    } else {
      var rest := table - {x};
      FirstExists(rest);
      var y :| First(y, rest);
      if Before(KeyOf(y), KeyOf(x)) {
        assert First(y, table);
      } else {
        assert First(x, table);
      }
    }
  }

  lemma Prepend(r: RunRow, rest: seq<RunRow>, table: set<RunRow>)
    requires First(r, table) && Descending(rest) && forall o | o in rest :: o in table && o != r
    ensures Descending([r] + rest)
  {
    hide Before;
    var rows := [r] + rest;
    forall i, j | 0 <= i < j < |rows| ensures Before(KeyOf(rows[i]), KeyOf(rows[j])) {
      assert rows[j] == rest[j - 1];
    }
  }

  /** ORDER BY created_at DESC, id DESC. */
  function Listed(table: set<RunRow>): (rows: seq<RunRow>)
    requires Keyed(table)
    ensures forall r :: r in rows <==> r in table
    ensures |rows| == |table| && Descending(rows)
  {
    if table == {} then []
    else
      FirstExists(table);
      var r :| First(r, table);
      var rest := Listed(table - {r});
      Prepend(r, rest, table);
      [r] + rest
  }

  predicate Descending(rows: seq<RunRow>) {
    forall i, j | 0 <= i < j < |rows| :: Before(KeyOf(rows[i]), KeyOf(rows[j]))
  }

  /** A descending list is determined by its members. */
  lemma {:induction false} SameMembers(a: seq<RunRow>, b: seq<RunRow>)
    requires Descending(a) && Descending(b) && forall r :: r in a <==> r in b
    ensures a == b
    decreases |a|
  {
    if a == [] {
      if b != [] {
        SameHead(b, a);
      }
    } else {
      SameHead(a, b);
      forall r ensures r in a[1..] <==> r in b[1..] {
        TailMember(a, r);
        TailMember(b, r);
      }
      SameMembers(a[1..], b[1..]);
      assert a == [a[0]] + a[1..] && b == [b[0]] + b[1..];
    }
  }

  lemma SameHead(a: seq<RunRow>, b: seq<RunRow>)
    requires Descending(a) && Descending(b) && a != [] && forall r :: r in a <==> r in b
    ensures b != [] && a[0] == b[0]
  {
    assert a[0] in b;
    var i :| 0 <= i < |b| && b[i] == a[0];
    assert b[0] in a;
    var j :| 0 <= j < |a| && a[j] == b[0];
  }

  lemma TailMember(a: seq<RunRow>, r: RunRow)
    requires Descending(a) && a != []
    ensures r in a[1..] <==> r in a && r != a[0]
  {
    if r in a[1..] {
      var i :| 0 <= i < |a| - 1 && a[1..][i] == r;
      assert Before(KeyOf(a[0]), KeyOf(a[i + 1]));
    }
  }

  // ---------------------------------------------------------------- one page

  function Filtered(table: set<RunRow>, f: Filters): set<RunRow> {
    set r | r in table && Matches(f, r)
  }

  /** The rows that a cursor leaves: those listed after it. */
  function AfterCursor(rows: set<RunRow>, cursor: Option<Cursor>): set<RunRow> {
    set r | r in rows && (cursor.Some? ==> Before(cursor.value, KeyOf(r)))
  }

  /** The first rows of a list, at most `n` of them. */
  function Limit(rows: seq<RunRow>, n: nat): seq<RunRow> {
    if |rows| <= n then rows else rows[..n]
  }

  /** The page shows the first `limit` of the rows left, and a next cursor exactly when there are more. */
  predicate Holds(page: Page, left: seq<RunRow>, limit: nat)
    requires limit >= 1
  {
    && page.items == Limit(left, limit)
    && page.next == if |left| > limit then Some(KeyOf(left[limit - 1])) else None
  }

  lemma SubsetKeyed(table: set<RunRow>, part: set<RunRow>)
    requires Keyed(table) && part <= table
    ensures Keyed(part)
  {
  }

  /** The query of one request, with its cursor decoded. */
  method FetchPage(table: set<RunRow>, f: Filters, cursor: Option<Cursor>, limit: nat) returns (page: Page)
    requires Keyed(table) && limit >= 1
    ensures Keyed(AfterCursor(Filtered(table, f), cursor))
    ensures Holds(page, Listed(AfterCursor(Filtered(table, f), cursor)), limit) && page.total == |Filtered(table, f)|
  {
    hide Before, Matches, Descending, Keyed;
    var rows := Filtered(table, f);
    var selected := AfterCursor(rows, cursor);
    SubsetKeyed(table, selected);
    var fetched := Limit(Listed(selected), limit + 1);
    var items := if |fetched| <= limit then fetched else fetched[..limit];
    var next := if |fetched| > limit then Some(KeyOf(items[|items| - 1])) else None;
    page := Page(items, next, |rows|);
  }

  function Decoded(cursor: Option<CursorText>): Option<Cursor> {
    if cursor.Some? && cursor.value.Encoded? then Some(cursor.value.cursor) else None
  }

  /**
   * One request. Unknown status names are refused first, then a cursor that does not decode;
   * otherwise the page holds the first `limit` rows that the cursor leaves, and a next cursor
   * exactly when there are more.
   */
  method ListRuns(table: set<RunRow>, f: Filters, cursor: Option<CursorText>, limit: nat) returns (reply: Reply)
    requires Keyed(table) && limit >= 1
    ensures f.statuses <= RUN_STATUSES <==> !reply.InvalidStatuses?
    ensures reply.InvalidStatuses? ==> reply.names == f.statuses - RUN_STATUSES
    ensures reply.InvalidCursor? <==> f.statuses <= RUN_STATUSES && cursor == Some(Garbled)
    ensures reply.Shown? ==> Keyed(AfterCursor(Filtered(table, f), Decoded(cursor)))
    ensures reply.Shown? ==>
              && Holds(reply.page, Listed(AfterCursor(Filtered(table, f), Decoded(cursor))), limit)
              && reply.page.total == |Filtered(table, f)|
  {
    hide Before, Matches, Descending, Keyed, Holds, AfterCursor, Filtered;
    var invalid := f.statuses - RUN_STATUSES;
    if invalid != {} {
      return InvalidStatuses(invalid);
    }
    if cursor == Some(Garbled) {
      return InvalidCursor;
    }
    var page := FetchPage(table, f, Decoded(cursor), limit);
    return Shown(page);
  }

  // ---------------------------------------------------------------- following the cursors

  /** After the first `k` rows the cursor leaves exactly the others, in the same order. */
  lemma CursorLeavesRest(rows: set<RunRow>, k: nat)
    requires Keyed(rows) && 0 < k <= |Listed(rows)|
    ensures Keyed(AfterCursor(rows, Some(KeyOf(Listed(rows)[k - 1]))))
    ensures Listed(AfterCursor(rows, Some(KeyOf(Listed(rows)[k - 1])))) == Listed(rows)[k..]
  {
    hide Before, Descending, KeyOf;
    var all := Listed(rows);
    var rest := AfterCursor(rows, Some(KeyOf(all[k - 1])));
    SubsetKeyed(rows, rest);
    SuffixDescending(all, k);
    forall r ensures r in Listed(rest) <==> r in all[k..] {
      AfterPosition(all, k, r);
    }
    SameMembers(Listed(rest), all[k..]);
  }

  lemma SuffixDescending(all: seq<RunRow>, k: nat)
    requires Descending(all) && k <= |all|
    ensures Descending(all[k..])
  {
    hide Before;
  }

  /** The rows that come after position `k - 1` in the order are those at `k` or later. */
  lemma AfterPosition(all: seq<RunRow>, k: nat, r: RunRow)
    requires Descending(all) && 0 < k <= |all|
    ensures r in all[k..] <==> r in all && Before(KeyOf(all[k - 1]), KeyOf(r))
  {
    if r in all[k..] {
      var i :| 0 <= i < |all| - k && all[k..][i] == r;
      assert r == all[k + i];
    }
    if r in all && Before(KeyOf(all[k - 1]), KeyOf(r)) {
      var i :| 0 <= i < |all| && all[i] == r;
      NotBefore(all, i, k);
      assert all[k..][i - k] == r;
    }
  }

  lemma Irreflexive(all: seq<RunRow>, i: nat, j: nat)
    requires Descending(all) && i <= j < |all|
    ensures !Before(KeyOf(all[j]), KeyOf(all[i]))
  {
    if i < j {
      assert Before(KeyOf(all[i]), KeyOf(all[j]));
    }
  }

  /** A row listed after position `k - 1` stands at `k` or later. */
  lemma NotBefore(all: seq<RunRow>, i: nat, k: nat)
    requires Descending(all) && i < |all| && 0 < k <= |all| && Before(KeyOf(all[k - 1]), KeyOf(all[i]))
    ensures i >= k
  {
    if i < k {
      Irreflexive(all, i, k - 1);
    }
  }

  /** The rows read so far are the first of the list, and the cursor stands at the last of them. */
  predicate ReadSoFar(all: seq<RunRow>, items: seq<RunRow>, next: Option<Cursor>) {
    && items <= all
    && (next.None? <==> items == all)
    && (next.Some? ==> items != [] && next.value == KeyOf(items[|items| - 1]))
  }

  lemma ReadOn(all: seq<RunRow>, items: seq<RunRow>, page: Page, limit: nat)
    requires limit >= 1 && items <= all && Holds(page, all[|items|..], limit)
    ensures ReadSoFar(all, items + page.items, page.next)
    ensures |page.items| <= limit && (page.next.Some? ==> |page.items| == limit)
    ensures items != all ==> page.items != []
  {
    hide KeyOf;
    var left := all[|items|..];
    assert all == items + left;
    if |left| > limit {
      assert items + page.items == all[..|items| + limit];
      assert (items + page.items)[|items| + limit - 1] == left[limit - 1];
    }
  }

  lemma ReadRest(rows: set<RunRow>, items: seq<RunRow>, next: Option<Cursor>)
    requires Keyed(rows) && ReadSoFar(Listed(rows), items, next) && next.Some?
    ensures items <= Listed(rows) && items != Listed(rows) && Keyed(AfterCursor(rows, next))
    ensures Listed(AfterCursor(rows, next)) == Listed(rows)[|items|..]
  {
    hide Before, Descending, KeyOf, Keyed, AfterCursor;
    assert items[|items| - 1] == Listed(rows)[|items| - 1];
    CursorLeavesRest(rows, |items|);
  }

  lemma ReadAll(all: seq<RunRow>, items: seq<RunRow>)
    requires ReadSoFar(all, items, None)
    ensures items == all
  {
  }

  /** Every page but the last is full and has a next cursor. */
  predicate Shaped(pages: seq<Page>, limit: nat) {
    forall i | 0 <= i < |pages| ::
      |pages[i].items| <= limit && (pages[i].next.None? ==> i == |pages| - 1) && (pages[i].next.Some? ==> |pages[i].items| == limit)
  }

  lemma ShapedSnoc(pages: seq<Page>, page: Page, limit: nat)
    requires Shaped(pages, limit) && (pages != [] ==> pages[|pages| - 1].next.Some?)
    requires |page.items| <= limit && (page.next.Some? ==> |page.items| == limit)
    ensures Shaped(pages + [page], limit)
  {
  }

  function Text(next: Option<Cursor>): Option<CursorText> {
    if next.Some? then Some(Encoded(next.value)) else None
  }

  /**
   * Following `next_cursor` from the start over an unchanged table ends, and the pages put
   * together are the filtered rows, each once, in list order. The first request is refused
   * exactly when a status name is unknown.
   */
  method ListEverything(table: set<RunRow>, f: Filters, limit: nat) returns (refused: bool, items: seq<RunRow>, pages: seq<Page>)
    requires Keyed(table) && limit >= 1
    ensures refused <==> !(f.statuses <= RUN_STATUSES)
    ensures !refused ==> Keyed(Filtered(table, f)) && items == Listed(Filtered(table, f))
    ensures !refused ==> items == Joined(pages) && Shaped(pages, limit)
  {
    hide Before, Matches, Descending, Keyed, Filtered, AfterCursor, Joined, KeyOf, Holds, Shaped, ReadSoFar;
    refused, items, pages := false, [], [];
    FilteredKeyed(table, f);
    NoCursor(Filtered(table, f));
    ghost var all := Listed(Filtered(table, f));
    hide Listed;
    var reply := ListRuns(table, f, None, limit);
    if !reply.Shown? {
      return true, [], [];
    }
    var page := reply.page;
    assert all[0..] == all;
    ReadOn(all, [], page, limit);
    items, pages := page.items, [page];
    assert [] + page.items == page.items;
    JoinedOne(page);
    OnePage(page, limit);
    while page.next.Some?
      invariant ReadSoFar(all, items, page.next) && items == Joined(pages)
      invariant Shaped(pages, limit) && pages != [] && page == pages[|pages| - 1]
      decreases |all| - |items|
    {
      ReadRest(Filtered(table, f), items, page.next);
      reply := ListRuns(table, f, Text(page.next), limit);
      page := reply.page;
      ReadOn(all, items, page, limit);
      JoinedSnoc(pages, page);
      ShapedSnoc(pages, page, limit);
      items := items + page.items;
      pages := pages + [page];
    }
    ReadAll(all, items);
  }

  /** The rows a request lists: those that pass each filter that was given. */
  lemma FilteredMeans(table: set<RunRow>, f: Filters, r: RunRow)
    ensures r in Filtered(table, f) <==>
            && r in table
            && (f.statuses == {} || r.status in f.statuses)
            && (f.project.None? || f.project.value == r.project)
            && (f.agent.None? || f.agent.value == r.agent)
            && (f.updatedAfter.None? || f.updatedAfter.value <= r.updatedAt)
            && (f.rejected.None? || f.rejected.value == r.rejected)
  {
  }

  /** The list runs from the newest row to the oldest, and by descending id among rows of one time. */
  lemma ListedInOrder(table: set<RunRow>, i: nat, j: nat)
    requires Keyed(table) && i < j < |Listed(table)|
    ensures var a, b := Listed(table)[i], Listed(table)[j];
            a.createdAt > b.createdAt || (a.createdAt == b.createdAt && a.id > b.id)
  {
    hide Listed;
    assert Before(KeyOf(Listed(table)[i]), KeyOf(Listed(table)[j]));
  }

  lemma FilteredKeyed(table: set<RunRow>, f: Filters)
    requires Keyed(table)
    ensures Keyed(Filtered(table, f))
  {
    SubsetKeyed(table, Filtered(table, f));
  }

  lemma NoCursor(rows: set<RunRow>)
    ensures AfterCursor(rows, None) == rows
  {
  }

  /** The pages put together. */
  function Joined(pages: seq<Page>): seq<RunRow> {
    if pages == [] then [] else Joined(pages[..|pages| - 1]) + pages[|pages| - 1].items
  }

  lemma OnePage(page: Page, limit: nat)
    requires |page.items| <= limit && (page.next.Some? ==> |page.items| == limit)
    ensures Shaped([page], limit)
  {
  }

  lemma JoinedOne(page: Page)
    ensures Joined([page]) == page.items
  {
    assert [page][..0] == [];
  }

  lemma JoinedSnoc(pages: seq<Page>, page: Page)
    ensures Joined(pages + [page]) == Joined(pages) + page.items
  {
    assert (pages + [page])[..|pages|] == pages;
  }
}
