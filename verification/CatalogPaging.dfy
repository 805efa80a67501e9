/** The paging loop that fills a cloud catalog. */
module CatalogPaging {
  import opened Basics

  const MAX_MODEL_PAGES: nat := 8
  const MAX_CATALOG_MODELS: nat := 256

  datatype Page =
    | EmptySuccess
    | Unparseable
    | Parsed(rows: seq<string>, hasMore: bool, lastId: Option<string>)

  datatype PageOutcome = Fetched(page: Page) | RetrySame | CacheableEmpty | Incomplete

  datatype CatalogFill = CatalogFill(models: seq<string>, complete: bool)

  /** What the loop is run against: how each execution ends given its cursor, when the deadline has
      passed, which requests can be built, which rows carry the key and which ids serve as cursors. */
  datatype World = World(
    respond: (Option<string>, nat) -> PageOutcome,
    expired: nat -> bool,
    builds: Option<string> -> bool,
    followsPages: bool,
    keyRow: string -> bool,
    cursor: string -> bool)

  function DropKeyRows(w: World, rows: seq<string>): seq<string> {
    if rows == [] then []
    else (if w.keyRow(rows[0]) then [] else [rows[0]]) + DropKeyRows(w, rows[1..])
  }

  /** All rows of the fetched pages, in server order, without the rows that carry the key. */
  function KeptRows(w: World, pages: seq<Page>): seq<string> {
    if pages == [] then []
    else
      var last := pages[|pages| - 1];
      KeptRows(w, pages[..|pages| - 1]) + (if last.Parsed? then DropKeyRows(w, last.rows) else [])
  }

  /** The rows of `kept` occur in `rows`, in that order. */
  predicate Within(kept: seq<string>, rows: seq<string>) {
    if rows == [] then kept == []
    else Within(kept, rows[1..]) || (kept != [] && kept[0] == rows[0] && Within(kept[1..], rows[1..]))
  }

  /** Dropping leaves every row that does not carry the key, as often as it occurred, and none that does. */
  lemma {:induction false} DropsOnlyKeyRows(w: World, rows: seq<string>, row: string)
    ensures multiset(DropKeyRows(w, rows))[row] == if w.keyRow(row) then 0 else multiset(rows)[row]
  {
    if rows != [] {
      DropsOnlyKeyRows(w, rows[1..], row);
      assert rows == [rows[0]] + rows[1..];
    }
  }

  /** The rows left are in the order they came. */
  lemma {:induction false} DropKeepsOrder(w: World, rows: seq<string>)
    ensures Within(DropKeyRows(w, rows), rows)
  {
    if rows != [] {
      DropKeepsOrder(w, rows[1..]);
      var kept, rest := DropKeyRows(w, rows), DropKeyRows(w, rows[1..]);
      if w.keyRow(rows[0]) {
        assert kept == rest;
      } else {
        assert kept[0] == rows[0] && kept[1..] == rest;
      }
    }
  }

  /** The kept rows of a walk are those of its pages one after the other. */
  lemma KeptRowsChain(w: World, pages: seq<Page>, rows: seq<string>, hasMore: bool, lastId: Option<string>)
    ensures KeptRows(w, []) == []
    ensures KeptRows(w, pages + [Parsed(rows, hasMore, lastId)]) == KeptRows(w, pages) + DropKeyRows(w, rows)
  {
    assert (pages + [Parsed(rows, hasMore, lastId)])[..|pages|] == pages;
  }

  function Take(s: seq<string>, n: nat): (r: seq<string>)
    ensures r <= s && |r| == if |s| <= n then |s| else n
  {
    if |s| <= n then s else s[..n]
  }

  function NextCursor(w: World, p: Page): Option<string>
    requires p.Parsed?
  {
    if w.followsPages && p.lastId.Some? && w.cursor(p.lastId.value) then p.lastId else None
  }

  /** The walk follows the last id of a page when the provider pages and the id can serve as a cursor. */
  lemma CursorIs(w: World, rows: seq<string>, hasMore: bool, id: string)
    ensures NextCursor(w, Parsed(rows, hasMore, Some(id))) == if w.followsPages && w.cursor(id) then Some(id) else None
    ensures NextCursor(w, Parsed(rows, hasMore, None)) == None
  {
  }

  function CursorAfter(w: World, pages: seq<Page>): Option<string>
    requires pages == [] || pages[|pages| - 1].Parsed?
  {
    if pages == [] then None else NextCursor(w, pages[|pages| - 1])
  }

  /** One turn: an answer that asks to retry is retried once. The outcome, and the next execution. */
  function Turn(w: World, cursor: Option<string>, n: nat): (PageOutcome, nat) {
    if w.respond(cursor, n).RetrySame? then (w.respond(cursor, n + 1), n + 2) else (w.respond(cursor, n), n + 1)
  }

  function CountAfter(w: World, pages: seq<Page>): nat {
    if pages == [] then 0
    else
      var past := pages[..|pages| - 1];
      if past == [] || past[|past| - 1].Parsed? then Turn(w, CursorAfter(w, past), CountAfter(w, past)).1 else 0
  }

  /** Every page is what its turn fetched, asked for with the cursor of a page that said more follows. */
  ghost predicate Served(w: World, pages: seq<Page>) {
    pages != [] ==>
      var past := pages[..|pages| - 1];
      && Served(w, past)
      && (past != [] ==> past[|past| - 1].hasMore && CursorAfter(w, past).Some?)
      && pages[|pages| - 1].Parsed?
      && Turn(w, CursorAfter(w, past), CountAfter(w, past)).0 == Fetched(pages[|pages| - 1])
  }

  ghost function LastServed(pages: seq<Page>): PageOutcome {
    if pages == [] then Incomplete else Fetched(pages[|pages| - 1])
  }

  /** The walk stops at the end of the list or the bound, at the deadline, at a request that cannot be
      built, after eight pages, or at a turn that fetched no rows; and only then. */
  ghost predicate Stops(w: World, pages: seq<Page>, last: PageOutcome, executions: nat)
    requires Served(w, pages)
  {
    || (&& executions == CountAfter(w, pages)
        && last == LastServed(pages)
        && (Complete(w, pages, last) || w.expired(executions) || !w.builds(CursorAfter(w, pages))
            || |pages| == MAX_MODEL_PAGES))
    || (&& (last, executions) == Turn(w, CursorAfter(w, pages), CountAfter(w, pages))
        && !(last.Fetched? && last.page.Parsed?))
  }

  /** The catalog may be cached: the list ended, the bound was reached, or the very first answer was
      an empty success or a refusal. */
  ghost predicate Complete(w: World, pages: seq<Page>, last: PageOutcome) {
    match last
    case Fetched(EmptySuccess) => true
    case Fetched(Unparseable) => false
    case Fetched(Parsed(_, hasMore, _)) =>
      pages != [] && pages[|pages| - 1].Parsed?
      && (!hasMore || |KeptRows(w, pages)| >= MAX_CATALOG_MODELS || CursorAfter(w, pages).None?)
    case CacheableEmpty => pages == []
    case _ => false
  }

  lemma TakeOfTake(a: seq<string>, b: seq<string>, n: nat)
    ensures Take(Take(a, n) + b, n) == Take(a + b, n)
  {
  }

  datatype Applied = Continue | Done(fill: CatalogFill)

  /** One page applied to what was collected. */
  method ApplyModelsPage(w: World, page: Page, ghost pages: seq<Page>, collected: seq<string>)
    returns (applied: Applied, collected': seq<string>, afterId: Option<string>)
    requires collected == Take(KeptRows(w, pages), MAX_CATALOG_MODELS)
    ensures var pages' := if page.Parsed? then pages + [page] else pages;
            && collected' == Take(KeptRows(w, pages'), MAX_CATALOG_MODELS)
            && (applied.Done? ==> applied.fill == CatalogFill(collected', Complete(w, pages', Fetched(page))))
            && (applied.Done? && page.Parsed? ==> applied.fill.complete)
            && (applied.Continue? ==> page.Parsed? && page.hasMore && NextCursor(w, page).Some?
                                      && afterId == NextCursor(w, page) && |collected'| < MAX_CATALOG_MODELS)
  {
    afterId := None;
    match page {
      case EmptySuccess => return Done(CatalogFill(collected, true)), collected, None;
      case Unparseable => return Done(CatalogFill(collected, false)), collected, None;
      case Parsed(rows, hasMore, lastId) =>
        ghost var pages' := pages + [page];
        assert pages'[..|pages|] == pages;
        TakeOfTake(KeptRows(w, pages), DropKeyRows(w, rows), MAX_CATALOG_MODELS);
        collected' := Take(collected + DropKeyRows(w, rows), MAX_CATALOG_MODELS);
        var next := NextCursor(w, page);
        if !hasMore || |collected'| >= MAX_CATALOG_MODELS || next.None? {
          return Done(CatalogFill(collected', true)), collected', None;
        }
        return Continue, collected', next;
    }
  }

  /** One page asked for, once more when the first answer says to retry. */
  method FetchPage(w: World, cursor: Option<string>, n: nat) returns (outcome: PageOutcome, n': nat)
    ensures (outcome, n') == Turn(w, cursor, n) && n < n' <= n + 2
  {
    outcome, n' := w.respond(cursor, n), n + 1;
    if outcome.RetrySame? {
      outcome, n' := w.respond(cursor, n'), n' + 1;
    }
  }

  lemma ServedMore(w: World, pages: seq<Page>, p: Page)
    requires Served(w, pages) && p.Parsed?
    requires pages != [] ==> pages[|pages| - 1].hasMore && CursorAfter(w, pages).Some?
    requires Turn(w, CursorAfter(w, pages), CountAfter(w, pages)).0 == Fetched(p)
    ensures Served(w, pages + [p])
    ensures CountAfter(w, pages + [p]) == Turn(w, CursorAfter(w, pages), CountAfter(w, pages)).1
  {
    assert (pages + [p])[..|pages|] == pages;
  }

  /** The loop goes on: what it holds is told by the pages served so far. */
  ghost predicate Walking(
    w: World, pages: seq<Page>, executions: nat, collected: seq<string>, afterId: Option<string>)
  {
    && Served(w, pages) && executions == CountAfter(w, pages) && afterId == CursorAfter(w, pages)
    && collected == Take(KeptRows(w, pages), MAX_CATALOG_MODELS)
    && (pages != [] ==> pages[|pages| - 1].hasMore && afterId.Some? && |collected| < MAX_CATALOG_MODELS)
  }

  /** The fill is what the served pages and the last outcome call for. */
  ghost predicate Filled(w: World, pages: seq<Page>, last: PageOutcome, executions: nat, fill: CatalogFill) {
    && Served(w, pages) && Stops(w, pages, last, executions)
    && fill.models == Take(KeptRows(w, pages), MAX_CATALOG_MODELS)
    && (fill.complete <==> Complete(w, pages, last))
  }

  lemma StopsShort(w: World, pages: seq<Page>, executions: nat, collected: seq<string>, afterId: Option<string>)
    requires Walking(w, pages, executions, collected, afterId)
    requires w.expired(executions) || !w.builds(afterId) || |pages| == MAX_MODEL_PAGES
    ensures Filled(w, pages, LastServed(pages), executions, CatalogFill(collected, false))
  {
  }

  /** One turn of the loop. */
  method TurnPage(
    w: World, ghost pages: seq<Page>, n: nat, collected: seq<string>, afterId: Option<string>, first: bool)
    returns (done: Option<CatalogFill>, ghost pages': seq<Page>, ghost last: PageOutcome, n': nat,
             collected': seq<string>, afterId': Option<string>)
    requires Walking(w, pages, n, collected, afterId) && (first <==> pages == [])
    ensures n' <= n + 2
    ensures done.None? ==> Walking(w, pages', n', collected', afterId') && |pages'| == |pages| + 1
    ensures done.Some? ==> Filled(w, pages', last, n', done.value) && |pages'| <= |pages| + 1
  {
    var outcome;
    outcome, n' := FetchPage(w, afterId, n);
    pages', last, collected', afterId' := pages, outcome, collected, afterId;
    if !outcome.Fetched? {
      done := Some(CatalogFill(collected, outcome.CacheableEmpty? && first));
      return;
    }
    var applied;
    applied, collected', afterId' := ApplyModelsPage(w, outcome.page, pages, collected);
    if outcome.page.Parsed? {
      ServedMore(w, pages, outcome.page);
      pages' := pages + [outcome.page];
    }
    done := if applied.Done? then Some(applied.fill) else None;
  }

  /**
   The list: exactly the first 256 rows of the fetched pages without key rows, in server order, from
   at most 8 pages and 16 executions; complete exactly when `Complete` says so, hence never after a
   refusal or failure past the first page.
   */
  method ListCloudHttpModels(w: World)
    returns (fill: CatalogFill, ghost pages: seq<Page>, ghost last: PageOutcome, executions: nat)
    ensures fill.models == Take(KeptRows(w, pages), MAX_CATALOG_MODELS)
    ensures |pages| <= MAX_MODEL_PAGES && executions <= 2 * MAX_MODEL_PAGES
    ensures Served(w, pages) && Stops(w, pages, last, executions)
    ensures fill.complete <==> Complete(w, pages, last)
    ensures pages != [] && !last.Fetched? ==> !fill.complete
  {
    var collected: seq<string> := [];
    var afterId := None;
    executions, pages := 0, [];
    for page := 0 to MAX_MODEL_PAGES
      invariant |pages| == page && executions <= 2 * page
      invariant Walking(w, pages, executions, collected, afterId)
    {
      if w.expired(executions) || |collected| >= MAX_CATALOG_MODELS || !w.builds(afterId) {
        StopsShort(w, pages, executions, collected, afterId);
        return CatalogFill(collected, false), pages, LastServed(pages), executions;
      }
      var done;
      done, pages, last, executions, collected, afterId :=
        TurnPage(w, pages, executions, collected, afterId, page == 0);
      if done.Some? {
        return done.value, pages, last, executions;
      }
    }
    StopsShort(w, pages, executions, collected, afterId);
    return CatalogFill(collected, false), pages, LastServed(pages), executions;
  }
}
