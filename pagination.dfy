/**
 * The paging of the document list: each page asks the backend for an
 * inclusive row range of `PageSize` rows, and another page is requested
 * only while the last page came back full.
 */
module DocumentPages {
  import opened Wrappers

  const PageSize: nat := 20

  /** `from = pageParam * PAGE_SIZE` */
  function RangeFrom(pageParam: nat): nat {
    pageParam * PageSize
  }

  /** `to = (pageParam + 1) * PAGE_SIZE - 1` (inclusive) */
  function RangeTo(pageParam: nat): nat {
    (pageParam + 1) * PageSize - 1
  }

  /** Each page spans exactly `PageSize` rows, and the next page starts right after it. */
  lemma PageRangesTile(p: nat)
    ensures RangeTo(p) - RangeFrom(p) + 1 == PageSize
    ensures RangeTo(p) + 1 == RangeFrom(p + 1)
  {
  }

  /** Every row index falls in the range of exactly one page: page `r / PageSize`. */
  lemma RowOnOnePage(r: nat, p: nat)
    ensures RangeFrom(p) <= r <= RangeTo(p) <==> p == r / PageSize
  {
    if RangeFrom(p) <= r <= RangeTo(p) {
      assert p * PageSize <= r < (p + 1) * PageSize;
      DivisionPins(r, p);
    }
  }

  lemma DivisionPins(r: nat, p: nat)
    requires p * PageSize <= r < (p + 1) * PageSize
    ensures r / PageSize == p
  {
    var q := r / PageSize;
    assert q * PageSize <= r < (q + 1) * PageSize;
  }

  /** What `queryFn` asks the backend for. */
  datatype PageQuery = NoUserError | RowRange(userId: string, from: nat, to: nat)

  /** `queryFn({ pageParam })`: fails without a user, otherwise asks for the user's rows of that page. */
  function QueryFor(user: Option<string>, pageParam: nat): (q: PageQuery)
    ensures q == NoUserError <==> user.None?
    ensures q.RowRange? ==> q.userId == user.value && q.from == RangeFrom(pageParam) && q.to == RangeTo(pageParam)
    ensures q.RowRange? ==> q.from == pageParam * PageSize && q.to == (pageParam + 1) * PageSize - 1
    ensures q.RowRange? ==> q.to - q.from + 1 == PageSize && q.from % PageSize == 0
  {
    match user
    case None => NoUserError
    case Some(id) => RowRange(id, RangeFrom(pageParam), RangeTo(pageParam))
  }

  const InitialPageParam: nat := 0

  /** `getNextPageParam`: the number of loaded pages, but only after a full page. */
  function NextPageParam<T>(lastPage: seq<T>, allPages: seq<seq<T>>): (r: Option<nat>)
    ensures r.Some? <==> |lastPage| == PageSize
    ensures r.Some? ==> r.value == |allPages|
  {
    if |lastPage| == PageSize then Some(|allPages|) else None
  }

  /** The rows `.range(from, to)` returns from the user's ordered rows. */
  function Page<T>(rows: seq<T>, p: nat): (page: seq<T>)
    ensures |page| <= PageSize
    ensures RangeFrom(p) <= |rows| ==> page == rows[RangeFrom(p)..if RangeTo(p) + 1 <= |rows| then RangeTo(p) + 1 else |rows|]
    ensures RangeFrom(p) > |rows| ==> page == []
  {
    var from, end := RangeFrom(p), RangeTo(p) + 1;
    if from > |rows| then [] else rows[from..if end <= |rows| then end else |rows|]
  }

  /** `pages.flat()` */
  function Flatten<T>(pages: seq<seq<T>>): seq<T> {
    if pages == [] then [] else Flatten(pages[..|pages| - 1]) + pages[|pages| - 1]
  }

  /**
   * Loading page `p` after the pages `loaded`, then following
   * `getNextPageParam` until it reports no further page.
   */
  function LoadFrom<T>(rows: seq<T>, p: nat, loaded: seq<seq<T>>): seq<seq<T>>
    requires |loaded| == p
    decreases |rows| + PageSize - RangeFrom(p)
  {
    var page := Page(rows, p);
    var all := loaded + [page];
    match NextPageParam(page, all)
    case None => all
    case Some(next) => LoadFrom(rows, next, all)
  }

  /** Loading from the initial page parameter. */
  function LoadAll<T>(rows: seq<T>): seq<seq<T>> {
    LoadFrom(rows, InitialPageParam, [])
  }

  /**
   * Following the next-page rule from page `p` fetches every remaining row
   * once, in order, and takes one page more than the full pages ahead.
   */
  lemma {:induction false} LoadFromCovers<T>(rows: seq<T>, p: nat, loaded: seq<seq<T>>)
    requires |loaded| == p && RangeFrom(p) <= |rows|
    ensures Flatten(LoadFrom(rows, p, loaded)) == Flatten(loaded) + rows[RangeFrom(p)..]
    ensures |LoadFrom(rows, p, loaded)| == p + (|rows| - RangeFrom(p)) / PageSize + 1
    decreases |rows| - RangeFrom(p)
  {
    var page := Page(rows, p);
    var all := loaded + [page];
    assert all[..|all| - 1] == loaded;
    assert Flatten(all) == Flatten(loaded) + page;
    if |page| == PageSize {
      assert RangeTo(p) + 1 == RangeFrom(p + 1) <= |rows|;
      LoadFromCovers(rows, p + 1, all);
      assert rows[RangeFrom(p)..] == page + rows[RangeFrom(p + 1)..];
      assert (|rows| - RangeFrom(p)) / PageSize == (|rows| - RangeFrom(p + 1)) / PageSize + 1;
    } else {
      assert page == rows[RangeFrom(p)..];
      assert |rows| - RangeFrom(p) < PageSize;
    }
  }

  /** Loading every page yields exactly the user's rows, in `|rows| / PageSize + 1` requests. */
  lemma LoadAllCovers<T>(rows: seq<T>)
    ensures Flatten(LoadAll(rows)) == rows
    ensures |LoadAll(rows)| == |rows| / PageSize + 1
  {
    LoadFromCovers(rows, 0, []);
    assert rows[0..] == rows;
  }
}
