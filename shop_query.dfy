/**
 * The shop page's query construction: the auction and direct-buy SQL built
 * with numbered `$n` placeholders, the whitelisted ORDER BY, and the
 * pagination arithmetic.  SQL text is a sequence of pieces: fixed text, or a
 * numbered placeholder, so that what reaches the SQL text can be stated.
 */
module ShopQuery {
  import opened Wrappers

  datatype SqlPiece = Text(s: string) | Placeholder(index: int)

  /** A value bound to a placeholder. */
  datatype SqlValue = Str(s: string) | Num(n: int)

  const PageSize: int := 12

  /** The ORDER BY clauses the page can produce. */
  const OrderByChoices: set<string> :=
    {"created_at DESC", "created_at ASC", "price ASC", "price DESC", "title ASC"}

  /** Every literal fragment the builders write into SQL text. */
  const FixedFragments: set<string> :=
    {"SELECT * FROM products WHERE is_auction = TRUE", "FROM products WHERE is_auction = FALSE",
     " AND (title ILIKE ", " OR description ILIKE ", ")", " AND category = ",
     " ORDER BY auction_end_time ASC", "SELECT COUNT(*) as count ", "SELECT * ", " ORDER BY ",
     " LIMIT ", " OFFSET "} + OrderByChoices

  /** No piece of SQL text comes from the request. */
  predicate OnlyFixedText(query: seq<SqlPiece>) {
    forall i :: 0 <= i < |query| && query[i].Text? ==> query[i].s in FixedFragments
  }

  /** The placeholder numbers of a query, left to right. */
  function PlaceholderIndices(query: seq<SqlPiece>): seq<int> {
    if query == [] then []
    else (if query[0].Placeholder? then [query[0].index] else []) + PlaceholderIndices(query[1..])
  }

  /** 1, 2, …, n. */
  function OneTo(n: nat): seq<int> {
    seq(n, i requires 0 <= i < n => i + 1)
  }

  lemma {:induction false} PlaceholderIndicesOfConcat(a: seq<SqlPiece>, b: seq<SqlPiece>)
    ensures PlaceholderIndices(a + b) == PlaceholderIndices(a) + PlaceholderIndices(b)
  {
    if a == [] {
      assert a + b == b;
    } else {
      var head := if a[0].Placeholder? then [a[0].index] else [];
      assert (a + b)[0] == a[0] && (a + b)[1..] == a[1..] + b;
      assert PlaceholderIndices(a + b) == head + PlaceholderIndices(a[1..] + b);
      PlaceholderIndicesOfConcat(a[1..], b);
      assert head + (PlaceholderIndices(a[1..]) + PlaceholderIndices(b))
          == (head + PlaceholderIndices(a[1..])) + PlaceholderIndices(b);
    }
  }

  lemma OnlyFixedTextOfConcat(a: seq<SqlPiece>, b: seq<SqlPiece>)
    requires OnlyFixedText(a) && OnlyFixedText(b)
    ensures OnlyFixedText(a + b)
  {
    forall i | 0 <= i < |a + b| && (a + b)[i].Text? ensures (a + b)[i].s in FixedFragments {
      if i >= |a| { assert (a + b)[i] == b[i - |a|]; }
    }
  }

  /** Appending one piece: a placeholder adds its number at the end; fixed text keeps the text fixed. */
  lemma AppendPiece(query: seq<SqlPiece>, p: SqlPiece)
    ensures PlaceholderIndices(query + [p]) == PlaceholderIndices(query) + (if p.Placeholder? then [p.index] else [])
    ensures OnlyFixedText(query) && (p.Text? ==> p.s in FixedFragments) ==> OnlyFixedText(query + [p])
  {
    PlaceholderIndicesOfConcat(query, [p]);
    assert [p][1..] == [];
    if OnlyFixedText(query) && (p.Text? ==> p.s in FixedFragments) {
      OnlyFixedTextOfConcat(query, [p]);
    }
  }

  lemma OneToSucc(n: nat)
    ensures OneTo(n) + [n + 1] == OneTo(n + 1)
  {
  }

  /** The sort key's ORDER BY clause; anything unknown sorts newest first. */
  function OrderBy(sort: string): (r: string)
    ensures r in OrderByChoices
    ensures sort !in {"date_asc", "price_asc", "price_desc", "alpha_asc"} ==> r == "created_at DESC"
  {
    match sort
    case "date_asc" => "created_at ASC"
    case "price_asc" => "price ASC"
    case "price_desc" => "price DESC"
    case "alpha_asc" => "title ASC"
    case _ => "created_at DESC"
  }

  /** The page's query parameters as read from the URL; `page` is `None` when absent or not a number. */
  datatype SearchParams = SearchParams(q: Option<string>, sort: Option<string>, category: Option<string>,
                                       page: Option<int>)

  /** `searchParams.x || fallback`. */
  function OrDefault(v: Option<string>, fallback: string): string {
    match v
    case Some(s) => if s == "" then fallback else s
    case None => fallback
  }

  /** `Number(searchParams.page) || 1`. */
  function PageNumber(page: Option<int>): (r: int)
    ensures r != 0
    ensures page.None? ==> r == 1
  {
    match page
    case Some(n) => if n == 0 then 1 else n
    case None => 1
  }

  /** The values the page works with once the fallbacks are applied. */
  datatype ShopFilters = ShopFilters(q: string, sort: string, category: string, page: int)

  /** The four reads at the top of the page: `q`, `sort`, `category` and `page`, each with its fallback. */
  function ReadParams(sp: SearchParams): (r: ShopFilters)
    ensures sp.q.Some? && sp.q.value != "" ==> r.q == sp.q.value
    ensures sp.q.None? ==> r.q == ""
    ensures sp.sort.Some? && sp.sort.value != "" ==> r.sort == sp.sort.value
    ensures sp.sort.None? ==> r.sort == "date_desc"
    ensures sp.category.Some? && sp.category.value != "" ==> r.category == sp.category.value
    ensures sp.category.None? ==> r.category == "all"
    ensures r.sort != "" && r.category != ""
    ensures r.page == PageNumber(sp.page) && r.page != 0
  {
    ShopFilters(OrDefault(sp.q, ""), OrDefault(sp.sort, "date_desc"), OrDefault(sp.category, "all"), PageNumber(sp.page))
  }

  /** `(page - 1) * limit`. */
  function Offset(page: int): (r: int)
    ensures r % PageSize == 0
    ensures r >= 0 <==> page >= 1
  {
    (page - 1) * PageSize
  }

  /** `Math.ceil(totalItems / limit)`. */
  function TotalPages(totalItems: nat): (r: nat)
    ensures (r - 1) * PageSize < totalItems <= r * PageSize || (r == 0 && totalItems == 0)
  {
    (totalItems + PageSize - 1) / PageSize
  }

  /** The `totalPages > 1` test holds exactly when there is more than one page's worth of items. */
  lemma PaginationShownIffMoreThanOnePage(totalItems: nat)
    ensures TotalPages(totalItems) > 1 <==> totalItems > PageSize
  {
  }

  /**
   * The page links sit in the branch that lists items, so they show when the
   * requested page holds items and there is more than one page.
   */
  predicate LinksShown(totalItems: nat, pageItems: nat) {
    pageItems > 0 && TotalPages(totalItems) > 1
  }

  /**
   * Links show only when there are more than 12 items, and on a page that
   * lists items they show exactly then; an empty page (one past the last)
   * shows none.
   */
  lemma LinksShownOnlyWithMoreThanOnePage(totalItems: nat, pageItems: nat)
    ensures LinksShown(totalItems, pageItems) ==> totalItems > PageSize
    ensures pageItems > 0 ==> (LinksShown(totalItems, pageItems) <==> totalItems > PageSize)
    ensures pageItems == 0 ==> !LinksShown(totalItems, pageItems)
  {
    PaginationShownIffMoreThanOnePage(totalItems);
  }

  /** Every item lands on exactly one page, and offsets of successive pages are one page apart. */
  lemma OffsetsTilePages(totalItems: nat, k: int)
    requires 0 <= k < totalItems
    ensures var p := k / PageSize + 1;
      1 <= p <= TotalPages(totalItems) && Offset(p) <= k < Offset(p) + PageSize
  {
  }

  /** `%q%`. */
  function LikePattern(q: string): string {
    "%" + q + "%"
  }

  /** The filter values in the order the page binds them: the search pattern twice, then the category. */
  function FilterValues(q: string, category: string): seq<SqlValue> {
    (if q != "" then [Str(LikePattern(q)), Str(LikePattern(q))] else []) +
    (if category != "all" then [Str(category)] else [])
  }

  /** The search clause: ` AND (title ILIKE $n OR description ILIKE $n+1)`, both bound to `%q%`. */
  method AppendSearch(start: seq<SqlPiece>, n: nat, q: string) returns (query: seq<SqlPiece>)
    requires PlaceholderIndices(start) == OneTo(n) && OnlyFixedText(start)
    ensures |query| >= |start| && query[..|start|] == start
    ensures PlaceholderIndices(query) == OneTo(n + 2)
    ensures OnlyFixedText(query)
  {
    query := start;
    AppendPiece(query, Text(" AND (title ILIKE "));
    query := query + [Text(" AND (title ILIKE ")];
    AppendPiece(query, Placeholder(n + 1));
    query := query + [Placeholder(n + 1)];
    OneToSucc(n);
    AppendPiece(query, Text(" OR description ILIKE "));
    query := query + [Text(" OR description ILIKE ")];
    AppendPiece(query, Placeholder(n + 2));
    query := query + [Placeholder(n + 2)];
    OneToSucc(n + 1);
    AppendPiece(query, Text(")"));
    query := query + [Text(")")];
    assert query[..|start|] == start;
  }

  /** The category clause: ` AND category = $n`. */
  method AppendCategory(start: seq<SqlPiece>, n: nat) returns (query: seq<SqlPiece>)
    requires PlaceholderIndices(start) == OneTo(n) && OnlyFixedText(start)
    ensures |query| >= |start| && query[..|start|] == start
    ensures PlaceholderIndices(query) == OneTo(n + 1)
    ensures OnlyFixedText(query)
  {
    query := start;
    AppendPiece(query, Text(" AND category = "));
    query := query + [Text(" AND category = ")];
    AppendPiece(query, Placeholder(n + 1));
    query := query + [Placeholder(n + 1)];
    OneToSucc(n);
    assert query[..|start|] == start;
  }

  /**
   * Appends the search and category clauses to `start` (`query += ...`),
   * binding their values with placeholders numbered from 1 by a counter that
   * always stays one past the parameters bound so far.
   */
  method AppendFilters(start: seq<SqlPiece>, q: string, category: string)
    returns (query: seq<SqlPiece>, params: seq<SqlValue>, idx: int)
    requires PlaceholderIndices(start) == [] && OnlyFixedText(start)
    ensures params == FilterValues(q, category)
    ensures idx == |params| + 1
    ensures |query| >= |start| && query[..|start|] == start
    ensures PlaceholderIndices(query) == OneTo(|params|)
    ensures OnlyFixedText(query)
  {
    query := start;
    params := [];
    idx := 1;
    assert OneTo(0) == [];
    if q != "" {
      query := AppendSearch(query, 0, q);
      params := params + [Str(LikePattern(q)), Str(LikePattern(q))];
      idx := idx + 2;
    }
    ghost var mid := query;
    if category != "all" {
      query := AppendCategory(query, |params|);
      params := params + [Str(category)];
      idx := idx + 1;
      assert query[..|start|] == mid[..|start|];
    }
  }

  /** The auction query: every auction matching the filters, soonest ending first. */
  method BuildAuctionQuery(q: string, category: string) returns (query: seq<SqlPiece>, params: seq<SqlValue>)
    ensures params == FilterValues(q, category)
    ensures PlaceholderIndices(query) == OneTo(|params|)
    ensures OnlyFixedText(query)
  {
    var idx;
    query, params, idx := AppendFilters([Text("SELECT * FROM products WHERE is_auction = TRUE")], q, category);
    AppendPiece(query, Text(" ORDER BY auction_end_time ASC"));
    query := query + [Text(" ORDER BY auction_end_time ASC")];
  }

  /**
   * The direct-buy count query and page query over the same filters.  The
   * page query's LIMIT and OFFSET take the next two placeholder numbers and
   * their values come last, so the placeholders run 1..n without a gap.
   */
  method BuildDirectQuery(q: string, category: string, sort: string, page: int)
    returns (countQuery: seq<SqlPiece>, countParams: seq<SqlValue>, pageQuery: seq<SqlPiece>, pageParams: seq<SqlValue>)
    ensures countParams == FilterValues(q, category)
    ensures pageParams == countParams + [Num(PageSize), Num(Offset(page))]
    ensures PlaceholderIndices(countQuery) == OneTo(|countParams|)
    ensures PlaceholderIndices(pageQuery) == OneTo(|pageParams|)
    ensures OnlyFixedText(countQuery) && OnlyFixedText(pageQuery)
    ensures Text(OrderBy(sort)) in pageQuery
  {
    var base, idx;
    base, countParams, idx := AppendFilters([Text("FROM products WHERE is_auction = FALSE")], q, category);
    var countHead := [Text("SELECT COUNT(*) as count ")];
    PlaceholderIndicesOfConcat(countHead, base);
    OnlyFixedTextOfConcat(countHead, base);
    countQuery := countHead + base;

    var orderBy := OrderBy(sort);
    var selectHead := [Text("SELECT * ")];
    PlaceholderIndicesOfConcat(selectHead, base);
    OnlyFixedTextOfConcat(selectHead, base);
    pageQuery := selectHead + base;
    AppendPiece(pageQuery, Text(" ORDER BY "));
    pageQuery := pageQuery + [Text(" ORDER BY ")];
    AppendPiece(pageQuery, Text(orderBy));
    pageQuery := pageQuery + [Text(orderBy)];
    ghost var orderAt := |pageQuery| - 1;
    AppendPiece(pageQuery, Text(" LIMIT "));
    pageQuery := pageQuery + [Text(" LIMIT ")];
    AppendPiece(pageQuery, Placeholder(idx));
    pageQuery := pageQuery + [Placeholder(idx)];
    OneToSucc(|countParams|);
    AppendPiece(pageQuery, Text(" OFFSET "));
    pageQuery := pageQuery + [Text(" OFFSET ")];
    AppendPiece(pageQuery, Placeholder(idx + 1));
    pageQuery := pageQuery + [Placeholder(idx + 1)];
    OneToSucc(|countParams| + 1);
    assert pageQuery[orderAt] == Text(orderBy);
    pageParams := countParams + [Num(PageSize), Num(Offset(page))];
  }
}
