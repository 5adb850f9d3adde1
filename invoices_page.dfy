/** The server page of the invoice list
    (`mainApp/app/dashboard/invoices/page.tsx`): URL parameters are given
    defaults, the page size is clamped, and a page number beyond the last
    page redirects to page 1 with every other parameter kept. */
module InvoicesPage {
  import opened Wrappers
  import opened UrlParams
  import Numerals
  import InvoiceData
  import InvoiceTable

  /** What the page hands to the table and the pagination. */
  datatype PageArgs = PageArgs(query: string, currentPage: int, sortBy: string,
                               sortDirection: string, itemsPerPage: int)

  /** The parameters with their defaults: `||` replaces an absent or empty
      value; `sortBy` and `sortDirection` are otherwise passed on unchecked. */
  function ResolvePageArgs(params: Params, lim: PageSizeLimits): (a: PageArgs)
    ensures a.query == (if "query" in params then params["query"] else "")
    ensures a.currentPage == GetSafeNumber(Get(params, "page"), 1)
    ensures a.sortBy != "" && a.sortDirection != ""
    ensures "sortBy" in params && params["sortBy"] != "" ==> a.sortBy == params["sortBy"]
    ensures "sortBy" !in params || params["sortBy"] == "" ==> a.sortBy == "customer"
    ensures "sortDirection" in params && params["sortDirection"] != "" ==> a.sortDirection == params["sortDirection"]
    ensures "sortDirection" !in params || params["sortDirection"] == "" ==> a.sortDirection == "asc"
    ensures a.itemsPerPage == Clamp(lim.min, GetSafeNumber(Get(params, "itemsPerPage"), lim.default), lim.max)
    ensures lim.min <= lim.max ==> lim.min <= a.itemsPerPage <= lim.max
  {
    PageArgs(
      OrDefault(params, "query", ""),
      GetSafeNumber(Get(params, "page"), 1),
      OrDefault(params, "sortBy", "customer"),
      OrDefault(params, "sortDirection", "asc"),
      Clamp(lim.min, GetSafeNumber(Get(params, "itemsPerPage"), lim.default), lim.max))
  }

  datatype PageOutcome = Render(args: PageArgs) | Redirect(target: Params)

  /** The decision as written: redirect to `{...params, page: '1'}` whenever
      the page number is above the page count. */
  function Decide(params: Params, lim: PageSizeLimits, totalPages: int): (o: PageOutcome)
    ensures o.Redirect? <==> ResolvePageArgs(params, lim).currentPage > totalPages
    ensures o.Redirect? ==> o.target == params["page" := "1"]
    ensures o.Render? ==> o.args == ResolvePageArgs(params, lim)
  {
    var args := ResolvePageArgs(params, lim);
    if args.currentPage > totalPages then Redirect(params["page" := "1"]) else Render(args)
  }

  /** The redirect keeps every parameter but `page`, which becomes '1'. */
  lemma RedirectKeepsOtherParams(params: Params, lim: PageSizeLimits, totalPages: int)
    requires Decide(params, lim, totalPages).Redirect?
    ensures var t := Decide(params, lim, totalPages).target;
      t - {"page"} == params - {"page"} && "page" in t && t["page"] == "1"
  {
  }

  lemma PageOneIsOne()
    ensures GetSafeNumber(Some("1"), 1) == 1
  {
    Numerals.ParseIntToString(1);
    assert Numerals.IntToString(1) == "1";
  }

  /** Only the upper bound is checked: page 0 (or any page below 1) renders,
      and the list query then gets a negative offset. */
  lemma PageBelowOneRenders(params: Params, lim: PageSizeLimits, totalPages: int)
    requires lim.Valid() && totalPages >= 0
    requires Get(params, "page") == Some("0")
    ensures Decide(params, lim, totalPages).Render?
    ensures Decide(params, lim, totalPages).args.currentPage == 0
    ensures InvoiceData.Offset(0, ResolvePageArgs(params, lim).itemsPerPage) < 0
  {
    Numerals.ParseIntToString(0);
    assert Numerals.IntToString(0) == "0";
  }

  /** With no matching invoice the page count is 0, so page 1 redirects to
      page 1: the redirect target redirects to itself, for ever. */
  lemma ZeroMatchesRedirectLoop(params: Params, lim: PageSizeLimits)
    requires lim.Valid()
    ensures InvoiceData.TotalPages(0, ResolvePageArgs(params, lim).itemsPerPage) == 0
    ensures var first := params["page" := "1"];
      Decide(first, lim, 0) == Redirect(first)
  {
    PageOneIsOne();
    var first := params["page" := "1"];
    assert Get(first, "page") == Some("1");
  }

  /** The decision as evidently intended: a page count of 0 still has a page 1. */
  function DecideFixed(params: Params, lim: PageSizeLimits, totalPages: int): (o: PageOutcome)
    ensures totalPages >= 1 ==> o == Decide(params, lim, totalPages)
    ensures o.Redirect? <==> ResolvePageArgs(params, lim).currentPage > (if totalPages < 1 then 1 else totalPages)
  {
    var args := ResolvePageArgs(params, lim);
    var lastPage := if totalPages < 1 then 1 else totalPages;
    if args.currentPage > lastPage then Redirect(params["page" := "1"]) else Render(args)
  }

  /** Under the fixed decision a redirect always lands on a page that renders. */
  lemma FixedRedirectSettles(params: Params, lim: PageSizeLimits, totalPages: int)
    requires DecideFixed(params, lim, totalPages).Redirect?
    ensures DecideFixed(DecideFixed(params, lim, totalPages).target, lim, totalPages).Render?
  {
    PageOneIsOne();
    var target := params["page" := "1"];
    assert Get(target, "page") == Some("1");
  }

  /** 13 matches at 6 per page make 3 pages, and asking for page 4 redirects. */
  lemma PaginationScenario(params: Params)
    requires Get(params, "page") == Some("4")
    ensures InvoiceData.TotalPages(13, 6) == 3
    ensures Decide(params, PageSizeLimits(1, 6, 100), 3) == Redirect(params["page" := "1"])
  {
    Numerals.ParseIntToString(4);
    assert Numerals.IntToString(4) == "4";
  }

  /** The server passes `sortBy` and `sortDirection` on unchecked while the
      table normalises them, so the two disagree on unknown values: the table
      shows an ascending customer sort while the query throws on the sort key
      or sorts descending. */
  lemma ServerAndTableDisagree(params: Params, lim: PageSizeLimits)
    requires "sortBy" in params && params["sortBy"] != "" && params["sortBy"] !in InvoiceData.SORT_KEYS
    requires "sortDirection" in params && params["sortDirection"] !in {"", "asc", "desc"}
    ensures InvoiceTable.GetSortBy(Get(params, "sortBy")) == "customer"
    ensures InvoiceTable.GetSortingDirection(Get(params, "sortDirection")) == "asc"
    ensures InvoiceData.SortByFieldAsWritten(ResolvePageArgs(params, lim).sortBy).Failure?
    ensures InvoiceData.SortDirectionSql(ResolvePageArgs(params, lim).sortDirection) == "DESC/s"
  {
  }
}
