/** The page-size input of the invoice list
    (`mainApp/app/ui/invoices/itemsPerPage.tsx`). */
module ItemsPerPage {
  import opened Wrappers
  import opened UrlParams
  import Numerals
  import InvoicesPage

  /** `getItemsPerPage`: the parameter read as a number, or the fallback,
      clamped into [MIN, MAX]. */
  function GetItemsPerPage(param: Option<string>, fallback: int, lim: PageSizeLimits): (r: int)
    ensures lim.min <= lim.max ==> lim.min <= r <= lim.max
    ensures param.Some? && Numerals.ParseInt(param.value).Some? ==>
      r == Clamp(lim.min, Numerals.ParseInt(param.value).value, lim.max)
    ensures param.None? || Numerals.ParseInt(param.value).None? ==> r == Clamp(lim.min, fallback, lim.max)
  {
    Clamp(lim.min, GetSafeNumber(param, fallback), lim.max)
  }

  /** The value the input shows: the URL's `itemsPerPage` when it is a number,
      otherwise the page size the server used. */
  function DisplayedItemsPerPage(params: Params, itemsPerPage: int, lim: PageSizeLimits): (r: int)
    ensures "itemsPerPage" !in params || Numerals.ParseInt(params["itemsPerPage"]).None? ==>
      r == Clamp(lim.min, itemsPerPage, lim.max)
    ensures "itemsPerPage" in params && Numerals.ParseInt(params["itemsPerPage"]).Some? ==>
      r == Clamp(lim.min, Numerals.ParseInt(params["itemsPerPage"]).value, lim.max)
  {
    GetItemsPerPage(Get(params, "itemsPerPage"), itemsPerPage, lim)
  }

  /** `handleQuery`: set `itemsPerPage` to the typed value (falling back to
      `ITEMS_PER_PAGE`, not to the server's value), clamped, keeping every
      other parameter. */
  method HandleQuery(params: Params, inputValue: string, lim: PageSizeLimits) returns (next: Params)
    ensures next - {"itemsPerPage"} == params - {"itemsPerPage"}
    ensures "itemsPerPage" in next
    ensures next["itemsPerPage"] == Numerals.IntToString(GetItemsPerPage(Some(inputValue), lim.default, lim))
  {
    next := params;
    var n := Clamp(lim.min, GetSafeNumber(Some(inputValue), lim.default), lim.max);
    next := next["itemsPerPage" := Numerals.IntToString(n)];
  }

  /** The page size the input writes is the page size the server page and the
      input itself read back from the new URL. */
  lemma WrittenPageSizeIsReadBack(params: Params, inputValue: string, lim: PageSizeLimits, serverValue: int)
    requires lim.min <= lim.max
    ensures var n := GetItemsPerPage(Some(inputValue), lim.default, lim);
      var next := params["itemsPerPage" := Numerals.IntToString(n)];
      InvoicesPage.ResolvePageArgs(next, lim).itemsPerPage == n &&
      DisplayedItemsPerPage(next, serverValue, lim) == n
  {
    var n := GetItemsPerPage(Some(inputValue), lim.default, lim);
    Numerals.ParseIntToString(n);
  }
}
