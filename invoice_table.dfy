/** The sort controls of the client invoice table
    (`mainApp/app/ui/invoices/table.tsx`): the URL's sort column and
    direction are normalised to a whitelisted value, a header click asks for
    a direction, and choosing a sort rewrites two URL parameters. */
module InvoiceTable {
  import opened Wrappers
  import opened UrlParams

  /** The column ids a header can sort by. */
  const COLUMN_IDS: set<string> := {"customer", "email", "amount", "date", "status"}

  predicate IsDirection(d: string) {
    d == "asc" || d == "desc"
  }

  /** `getSortingDirection`: 'asc' and 'desc' pass; null or anything else is 'asc'. */
  function GetSortingDirection(value: Option<string>): (r: string)
    ensures IsDirection(r)
    ensures r == "desc" <==> value == Some("desc")
  {
    if value != Some("asc") && value != Some("desc") then "asc" else value.value
  }

  /** `getSortBy`: one of the five column ids passes; anything else is 'customer'. */
  function GetSortBy(value: Option<string>): (r: string)
    ensures r in COLUMN_IDS
    ensures value.Some? && value.value in COLUMN_IDS ==> r == value.value
    ensures value.None? || value.value !in COLUMN_IDS ==> r == "customer"
  {
    if value == Some("customer") then "customer"
    else if value == Some("email") then "email"
    else if value == Some("amount") then "amount"
    else if value == Some("date") then "date"
    else if value == Some("status") then "status"
    else "customer"
  }

  /** Normalising an already normalised value changes nothing. */
  lemma NormalisersIdempotent(value: Option<string>)
    ensures GetSortBy(Some(GetSortBy(value))) == GetSortBy(value)
    ensures GetSortingDirection(Some(GetSortingDirection(value))) == GetSortingDirection(value)
  {
  }

  /** The direction a click on column `columnId`'s indicator asks for: 'asc'
      on a column that is not the active one, the other direction on the
      active one. */
  function ClickDirection(columnId: string, activeColumnId: string, direction: string): (r: string)
    requires IsDirection(direction)
    ensures IsDirection(r)
    ensures columnId != activeColumnId ==> r == "asc"
    ensures columnId == activeColumnId ==> r != direction
  {
    if columnId != activeColumnId then "asc"
    else if direction == "asc" then "desc" else "asc"
  }

  /** Two clicks on the active column bring the direction back. */
  lemma ClickTwiceRestores(columnId: string, direction: string)
    requires IsDirection(direction)
    ensures ClickDirection(columnId, columnId, ClickDirection(columnId, columnId, direction)) == direction
  {
  }

  /** `sorting`: copy the parameters and overwrite `sortBy` and `sortDirection`. */
  method Sorting(params: Params, activeColumnId: string, direction: string) returns (next: Params)
    ensures "sortBy" in next && next["sortBy"] == activeColumnId
    ensures "sortDirection" in next && next["sortDirection"] == direction
    ensures next - {"sortBy", "sortDirection"} == params - {"sortBy", "sortDirection"}
  {
    next := params;
    next := next["sortBy" := activeColumnId];
    next := next["sortDirection" := direction];
  }

  /** What the table reads back from the URL written after a click on a
      column header: that column, and the direction the click asked for. */
  lemma ClickIsReadBack(params: Params, columnId: string, next: Params)
    requires columnId in COLUMN_IDS
    requires var active := GetSortBy(Get(params, "sortBy"));
      var direction := GetSortingDirection(Get(params, "sortDirection"));
      "sortBy" in next && next["sortBy"] == columnId &&
      "sortDirection" in next && next["sortDirection"] == ClickDirection(columnId, active, direction)
    ensures GetSortBy(Get(next, "sortBy")) == columnId
    ensures var active := GetSortBy(Get(params, "sortBy"));
      var direction := GetSortingDirection(Get(params, "sortDirection"));
      GetSortingDirection(Get(next, "sortDirection")) == ClickDirection(columnId, active, direction)
  {
  }
}
