/** The search box of the invoice list (`app/ui/search.tsx`): local query
    state that starts from the URL, a spinner while the two differ, and a
    handler that writes the local query into the URL. */
module Search {
  import opened Wrappers
  import opened UrlParams

  /** `searchParams.get('query') ?? ''`. */
  function UrlQuery(params: Params): (r: string)
    ensures "query" in params ==> r == params["query"]
    ensures "query" !in params ==> r == ""
  {
    Get(params, "query").GetOr("")
  }

  class SearchBox {
    /** The component's `query` state. */
    var query: string

    /** The state starts as the URL's query, or '', so a fresh box is not
        loading. */
    constructor (params: Params)
      ensures query == UrlQuery(params)
      ensures !IsLoading(params)
    {
      query := UrlQuery(params);
    }

    /** `isLoading`: the URL has not caught up with what was typed. */
    predicate IsLoading(params: Params)
      reads this
      ensures "query" in params ==> (IsLoading(params) <==> params["query"] != query)
      ensures "query" !in params ==> (IsLoading(params) <==> query != "")
    {
      UrlQuery(params) != query
    }

    /** Typing: `setQuery(e.target.value)`. */
    method OnChange(value: string)
      modifies this
      ensures query == value
    {
      query := value;
    }

    /** `handleSearch`: copy the parameters; set `query` to the local query
        when it is not empty, otherwise delete it. */
    method HandleSearch(params: Params) returns (next: Params)
      ensures query != "" ==> "query" in next && next["query"] == query
      ensures query == "" ==> "query" !in next
      ensures next - {"query"} == params - {"query"}
    {
      next := params;
      if query != "" {
        next := next["query" := query];
      } else {
        next := next - {"query"};
      }
    }
  }

  /** Once the URL holds what the handler wrote, the box is not loading. */
  lemma SearchSettles(box: SearchBox, params: Params, next: Params)
    requires box.query != "" ==> "query" in next && next["query"] == box.query
    requires box.query == "" ==> "query" !in next
    ensures !box.IsLoading(next)
    ensures UrlQuery(next) == box.query
  {
  }
}
