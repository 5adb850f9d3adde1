# Invoicing dashboard: a Dafny model of its query, URL and action logic

This project models the logic under a Next.js invoicing dashboard (customers, invoices, revenue) and proves properties of it. The model is in Dafny 4.11. It covers:

- **The SQL placeholder builder** (`pgSqlTemplate`). A tagged template's fragments are joined with `$1 … $(n-1)` and the values are passed on untouched. The model is a loop, proved against the formula `t0 $1 t1 … $(n-1) t(n-1)`.
- **The data layer** (`data.ts`).
  - Every read borrows a connection, runs one query, shapes the rows, turns any fault into a fixed message, and gives the connection back on every path.
  - The database is an abstract executor: a function from the query the code builds (fragments and values) to rows or a fault.
  - The connection provider counts handles borrowed and returned.
  - The model also covers the sort map, the `/I` and `/s` tags, offset and limit, the page count with `ceil`, null aggregates read as 0, and the first-row lookup.
- **URL normalisation for the invoice list.**
  - The table's sort whitelist, its direction fallback and the header-click toggle.
  - The server page's defaults, clamping and redirect to page 1.
  - The page-size input and the search box.
  - Query parameters are a `map<string, string>`, and each handler's rewrite is proved to touch only its own keys.
- **The invoice actions, in both copies.** The current copy (`mainApp/app/lib/actions.ts`) and the earlier one without authentication (`app/lib/actions.ts`) are both modelled. Each action is an ordered chain:
  1. authentication;
  2. the schema (amount > 0 then ×100, status `pending` or `paid`);
  3. one fallible database write;
  4. cache revalidation;
  5. an optional redirect.

  Effects are recorded in the log of an `InvoiceStore`. The store keeps the invariant that every write is followed at once by a revalidation.
- **Three small state machines.**
  - The `useRouteBack` edge detector: a back navigation on every falling edge of `isPending`.
  - The `authorized` route guard.
  - The seeding script's bounded connection retry, followed by its seeding sequence.

Modules: `Wrappers` (Option/Result), `Numerals` (decimal rendering and parsing of integers), `UrlParams`, `PgSqlTemplate`, `InvoiceData`, `InvoiceTable`, `InvoicesPage`, `ItemsPerPage`, `Search`, `InvoiceRecords`, `InvoiceActions`, `LegacyInvoiceActions`, `RouteBack`, `AuthConfig` and `SeedLocalDb`, one file each.

## Model

| member | source | states |
|---|---|---|
| PgSqlTemplate.PgSqlTemplate | mainApp/module/pgSqlTemplate.ts:3-13 | the text is the fragments joined by `$1 … $(n-1)` (`Assembled`); a one-fragment template gives that fragment verbatim; the values come back unchanged and in order |
| PgSqlTemplate.Placeholder | mainApp/module/pgSqlTemplate.ts:9 | a placeholder is `$` followed by decimal digits only, so a value is never inlined |
| PgSqlTemplate.AssembledPrefix | mainApp/module/pgSqlTemplate.ts:8-10 | each loop step only appends: the first k fragments joined are a prefix of the first n joined |
| PgSqlTemplate.StartsWithFirstFragment | mainApp/module/pgSqlTemplate.ts:7 | the output begins with `template[0]` |
| PgSqlTemplate.PlaceholderInPlace | mainApp/module/pgSqlTemplate.ts:8-10 | right after the first k fragments come `$k` and fragment k, so placeholders run 1, 2, … in fragment order |
| PgSqlTemplate.PlaceholdersDistinct | mainApp/module/pgSqlTemplate.ts:9 | different positions get different placeholders |
| PgSqlTemplate.AssembledLength | mainApp/module/pgSqlTemplate.ts:9 | the output length is the sum of the fragment lengths plus the lengths of `$1 … $(n-1)` |
| Numerals.IntToString | mainApp/app/ui/invoices/itemsPerPage.tsx:45 | `String(n)`: a non-empty decimal numeral other than a lone `-`, which starts with `-` exactly when n is negative |
| Numerals.ParseIntToString | mainApp/app/ui/invoices/itemsPerPage.tsx:45-48 | an integer written with `String(n)` reads back as the same number |
| UrlParams.Get | app/ui/search.tsx:21 | `searchParams.get(key)`: present exactly when the name is, and then the name's value |
| UrlParams.OrDefault | mainApp/app/dashboard/invoices/page.tsx:67-70 | `params.key \|\| fallback`: the value when present and non-empty, otherwise the fallback |
| UrlParams.Clamp | mainApp/app/dashboard/invoices/page.tsx:71-75 | the result lies in [lo, hi] when lo ≤ hi; a value already inside is unchanged; values below or above go to the nearer bound |
| UrlParams.GetSafeNumber | mainApp/app/dashboard/invoices/page.tsx:68 | the number the parameter spells, or the fallback when it is absent or not a number |
| UrlParams.ClampedNumberRoundTrip | mainApp/app/ui/invoices/itemsPerPage.tsx:43-52 | a clamped size written out, read back and clamped again is unchanged |
| InvoiceData.ConnectionProvider.Acquire | mainApp/app/lib/data.ts:16 | borrowing a connection counts one acquisition and nothing else |
| InvoiceData.ConnectionProvider.Release | mainApp/app/lib/data.ts:27-29 | `release()` counts one release and nothing else |
| InvoiceData.ReadOutcome | mainApp/app/lib/data.ts:17-26 | a fault, or rows the shaping cannot handle, becomes `Error(message)`; otherwise the shaped rows |
| InvoiceData.Read | mainApp/app/lib/data.ts:16-29 | one acquisition and exactly one release whatever the executor returns; the result is `ReadOutcome` of the executed query |
| InvoiceData.FetchRevenue | mainApp/app/lib/data.ts:15-30 | balanced acquire and release; the rows, or 'Failed to fetch revenue data.' |
| InvoiceData.FormatLatest | mainApp/app/lib/data.ts:48-51 | one output per row, with the amount formatted and every other column kept |
| InvoiceData.FetchLatestInvoices | mainApp/app/lib/data.ts:38-59 | balanced; the formatted rows, or 'Failed to fetch the latest invoices.' |
| InvoiceData.CardDataOf | mainApp/app/lib/data.ts:85-99 | no row gives a failure (reading `rows[0]` throws); otherwise each null aggregate reads as 0, and the two totals are formatted |
| InvoiceData.FetchCardData | mainApp/app/lib/data.ts:63-106 | balanced; card data from the first row, or 'Failed to fetch card data.' on a fault or an empty result |
| InvoiceData.IdentifierTag | mainApp/app/lib/data.ts:134 | the value followed by the `/I` tag |
| InvoiceData.SortByFieldAsWritten | mainApp/app/lib/data.ts:118-135 | succeeds exactly for the five keys `customer, amount, date, status, email`, each mapped to a table and a column, both tagged `/I`; a key inherited from `Object.prototype` throws the TypeError of calling a non-function `map`, any other key the TypeError of reading `map` of `undefined` |
| InvoiceData.UnknownSortKeyThrows | mainApp/app/lib/data.ts:133-135 | the map has no key `0`, so every key outside the five throws a TypeError |
| InvoiceData.SortByField | mainApp/app/lib/data.ts:133-135 | agrees with the map on the five keys; any other key sorts by `customers.name`; both parts carry the `/I` tag |
| InvoiceData.SortDirectionSql | mainApp/app/lib/data.ts:136 | `ASC/s` exactly when the direction is `asc`, otherwise `DESC/s` |
| InvoiceData.Offset | mainApp/app/lib/data.ts:138 | 0 on page 1; non-negative from page 1 on; negative below page 1 |
| InvoiceData.SearchPattern | mainApp/app/lib/data.ts:154 | `%`, then the query, then `%` |
| InvoiceData.FilterValues | mainApp/app/lib/data.ts:154-158 | five values, each the same `%query%` pattern |
| InvoiceData.FilteredInvoicesQuery | mainApp/app/lib/data.ts:142-161 | a well-formed template with ten values: the search pattern five times, the sort table, column and tagged direction, then limit = itemsPerPage and offset = `Offset(page, itemsPerPage)` |
| InvoiceData.InvoicesPagesQuery | mainApp/app/lib/data.ts:181-190 | a well-formed template whose values are exactly the five search patterns |
| InvoiceData.ListAndCountQueriesAgree | mainApp/app/lib/data.ts:138-190 | both queries are well formed; they put the same values between the same text in the five search positions; then come the tagged table and column, the tagged direction, limit = itemsPerPage and offset = (page−1)·itemsPerPage |
| InvoiceData.SearchValuesUntagged | mainApp/app/lib/data.ts:154-158 | no search value ends in a `/I` or `/s` tag |
| InvoiceData.FetchFilteredInvoicesAsWritten | mainApp/app/lib/data.ts:126-170 | an unknown key throws the TypeError `SortByFieldAsWritten` gives, with no connection borrowed; otherwise balanced, with the rows or 'Failed to fetch invoices.' |
| InvoiceData.FetchFilteredInvoices | mainApp/app/lib/data.ts:126-170 | with the corrected fallback: always balanced, with the rows or 'Failed to fetch invoices.' |
| InvoiceData.TotalPages | mainApp/app/lib/data.ts:192 | `ceil(count / itemsPerPage)`: the smallest r with r·itemsPerPage ≥ count; it is 0 exactly when count is 0 |
| InvoiceData.PagesOf | mainApp/app/lib/data.ts:192-193 | the page count of the first row, and itemsPerPage returned unchanged; no row is a failure |
| InvoiceData.FetchInvoicesPages | mainApp/app/lib/data.ts:174-200 | balanced; the pages info, or 'Failed to fetch total number of invoices.' |
| InvoiceData.Ids | mainApp/app/lib/data.ts:211 | the ids of the rows, in order |
| InvoiceData.GetAllInvoiceIds | mainApp/app/lib/data.ts:204-218 | balanced; the ids, or 'Failed to fetch all invoice IDs.' |
| InvoiceData.FetchCustomers | mainApp/app/lib/data.ts:257-276 | balanced; the rows, or 'Failed to fetch all customers.' |
| InvoiceData.UserQuery | mainApp/app/lib/data.ts:321 | a well-formed query whose only value is the email |
| InvoiceData.FirstRow | mainApp/app/lib/data.ts:246 | `rows[0]`: undefined exactly when there are no rows |
| InvoiceData.GetUser | mainApp/app/lib/data.ts:318-329 | balanced; the first row or undefined, or 'Failed to fetch user.' |
| InvoiceData.CentsToMajor | mainApp/app/lib/data.ts:243 | the result times 100 is the stored cents |
| InvoiceData.InvoiceByIdQuery | mainApp/app/lib/data.ts:230-238 | a well-formed query whose only value is the id |
| InvoiceData.ToForms | mainApp/app/lib/data.ts:240-244 | one form per row, with the amount converted from cents |
| InvoiceData.FetchInvoiceById | mainApp/app/lib/data.ts:222-253 | balanced; the first converted row or undefined, or 'Failed to fetch invoice.' |
| InvoiceData.FilteredCustomersQuery | mainApp/app/lib/data.ts:283-299 | a well-formed query with the `%query%` pattern in both positions |
| InvoiceData.FormatCustomers | mainApp/app/lib/data.ts:301-305 | both totals formatted; every other column kept |
| InvoiceData.FetchFilteredCustomers | mainApp/app/lib/data.ts:280-314 | balanced; the formatted rows, or 'Failed to fetch customer table.' |
| InvoiceData.ReadKeepsBalance | mainApp/app/lib/data.ts:16-29 | a balanced provider stays balanced over any read, whatever the query, the executor or the shaping |
| InvoiceTable.GetSortingDirection | mainApp/app/ui/invoices/table.tsx:58-60 | always `asc` or `desc`; `desc` exactly when the value is `desc` |
| InvoiceTable.GetSortBy | mainApp/app/ui/invoices/table.tsx:62-70 | always one of the five column ids: the input when it is one of them, otherwise `customer` |
| InvoiceTable.NormalisersIdempotent | mainApp/app/ui/invoices/table.tsx:58-70 | normalising twice is normalising once |
| InvoiceTable.ClickDirection | mainApp/app/ui/invoices/table.tsx:25-44 | `asc` on a column that is not active; on the active column, the opposite of the current direction |
| InvoiceTable.ClickTwiceRestores | mainApp/app/ui/invoices/table.tsx:44 | two clicks on the active column restore the direction |
| InvoiceTable.Sorting | mainApp/app/ui/invoices/table.tsx:81-89 | sets `sortBy` and `sortDirection`; every other parameter is kept unchanged |
| InvoiceTable.ClickIsReadBack | mainApp/app/ui/invoices/table.tsx:76-89 | after a click, the table reads back the clicked column and the requested direction |
| InvoicesPage.ResolvePageArgs | mainApp/app/dashboard/invoices/page.tsx:66-75 | `query` defaults to '', `sortBy` to 'customer' and `sortDirection` to 'asc' when absent or empty, and are otherwise passed on unchecked; the page comes from `getSafeNumber(page, 1)`; the page size is clamped into [MIN, MAX] |
| InvoicesPage.Decide | mainApp/app/dashboard/invoices/page.tsx:80-84 | redirects exactly when page > totalPages, to the same parameters with `page` = '1'; otherwise renders with the resolved arguments |
| InvoicesPage.RedirectKeepsOtherParams | mainApp/app/dashboard/invoices/page.tsx:82 | the redirect keeps every parameter except `page`, which becomes '1' |
| InvoicesPage.PageBelowOneRenders | mainApp/app/dashboard/invoices/page.tsx:68-81 | only the upper bound is checked: page 0 renders, and its offset is negative |
| InvoicesPage.ZeroMatchesRedirectLoop | mainApp/app/dashboard/invoices/page.tsx:80-84 | with no match the page count is 0, and page 1 redirects to itself |
| InvoicesPage.DecideFixed | mainApp/app/dashboard/invoices/page.tsx:81-84 | same as `Decide` whenever there is at least one page; with none, only pages above 1 redirect |
| InvoicesPage.FixedRedirectSettles | mainApp/app/dashboard/invoices/page.tsx:81-84 | under the fix, a redirect target always renders |
| InvoicesPage.PaginationScenario | mainApp/app/dashboard/invoices/page.tsx:80-84 | 13 matches at 6 per page make 3 pages, and page 4 redirects to page 1 |
| InvoicesPage.ServerAndTableDisagree | mainApp/app/dashboard/invoices/page.tsx:69-70 | for an unknown sort key and direction, the table shows an ascending customer sort, while the server's key throws and its direction sorts descending |
| ItemsPerPage.GetItemsPerPage | mainApp/app/ui/invoices/itemsPerPage.tsx:18-27 | the parameter's number, or the fallback, clamped into [MIN, MAX] |
| ItemsPerPage.DisplayedItemsPerPage | mainApp/app/ui/invoices/itemsPerPage.tsx:32-36 | the URL value when it is a number, otherwise the server's page size, clamped |
| ItemsPerPage.HandleQuery | mainApp/app/ui/invoices/itemsPerPage.tsx:41-53 | sets only `itemsPerPage`, to the clamped input with `ITEMS_PER_PAGE` (not the prop) as fallback; every other parameter is kept |
| ItemsPerPage.WrittenPageSizeIsReadBack | mainApp/app/ui/invoices/itemsPerPage.tsx:43-52 | the size written is the size both the server page and the input read back |
| Search.UrlQuery | app/ui/search.tsx:21 | the URL's `query`, or '' |
| Search.SearchBox.constructor | app/ui/search.tsx:16-18 | the local query starts as the URL's `query`, or '', so a fresh box is not loading |
| Search.SearchBox.IsLoading | app/ui/search.tsx:21-22 | loading exactly when the URL's `query` differs from the local query, an absent `query` counting as '' |
| Search.SearchBox.OnChange | app/ui/search.tsx:43-46 | typing sets the local query |
| Search.SearchBox.HandleSearch | app/ui/search.tsx:24-32 | a non-empty local query is written to `query`; an empty one deletes the key; every other parameter, `page` included, is kept |
| Search.SearchSettles | app/ui/search.tsx:21-31 | once the URL holds what the handler wrote, `isLoading` (URL query ≠ local query) is false |
| InvoiceRecords.StatusText | mainApp/app/lib/actions.ts:32-34 | a status is `pending` or `paid` |
| InvoiceRecords.ParseStatus | mainApp/app/lib/actions.ts:32-34 | accepts exactly `pending` and `paid` |
| InvoiceRecords.Validate | mainApp/app/lib/actions.ts:23-38 | accepts exactly a present customer id, an amount above 0 and a valid status; stores amount × 100 as cents; on failure, flags exactly the failing fields |
| InvoiceRecords.StoredAmountReadsBack | mainApp/app/lib/actions.ts:28-31 | an accepted amount is stored as cents and the edit form shows it again as the amount entered |
| InvoiceRecords.DatePart | mainApp/app/lib/actions.ts:69 | `split('T')[0]`: the longest prefix without `T` |
| InvoiceRecords.DatePartOfTimestamp | mainApp/app/lib/actions.ts:69 | for `date + "T" + time`, where date has no `T`, the date part is `date` |
| InvoiceRecords.AppendRevalidated | mainApp/app/lib/actions.ts:82 | logs where each write is followed by a revalidation can be concatenated |
| InvoiceRecords.InvoiceStore.WriteAndRevalidate | mainApp/app/lib/actions.ts:75-82 | appends the write and then `revalidatePath('/dashboard/invoices')`, keeping the store invariant |
| InvoiceActions.CreateInvoice | mainApp/app/lib/actions.ts:40-92 | signed out: 'You are not authenticated.', nothing written; invalid: field errors plus 'Missing Fields. Failed to Create Invoice.'; database error: 'Database Error: Failed to Create Invoice.' with no revalidation; success: insert with the date part, revalidate, then redirect or 'Created Invoice.' |
| InvoiceActions.UpdateInvoice | mainApp/app/lib/actions.ts:96-137 | signed out: 'You are not authenticated.'; invalid: the parse throws; database error: 'Database Error: Failed to Update Invoice.'; success: update, revalidate, then redirect or 'Updated Invoice.' |
| InvoiceActions.DeleteInvoice | mainApp/app/lib/actions.ts:139-150 | signed out: throws 'You are not authenticated.'; otherwise returns nothing, and the delete and revalidation happen only when the delete succeeds |
| LegacyInvoiceActions.CreateInvoice | app/lib/actions.ts:34-64 | no auth check; invalid: field errors plus the missing-fields message; database error: the create-failed message; success: insert, revalidate, always redirect |
| LegacyInvoiceActions.UpdateInvoice | app/lib/actions.ts:68-87 | invalid input throws; database error: the update-failed message; success: update, revalidate, always redirect |
| LegacyInvoiceActions.DeleteInvoice | app/lib/actions.ts:89-99 | never throws: 'Deleted Invoice.' after delete and revalidate, or 'Database Error: Failed to Delete Invoice.' with nothing written |
| RouteBack.FallingEdges | app/lib/hooks.ts:28-31 | at most one back navigation per step |
| RouteBack.RisingEdges | app/lib/hooks.ts:23-26 | at most one rising edge per step |
| RouteBack.EdgesAlternate | app/lib/hooks.ts:18-32 | falling minus rising edges equals the starting flag minus the final flag, so back navigations pair with pending periods |
| RouteBack.RouteBackHook.constructor | app/lib/hooks.ts:13 | the recorded flag starts as the initial `isPending`, with no navigation |
| RouteBack.RouteBackHook.Effect | app/lib/hooks.ts:18-32 | with a server redirect nothing changes; otherwise the ref becomes `isPending`, and `back()` is called once exactly on a falling edge |
| RouteBack.RouteBackHook.Run | app/lib/hooks.ts:18-32 | over a run without server redirect, `back()` calls equal the true→false transitions, and the ref ends at the last flag |
| AuthConfig.IsLoggedIn | auth.config.ts:22 | `!!auth?.user`: false without a session or without a user, true with a user |
| AuthConfig.IsOnDashboard | auth.config.ts:23 | `startsWith('/dashboard')`: the path's first ten characters are `/dashboard` |
| AuthConfig.Authorized | auth.config.ts:21-31 | on a `/dashboard`-prefixed path: allow iff signed in, deny otherwise; elsewhere: a signed-in user is redirected to the origin's `/dashboard`, anyone else is allowed |
| AuthConfig.PrefixGuard | auth.config.ts:23 | any path starting with `/dashboard`, `/dashboardX` included, is guarded |
| AuthConfig.LoggedInRedirectSettles | auth.config.ts:27-28 | a redirect happens only for a signed-in user, and its target is allowed |
| AuthConfig.SignIn | auth.config.ts:17-20 | every sign-in is accepted |
| SeedLocalDb.FirstSuccess | mainApp/scripts/seed-local-db.ts:43-53 | the first attempt below the limit that connects, with every earlier attempt failing; none when all ten fail |
| SeedLocalDb.FirstSuccessSkips | mainApp/scripts/seed-local-db.ts:43-53 | failed attempts can be skipped when looking for the first success |
| SeedLocalDb.Seed | mainApp/scripts/seed-local-db.ts:27-72 | the run is `SeedTrace`; retryCount is the number of failed attempts, which is at most 10 |
| SeedLocalDb.FailuresCounts | mainApp/scripts/seed-local-db.ts:47-52 | n failures make n attempts and n one-second sleeps, and seed nothing |
| SeedLocalDb.ConnectionAttemptsBounded | mainApp/scripts/seed-local-db.ts:43-58 | at most ten attempts; one sleep per failed attempt; if all fail, nothing is seeded and the pool is never ended |
| SeedLocalDb.SeedingFollowsConnection | mainApp/scripts/seed-local-db.ts:64-71 | after the connecting attempt come users, customers, invoices and revenue, then one release, then the end of the pool |

## Left out

- The escaping of `/I`- and `/s`-tagged values is not modelled. It belongs to `pgFormatTemplate` and the `psql` proxy (`mainApp/module/psql.ts`), which are not part of this model. Nothing here claims injection safety.
- `getSqlQuery` (environment flag, file reads, `pg.Pool`) is not part of this model.
  - A read acquires and releases abstractly, in the shape `data.ts` uses.
  - A failure while acquiring, which happens before the `try` and so is never released, is not modelled.
  - The actions' own `getSqlQuery()` calls are not modelled as acquisitions.
- SQL execution (ILIKE matching, ORDER BY, LIMIT/OFFSET) belongs to the database. Only the query text and values are modelled. The text is normalised to single spaces.
- React `cache` memoisation is not modelled: each read is a plain call.
- Debug logging and `console` output are not modelled.
- `formatCurrency` is a symbolic constructor `FormatCurrency(cents)`. `formatDateToLocal` is not used by the modelled code.
- `clamp`, `getSafeNumber` and the constants `MIN_ITEMS_PER_PAGE`, `ITEMS_PER_PAGE` and `MAX_ITEMS_PER_PAGE` are not part of this model.
  - `Clamp` is given its stated contract.
  - The constants are the `PageSizeLimits` parameter.
- UrlParams.GetSafeNumber: reads only an optional `-` followed by decimal digits. Inputs such as `1.5`, ` 3` or `1e2` fall back, whatever the unseen helper does with them.
- Numbers are integers. Money amounts are exact reals. The IEEE rounding of `value * 100` and `amount / 100` is not modelled, so the exact round trip of InvoiceRecords.StoredAmountReadsBack holds only in the model.
- InvoiceData.TotalPages: requires itemsPerPage ≥ 1 (JavaScript would give `Infinity` or a negative count). The page always passes a clamped size of at least MIN.
- InvoiceData.FetchInvoicesPages: requires itemsPerPage ≥ 1, for the same reason.
- InvoiceData.PagesOf: requires itemsPerPage ≥ 1, for the same reason.
- InvoiceData.SortByFieldAsWritten: the engine's TypeError messages are not modelled, only which of the two failures occurs (reading `map` of `undefined`, or calling a `map` that is not a function).
- Query parameters are one value per name. The order of `URLSearchParams`, repeated names and URL encoding are not modelled. Neither are the `router.replace` / `redirect` URL strings: the parameters they carry are.
- The 300 ms debounce of `handleSearch` and `handleQuery` is not modelled. Search.SearchBox.HandleSearch runs with the local query current when it fires.
- `isAuthenticated()` at the top of the invoice page renders a sign-in prompt. It is not modelled.
- The zod schema is modelled as predicates on the coerced fields.
  - Each field's error messages are not modelled; only which fields failed.
  - Text-to-number coercion is an input: `amount` arrives as `Option<real>`, with None for NaN.
- The clock is the ISO timestamp passed in.
- Every database call is a fallible call whose success is a parameter.
- `authenticate` and `authenticateViaGitHub` in `mainApp/app/lib/actions.ts` are calls into NextAuth and are not modelled.
- The `console.log` in `signIn` is not modelled.
- The React rendering and effect scheduling of `useRouteBack` are not modelled: each effect run is a method call.
- The seeding functions and `pool.connect` are foreign calls.
  - Whether attempt k connects is the parameter `connects(k)`.
  - The seeders are assumed not to throw.
  - Reading the password file is not modelled.

## Findings

| source | as written | input that shows it | evidently intended | confidence | as-written member | corrected member |
|---|---|---|---|---|---|---|
| mainApp/app/lib/data.ts:133 | `SORT_BY_MAP[sortBy] \|\| SORT_BY_MAP[0]` falls back to `SORT_BY_MAP[0]`, which is `undefined` because the map has no key `0`; `.map` then throws a TypeError (a key inherited from `Object.prototype`, such as `toString`, skips the fallback and throws a TypeError because the inherited value has no `map` method) | `?sortBy=foo` on the invoice page, which passes `sortBy` on unchecked | an unknown key sorts by the first entry, `customers.name` | high, not executed | InvoiceData.UnknownSortKeyThrows | InvoiceData.SortByField |
| mainApp/app/dashboard/invoices/page.tsx:81 | redirect when `currentPage > totalPages`, where `totalPages = ceil(0 / n) = 0` when nothing matches | a search that matches no invoice, e.g. `?query=zzz&page=1`: page 1 redirects to page 1 again, for ever | an empty result still has a page 1 that renders | high, not executed | InvoicesPage.ZeroMatchesRedirectLoop | InvoicesPage.DecideFixed |
