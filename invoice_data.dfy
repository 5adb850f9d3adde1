/** The data-access layer of `mainApp/app/lib/data.ts`: every read borrows a
    connection, runs one tagged-template query through it, shapes the rows,
    turns any fault into a fixed per-operation error and releases the
    connection on every path. The database is an abstract executor: a
    function from the query the code builds (fragments and values) to either
    rows or a fault. */
module InvoiceData {
  import opened Wrappers
  import opened PgSqlTemplate

  /** The literal SQL between interpolations, by name; `Text` spells each one
      out (whitespace normalised to single spaces). */
  datatype SqlText =
    | RevenueAll | LatestInvoices | CardAggregates | AllIds | CustomersByName
    | UserByEmail | InvoiceByIdSelect | Semicolon
    | ListSelect | CountSelect | OrEmailIlike | OrAmountIlike | OrDateIlike | OrStatusIlike
    | OrderBy | Dot | Space | LimitKeyword | OffsetKeyword | Empty
    | CustomersTableSelect | CustomersTableOrEmail | CustomersTableGroup

  function Text(f: SqlText): string {
    match f
    case RevenueAll => "SELECT * FROM revenue"
    case LatestInvoices =>
      "SELECT invoices.amount, customers.name, customers.image_url, customers.email, invoices.id FROM invoices JOIN customers ON invoices.customer_id = customers.id ORDER BY invoices.date DESC LIMIT 5"
    case CardAggregates =>
      "SELECT invoices_num, customers_num, paid_invoices_num, pending_invoices_num FROM ( SELECT count(*) as invoices_num FROM \"invoices\" ), ( SELECT count(*) as customers_num FROM \"customers\" ), ( SELECT SUM(CASE WHEN \"status\" = 'paid' THEN \"amount\" ELSE 0 END) as paid_invoices_num FROM \"invoices\"), ( SELECT SUM(CASE WHEN \"status\" = 'pending' THEN \"amount\" ELSE 0 END) as pending_invoices_num FROM \"invoices\" )"
    case AllIds => "SELECT id FROM invoices"
    case CustomersByName => "SELECT id, name FROM customers ORDER BY name ASC"
    case UserByEmail => "SELECT * FROM users WHERE email="
    case InvoiceByIdSelect =>
      "SELECT invoices.id, invoices.customer_id, invoices.amount, invoices.status FROM invoices WHERE invoices.id = "
    case Semicolon => ";"
    case ListSelect =>
      "SELECT invoices.id, invoices.amount, invoices.date, invoices.status, customers.name, customers.email, customers.image_url FROM invoices JOIN customers ON invoices.customer_id = customers.id WHERE customers.name ILIKE "
    case CountSelect =>
      "SELECT COUNT(*) FROM invoices JOIN customers ON invoices.customer_id = customers.id WHERE customers.name ILIKE "
    case OrEmailIlike => " OR customers.email ILIKE "
    case OrAmountIlike => " OR invoices.amount::text ILIKE "
    case OrDateIlike => " OR invoices.date::text ILIKE "
    case OrStatusIlike => " OR invoices.status ILIKE "
    case OrderBy => " ORDER BY "
    case Dot => "."
    case Space => " "
    case LimitKeyword => " LIMIT "
    case OffsetKeyword => " OFFSET "
    case Empty => ""
    case CustomersTableSelect =>
      "SELECT customers.id, customers.name, customers.email, customers.image_url, COUNT(invoices.id) AS total_invoices, SUM(CASE WHEN invoices.status = 'pending' THEN invoices.amount ELSE 0 END) AS total_pending, SUM(CASE WHEN invoices.status = 'paid' THEN invoices.amount ELSE 0 END) AS total_paid FROM customers LEFT JOIN invoices ON customers.id = invoices.customer_id WHERE customers.name ILIKE "
    case CustomersTableOrEmail => " OR customers.email ILIKE "
    case CustomersTableGroup =>
      " GROUP BY customers.id, customers.name, customers.email, customers.image_url ORDER BY customers.name ASC"
  }

  /** One tagged-template call: the literal fragments and the interpolated values. */
  datatype SqlQuery = SqlQuery(fragments: seq<SqlText>, values: seq<Primitive>) {
    predicate WellFormed() {
      |fragments| == |values| + 1
    }
  }

  /** What the executor gives back: the result rows, or a database fault. */
  datatype DbResult<T> = Rows(rows: seq<T>) | Fault

  /** The two ways the engine's `.map` call on a sort entry can fail: the
      entry is `undefined`, or it is a value with no `map` method. */
  datatype TypeErrorKind = MapOfUndefined | MapIsNotAFunction

  /** What a read throws. `Error` carries the operation's fixed message;
      `TypeError` is the engine's own error, raised before any query runs. */
  datatype Thrown = Error(message: string) | TypeError(kind: TypeErrorKind)

  /** The text `formatCurrency` makes of an amount in cents. The formatting
      itself is not part of this model; the value keeps the cents it was
      applied to. */
  datatype Currency = FormatCurrency(cents: int)

  /** The connection provider, seen only through how often a handle was
      borrowed and given back. */
  class ConnectionProvider {
    ghost var acquired: nat
    ghost var released: nat

    ghost predicate Balanced()
      reads this
    {
      acquired == released
    }

    constructor ()
      ensures acquired == 0 && released == 0
    {
      acquired, released := 0, 0;
    }

    /** `getSqlQuery()`: borrow an executor and its release handle. */
    method Acquire()
      modifies this
      ensures acquired == old(acquired) + 1 && released == old(released)
    {
      acquired := acquired + 1;
    }

    /** `release()`: give the handle back. */
    method Release()
      modifies this
      ensures released == old(released) + 1 && acquired == old(acquired)
    {
      released := released + 1;
    }
  }

  /** The outcome of `try { shape(await sqlQuery(q)) } catch { throw new Error(failure) }`:
      a fault, or shaping rows that cannot be shaped, both become `failure`. */
  function ReadOutcome<T, R>(res: DbResult<T>, shape: seq<T> -> Option<R>, failure: string): (r: Result<R, Thrown>)
    ensures res.Fault? ==> r == Failure(Error(failure))
    ensures res.Rows? && shape(res.rows).None? ==> r == Failure(Error(failure))
    ensures res.Rows? && shape(res.rows).Some? ==> r == Success(shape(res.rows).value)
  {
    match res
    case Fault => Failure(Error(failure))
    case Rows(rows) => if shape(rows).Some? then Success(shape(rows).value) else Failure(Error(failure))
  }

  /** The acquire / try / catch / finally-release pattern shared by every read. */
  method Read<T, R>(p: ConnectionProvider, q: SqlQuery, exec: SqlQuery -> DbResult<T>,
                    shape: seq<T> -> Option<R>, failure: string)
    returns (r: Result<R, Thrown>)
    modifies p
    ensures p.acquired == old(p.acquired) + 1 && p.released == old(p.released) + 1
    ensures r == ReadOutcome(exec(q), shape, failure)
  {
    p.Acquire();
    var res := exec(q);
    match res {
      case Fault =>
        r := Failure(Error(failure));
      case Rows(rows) =>
        var shaped := shape(rows);
        r := if shaped.Some? then Success(shaped.value) else Failure(Error(failure));
    }
    p.Release();
  }

  // ---------------------------------------------------------------------
  // Revenue, latest invoices, customers, ids, user

  datatype Revenue = Revenue(month: string, revenue: int)

  const REVENUE_QUERY := SqlQuery([RevenueAll], [])

  method FetchRevenue(p: ConnectionProvider, exec: SqlQuery -> DbResult<Revenue>)
    returns (r: Result<seq<Revenue>, Thrown>)
    modifies p
    ensures p.acquired == old(p.acquired) + 1 && p.released == old(p.released) + 1
    ensures exec(REVENUE_QUERY).Fault? ==> r == Failure(Error("Failed to fetch revenue data."))
    ensures exec(REVENUE_QUERY).Rows? ==> r == Success(exec(REVENUE_QUERY).rows)
  {
    r := Read(p, REVENUE_QUERY, exec, rows => Some(rows), "Failed to fetch revenue data.");
  }

  datatype LatestInvoiceRow = LatestInvoiceRow(amount: int, name: string, imageUrl: string, email: string, id: string)
  datatype LatestInvoice = LatestInvoice(amount: Currency, name: string, imageUrl: string, email: string, id: string)

  const LATEST_INVOICES_QUERY := SqlQuery([LatestInvoices], [])

  /** Every row with its amount formatted and all other columns kept. */
  function FormatLatest(rows: seq<LatestInvoiceRow>): (r: seq<LatestInvoice>)
    ensures |r| == |rows|
    ensures forall i :: 0 <= i < |rows| ==>
      r[i] == LatestInvoice(FormatCurrency(rows[i].amount), rows[i].name, rows[i].imageUrl, rows[i].email, rows[i].id)
  {
    seq(|rows|, i requires 0 <= i < |rows| =>
      LatestInvoice(FormatCurrency(rows[i].amount), rows[i].name, rows[i].imageUrl, rows[i].email, rows[i].id))
  }

  method FetchLatestInvoices(p: ConnectionProvider, exec: SqlQuery -> DbResult<LatestInvoiceRow>)
    returns (r: Result<seq<LatestInvoice>, Thrown>)
    modifies p
    ensures p.acquired == old(p.acquired) + 1 && p.released == old(p.released) + 1
    ensures exec(LATEST_INVOICES_QUERY).Fault? ==> r == Failure(Error("Failed to fetch the latest invoices."))
    ensures exec(LATEST_INVOICES_QUERY).Rows? ==> r == Success(FormatLatest(exec(LATEST_INVOICES_QUERY).rows))
  {
    r := Read(p, LATEST_INVOICES_QUERY, exec, rows => Some(FormatLatest(rows)), "Failed to fetch the latest invoices.");
  }

  datatype IdRow = IdRow(id: string)

  const ALL_INVOICE_IDS_QUERY := SqlQuery([AllIds], [])

  function Ids(rows: seq<IdRow>): (r: seq<string>)
    ensures |r| == |rows| && forall i :: 0 <= i < |rows| ==> r[i] == rows[i].id
  {
    seq(|rows|, i requires 0 <= i < |rows| => rows[i].id)
  }

  method GetAllInvoiceIds(p: ConnectionProvider, exec: SqlQuery -> DbResult<IdRow>)
    returns (r: Result<seq<string>, Thrown>)
    modifies p
    ensures p.acquired == old(p.acquired) + 1 && p.released == old(p.released) + 1
    ensures exec(ALL_INVOICE_IDS_QUERY).Fault? ==> r == Failure(Error("Failed to fetch all invoice IDs."))
    ensures exec(ALL_INVOICE_IDS_QUERY).Rows? ==> r == Success(Ids(exec(ALL_INVOICE_IDS_QUERY).rows))
  {
    r := Read(p, ALL_INVOICE_IDS_QUERY, exec, rows => Some(Ids(rows)), "Failed to fetch all invoice IDs.");
  }

  datatype CustomerField = CustomerField(id: string, name: string)

  const CUSTOMERS_QUERY := SqlQuery([CustomersByName], [])

  method FetchCustomers(p: ConnectionProvider, exec: SqlQuery -> DbResult<CustomerField>)
    returns (r: Result<seq<CustomerField>, Thrown>)
    modifies p
    ensures p.acquired == old(p.acquired) + 1 && p.released == old(p.released) + 1
    ensures exec(CUSTOMERS_QUERY).Fault? ==> r == Failure(Error("Failed to fetch all customers."))
    ensures exec(CUSTOMERS_QUERY).Rows? ==> r == Success(exec(CUSTOMERS_QUERY).rows)
  {
    r := Read(p, CUSTOMERS_QUERY, exec, rows => Some(rows), "Failed to fetch all customers.");
  }

  datatype User = User(id: string, name: string, email: string, password: string)

  function UserQuery(email: string): (q: SqlQuery)
    ensures q.WellFormed() && q.values == [Str(email)]
  {
    SqlQuery([UserByEmail, Empty], [Str(email)])
  }

  /** `rows[0]`: the first row, or `undefined` when there is none. */
  function FirstRow<T>(rows: seq<T>): (r: Option<T>)
    ensures r.None? <==> rows == []
    ensures r.Some? ==> r.value == rows[0]
  {
    if rows == [] then None else Some(rows[0])
  }

  method GetUser(p: ConnectionProvider, email: string, exec: SqlQuery -> DbResult<User>)
    returns (r: Result<Option<User>, Thrown>)
    modifies p
    ensures p.acquired == old(p.acquired) + 1 && p.released == old(p.released) + 1
    ensures exec(UserQuery(email)).Fault? ==> r == Failure(Error("Failed to fetch user."))
    ensures exec(UserQuery(email)).Rows? ==> r == Success(FirstRow(exec(UserQuery(email)).rows))
  {
    r := Read(p, UserQuery(email), exec, rows => Some(FirstRow(rows)), "Failed to fetch user.");
  }

  // ---------------------------------------------------------------------
  // Card data: four aggregates, each defaulting to 0 when null

  datatype CardRow = CardRow(invoicesNum: Option<int>, customersNum: Option<int>,
                             paidInvoicesNum: Option<int>, pendingInvoicesNum: Option<int>)
  datatype CardData = CardData(numberOfCustomers: int, numberOfInvoices: int,
                               totalPaidInvoices: Currency, totalPendingInvoices: Currency)

  const CARD_DATA_QUERY := SqlQuery([CardAggregates], [])

  /** Card data from the first row, every null aggregate read as 0; with no
      row at all, reading `rows[0].invoices_num` throws inside the `try`. */
  function CardDataOf(rows: seq<CardRow>): (r: Option<CardData>)
    ensures r.None? <==> rows == []
    ensures r.Some? ==> r.value.numberOfInvoices == rows[0].invoicesNum.GetOr(0)
    ensures r.Some? ==> r.value.numberOfCustomers == rows[0].customersNum.GetOr(0)
    ensures r.Some? ==> r.value.totalPaidInvoices == FormatCurrency(rows[0].paidInvoicesNum.GetOr(0))
    ensures r.Some? ==> r.value.totalPendingInvoices == FormatCurrency(rows[0].pendingInvoicesNum.GetOr(0))
  {
    if rows == [] then None
    else
      var row := rows[0];
      Some(CardData(
        row.customersNum.GetOr(0),
        row.invoicesNum.GetOr(0),
        FormatCurrency(row.paidInvoicesNum.GetOr(0)),
        FormatCurrency(row.pendingInvoicesNum.GetOr(0))))
  }

  method FetchCardData(p: ConnectionProvider, exec: SqlQuery -> DbResult<CardRow>)
    returns (r: Result<CardData, Thrown>)
    modifies p
    ensures p.acquired == old(p.acquired) + 1 && p.released == old(p.released) + 1
    ensures exec(CARD_DATA_QUERY).Fault? ==> r == Failure(Error("Failed to fetch card data."))
    ensures exec(CARD_DATA_QUERY) == Rows([]) ==> r == Failure(Error("Failed to fetch card data."))
    ensures exec(CARD_DATA_QUERY).Rows? && exec(CARD_DATA_QUERY).rows != [] ==>
      r == Success(CardDataOf(exec(CARD_DATA_QUERY).rows).value)
  {
    r := Read(p, CARD_DATA_QUERY, exec, CardDataOf, "Failed to fetch card data.");
  }

  // ---------------------------------------------------------------------
  // Filtered, sorted, paginated invoices and the page count

  /** Sort keys and the table and column each one orders by. */
  const SORT_BY_MAP: map<string, (string, string)> := map[
    "customer" := ("customers", "name"),
    "amount" := ("invoices", "amount"),
    "date" := ("invoices", "date"),
    "status" := ("invoices", "status"),
    "email" := ("customers", "email")
  ]

  const SORT_KEYS: set<string> := {"customer", "amount", "date", "status", "email"}

  /** The tables and columns a sort can name. */
  const SORT_TABLES: set<string> := {"customers", "invoices"}
  const SORT_COLUMNS: set<string> := {"name", "amount", "date", "status", "email"}

  /** `value + "/I"`: marks a value as an SQL identifier. */
  function IdentifierTag(s: string): (r: string)
    ensures |r| == |s| + 2 && r[..|s|] == s && r[|s|..] == "/I"
  {
    s + "/I"
  }

  /** The names a plain object literal inherits from `Object.prototype`.
      Looking one of them up in `SORT_BY_MAP` gives a function (or, for
      `__proto__`, the prototype object itself): a truthy value, but not an
      array. */
  const OBJECT_PROTOTYPE_KEYS: set<string> := {
    "constructor", "hasOwnProperty", "isPrototypeOf", "propertyIsEnumerable",
    "toLocaleString", "toString", "valueOf", "__proto__",
    "__defineGetter__", "__defineSetter__", "__lookupGetter__", "__lookupSetter__"
  }

  /** `(SORT_BY_MAP[sortBy] || SORT_BY_MAP[0]).map(v => v + "/I")` as written.
      `SORT_BY_MAP[0]` is `undefined`, so a key the object does not have makes
      `.map` read a property of `undefined`; an inherited key gives a truthy
      value with no `map` method. Both throw a `TypeError`. */
  function SortByFieldAsWritten(sortBy: string): (r: Result<(string, string), Thrown>)
    ensures r.Success? <==> sortBy in SORT_KEYS
    ensures r.Success? ==> SORT_BY_MAP[sortBy].0 in SORT_TABLES && SORT_BY_MAP[sortBy].1 in SORT_COLUMNS
    ensures r.Success? ==> r.value == (IdentifierTag(SORT_BY_MAP[sortBy].0), IdentifierTag(SORT_BY_MAP[sortBy].1))
    ensures sortBy !in SORT_KEYS && sortBy in OBJECT_PROTOTYPE_KEYS ==> r == Failure(TypeError(MapIsNotAFunction))
    ensures sortBy !in SORT_KEYS && sortBy !in OBJECT_PROTOTYPE_KEYS ==> r == Failure(TypeError(MapOfUndefined))
  {
    if sortBy in SORT_BY_MAP then
      Success((IdentifierTag(SORT_BY_MAP[sortBy].0), IdentifierTag(SORT_BY_MAP[sortBy].1)))
    else if sortBy in OBJECT_PROTOTYPE_KEYS then
      Failure(TypeError(MapIsNotAFunction))
    else
      Failure(TypeError(MapOfUndefined))
  }

  /** The fallback the `||` evidently intends: an unknown key sorts as `customer`. */
  function SortByField(sortBy: string): (r: (string, string))
    ensures sortBy in SORT_KEYS ==> Success(r) == SortByFieldAsWritten(sortBy)
    ensures sortBy !in SORT_KEYS ==> r == (IdentifierTag("customers"), IdentifierTag("name"))
    ensures |r.0| >= 2 && r.0[|r.0| - 2..] == "/I" && |r.1| >= 2 && r.1[|r.1| - 2..] == "/I"
  {
    var key := if sortBy in SORT_BY_MAP then sortBy else "customer";
    (IdentifierTag(SORT_BY_MAP[key].0), IdentifierTag(SORT_BY_MAP[key].1))
  }

  /** The map has no key "0", so the fallback of the code as written is
      `undefined` and every key outside the five throws a `TypeError`, where
      the intended fallback sorts by customer name. */
  lemma UnknownSortKeyThrows(sortBy: string)
    requires sortBy !in SORT_KEYS
    ensures "0" !in SORT_BY_MAP
    ensures SortByFieldAsWritten(sortBy).Failure? && SortByFieldAsWritten(sortBy).error.TypeError?
    ensures SortByField(sortBy) == SortByFieldAsWritten("customer").value
  {
  }

  /** `'asc'` sorts ascending; every other direction sorts descending. */
  function SortDirectionSql(direction: string): (r: string)
    ensures r == "ASC/s" || r == "DESC/s"
    ensures r == "ASC/s" <==> direction == "asc"
  {
    (if direction == "asc" then "ASC" else "DESC") + "/s"
  }

  /** Rows skipped before the current page. Only pages from 1 on give a
      non-negative offset. */
  function Offset(currentPage: int, itemsPerPage: int): (r: int)
    ensures itemsPerPage >= 0 && currentPage >= 1 ==> r >= 0
    ensures itemsPerPage > 0 && currentPage < 1 ==> r < 0
    ensures currentPage == 1 ==> r == 0
  {
    (currentPage - 1) * itemsPerPage
  }

  /** `%query%`: the search text as a substring pattern. */
  function SearchPattern(query: string): (r: string)
    ensures |r| == |query| + 2 && r[0] == '%' && r[|r| - 1] == '%'
    ensures r[1..|r| - 1] == query
  {
    "%" + query + "%"
  }

  /** The five search positions, all filled with the same pattern. */
  function FilterValues(query: string): (v: seq<Primitive>)
    ensures |v| == 5 && forall i :: 0 <= i < 5 ==> v[i] == Str(SearchPattern(query))
  {
    var pattern := Str(SearchPattern(query));
    [pattern, pattern, pattern, pattern, pattern]
  }

  datatype ListArgs = ListArgs(query: string, currentPage: int, sortBy: string,
                               sortDirection: string, itemsPerPage: int)

  datatype InvoicesTableRow = InvoicesTableRow(id: string, amount: int, date: string, status: string,
                                               name: string, email: string, imageUrl: string)

  /** The list query, given the already tagged sort field: the search
      pattern in five places, then the sort table, column and direction, the
      page size as the limit and the rows of earlier pages as the offset. */
  function FilteredInvoicesQuery(args: ListArgs, field: (string, string)): (q: SqlQuery)
    ensures q.WellFormed() && |q.values| == 10
    ensures q.values[..5] == FilterValues(args.query)
    ensures q.values[5] == Str(field.0) && q.values[6] == Str(field.1)
    ensures q.values[7] == Str(SortDirectionSql(args.sortDirection))
    ensures q.values[8] == Num(args.itemsPerPage) && q.values[9] == Num(Offset(args.currentPage, args.itemsPerPage))
  {
    SqlQuery(
      [ListSelect, OrEmailIlike, OrAmountIlike, OrDateIlike, OrStatusIlike,
       OrderBy, Dot, Space, LimitKeyword, OffsetKeyword, Empty],
      FilterValues(args.query)
        + [Str(field.0), Str(field.1), Str(SortDirectionSql(args.sortDirection)),
           Num(args.itemsPerPage), Num(Offset(args.currentPage, args.itemsPerPage))])
  }

  /** The count query, with the same search predicate as the list query. */
  function InvoicesPagesQuery(query: string): (q: SqlQuery)
    ensures q.WellFormed() && q.values == FilterValues(query)
  {
    SqlQuery([CountSelect, OrEmailIlike, OrAmountIlike, OrDateIlike, OrStatusIlike, Empty], FilterValues(query))
  }

  /** Both queries are well-formed templates; they fill the five search
      positions with the same values between the same text; after them come
      the identifier-tagged table and column of the sort, the tagged
      direction, the limit and the offset. */
  lemma ListAndCountQueriesAgree(args: ListArgs)
    ensures var list := FilteredInvoicesQuery(args, SortByField(args.sortBy));
      var count := InvoicesPagesQuery(args.query);
      && list.WellFormed() && count.WellFormed()
      && list.values[..5] == count.values
      && list.fragments[1..5] == count.fragments[1..5]
      && list.values[5] == Str(SortByField(args.sortBy).0)
      && list.values[6] == Str(SortByField(args.sortBy).1)
      && list.values[7].s in {"ASC/s", "DESC/s"}
      && list.values[8] == Num(args.itemsPerPage)
      && list.values[9] == Num((args.currentPage - 1) * args.itemsPerPage)
  {
  }

  /** No search value carries the `/I` or `/s` tag: each one ends in `%`. */
  lemma SearchValuesUntagged(query: string, i: nat)
    requires i < 5
    ensures var v := FilterValues(query)[i].s;
      |v| >= 2 && v[|v| - 1] == '%' && v[|v| - 2..] != "/I" && v[|v| - 2..] != "/s"
  {
    var v := FilterValues(query)[i].s;
    assert v[|v| - 2..][1] == '%';
  }

  /** `fetchFilteredInvoices` as written: an unknown sort key throws a
      `TypeError` before a connection is borrowed. */
  method FetchFilteredInvoicesAsWritten(p: ConnectionProvider, args: ListArgs,
                                        exec: SqlQuery -> DbResult<InvoicesTableRow>)
    returns (r: Result<seq<InvoicesTableRow>, Thrown>)
    modifies p
    ensures args.sortBy !in SORT_KEYS ==>
      r == Failure(SortByFieldAsWritten(args.sortBy).error) && r.error.TypeError?
      && p.acquired == old(p.acquired) && p.released == old(p.released)
    ensures args.sortBy in SORT_KEYS ==>
      var q := FilteredInvoicesQuery(args, SortByFieldAsWritten(args.sortBy).value);
      && p.acquired == old(p.acquired) + 1 && p.released == old(p.released) + 1
      && (exec(q).Fault? ==> r == Failure(Error("Failed to fetch invoices.")))
      && (exec(q).Rows? ==> r == Success(exec(q).rows))
  {
    var field := SortByFieldAsWritten(args.sortBy);
    if field.Failure? {
      return Failure(field.error);
    }
    var q := FilteredInvoicesQuery(args, field.value);
    r := Read(p, q, exec, rows => Some(rows), "Failed to fetch invoices.");
  }

  /** `fetchFilteredInvoices` with the intended fallback: every sort key
      reads, an unknown one sorting by customer name. */
  method FetchFilteredInvoices(p: ConnectionProvider, args: ListArgs, exec: SqlQuery -> DbResult<InvoicesTableRow>)
    returns (r: Result<seq<InvoicesTableRow>, Thrown>)
    modifies p
    ensures p.acquired == old(p.acquired) + 1 && p.released == old(p.released) + 1
    ensures var q := FilteredInvoicesQuery(args, SortByField(args.sortBy));
      && (exec(q).Fault? ==> r == Failure(Error("Failed to fetch invoices.")))
      && (exec(q).Rows? ==> r == Success(exec(q).rows))
  {
    var q := FilteredInvoicesQuery(args, SortByField(args.sortBy));
    r := Read(p, q, exec, rows => Some(rows), "Failed to fetch invoices.");
  }

  /** `Math.ceil(count / itemsPerPage)`. */
  function TotalPages(count: nat, itemsPerPage: int): (r: nat)
    requires itemsPerPage >= 1
    ensures r * itemsPerPage >= count
    ensures r > 0 ==> (r - 1) * itemsPerPage < count
    ensures r == 0 <==> count == 0
  {
    (count + itemsPerPage - 1) / itemsPerPage
  }

  datatype CountRow = CountRow(count: nat)
  datatype PagesInfo = PagesInfo(totalPages: nat, itemsPerPage: int)

  /** The page count from the first row; the page size is passed back unchanged. */
  function PagesOf(rows: seq<CountRow>, itemsPerPage: int): (r: Option<PagesInfo>)
    requires itemsPerPage >= 1
    ensures r.None? <==> rows == []
    ensures r.Some? ==> r.value.itemsPerPage == itemsPerPage
    ensures r.Some? ==> r.value.totalPages == TotalPages(rows[0].count, itemsPerPage)
  {
    if rows == [] then None else Some(PagesInfo(TotalPages(rows[0].count, itemsPerPage), itemsPerPage))
  }

  method FetchInvoicesPages(p: ConnectionProvider, query: string, itemsPerPage: int, exec: SqlQuery -> DbResult<CountRow>)
    returns (r: Result<PagesInfo, Thrown>)
    requires itemsPerPage >= 1
    modifies p
    ensures p.acquired == old(p.acquired) + 1 && p.released == old(p.released) + 1
    ensures exec(InvoicesPagesQuery(query)).Fault? || exec(InvoicesPagesQuery(query)) == Rows([]) ==>
      r == Failure(Error("Failed to fetch total number of invoices."))
    ensures exec(InvoicesPagesQuery(query)).Rows? && exec(InvoicesPagesQuery(query)).rows != [] ==>
      r == Success(PagesOf(exec(InvoicesPagesQuery(query)).rows, itemsPerPage).value)
  {
    r := Read(p, InvoicesPagesQuery(query), exec, rows => PagesOf(rows, itemsPerPage),
              "Failed to fetch total number of invoices.");
  }

  // ---------------------------------------------------------------------
  // One invoice for editing

  datatype InvoiceFormRow = InvoiceFormRow(id: string, customerId: string, amount: int, status: string)
  datatype InvoiceForm = InvoiceForm(id: string, customerId: string, amount: real, status: string)

  /** Stored cents to the major units shown in the edit form. */
  function CentsToMajor(cents: real): (r: real)
    ensures r * 100.0 == cents
  {
    cents / 100.0
  }

  function InvoiceByIdQuery(id: string): (q: SqlQuery)
    ensures q.WellFormed() && q.values == [Str(id)]
  {
    SqlQuery([InvoiceByIdSelect, Semicolon], [Str(id)])
  }

  /** Every row with its amount converted from cents. */
  function ToForms(rows: seq<InvoiceFormRow>): (r: seq<InvoiceForm>)
    ensures |r| == |rows|
    ensures forall i :: 0 <= i < |rows| ==>
      r[i] == InvoiceForm(rows[i].id, rows[i].customerId, CentsToMajor(rows[i].amount as real), rows[i].status)
  {
    seq(|rows|, i requires 0 <= i < |rows| =>
      InvoiceForm(rows[i].id, rows[i].customerId, CentsToMajor(rows[i].amount as real), rows[i].status))
  }

  method FetchInvoiceById(p: ConnectionProvider, id: string, exec: SqlQuery -> DbResult<InvoiceFormRow>)
    returns (r: Result<Option<InvoiceForm>, Thrown>)
    modifies p
    ensures p.acquired == old(p.acquired) + 1 && p.released == old(p.released) + 1
    ensures exec(InvoiceByIdQuery(id)).Fault? ==> r == Failure(Error("Failed to fetch invoice."))
    ensures exec(InvoiceByIdQuery(id)).Rows? ==> r == Success(FirstRow(ToForms(exec(InvoiceByIdQuery(id)).rows)))
  {
    r := Read(p, InvoiceByIdQuery(id), exec, rows => Some(FirstRow(ToForms(rows))), "Failed to fetch invoice.");
  }

  // ---------------------------------------------------------------------
  // Customers table

  datatype CustomersTableRow = CustomersTableRow(id: string, name: string, email: string, imageUrl: string,
                                                 totalInvoices: int, totalPending: int, totalPaid: int)
  datatype FormattedCustomersTable = FormattedCustomersTable(id: string, name: string, email: string, imageUrl: string,
                                                             totalInvoices: int, totalPending: Currency, totalPaid: Currency)

  function FilteredCustomersQuery(query: string): (q: SqlQuery)
    ensures q.WellFormed() && q.values == [Str(SearchPattern(query)), Str(SearchPattern(query))]
  {
    SqlQuery(
      [CustomersTableSelect, CustomersTableOrEmail, CustomersTableGroup],
      [Str(SearchPattern(query)), Str(SearchPattern(query))])
  }

  /** Every row with both totals formatted and all other columns kept. */
  function FormatCustomers(rows: seq<CustomersTableRow>): (r: seq<FormattedCustomersTable>)
    ensures |r| == |rows|
    ensures forall i :: 0 <= i < |rows| ==>
      r[i] == FormattedCustomersTable(rows[i].id, rows[i].name, rows[i].email, rows[i].imageUrl, rows[i].totalInvoices,
                                      FormatCurrency(rows[i].totalPending), FormatCurrency(rows[i].totalPaid))
  {
    seq(|rows|, i requires 0 <= i < |rows| =>
      FormattedCustomersTable(rows[i].id, rows[i].name, rows[i].email, rows[i].imageUrl, rows[i].totalInvoices,
                              FormatCurrency(rows[i].totalPending), FormatCurrency(rows[i].totalPaid)))
  }

  method FetchFilteredCustomers(p: ConnectionProvider, query: string, exec: SqlQuery -> DbResult<CustomersTableRow>)
    returns (r: Result<seq<FormattedCustomersTable>, Thrown>)
    modifies p
    ensures p.acquired == old(p.acquired) + 1 && p.released == old(p.released) + 1
    ensures exec(FilteredCustomersQuery(query)).Fault? ==> r == Failure(Error("Failed to fetch customer table."))
    ensures exec(FilteredCustomersQuery(query)).Rows? ==>
      r == Success(FormatCustomers(exec(FilteredCustomersQuery(query)).rows))
  {
    r := Read(p, FilteredCustomersQuery(query), exec, rows => Some(FormatCustomers(rows)), "Failed to fetch customer table.");
  }

  /** A handle borrowed for a read is given back: a balanced provider stays
      balanced over any read, whatever the query, the executor or the shaping
      does. */
  method ReadKeepsBalance<T, R>(p: ConnectionProvider, q: SqlQuery, exec: SqlQuery -> DbResult<T>,
                                shape: seq<T> -> Option<R>, failure: string)
    returns (r: Result<R, Thrown>)
    requires p.Balanced()
    modifies p
    ensures p.Balanced()
  {
    r := Read(p, q, exec, shape, failure);
  }
}
