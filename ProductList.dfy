/**
 * The product list's client state: the filter object (every value a string,
 * sent as query parameters), the pagination envelope of the last response,
 * and the product being edited. Filter changes go back to page "1" unless
 * the page itself changes; page moves are guarded by the envelope.
 */
module ProductList {
  import opened Wrappers
  import opened Js
  import opened Types
  import Props
  import Api

  /** The filter object, as its properties in insertion order. */
  type Filters = seq<(ParamKey, string)>

  /** A value handed to `handleFilterChange`: an input's text or a page number. */
  datatype FilterInput = Text(s: string) | Number(n: int)

  /** `String(value)`. */
  function InputString(x: FilterInput): string {
    match x
    case Text(s) => s
    case Number(n) => IntToString(n)
  }

  const InitialFilters: Filters := [
    (Page, "1"), (Limit, "20"), (Search, ""), (Category, ""), (Supplier, ""),
    (StockStatus, ""), (SortBy, "product_id"), (SortOrder, "asc")]

  const InitialPagination: Pagination := Pagination(1, 1, 0, 20, false, false)

  /** Every key at most once, and a page always present. */
  predicate WellFormed(f: Filters) {
    Props.DistinctKeys(f) && Props.Lookup(f, Page).Some?
  }

  // ---------------------------------------------------------------------------
  // Filter changes

  /** The filters after `handleFilterChange(key, value)`. */
  function FilterChange(f: Filters, key: ParamKey, value: FilterInput): Filters {
    var s := InputString(value);
    Props.Assign(Props.Assign(f, key, s), Page, if key == Page then s else "1")
  }

  /**
   * A filter change stores `String(value)` under its key, resets the page to
   * "1" unless the page is the key, and leaves every other filter as it was.
   */
  lemma FilterChangeLookup(f: Filters, key: ParamKey, value: FilterInput, j: ParamKey)
    ensures var r := FilterChange(f, key, value);
      && Props.Lookup(r, Page) == Some(if key == Page then InputString(value) else "1")
      && (j != Page && j == key ==> Props.Lookup(r, j) == Some(InputString(value)))
      && (j != Page && j != key ==> Props.Lookup(r, j) == Props.Lookup(f, j))
  {
    var s := InputString(value);
    var once := Props.Assign(f, key, s);
    var p := if key == Page then s else "1";
    Props.LookupAssign(once, Page, p, Page);
    Props.LookupAssign(once, Page, p, j);
    Props.LookupAssign(f, key, s, j);
  }

  /**
   * A filter change keeps the filters well formed, keeps the existing keys in
   * their order and only appends the changed key when it was not there.
   */
  lemma FilterChangeKeys(f: Filters, key: ParamKey, value: FilterInput)
    requires WellFormed(f)
    ensures WellFormed(FilterChange(f, key, value))
    ensures Props.Keys(FilterChange(f, key, value)) ==
            if key in Props.Keys(f) then Props.Keys(f) else Props.Keys(f) + [key]
  {
    var s := InputString(value);
    var once := Props.Assign(f, key, s);
    var p := if key == Page then s else "1";
    Props.AssignKeepsDistinct(f, key, s);
    Props.AssignKeepsDistinct(once, Page, p);
    Props.KeysAssign(f, key, s);
    Props.KeysAssign(once, Page, p);
    Props.LookupAssign(f, key, s, Page);
    Props.LookupAssign(once, Page, p, Page);
  }

  /** Making the same change twice is making it once. */
  lemma FilterChangeIdempotent(f: Filters, key: ParamKey, value: FilterInput)
    ensures FilterChange(FilterChange(f, key, value), key, value) == FilterChange(f, key, value)
  {
    var s := InputString(value);
    var p := if key == Page then s else "1";
    var r := FilterChange(f, key, value);
    FilterChangeLookup(f, key, value, key);
    assert Props.Lookup(r, key) == Some(s);
    Props.AssignHeld(r, key, s);
    FilterChangeLookup(f, key, value, Page);
    Props.AssignHeld(r, Page, p);
  }

  // ---------------------------------------------------------------------------
  // Page moves

  /** `goToFirstPage`: only when the current page is after the first. */
  function FirstPage(f: Filters, p: Pagination): Filters {
    if p.currentPage > 1 then FilterChange(f, Page, Number(1)) else f
  }

  /** `goToLastPage`: only when the current page is before the last. */
  function LastPage(f: Filters, p: Pagination): Filters {
    if p.currentPage < p.totalPages then FilterChange(f, Page, Number(p.totalPages)) else f
  }

  /** `goToPrevPage`: only when the envelope says there is a previous page. */
  function PrevPage(f: Filters, p: Pagination): Filters {
    if p.hasPrev then FilterChange(f, Page, Number(p.currentPage - 1)) else f
  }

  /** `goToNextPage`: only when the envelope says there is a next page. */
  function NextPage(f: Filters, p: Pagination): Filters {
    if p.hasNext then FilterChange(f, Page, Number(p.currentPage + 1)) else f
  }

  /** The page a page move asks for, as the number `loadProducts` parses from the filter. */
  function RequestedPage(f: Filters): Option<int> {
    match Props.Lookup(f, Page)
    case Some(s) => ParseInt(s)
    case None => None
  }

  /** Moving to page `n` requests page `n` and leaves every other filter untouched. */
  lemma MoveRequestsPage(f: Filters, n: int, j: ParamKey)
    ensures RequestedPage(FilterChange(f, Page, Number(n))) == Some(n)
    ensures j != Page ==> Props.Lookup(FilterChange(f, Page, Number(n)), j) == Props.Lookup(f, j)
  {
    FilterChangeLookup(f, Page, Number(n), j);
    FilterChangeLookup(f, Page, Number(n), Page);
    ParseIntOfIntToString(n);
  }

  /** What the four buttons request: the neighbouring or end page when allowed, otherwise nothing changes. */
  lemma PageMoves(f: Filters, p: Pagination)
    ensures p.hasNext ==> RequestedPage(NextPage(f, p)) == Some(p.currentPage + 1)
    ensures !p.hasNext ==> NextPage(f, p) == f
    ensures p.hasPrev ==> RequestedPage(PrevPage(f, p)) == Some(p.currentPage - 1)
    ensures !p.hasPrev ==> PrevPage(f, p) == f
    ensures p.currentPage > 1 ==> RequestedPage(FirstPage(f, p)) == Some(1)
    ensures p.currentPage <= 1 ==> FirstPage(f, p) == f
    ensures p.currentPage < p.totalPages ==> RequestedPage(LastPage(f, p)) == Some(p.totalPages)
    ensures p.currentPage >= p.totalPages ==> LastPage(f, p) == f
  {
    MoveRequestsPage(f, p.currentPage + 1, Page);
    MoveRequestsPage(f, p.currentPage - 1, Page);
    MoveRequestsPage(f, 1, Page);
    MoveRequestsPage(f, p.totalPages, Page);
  }

  /**
   * The page is not refreshed until the next response arrives, so pressing a
   * button twice before that asks for the same page as pressing it once.
   */
  lemma PageMovesIdempotent(f: Filters, p: Pagination)
    ensures NextPage(NextPage(f, p), p) == NextPage(f, p)
    ensures PrevPage(PrevPage(f, p), p) == PrevPage(f, p)
    ensures FirstPage(FirstPage(f, p), p) == FirstPage(f, p)
    ensures LastPage(LastPage(f, p), p) == LastPage(f, p)
  {
    FilterChangeIdempotent(f, Page, Number(p.currentPage + 1));
    FilterChangeIdempotent(f, Page, Number(p.currentPage - 1));
    FilterChangeIdempotent(f, Page, Number(1));
    FilterChangeIdempotent(f, Page, Number(p.totalPages));
  }

  /** `Math.ceil(a / b)` for a count `a` and a positive page size `b`. */
  function CeilDiv(a: nat, b: nat): nat
    requires b > 0
  {
    (a + b - 1) / b
  }

  /** The envelope the list endpoints build: the flags follow from the page and the page count. */
  predicate ServerEnvelope(p: Pagination) {
    && p.itemsPerPage > 0
    && p.totalItems >= 0
    && p.totalPages == CeilDiv(p.totalItems, p.itemsPerPage)
    && p.hasNext == (p.currentPage < p.totalPages)
    && p.hasPrev == (p.currentPage > 1)
  }

  /** With such an envelope "previous" acts exactly when "first" does, and "next" exactly when "last" does. */
  lemma ServerEnvelopeGuards(f: Filters, p: Pagination)
    requires ServerEnvelope(p)
    ensures p.hasPrev <==> p.currentPage > 1
    ensures p.hasNext <==> p.currentPage < p.totalPages
    ensures p.currentPage == 1 ==> FirstPage(f, p) == f && PrevPage(f, p) == f
    ensures p.currentPage == p.totalPages ==> LastPage(f, p) == f && NextPage(f, p) == f
  {
  }

  // ---------------------------------------------------------------------------
  // The "N items, showing X-Y" line

  /** The pagination block is shown only when there is more than one page. */
  predicate RangeShown(p: Pagination) {
    p.totalPages > 1
  }

  function RangeFirst(p: Pagination): int {
    (p.currentPage - 1) * p.itemsPerPage + 1
  }

  function RangeLast(p: Pagination): (last: int)
    ensures last <= p.totalItems
  {
    if p.currentPage * p.itemsPerPage <= p.totalItems then p.currentPage * p.itemsPerPage else p.totalItems
  }

  lemma CeilDivBounds(a: nat, b: nat)
    requires b > 0 && a > 0
    ensures CeilDiv(a, b) >= 1
    ensures (CeilDiv(a, b) - 1) * b < a <= CeilDiv(a, b) * b
  {
    var c := CeilDiv(a, b);
    var r := (a + b - 1) % b;
    assert a + b - 1 == c * b + r;
    assert (c - 1) * b == c * b - b;
  }

  lemma MulMonotonic(x: int, y: int, c: int)
    requires x <= y && c >= 0
    ensures x * c <= y * c
  {
    assert y * c - x * c == (y - x) * c;
  }

  /** The same facts as `RangeOfServerPage`, on plain integers. */
  lemma RangeArithmetic(cur: int, pages: int, per: int, total: int)
    requires per > 0 && 1 <= cur <= pages
    requires (pages - 1) * per < total <= pages * per
    ensures 0 <= (cur - 1) * per < total
    ensures cur * per == (cur - 1) * per + per
    ensures cur < pages ==> cur * per < total
  {
    MulMonotonic(0, cur - 1, per);
    MulMonotonic(cur - 1, pages - 1, per);
    assert cur * per == (cur - 1) * per + per;
    if cur < pages {
      MulMonotonic(cur, pages - 1, per);
    }
  }

  /**
   * On any page of a server envelope the range starts at 1 or later, ends at
   * the total at the latest, is not empty and spans at most one page size; on
   * every page but the last it spans exactly one page size, and the next page
   * starts right after it.
   */
  lemma RangeOfServerPage(p: Pagination)
    requires ServerEnvelope(p) && 1 <= p.currentPage <= p.totalPages
    ensures 1 <= RangeFirst(p) <= RangeLast(p) <= p.totalItems
    ensures RangeLast(p) - RangeFirst(p) + 1 <= p.itemsPerPage
    ensures p.currentPage < p.totalPages ==> RangeLast(p) - RangeFirst(p) + 1 == p.itemsPerPage
    ensures p.currentPage < p.totalPages ==>
      RangeFirst(p.(currentPage := p.currentPage + 1)) == RangeLast(p) + 1
  {
    var per := p.itemsPerPage;
    var cur := p.currentPage;
    assert p.totalItems > 0;
    CeilDivBounds(p.totalItems, per);
    RangeArithmetic(cur, p.totalPages, per, p.totalItems);
    assert RangeFirst(p.(currentPage := cur + 1)) == cur * per + 1;
  }

  /**
   * A reload may ask for a page the server no longer has: deleting the only
   * item of the last page reloads with the same page number, and the server
   * answers with that page number and a smaller page count. The line then
   * shows a first item beyond the last, such as "41-40" for page 3 of 40
   * items at 20 per page.
   */
  lemma RangePastLastPage(p: Pagination)
    requires ServerEnvelope(p) && 1 <= p.currentPage && p.totalPages < p.currentPage
    ensures RangeLast(p) == p.totalItems < RangeFirst(p)
    ensures var q := Pagination(3, 2, 40, 20, false, true);
      ServerEnvelope(q) && RangeShown(q) && RangeFirst(q) == 41 && RangeLast(q) == 40
  {
    var per := p.itemsPerPage;
    if p.totalItems > 0 {
      CeilDivBounds(p.totalItems, per);
    }
    assert p.totalItems <= p.totalPages * per;
    MulMonotonic(p.totalPages, p.currentPage - 1, per);
    MulMonotonic(p.currentPage - 1, p.currentPage, per);
    assert p.currentPage * per == (p.currentPage - 1) * per + per;
  }

  // ---------------------------------------------------------------------------
  // The request the filters produce

  /** The filters as the entries of a parameter object. */
  function ToEntries(f: Filters): (es: seq<Api.Entry>)
    ensures |es| == |f|
    ensures forall i :: 0 <= i < |f| ==> es[i] == (KeyName(f[i].0), Str(f[i].1))
  {
    if |f| == 0 then [] else [(KeyName(f[0].0), Str(f[0].1))] + ToEntries(f[1..])
  }

  /** `Number.parseInt(s)` as a parameter value; `parseInt(undefined)` is NaN. */
  function ParsedNumber(s: Option<string>): Value {
    match ParseInt(s.GetOr("undefined"))
    case Some(n) => Num(n)
    case None => NaN
  }

  /** `{ ...filters, page: parseInt(filters.page), limit: parseInt(filters.limit) }`. */
  function ApiParams(f: Filters): seq<Api.Entry> {
    var es := ToEntries(f);
    Props.Assign(Props.Assign(es, "page", ParsedNumber(Props.Lookup(f, Page))),
                 "limit", ParsedNumber(Props.Lookup(f, Limit)))
  }

  /** A string filter value as a parameter value. */
  function AsParam(o: Option<string>): Option<Value> {
    match o
    case Some(s) => Some(Str(s))
    case None => None
  }

  /** Each filter reaches the parameter object under its property name, as a string. */
  lemma {:induction false} ToEntriesLookup(f: Filters, j: ParamKey)
    ensures Props.Lookup(ToEntries(f), KeyName(j)) == AsParam(Props.Lookup(f, j))
  {
    if |f| > 0 {
      var es := ToEntries(f);
      assert es == [(KeyName(f[0].0), Str(f[0].1))] + ToEntries(f[1..]);
      assert es[1..] == ToEntries(f[1..]);
      if f[0].0 != j {
        if KeyName(f[0].0) == KeyName(j) {
          KeyNameInjective(f[0].0, j);
        }
        ToEntriesLookup(f[1..], j);
      }
    }
  }

  /**
   * The parameter object of a load: `page` and `limit` hold the numbers parsed
   * from their filters (`NaN` when a filter does not parse or is absent), and
   * every other filter is passed on as the string it is.
   */
  lemma ApiParamsLookup(f: Filters, j: ParamKey)
    ensures Props.Lookup(ApiParams(f), "page") == Some(ParsedNumber(Props.Lookup(f, Page)))
    ensures Props.Lookup(ApiParams(f), "limit") == Some(ParsedNumber(Props.Lookup(f, Limit)))
    ensures j != Page && j != Limit ==> Props.Lookup(ApiParams(f), KeyName(j)) == AsParam(Props.Lookup(f, j))
  {
    var es := ToEntries(f);
    var page := ParsedNumber(Props.Lookup(f, Page));
    var limit := ParsedNumber(Props.Lookup(f, Limit));
    var once := Props.Assign(es, "page", page);
    Props.LookupAssign(es, "page", page, "page");
    Props.LookupAssign(once, "limit", limit, "page");
    Props.LookupAssign(once, "limit", limit, "limit");
    Props.LookupAssign(es, "page", page, KeyName(j));
    Props.LookupAssign(once, "limit", limit, KeyName(j));
    ToEntriesLookup(f, j);
    if j != Page && j != Limit {
      if KeyName(j) == "page" {
        KeyNameInjective(j, Page);
      }
      if KeyName(j) == "limit" {
        KeyNameInjective(j, Limit);
      }
    }
  }

  /**
   * After a move to page `n`, the product request carries `page=String(n)`:
   * the number the button computed, through the string filter and the parse,
   * reaches the query unchanged.
   */
  lemma PageMoveReachesRequest(f: Filters, n: int)
    ensures var q := Api.ListQuery(ApiParams(FilterChange(f, Page, Number(n))));
      Props.Lookup(q, "page") == Some(IntToString(n))
  {
    var f' := FilterChange(f, Page, Number(n));
    MoveRequestsPage(f', n, Page);
    FilterChangeLookup(f, Page, Number(n), Page);
    ParseIntOfIntToString(n);
    assert ParsedNumber(Props.Lookup(f', Page)) == Num(n);
    var es := ToEntries(f');
    var once := Props.Assign(es, "page", Num(n));
    Props.LookupAssign(es, "page", Num(n), "page");
    Props.LookupAssign(once, "limit", ParsedNumber(Props.Lookup(f', Limit)), "page");
    Api.ListQueryLookup(ApiParams(f'), "page", Num(n));
  }

  /**
   * Building the CSV export's query from the string filters never throws, and
   * it sends exactly the non-empty ones. The export itself can still fail: see
   * `Api.ExportCheck` for a non-OK status.
   */
  lemma ExportSendsNonEmptyFilters(f: Filters)
    ensures Api.ReportQuery(ToEntries(f)) == Ok(Api.ListQuery(ToEntries(f)))
  {
    Api.ReportQueryWithoutNull(ToEntries(f));
  }

  // ---------------------------------------------------------------------------
  // The product being edited

  /** The product properties the edit form can set. */
  datatype Field =
    | ProductId | ProductName | Model | CategoryId | CategoryName | SupplierId
    | SupplierName | UnitPrice | CurrentStock | MinStockLevel | MaxStockLevel
    | Description | CreatedAt | UpdatedAt

  /** A value the form hands over: text, an integer, or a decimal price. */
  datatype FieldValue = TextValue(s: string) | IntValue(n: int) | PriceValue(x: real)

  /** The value a property holds; `None` for an absent optional property. */
  function Get(p: Product, f: Field): Option<FieldValue> {
    match f
    case ProductId => Some(TextValue(p.productId))
    case ProductName => Some(TextValue(p.productName))
    case Model => Some(TextValue(p.model))
    case CategoryId => Some(IntValue(p.categoryId))
    case CategoryName => if p.categoryName.Some? then Some(TextValue(p.categoryName.value)) else None
    case SupplierId => Some(IntValue(p.supplierId))
    case SupplierName => if p.supplierName.Some? then Some(TextValue(p.supplierName.value)) else None
    case UnitPrice => Some(PriceValue(p.unitPrice))
    case CurrentStock => Some(IntValue(p.currentStock))
    case MinStockLevel => Some(IntValue(p.minStockLevel))
    case MaxStockLevel => Some(IntValue(p.maxStockLevel))
    case Description => if p.description.Some? then Some(TextValue(p.description.value)) else None
    case CreatedAt => Some(TextValue(p.createdAt))
    case UpdatedAt => Some(TextValue(p.updatedAt))
  }

  /** The value has the property's type. */
  predicate Fits(f: Field, v: FieldValue) {
    match f
    case CategoryId | SupplierId | CurrentStock | MinStockLevel | MaxStockLevel => v.IntValue?
    case UnitPrice => v.PriceValue?
    case _ => v.TextValue?
  }

  /** `{ ...prev, [field]: value }`. */
  function Set(p: Product, f: Field, v: FieldValue): Product
    requires Fits(f, v)
  {
    match f
    case ProductId => p.(productId := v.s)
    case ProductName => p.(productName := v.s)
    case Model => p.(model := v.s)
    case CategoryId => p.(categoryId := v.n)
    case CategoryName => p.(categoryName := Some(v.s))
    case SupplierId => p.(supplierId := v.n)
    case SupplierName => p.(supplierName := Some(v.s))
    case UnitPrice => p.(unitPrice := v.x)
    case CurrentStock => p.(currentStock := v.n)
    case MinStockLevel => p.(minStockLevel := v.n)
    case MaxStockLevel => p.(maxStockLevel := v.n)
    case Description => p.(description := Some(v.s))
    case CreatedAt => p.(createdAt := v.s)
    case UpdatedAt => p.(updatedAt := v.s)
  }

  /** `updateEditingProduct`: nothing is being edited stays nothing is being edited. */
  function UpdateEditing(e: Option<Product>, f: Field, v: FieldValue): Option<Product>
    requires Fits(f, v)
  {
    match e
    case None => None
    case Some(p) => Some(Set(p, f, v))
  }

  /** An edit sets the named property to the value and changes no other property. */
  lemma SetChangesOnlyField(p: Product, f: Field, v: FieldValue, g: Field)
    requires Fits(f, v)
    ensures Get(Set(p, f, v), g) == if g == f then Some(v) else Get(p, g)
    ensures Set(p, f, v).isActive == p.isActive
  {
  }

  /** Editing with nothing open changes nothing, and otherwise edits exactly the open product. */
  lemma UpdateEditingCases(e: Option<Product>, f: Field, v: FieldValue, g: Field)
    requires Fits(f, v)
    ensures e == None ==> UpdateEditing(e, f, v) == None
    ensures e.Some? ==> UpdateEditing(e, f, v).Some?
    ensures e.Some? ==> Get(UpdateEditing(e, f, v).value, g) == if g == f then Some(v) else Get(e.value, g)
  {
    if e.Some? {
      SetChangesOnlyField(e.value, f, v, g);
    }
  }

  // ---------------------------------------------------------------------------
  // The component state

  class ProductListState {
    var filters: Filters
    var pagination: Pagination
    var editingProduct: Option<Product>

    ghost predicate Valid()
      reads this
    {
      WellFormed(filters)
    }

    constructor ()
      ensures Valid()
      ensures filters == InitialFilters && pagination == InitialPagination && editingProduct == None
    {
      filters := InitialFilters;
      pagination := InitialPagination;
      editingProduct := None;
    }

    method HandleFilterChange(key: ParamKey, value: FilterInput)
      requires Valid()
      modifies this
      ensures Valid()
      ensures filters == FilterChange(old(filters), key, value)
      ensures pagination == old(pagination) && editingProduct == old(editingProduct)
    {
      FilterChangeKeys(filters, key, value);
      var s := InputString(value);
      filters := Props.Assign(Props.Assign(filters, key, s), Page, if key == Page then s else "1");
    }

    method GoToFirstPage()
      requires Valid()
      modifies this
      ensures Valid()
      ensures filters == FirstPage(old(filters), old(pagination))
      ensures pagination == old(pagination) && editingProduct == old(editingProduct)
    {
      if pagination.currentPage > 1 {
        HandleFilterChange(Page, Number(1));
      }
    }

    method GoToLastPage()
      requires Valid()
      modifies this
      ensures Valid()
      ensures filters == LastPage(old(filters), old(pagination))
      ensures pagination == old(pagination) && editingProduct == old(editingProduct)
    {
      if pagination.currentPage < pagination.totalPages {
        HandleFilterChange(Page, Number(pagination.totalPages));
      }
    }

    method GoToPrevPage()
      requires Valid()
      modifies this
      ensures Valid()
      ensures filters == PrevPage(old(filters), old(pagination))
      ensures pagination == old(pagination) && editingProduct == old(editingProduct)
    {
      if pagination.hasPrev {
        HandleFilterChange(Page, Number(pagination.currentPage - 1));
      }
    }

    method GoToNextPage()
      requires Valid()
      modifies this
      ensures Valid()
      ensures filters == NextPage(old(filters), old(pagination))
      ensures pagination == old(pagination) && editingProduct == old(editingProduct)
    {
      if pagination.hasNext {
        HandleFilterChange(Page, Number(pagination.currentPage + 1));
      }
    }

    /** `setPagination(response.data.pagination)` after a successful load. */
    method ReceivePagination(p: Pagination)
      requires Valid()
      modifies this
      ensures Valid()
      ensures pagination == p && filters == old(filters) && editingProduct == old(editingProduct)
    {
      pagination := p;
    }

    /** `openEditForm`: edit a copy of the product. */
    method OpenEditForm(p: Product)
      requires Valid()
      modifies this
      ensures Valid()
      ensures editingProduct == Some(p) && filters == old(filters) && pagination == old(pagination)
    {
      editingProduct := Some(p);
    }

    method UpdateEditingProduct(field: Field, value: FieldValue)
      requires Valid() && Fits(field, value)
      modifies this
      ensures Valid()
      ensures editingProduct == UpdateEditing(old(editingProduct), field, value)
      ensures filters == old(filters) && pagination == old(pagination)
    {
      if editingProduct.Some? {
        editingProduct := Some(Set(editingProduct.value, field, value));
      }
    }

    /** `filters.page`, which every state of the component holds. */
    function PageFilter(): (page: string)
      reads this
      requires Valid()
      ensures Props.Lookup(filters, Page) == Some(page)
      ensures RequestedPage(filters) == ParseInt(page)
    {
      Props.Lookup(filters, Page).value
    }

    /** The first and last item numbers of the "showing X-Y" line, when the pagination block is shown. */
    function ShownRange(): (r: Option<(int, int)>)
      reads this
      ensures r.Some? <==> RangeShown(pagination)
      ensures r.Some? ==> r.value.1 <= pagination.totalItems
      ensures r.Some? && ServerEnvelope(pagination) && 1 <= pagination.currentPage <= pagination.totalPages ==>
        1 <= r.value.0 <= r.value.1 && r.value.1 - r.value.0 + 1 <= pagination.itemsPerPage
    {
      if !RangeShown(pagination) then None
      else if ServerEnvelope(pagination) && 1 <= pagination.currentPage <= pagination.totalPages then
        RangeOfServerPage(pagination);
        Some((RangeFirst(pagination), RangeLast(pagination)))
      else Some((RangeFirst(pagination), RangeLast(pagination)))
    }
  }
}
