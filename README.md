# Product list, application shell and API client of the inventory front end

This project models, in Dafny, the client-side core of a small inventory
management application. That core is three parts:

- **The product list** (`frontend/src/components/ProductList.tsx`):
  - the stock-status badge;
  - the filter object and how one filter change resets the page;
  - the four page buttons and their guards;
  - the "N items, showing X-Y" range line;
  - the `{ ...filters, page: parseInt(page), limit: parseInt(limit) }` request parameters;
  - the CSV export's use of the filters;
  - the edit form's `updateEditingProduct`.
- **The application shell** (`frontend/src/App.tsx`):
  - which view each page shows, falling back to the dashboard;
  - the notification list: added with the clock reading `Date.now()` as its id, and removed by that id after `duration || 5000` ms; two notifications added in the same millisecond share the id, and the first timer removes both.
- **The API client** (`frontend/src/services/api.ts`):
  - the two query builders: the list builder drops `undefined`, `""` and `null` and uses `String(value)`; the report/export builder drops only `undefined` and `""` and calls `value.toString()`;
  - endpoint assembly, `path` or `path?query`;
  - `request`'s mapping of a failed fetch, a non-OK status or a thrown value onto the `{ success: false, error }` envelope;
  - the export status check.

Modules:

| module | contents |
|---|---|
| `Wrappers` | `Option` and `Result` |
| `Js` | the JavaScript values the client handles: `undefined`, `null`, strings, integers, `NaN`; `String(v)`; decimal digits; `Number.parseInt` on the strings the client builds; `includes` |
| `Props` | an object as an insertion-ordered list of properties. `Assign` is `{ ...o, [k]: v }`: it replaces a present key in place and appends a new one |
| `Types` | the record types of `frontend/src/types/index.ts` the core uses |
| `Stock` | the badge classification, and the server's `stock_status` filter beside it |
| `Api` | the query builders as loops (`BuildListQuery`, `BuildReportQuery`), each proved equal to a recursive definition; endpoints; the request envelope |
| `ProductList` | the filter, paging, range and edit logic as functions with lemmas, and the component's state as a class whose methods update it |
| `App` | the page switch, notification removal as a function with lemmas, and the shell's state as a class |

The badge and the products endpoint's `stock_status` filter
(`MYSQLを用いてデータベース管理/backend/server.js`, lines 114-128) do not use the same conditions:

- The filter selects "low" with `current_stock > 0 AND current_stock <=
  min_stock_level` (lines 119-120). The badge tests `stock === 0` first and
  then `stock <= min`. So a non-zero stock at or below the minimum shows
  "low". With a minimum of 0 or more, that includes every negative stock,
  which the "low" filter does not select.
- The filter selects "overstock" with `current_stock >= max_stock_level`
  (lines 122-123). A non-zero stock with `max <= stock <= min` shows "low" on
  the badge, but the "overstock" filter selects it.
- `Stock.ClassifyCases` states the badge's rule.
- `Stock.BadgeAgreesWithServerFilter` shows that the two agree for
  `0 <= stock` and `0 <= min < max`.
- `Stock.BadgeAndServerFilterCanDiffer` proves both differences for all inputs.

The front end imports its types from `../types/types`. The model takes that
module to hold the definitions in `frontend/src/types/index.ts`.

## Model

| member | source | states |
|---|---|---|
| Stock.Classify | frontend/src/components/ProductList.tsx:285-295 | `getStockStatusBadge`: zero, then at most the minimum, then at least the maximum, else normal; characterised by `Stock.ClassifyCases` |
| Stock.ClassifyCases | frontend/src/components/ProductList.tsx:285-295 | each of the four badges holds exactly under a condition on stock, min and max: zero; non-zero and at most min; above min and at least max; strictly between |
| Stock.ZeroIsOutOfStock | frontend/src/components/ProductList.tsx:286-287 | stock 0 is out of stock whatever the thresholds |
| Stock.DefaultThresholdBoundaries | frontend/src/components/ProductList.tsx:288-291 | with the default thresholds 10 and 1000 both boundaries are inclusive: 10 is low, 11 and 999 normal, 1000 overstock |
| Stock.Label | frontend/src/components/ProductList.tsx:287-293 | the four badge texts; characterised by `Stock.LabelIsFilterOption` and `Stock.StatusOfLabel` |
| Stock.StatusOfLabel | frontend/src/components/ProductList.tsx:431-435 | a filter value selects a status exactly when it is one of the four non-empty options, and the selected status carries that label |
| Stock.LabelIsFilterOption | frontend/src/components/ProductList.tsx:426-436 | every badge text is a filter option and selects its own status back |
| Stock.ServerFilterMatches | frontend/src/components/ProductList.tsx:428 | the condition the endpoint adds for the `stock_status` value this select sends (`MYSQLを用いてデータベース管理/backend/server.js`, lines 114-128), matching everything for any other value; compared with the badge by `Stock.BadgeAgreesWithServerFilter` |
| Stock.BadgeAgreesWithServerFilter | frontend/src/components/ProductList.tsx:426-436 | for 0 <= stock and 0 <= min < max, the products endpoint's `stock_status` filter (`MYSQLを用いてデータベース管理/backend/server.js`, lines 114-128) for a label matches a product exactly when its badge shows that label |
| Stock.BadgeAndServerFilterCanDiffer | frontend/src/components/ProductList.tsx:286-291 | against the endpoint's filter (`MYSQLを用いてデータベース管理/backend/server.js`, lines 119-123): for every stock below 0 with min >= 0 the badge is low but the low filter does not select it; for every non-zero stock with max <= stock <= min the badge is low and the overstock filter selects it |
| Types.KeyName | frontend/src/types/index.ts:132-142 | the property names of the parameter object; used by `ProductList.ToEntries` and characterised by `Types.KeyNameInjective` |
| Types.KeyNameInjective | frontend/src/types/index.ts:131-143 | distinct parameter keys have distinct property names, so each filter reaches the request under its own name (used by `ProductList.ToEntriesLookup` and `ProductList.ApiParamsLookup`) |
| Props.Lookup | frontend/src/components/ProductList.tsx:68-69 | `obj[k]`: absent exactly when no property has that key |
| Props.Assign | frontend/src/components/ProductList.tsx:136-140 | `{ ...o, [k]: v }`; characterised by `Props.LookupAssign` and `Props.KeysAssign` |
| Props.LookupAssign | frontend/src/components/ProductList.tsx:136-140 | after `{ ...o, [k]: v }` the key k holds v and every other key holds what it held |
| Props.KeysAssign | frontend/src/components/ProductList.tsx:136-140 | the spread keeps the key order; a key already present stays where it was, and a new one is appended |
| Props.AssignKeepsDistinct | frontend/src/components/ProductList.tsx:136-140 | the spread never creates a duplicate key |
| Props.AssignAssign | frontend/src/components/ProductList.tsx:136-140 | assigning one key twice is assigning the second value |
| Props.AssignHeld | frontend/src/components/ProductList.tsx:136-140 | assigning the value a key already holds changes nothing |
| ProductList.FilterChange | frontend/src/components/ProductList.tsx:134-141 | `handleFilterChange`'s new filters; characterised by `ProductList.FilterChangeLookup` and `ProductList.FilterChangeKeys` |
| ProductList.FilterChangeLookup | frontend/src/components/ProductList.tsx:134-141 | after a change of key to value, the key holds String(value); page holds String(value) when the key is page and "1" otherwise; every other filter is unchanged |
| ProductList.FilterChangeKeys | frontend/src/components/ProductList.tsx:134-141 | a filter change keeps the filters free of duplicate keys with a page filter, keeps the existing keys in their order, and appends the changed key only when it was absent |
| ProductList.FilterChangeIdempotent | frontend/src/components/ProductList.tsx:134-141 | applying the same change twice is applying it once |
| ProductList.FirstPage | frontend/src/components/ProductList.tsx:311-315 | `goToFirstPage`: page 1 when the current page is after the first; characterised by `ProductList.PageMoves` |
| ProductList.LastPage | frontend/src/components/ProductList.tsx:317-321 | `goToLastPage`: the last page when the current page is before it; characterised by `ProductList.PageMoves` |
| ProductList.PrevPage | frontend/src/components/ProductList.tsx:323-327 | `goToPrevPage`: the page before when `has_prev`; characterised by `ProductList.PageMoves` |
| ProductList.NextPage | frontend/src/components/ProductList.tsx:329-333 | `goToNextPage`: the page after when `has_next`; characterised by `ProductList.PageMoves` |
| ProductList.RequestedPage | frontend/src/components/ProductList.tsx:68 | `Number.parseInt(filters.page)`, the page a load asks for; the contracts of `ProductList.MoveRequestsPage` and `ProductList.PageMoves` are stated through it |
| ProductList.MoveRequestsPage | frontend/src/components/ProductList.tsx:66-70 | after a move to page n the page filter parses back to n, and no other filter changes |
| ProductList.PageMoves | frontend/src/components/ProductList.tsx:311-333 | what each button requests when its guard holds (current+1, current-1, 1, total pages), and that it changes nothing when its guard fails |
| ProductList.PageMovesIdempotent | frontend/src/components/ProductList.tsx:311-333 | pressing a button twice against the same pagination state has the effect of pressing it once |
| ProductList.CeilDiv | frontend/src/components/ProductList.tsx:78 | `Math.ceil(total / limit)`, the page count of the envelope this line stores (`MYSQLを用いてデータベース管理/backend/server.js`, line 170); bounded by `ProductList.CeilDivBounds` |
| ProductList.ServerEnvelope | frontend/src/components/ProductList.tsx:78 | the pagination the list endpoints answer with and this line stores (`MYSQLを用いてデータベース管理/backend/server.js`, lines 170-182): the page count and the two flags follow from the page, the total and the page size |
| ProductList.CeilDivBounds | frontend/src/components/ProductList.tsx:78 | for a positive total, the page count is at least 1 and the last page holds between 1 and a page size of items |
| ProductList.ServerEnvelopeGuards | frontend/src/components/ProductList.tsx:311-333 | with the envelope the list endpoints build (`MYSQLを用いてデータベース管理/backend/server.js`, lines 170-182), "previous" acts exactly when "first" does and "next" exactly when "last" does; on the first or last page the matching buttons change nothing |
| ProductList.RangeShown | frontend/src/components/ProductList.tsx:810 | the `total_pages > 1` guard of the pagination block; used by `ProductList.ProductListState.ShownRange` |
| ProductList.RangeFirst | frontend/src/components/ProductList.tsx:815 | the first item shown; bounded by `ProductList.RangeOfServerPage` |
| ProductList.RangeLast | frontend/src/components/ProductList.tsx:816 | the last item shown is never beyond the total |
| ProductList.RangeOfServerPage | frontend/src/components/ProductList.tsx:810-817 | on an existing page of a server envelope, the line shows 1 <= first <= last <= total; it spans at most one page size, exactly one page size before the last page, and the next page starts right after it |
| ProductList.RangePastLastPage | frontend/src/components/ProductList.tsx:247 | after a reload for a page past the server's last page (deleting the only item of the last page reloads with the same page), the line shows a first item beyond the last: the last is the total, and the first is larger; for page 3 of 40 items at 20 per page it shows 41-40 |
| ProductList.ToEntries | frontend/src/components/ProductList.tsx:66-67 | the filter object spreads into a parameter object with the same keys, in order, all as string values |
| ProductList.ToEntriesLookup | frontend/src/components/ProductList.tsx:66-67 | each filter reaches the parameter object under its property name, as a string |
| ProductList.ParsedNumber | frontend/src/components/ProductList.tsx:68-69 | `Number.parseInt` of a filter as a parameter value, NaN when it does not parse or is absent; used by `ProductList.ApiParamsLookup` |
| ProductList.ApiParams | frontend/src/components/ProductList.tsx:66-70 | `{ ...filters, page: parseInt(page), limit: parseInt(limit) }`; characterised by `ProductList.ApiParamsLookup` |
| ProductList.ApiParamsLookup | frontend/src/components/ProductList.tsx:66-70 | in the parameter object `page` and `limit` hold the numbers parsed from their filters (NaN when they do not parse), and every other filter holds its string |
| ProductList.PageMoveReachesRequest | frontend/src/components/ProductList.tsx:66-73 | after a move to page n the product request's query holds page=String(n) |
| ProductList.ExportSendsNonEmptyFilters | frontend/src/components/ProductList.tsx:266-268 | building the export's query from the string filters never throws, and it sends exactly the pairs the list builder would send; the export itself can still fail on a non-OK status (`Api.ExportCheck`) or a rejected fetch, which `handleExportCSV` catches at lines 276-281 |
| ProductList.Set | frontend/src/components/ProductList.tsx:306 | `{ ...prev, [field]: value }`; characterised by `ProductList.SetChangesOnlyField` |
| ProductList.UpdateEditing | frontend/src/components/ProductList.tsx:303-308 | `updateEditingProduct`'s state update: null stays null; characterised by `ProductList.UpdateEditingCases` |
| ProductList.SetChangesOnlyField | frontend/src/components/ProductList.tsx:303-307 | setting one property gives it the new value and leaves every other property as it was |
| ProductList.UpdateEditingCases | frontend/src/components/ProductList.tsx:303-308 | with no product being edited the update leaves none; otherwise exactly the named property changes |
| ProductList.ProductListState.constructor | frontend/src/components/ProductList.tsx:20-39 | the initial filters (page "1", limit "20", sort by product id ascending, the rest empty), the initial pagination, and no product being edited |
| ProductList.ProductListState.HandleFilterChange | frontend/src/components/ProductList.tsx:134-141 | the filters become the filter change of the old ones; the filters stay well formed; nothing else changes |
| ProductList.ProductListState.GoToFirstPage | frontend/src/components/ProductList.tsx:311-315 | the filters become the first-page move of the old ones under the old pagination |
| ProductList.ProductListState.GoToLastPage | frontend/src/components/ProductList.tsx:317-321 | the filters become the last-page move of the old ones under the old pagination |
| ProductList.ProductListState.GoToPrevPage | frontend/src/components/ProductList.tsx:323-327 | the filters become the previous-page move of the old ones under the old pagination |
| ProductList.ProductListState.GoToNextPage | frontend/src/components/ProductList.tsx:329-333 | the filters become the next-page move of the old ones under the old pagination |
| ProductList.ProductListState.ReceivePagination | frontend/src/components/ProductList.tsx:76-78 | the pagination becomes the one the response carried; nothing else changes |
| ProductList.ProductListState.OpenEditForm | frontend/src/components/ProductList.tsx:297-300 | the product becomes the one being edited; nothing else changes |
| ProductList.ProductListState.UpdateEditingProduct | frontend/src/components/ProductList.tsx:303-308 | the edited product becomes its update by the field and value; nothing else changes |
| ProductList.ProductListState.PageFilter | frontend/src/components/ProductList.tsx:68 | `filters.page`, present in every state the component reaches (the class invariant), and the page a load requests is its parse |
| ProductList.ProductListState.ShownRange | frontend/src/components/ProductList.tsx:810-816 | the range line is there exactly when there is more than one page; its end is never beyond the total, and on an existing page of a server envelope it starts at 1 or later, is not empty and spans at most one page size |
| ProductList.InputString | frontend/src/components/ProductList.tsx:138 | `String(value)` for a text or a page number; used by `ProductList.FilterChangeLookup` |
| Js.String | frontend/src/services/api.ts:69 | `String(value)` for the values the client sends; for integers characterised by `Js.IntToString` and `Js.ParseIntOfIntToString` |
| Js.ParseInt | frontend/src/components/ProductList.tsx:68-69 | `Number.parseInt` on decimal text: optional sign, then the leading digits, NaN when none; characterised by `Js.ParseIntOfIntToString` |
| Js.NatToString | frontend/src/components/ProductList.tsx:138 | the decimal text of a number is non-empty and all digits, and it starts with 0 only for the number 0 |
| Js.IntToString | frontend/src/components/ProductList.tsx:138 | the decimal text of an integer starts with "-" exactly when the integer is negative |
| Js.ParseIntOfIntToString | frontend/src/components/ProductList.tsx:68-69 | `Number.parseInt(String(i))` is i for every integer i |
| Js.Contains | frontend/src/services/api.ts:49 | `s.includes(t)`; characterised by `Js.ContainsMiddle` |
| Js.IsErrorInstance | frontend/src/services/api.ts:58 | `error instanceof Error`: a TypeError or another Error, not a thrown non-Error; used by `Api.OtherFailureMessages` |
| Js.ContainsMiddle | frontend/src/services/api.ts:49 | a string includes any piece it was built around |
| Api.ListKeeps | frontend/src/services/api.ts:68 | the list builders' test, also at line 113: not undefined, not "" and not null; characterised by `Api.ListQueryMembers` |
| Api.ReportKeeps | frontend/src/services/api.ts:151 | the report and export builders' test, also at lines 184 and 208: not undefined and not ""; characterised by `Api.ReportKeepsMore` |
| Api.ListStep | frontend/src/services/api.ts:68-69 | the body of the `forEach`: one pair `[key, String(value)]` for a kept value, none otherwise |
| Api.ListQuery | frontend/src/services/api.ts:66-71 | the list query has at most one pair per parameter |
| Api.ListQueryAppend | frontend/src/services/api.ts:67-71 | the pairs of a parameter object are the pairs of its first part followed by those of the rest |
| Api.ListQueryMembers | frontend/src/services/api.ts:67-71 | a pair is in the list query exactly when some parameter with that key has a value that is not undefined, "" or null, and its String() is the pair's value |
| Api.ListQueryLookup | frontend/src/services/api.ts:67-71 | when a key first holds a kept value, the query's first pair for that key has String() of that value |
| Api.ReportQuery | frontend/src/services/api.ts:148-155 | the report and export builders' query, or the error `value.toString()` throws; characterised by `Api.ReportQueryFailsIffNull` and `Api.ReportQueryWithoutNull` |
| Api.ReportQueryWithoutNull | frontend/src/services/api.ts:149-155 | without a null among the kept values the report builder does not throw, and it keeps exactly the pairs the list builder keeps |
| Api.ReportQueryFailsIffNull | frontend/src/services/api.ts:150-153 | the report builder throws exactly when some value that is not undefined or "" is null, and then with the TypeError of `null.toString()` |
| Api.ReportKeepsMore | frontend/src/services/api.ts:68 | the report builder keeps every value the list builder keeps, and in addition null |
| Api.BuildListQuery | frontend/src/services/api.ts:65-72 | the loop over the parameters builds exactly the list query, and an absent parameter object gives the empty query |
| Api.BuildReportQuery | frontend/src/services/api.ts:148-155 | the loop builds exactly the report query: the pairs, or the TypeError thrown at the first kept null |
| Api.Serialize | frontend/src/services/api.ts:74 | the query string is empty exactly when there are no pairs |
| Api.PathOf | frontend/src/services/api.ts:75 | the text before the first "?" is a prefix of the endpoint |
| Api.Endpoint | frontend/src/services/api.ts:74-75 | `${path}${queryString ? `?${queryString}` : ""}`; characterised by `Api.EndpointShape` |
| Api.EndpointShape | frontend/src/services/api.ts:74-75 | an endpoint is the bare path exactly when the query is empty, and path?query otherwise; it contains "?" exactly when there is a query; the path reads back from it |
| Api.ListEndpoint | frontend/src/services/api.ts:74-75 | the products and transactions endpoints are the path with the list query of the parameters |
| Api.ReportEndpoint | frontend/src/services/api.ts:157-159 | the inventory-summary and export endpoints are the path with the report query, or the builder's TypeError exactly when the report query throws |
| Api.Attempt | frontend/src/services/api.ts:24-44 | the try block of `request`: the parsed body of an OK response, or what it throws; characterised by `Api.RequestOutcome` and `Api.HttpErrorNamesStatus` |
| Api.Request | frontend/src/services/api.ts:23-61 | `request`; characterised by `Api.RequestOutcome`, `Api.FetchTypeErrorIsUnreachable` and `Api.OtherFailureMessages` |
| Api.FailureEnvelope | frontend/src/services/api.ts:50-59 | the `{ success: false, error }` object of both catch paths; characterised by `Api.Recover` |
| Api.Recover | frontend/src/services/api.ts:45-60 | whatever was thrown, `request` answers an unsuccessful envelope with no data and an error message |
| Api.RequestOutcome | frontend/src/services/api.ts:23-61 | `request` never throws: it returns the parsed body, or the failure envelope when anything threw; the parsed body of an OK response is returned as it is |
| Api.StatusOk | frontend/src/services/api.ts:36 | `response.ok`: a status from 200 to 299; used by `Api.HttpErrorNamesStatus` and `Api.ExportCheck` |
| Api.HttpErrorMessage | frontend/src/services/api.ts:39 | the message of the HTTP error; characterised by `Api.HttpErrorNamesStatus` |
| Api.HttpErrorNamesStatus | frontend/src/services/api.ts:36-40 | a non-OK status fails the request with "HTTP error! status: <status> - <body text>", which contains the status |
| Api.FetchTypeErrorIsUnreachable | frontend/src/services/api.ts:49-54 | a TypeError whose message contains "fetch" is reported as the backend being unreachable |
| Api.OtherFailureMessages | frontend/src/services/api.ts:56-59 | any other Error is reported by its own message; a thrown non-Error as "Unknown error" |
| Api.ExportCheck | frontend/src/services/api.ts:197-199 | an export succeeds exactly when its status is OK; otherwise it throws an Error whose message contains the status |
| Api.Url | frontend/src/services/api.ts:26 | `${API_BASE_URL}${endpoint}`; characterised by `Api.FetchedUrl` |
| Api.FetchedUrl | frontend/src/services/api.ts:26 | for the products, transactions, inventory-summary and two export paths (api.ts lines 75, 120, 159, 191, 215), the URL fetched is "/api" and the path, followed by "?" and the query exactly when the query is not empty; the part before the first "?" is always "/api" and the path |
| App.PageName | frontend/src/App.tsx:12 | the four values of the `Page` union; used by `App.PagesShowDistinctViews` |
| App.RenderPage | frontend/src/App.tsx:33-46 | `renderPage`; characterised by `App.PagesShowDistinctViews` and `App.UnknownPageShowsDashboard` |
| App.PagesShowDistinctViews | frontend/src/App.tsx:33-46 | the four pages show four distinct views, and every view is shown by some page |
| App.UnknownPageShowsDashboard | frontend/src/App.tsx:43-44 | a value that names no page shows the dashboard |
| App.AutoDismissDelay | frontend/src/App.tsx:24-26 | an absent or zero duration gives 5000; any other duration, including a negative one, is used as it is |
| App.WithId | frontend/src/App.tsx:19-20 | the stored notification is the draft with the given id added |
| App.Without | frontend/src/App.tsx:29-31 | removal keeps only notifications of the list whose id differs, and never makes the list longer |
| App.WithoutKeepsOthers | frontend/src/App.tsx:30 | every notification with another id survives a removal |
| App.WithoutAppend | frontend/src/App.tsx:30 | removal acts on the parts of a list separately, so the survivors keep their order |
| App.WithoutAbsent | frontend/src/App.tsx:30 | removing an id no notification has changes nothing |
| App.WithoutIdempotent | frontend/src/App.tsx:30 | removing twice is removing once |
| App.WithoutCommutes | frontend/src/App.tsx:30 | removals by two ids give the same list in either order |
| App.AddThenRemove | frontend/src/App.tsx:18-31 | the timer's removal takes the added notification out again, and gives back the old list when its id was unused |
| App.AppState.constructor | frontend/src/App.tsx:15-16 | the shell starts on the dashboard with no notifications |
| App.AppState.SetCurrentPage | frontend/src/App.tsx:50 | the navigation bar's page change sets the current page and nothing else |
| App.AppState.AddNotification | frontend/src/App.tsx:18-27 | the notification with the new id is appended, and the returned delay is the auto-dismiss delay of its duration |
| App.AppState.RemoveNotification | frontend/src/App.tsx:29-31 | the notifications become the old ones without those with that id |

## Left out

- I/O is not modelled: `fetch`, `response.text()`, `response.json()`, `response.blob()`, `console` logging. A fetch outcome is an input of `Api.Request`: a rejection, or a status with the body as text and as parsed JSON.
- Percent-encoding is not modelled. `URLSearchParams` is a list of pairs, and `Api.Serialize` joins them as `key=value` with `&` without escaping.
- `setTimeout` and `Date.now()` are not modelled. The id and the timer are inputs: `App.AppState.AddNotification` takes the id and returns the delay after which the shell calls `RemoveNotification`.
- JS numbers are modelled as unbounded integers, except the unit price (`Types.Product.unitPrice`, `ProductList.FieldValue.PriceValue`), which is an exact real; float rounding, `NaN` in edit fields and `toLocaleString` formatting are not modelled.
- `Number.parseInt` is modelled only on the inputs the client gives it: an optional sign and decimal digits, with trailing text ignored. Leading whitespace and radix prefixes are not modelled.
- `Api.NullToString`: the TypeError message given to `null.toString()` is V8's wording. The model fixes it so the error can be named; other engines word it differently.
- `ProductList.ProductListState.UpdateEditingProduct`: requires the value to have the property's type (`Fits`). The source's `string | number` parameter would let a mismatched value through. Every call site in the form passes a value of the property's type.
- `ProductList.SetChangesOnlyField`: requires `Fits` for the same reason.
- `ProductList.UpdateEditingCases`: requires `Fits` for the same reason.
- `is_active` is left out of the editable fields: no form control sets it.
- Not modelled: the asynchronous sequencing of `loadProducts` and `loadMasterData`, the loading and error flags, and the notifications they raise. `ReceivePagination` models the one state change a successful load makes to the paging.
- Not modelled: the add, edit-submit and delete handlers and `confirm`. Each makes one `request` call (covered by `Api.Request`) and raises a notification; only on success does it also reload the list.
- The other API methods are not modelled one by one. Each is a single `request` call, whose outcome `Api.Request` covers.
  - `createProduct`, `createTransaction`, the master-data, report and dashboard GETs and `healthCheck` use a fixed endpoint.
  - `getProduct`, `updateProduct` and `deleteProduct` use `/products/${productId}` (api.ts lines 82, 93, 101); the model does not build that endpoint.
- JSX rendering, styling, `downloadCSV`, `formatCurrency`, `formatDate` and `formatDateTime` are browser or `Intl` calls and are not modelled.
- `Dashboard.tsx` and `DebugPanel.tsx` are not part of this model.
- The backend's inventory ledger is not part of this model. The server's stock filter and pagination envelope appear only as the conditions the client's badge and buttons are compared against.
