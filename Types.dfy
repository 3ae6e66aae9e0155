/**
 * The client's record types: a product, the keys of the list-query
 * parameters, the pagination envelope every list response carries, and a
 * notification.
 */
module Types {
  import opened Wrappers

  /** A product row as the API returns it. `unitPrice` is a decimal number. */
  datatype Product = Product(
    productId: string,
    productName: string,
    model: string,
    categoryId: int,
    categoryName: Option<string>,
    supplierId: int,
    supplierName: Option<string>,
    unitPrice: real,
    currentStock: int,
    minStockLevel: int,
    maxStockLevel: int,
    description: Option<string>,
    isActive: bool,
    createdAt: string,
    updatedAt: string)

  /** The keys of the list-query parameter object; every value is a string. */
  datatype ParamKey =
    | Page | Limit | Search | Category | Supplier | StockStatus
    | SortBy | SortOrder | DateFrom | DateTo | TransactionType

  /** The property name of a parameter key. */
  function KeyName(k: ParamKey): string {
    match k
    case Page => "page"
    case Limit => "limit"
    case Search => "search"
    case Category => "category"
    case Supplier => "supplier"
    case StockStatus => "stock_status"
    case SortBy => "sort_by"
    case SortOrder => "sort_order"
    case DateFrom => "date_from"
    case DateTo => "date_to"
    case TransactionType => "transaction_type"
  }

  lemma KeyNameInjective(a: ParamKey, b: ParamKey)
    requires KeyName(a) == KeyName(b)
    ensures a == b
  {
  }

  /** The pagination envelope of a list response. */
  datatype Pagination = Pagination(
    currentPage: int,
    totalPages: int,
    totalItems: int,
    itemsPerPage: int,
    hasNext: bool,
    hasPrev: bool)

  /** The kind of a notification, which decides its colour. */
  datatype NotificationType = Success | Error | Warning | Info

  /** A notification; `duration` is the display time in milliseconds, if given. */
  datatype Notification = Notification(
    id: string,
    kind: NotificationType,
    title: string,
    message: string,
    duration: Option<int>)

  /** What a component hands to `onNotify`: a notification without its id. */
  datatype NotificationDraft = NotificationDraft(
    kind: NotificationType,
    title: string,
    message: string,
    duration: Option<int>)
}
