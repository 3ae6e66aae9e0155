/**
 * The application shell: which view the current page shows, and the list of
 * notifications that components raise through `onNotify`. A notification is
 * appended with the clock reading `Date.now()` as its id, and removed, later,
 * by that id; two notifications added in the same millisecond share it. The
 * id and the timer are inputs of the model: adding returns the delay after
 * which the shell removes the notification.
 */
module App {
  import opened Wrappers
  import opened Types

  // ---------------------------------------------------------------------------
  // Pages

  datatype Page = DashboardPage | ProductsPage | TransactionsPage | ReportsPage

  datatype View = DashboardView | ProductListView | TransactionListView | InventoryReportView

  function PageName(p: Page): string {
    match p
    case DashboardPage => "dashboard"
    case ProductsPage => "products"
    case TransactionsPage => "transactions"
    case ReportsPage => "reports"
  }

  /** `renderPage`: the view for the current page; any other value shows the dashboard. */
  function RenderPage(current: string): View {
    if current == "dashboard" then DashboardView
    else if current == "products" then ProductListView
    else if current == "transactions" then TransactionListView
    else if current == "reports" then InventoryReportView
    else DashboardView
  }

  /** Each page has its own view, and every view belongs to some page. */
  lemma PagesShowDistinctViews(p: Page, q: Page, v: View)
    ensures p != q ==> RenderPage(PageName(p)) != RenderPage(PageName(q))
    ensures exists r: Page :: RenderPage(PageName(r)) == v
  {
    match v
    case DashboardView => assert RenderPage(PageName(DashboardPage)) == v;
    case ProductListView => assert RenderPage(PageName(ProductsPage)) == v;
    case TransactionListView => assert RenderPage(PageName(TransactionsPage)) == v;
    case InventoryReportView => assert RenderPage(PageName(ReportsPage)) == v;
  }

  /** A value that names no page falls back to the dashboard. */
  lemma UnknownPageShowsDashboard(current: string)
    requires forall p: Page :: PageName(p) != current
    ensures RenderPage(current) == DashboardView
  {
    assert PageName(DashboardPage) != current;
    assert PageName(ProductsPage) != current;
    assert PageName(TransactionsPage) != current;
    assert PageName(ReportsPage) != current;
  }

  // ---------------------------------------------------------------------------
  // Notifications

  const DefaultDuration: int := 5000

  /** `notification.duration || 5000`: a missing or zero duration gives the default. */
  function AutoDismissDelay(duration: Option<int>): (ms: int)
    ensures ms != 0
    ensures duration == None || duration == Some(0) ==> ms == DefaultDuration
    ensures duration.Some? && duration.value != 0 ==> ms == duration.value
  {
    match duration
    case Some(d) => if d != 0 then d else DefaultDuration
    case None => DefaultDuration
  }

  /** `{ ...notification, id }`. */
  function WithId(d: NotificationDraft, id: string): (n: Notification)
    ensures n.id == id && n.kind == d.kind && n.title == d.title
    ensures n.message == d.message && n.duration == d.duration
  {
    Notification(id, d.kind, d.title, d.message, d.duration)
  }

  /** `prev.filter((n) => n.id !== id)`. */
  function Without(xs: seq<Notification>, id: string): (r: seq<Notification>)
    ensures |r| <= |xs|
    ensures forall n :: n in r ==> n in xs && n.id != id
  {
    if |xs| == 0 then []
    else (if xs[0].id != id then [xs[0]] else []) + Without(xs[1..], id)
  }

  /** Every notification with another id survives a removal. */
  lemma {:induction false} WithoutKeepsOthers(xs: seq<Notification>, id: string, n: Notification)
    requires n in xs && n.id != id
    ensures n in Without(xs, id)
  {
    if xs[0] != n {
      WithoutKeepsOthers(xs[1..], id, n);
    }
  }

  /** Removal works on each part of the list separately: the survivors keep their order. */
  lemma {:induction false} WithoutAppend(xs: seq<Notification>, ys: seq<Notification>, id: string)
    ensures Without(xs + ys, id) == Without(xs, id) + Without(ys, id)
  {
    if |xs| == 0 {
      assert xs + ys == ys;
    } else {
      assert (xs + ys)[0] == xs[0] && (xs + ys)[1..] == xs[1..] + ys;
      WithoutAppend(xs[1..], ys, id);
    }
  }

  /** Removing an id no notification has leaves the list as it is. */
  lemma {:induction false} WithoutAbsent(xs: seq<Notification>, id: string)
    requires forall i :: 0 <= i < |xs| ==> xs[i].id != id
    ensures Without(xs, id) == xs
  {
    if |xs| > 0 {
      assert forall i :: 0 <= i < |xs[1..]| ==> xs[1..][i] == xs[i + 1];
      WithoutAbsent(xs[1..], id);
      assert [xs[0]] + xs[1..] == xs;
    }
  }

  /** Removing twice is removing once. */
  lemma WithoutIdempotent(xs: seq<Notification>, id: string)
    ensures Without(Without(xs, id), id) == Without(xs, id)
  {
    var r := Without(xs, id);
    forall i | 0 <= i < |r| ensures r[i].id != id {
      assert r[i] in r;
    }
    WithoutAbsent(r, id);
  }

  /** Removals by two ids can run in either order. */
  lemma {:induction false} WithoutCommutes(xs: seq<Notification>, a: string, b: string)
    ensures Without(Without(xs, a), b) == Without(Without(xs, b), a)
  {
    if |xs| > 0 {
      var head: seq<Notification> := [xs[0]];
      assert xs == head + xs[1..];
      WithoutAppend(head, xs[1..], a);
      WithoutAppend(head, xs[1..], b);
      WithoutAppend(Without(head, a), Without(xs[1..], a), b);
      WithoutAppend(Without(head, b), Without(xs[1..], b), a);
      WithoutCommutes(xs[1..], a, b);
    }
  }

  /**
   * The timer's removal undoes the addition when the new id was unused, and
   * also removes every older notification that happened to get the same id.
   */
  lemma AddThenRemove(xs: seq<Notification>, d: NotificationDraft, id: string)
    ensures Without(xs + [WithId(d, id)], id) == Without(xs, id)
    ensures (forall i :: 0 <= i < |xs| ==> xs[i].id != id) ==> Without(xs + [WithId(d, id)], id) == xs
  {
    WithoutAppend(xs, [WithId(d, id)], id);
    assert Without([WithId(d, id)], id) == [];
    assert Without(xs, id) + [] == Without(xs, id);
    if forall i :: 0 <= i < |xs| ==> xs[i].id != id {
      WithoutAbsent(xs, id);
    }
  }

  // ---------------------------------------------------------------------------
  // The component state

  class AppState {
    var currentPage: string
    var notifications: seq<Notification>

    constructor ()
      ensures currentPage == "dashboard" && notifications == []
    {
      currentPage := "dashboard";
      notifications := [];
    }

    /** `onPageChange`, as the navigation bar calls it. */
    method SetCurrentPage(page: string)
      modifies this
      ensures currentPage == page && notifications == old(notifications)
    {
      currentPage := page;
    }

    /**
     * `addNotification`: append the notification with the id `id`, and return
     * the delay after which the shell calls `RemoveNotification(id)`.
     */
    method AddNotification(d: NotificationDraft, id: string) returns (delay: int)
      modifies this
      ensures notifications == old(notifications) + [WithId(d, id)]
      ensures delay == AutoDismissDelay(d.duration)
      ensures currentPage == old(currentPage)
    {
      notifications := notifications + [Notification(id, d.kind, d.title, d.message, d.duration)];
      delay := if d.duration.Some? && d.duration.value != 0 then d.duration.value else DefaultDuration;
    }

    method RemoveNotification(id: string)
      modifies this
      ensures notifications == Without(old(notifications), id)
      ensures currentPage == old(currentPage)
    {
      notifications := Without(notifications, id);
    }
  }
}
