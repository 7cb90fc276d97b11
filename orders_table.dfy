/** The admin orders table (`OrdersTable` in src/components/OrdersTable.tsx): the loaded orders,
    the search filter, the status labels and the "not found" notice. The request for the orders is
    an input; rendering and date and number formatting are left out. */
module OrdersTable {
  import opened Wrappers
  import opened Seqs
  import opened Text

  /** An order as the admin service sends it. */
  datatype AdminOrder = AdminOrder(
    id: string,
    orderNumber: string,
    customerName: string,
    customerPhone: string,
    status: string,
    totalAmount: int,
    deliveryDate: string,
    deliveryAddress: string)

  /** `statusLabels`: the Russian label of each known status. */
  const StatusLabels: map<string, string> := map[
    "new" := "Новый",
    "confirmed" := "Подтвержден",
    "in_preparation" := "Готовится",
    "ready" := "Готов",
    "in_delivery" := "В доставке",
    "delivered" := "Доставлен",
    "cancelled" := "Отменен"]

  /** `statusLabels[status] || status`: the label of a known status (no label is empty), the raw
      status otherwise. */
  function StatusLabel(status: string): (r: string)
    ensures status in StatusLabels ==> r == StatusLabels[status] && r != ""
    ensures status !in StatusLabels ==> r == status
  {
    if status in StatusLabels && StatusLabels[status] != "" then StatusLabels[status] else status
  }

  /** Three statuses of the shop's own orders have no label and show raw. */
  lemma ShopStatusesShowRaw()
    ensures StatusLabel("pending") == "pending" && StatusLabel("preparing") == "preparing"
    ensures StatusLabel("delivering") == "delivering"
    ensures StatusLabel("delivered") == "Доставлен"
  {
    assert "pending" !in StatusLabels;
    assert "preparing" !in StatusLabels;
    assert "delivering" !in StatusLabels;
  }

  /** The search test: the order number or the customer name contains the query, both lower-cased,
      or the phone contains the query as typed. */
  predicate Matches(o: AdminOrder, query: string) {
    Contains(Lower(o.orderNumber), Lower(query)) || Contains(Lower(o.customerName), Lower(query))
    || Contains(o.customerPhone, query)
  }

  function MatchesQuery(query: string): AdminOrder -> bool {
    (o: AdminOrder) => Matches(o, query)
  }

  /** `filteredOrders`: the matching orders, in their order. */
  function FilteredOrders(orders: seq<AdminOrder>, query: string): (r: seq<AdminOrder>)
    ensures forall o :: o in r <==> o in orders && Matches(o, query)
    ensures IsSubsequence(r, orders)
  {
    FilterIsSubsequence(orders, MatchesQuery(query));
    Filter(orders, MatchesQuery(query))
  }

  /** An empty search keeps every order. */
  lemma EmptyQueryKeepsAll(orders: seq<AdminOrder>)
    ensures FilteredOrders(orders, "") == orders
  {
    forall o | o in orders
      ensures MatchesQuery("")(o)
    {
      ContainsEmpty(o.customerPhone);
    }
    FilterKeepsAll(orders, MatchesQuery(""));
  }

  /** A query of digits found in a phone finds that order, whatever case the other fields use. */
  lemma PhoneFound(orders: seq<AdminOrder>, o: AdminOrder, query: string)
    requires o in orders && Contains(o.customerPhone, query)
    ensures o in FilteredOrders(orders, query)
  {
  }

  /** The "not found" notice, shown once loading is over. */
  predicate NotFoundShown(loading: bool, orders: seq<AdminOrder>, query: string) {
    !loading && |FilteredOrders(orders, query)| == 0
  }

  /** The notice shows exactly when no loaded order matches. */
  lemma NotFoundIffNoMatch(orders: seq<AdminOrder>, query: string)
    ensures NotFoundShown(false, orders, query) <==> forall o :: o in orders ==> !Matches(o, query)
  {
    var r := FilteredOrders(orders, query);
    if r != [] {
      assert r[0] in r;
    }
  }

  /** How the orders request settles: it throws (network, or an unreadable body), or it gives a
      payload whose `orders` may be missing. */
  datatype OrdersOutcome = FetchFailed | Payload(success: bool, orders: Option<seq<AdminOrder>>)

  class OrdersView {
    var orders: seq<AdminOrder>
    var loading: bool

    constructor()
      ensures orders == [] && loading
    {
      orders := [];
      loading := true;
    }

    /** `fetchOrders`: a successful payload replaces the orders (missing ones count as none); any
        other outcome keeps them. Loading ends in every case. */
    method FetchOrders(outcome: OrdersOutcome)
      modifies this
      ensures outcome.Payload? && outcome.success ==> orders == outcome.orders.GetOr([])
      ensures !(outcome.Payload? && outcome.success) ==> orders == old(orders)
      ensures !loading
    {
      match outcome {
        case FetchFailed =>
        case Payload(success, received) =>
          if success {
            orders := received.GetOr([]);
          }
      }
      loading := false;
    }
  }
}
