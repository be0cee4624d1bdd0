/** The order history page of src/pages/OrderHistory.tsx: the search filter, the
    local list updates after paying and cancelling, the rule for the buttons of the
    details dialog, and the page state its handlers change. */
module OrderHistory {
  import opened Common
  import opened Seqs
  import opened Text
  import opened OrderService
  import AuthContext

  /** The text of a status as the page shows and searches it. */
  function StatusLabel(s: Status): string {
    match s
    case Pending => "pending"
    case Processing => "processing"
    case Delivered => "delivered"
    case Cancelled => "cancelled"
  }

  /** An order matches an already lower-cased query when the query occurs in its
      lower-cased fuel type, delivery address or status. */
  predicate Matches(o: Order, q: string) {
    Includes(Lower(o.fuelType), q) || Includes(Lower(o.deliveryAddress), q) || Includes(Lower(StatusLabel(o.status)), q)
  }

  function MatchesQuery(q: string): Order -> bool {
    (o: Order) => Matches(o, q)
  }

  /** The search effect: a blank query shows every order; any other query keeps, in
      order, the orders that match its lower-cased form. The query is lower-cased
      but not trimmed. */
  function SearchFilter(orders: seq<Order>, query: string): (r: seq<Order>)
    ensures IsBlank(query) ==> r == orders
    ensures !IsBlank(query) ==> forall o :: o in r <==> o in orders && Matches(o, Lower(query))
    ensures !IsBlank(query) ==> forall o :: multiset(r)[o] == if Matches(o, Lower(query)) then multiset(orders)[o] else 0
    ensures IsSubsequence(r, orders)
  {
    TrimEmptyIffBlank(query);
    if Trim(query) == "" then
      assert IsSubsequence(orders, orders) by { SubsequenceReflexive(orders); }
      orders
    else
      var q := Lower(query);
      assert forall o :: o in Filter(orders, MatchesQuery(q)) <==> o in orders && Matches(o, q) by {
        forall o ensures o in Filter(orders, MatchesQuery(q)) <==> o in orders && Matches(o, q) {
          FilterMembership(orders, MatchesQuery(q), o);
        }
      }
      assert forall o :: multiset(Filter(orders, MatchesQuery(q)))[o] == if Matches(o, q) then multiset(orders)[o] else 0 by {
        forall o ensures multiset(Filter(orders, MatchesQuery(q)))[o] == if Matches(o, q) then multiset(orders)[o] else 0 {
          FilterCount(orders, MatchesQuery(q), o);
        }
      }
      assert IsSubsequence(Filter(orders, MatchesQuery(q)), orders) by {
        FilterIsSubsequence(orders, MatchesQuery(q));
      }
      Filter(orders, MatchesQuery(q))
  }

  /** A query only of spaces shows the whole list. */
  lemma SpacesShowEverything(orders: seq<Order>)
    ensures SearchFilter(orders, "   ") == orders
  {
  }

  /** Searching is case-insensitive: "PETROL" finds a petrol order. */
  lemma UpperCaseQueryFindsPetrol(o: Order)
    requires o.fuelType == "petrol"
    ensures SearchFilter([o], "PETROL") == [o]
  {
    assert Lower("PETROL") == "petrol";
    assert StartsWith(Lower(o.fuelType), "petrol");
    assert [o][1..] == [];
  }

  // ---------------------------------------------------------------------------
  // The local list after a successful call

  /** What `handlePayment` writes into each order with the paid id. Unlike the
      service it leaves `updatedAt` alone. */
  function PaidLocally(o: Order): Order {
    o.(paymentStatus := Paid, status := Processing)
  }

  /** What `handleCancelOrder` writes into each order with the cancelled id. */
  function CancelledLocally(o: Order): Order {
    o.(status := Cancelled)
  }

  /** `orders.map(order => order.id === orderId ? change(order) : order)`. */
  function MapById(orders: seq<Order>, orderId: string, change: Order -> Order): (r: seq<Order>)
    ensures |r| == |orders|
    ensures forall k :: 0 <= k < |orders| && orders[k].id == orderId ==> r[k] == change(orders[k])
    ensures forall k :: 0 <= k < |orders| && orders[k].id != orderId ==> r[k] == orders[k]
  {
    if orders == [] then []
    else [if orders[0].id == orderId then change(orders[0]) else orders[0]] + MapById(orders[1..], orderId, change)
  }

  /** The list after a successful payment: exactly the orders with the id become paid
      and processing, with every other field and every other order as it was. */
  function AfterLocalPay(orders: seq<Order>, orderId: string): (r: seq<Order>)
    ensures |r| == |orders|
    ensures forall k :: 0 <= k < |orders| ==> (r[k].paymentStatus == Paid && r[k].status == Processing) || r[k] == orders[k]
    ensures forall k :: 0 <= k < |orders| && orders[k].id == orderId ==>
      r[k].paymentStatus == Paid && r[k].status == Processing
      && r[k].(paymentStatus := orders[k].paymentStatus, status := orders[k].status) == orders[k]
    ensures forall k :: 0 <= k < |orders| && orders[k].id != orderId ==> r[k] == orders[k]
  {
    MapById(orders, orderId, PaidLocally)
  }

  /** The list after a successful cancellation: exactly the orders with the id become
      cancelled, with every other field and every other order as it was. */
  function AfterLocalCancel(orders: seq<Order>, orderId: string): (r: seq<Order>)
    ensures |r| == |orders|
    ensures forall k :: 0 <= k < |orders| && orders[k].id == orderId ==>
      r[k].status == Cancelled && r[k].(status := orders[k].status) == orders[k]
    ensures forall k :: 0 <= k < |orders| && orders[k].id != orderId ==> r[k] == orders[k]
  {
    MapById(orders, orderId, CancelledLocally)
  }

  /** Applying a local update twice is applying it once. */
  lemma LocalUpdatesIdempotent(orders: seq<Order>, orderId: string)
    ensures AfterLocalPay(AfterLocalPay(orders, orderId), orderId) == AfterLocalPay(orders, orderId)
    ensures AfterLocalCancel(AfterLocalCancel(orders, orderId), orderId) == AfterLocalCancel(orders, orderId)
  {
  }

  /** The local update of a paid order equals the service's record except for `updatedAt`. */
  lemma LocalPayMirrorsService(orders: seq<Order>, orderId: string, userId: string, now: Timestamp)
    requires PayStep(orders, orderId, userId, now).result.Ok?
    ensures var o := PayStep(orders, orderId, userId, now).result.value;
      exists i :: IsFirstWithId(orders, orderId, i) && o == PaidLocally(orders[i]).(updatedAt := now)
  {
  }

  /** The same for a cancellation, which the page sends as a status update. */
  lemma LocalCancelMirrorsService(orders: seq<Order>, orderId: string, userId: string, now: Timestamp)
    requires UpdateStatusStep(orders, orderId, Cancelled, userId, now).result.Ok?
    ensures var o := UpdateStatusStep(orders, orderId, Cancelled, userId, now).result.value;
      exists i :: IsFirstWithId(orders, orderId, i) && o == CancelledLocally(orders[i]).(updatedAt := now)
  {
  }

  // ---------------------------------------------------------------------------
  // The buttons of the details dialog

  /** Which of the three footer groups the dialog renders. */
  datatype DialogFooter = DialogFooter(cancelAndPay: bool, cancelOnly: bool, close: bool)

  /** Each group has its own condition in the page; exactly one of them holds for
      every order. */
  function DialogActions(o: Order): (f: DialogFooter)
    ensures (if f.cancelAndPay then 1 else 0) + (if f.cancelOnly then 1 else 0) + (if f.close then 1 else 0) == 1
    ensures f.cancelAndPay <==> o.status == Pending && o.paymentStatus == Unpaid
    ensures f.cancelOnly <==> o.status == Pending && o.paymentStatus == Paid
    ensures f.close <==> o.status != Pending
  {
    DialogFooter(
      cancelAndPay := o.status == Pending && o.paymentStatus == Unpaid,
      cancelOnly := o.status == Pending && o.paymentStatus == Paid,
      close := o.status == Processing || o.status == Delivered || o.status == Cancelled)
  }

  predicate OffersPay(f: DialogFooter) {
    f.cancelAndPay
  }

  predicate OffersCancel(f: DialogFooter) {
    f.cancelAndPay || f.cancelOnly
  }

  /** Cancel is offered exactly for pending orders, Pay exactly for pending unpaid ones,
      and Close never beside either. */
  lemma DialogOffers(o: Order)
    ensures OffersCancel(DialogActions(o)) <==> o.status == Pending
    ensures OffersPay(DialogActions(o)) <==> o.status == Pending && o.paymentStatus == Unpaid
    ensures DialogActions(o).close ==> !OffersCancel(DialogActions(o)) && !OffersPay(DialogActions(o))
  {
  }

  /** After a local payment or cancellation the dialog of that order offers only Close. */
  lemma LocalUpdatesOnlyClose(o: Order)
    ensures DialogActions(PaidLocally(o)) == DialogFooter(false, false, true)
    ensures DialogActions(CancelledLocally(o)) == DialogFooter(false, false, true)
  {
  }

  /** The selected order after a local update: changed only when it has the id. */
  function Reselect(selected: Option<Order>, orderId: string, change: Order -> Order): (r: Option<Order>)
    ensures r.Some? <==> selected.Some?
    ensures selected.Some? && selected.value.id != orderId ==> r == selected
    ensures selected.Some? && selected.value.id == orderId ==> r == Some(change(selected.value))
  {
    if selected.Some? && selected.value.id == orderId then Some(change(selected.value)) else selected
  }

  // ---------------------------------------------------------------------------
  // The page state

  /** The state variables of the page and the order service it calls. */
  class OrderHistoryPage {
    const service: OrderStore
    var orders: seq<Order>
    var filteredOrders: seq<Order>
    var loading: bool
    var searchQuery: string
    var selectedOrder: Option<Order>
    var isDetailsOpen: bool
    var isPaymentProcessing: bool
    var isCancelling: bool

    constructor (service: OrderStore)
      ensures this.service == service
      ensures orders == [] && filteredOrders == [] && loading && searchQuery == []
      ensures selectedOrder.None? && !isDetailsOpen && !isPaymentProcessing && !isCancelling
    {
      this.service := service;
      orders := [];
      filteredOrders := [];
      loading := true;
      searchQuery := [];
      selectedOrder := None;
      isDetailsOpen := false;
      isPaymentProcessing := false;
      isCancelling := false;
    }

    /** The search effect, which React runs after every change of `searchQuery` or `orders`. */
    method ApplySearch()
      modifies this`filteredOrders
      ensures filteredOrders == SearchFilter(orders, searchQuery)
    {
      if Trim(searchQuery) == "" {
        filteredOrders := orders;
        return;
      }
      var lowerCaseQuery := Lower(searchQuery);
      filteredOrders := Filter(orders, MatchesQuery(lowerCaseQuery));
    }

    /** Typing into the search box. */
    method SetSearchQuery(query: string)
      modifies this`searchQuery, this`filteredOrders
      ensures searchQuery == query && filteredOrders == SearchFilter(orders, query)
    {
      searchQuery := query;
      ApplySearch();
    }

    /** The fetch effect: without a user nothing happens and the page keeps loading. */
    method FetchOrders(currentUser: Option<AuthContext.User>)
      modifies this`orders, this`filteredOrders, this`loading
      ensures currentUser.None? ==> unchanged(this)
      ensures currentUser.Some? ==>
        && orders == UserOrders(service.orders, currentUser.value.id)
        && filteredOrders == SearchFilter(orders, searchQuery)
        && !loading
    {
      if currentUser.None? {
        return;
      }
      loading := true;
      var userOrders := service.GetUserOrders(currentUser.value.id);
      orders := userOrders;
      filteredOrders := userOrders;
      ApplySearch();
      loading := false;
    }

    method ViewDetails(order: Order)
      modifies this`selectedOrder, this`isDetailsOpen
      ensures selectedOrder == Some(order) && isDetailsOpen
    {
      selectedOrder := Some(order);
      isDetailsOpen := true;
    }

    /** The page state once the service call has returned: every order with the id
        is rewritten through `change` in the list and in the selection, the dialog
        closes, and the search effect runs on the new list. */
    method ShowLocalUpdate(orderId: string, change: Order -> Order)
      modifies this`orders, this`filteredOrders, this`selectedOrder, this`isDetailsOpen
      ensures orders == MapById(old(orders), orderId, change)
      ensures filteredOrders == SearchFilter(orders, searchQuery)
      ensures selectedOrder == Reselect(old(selectedOrder), orderId, change)
      ensures !isDetailsOpen
    {
      var updatedOrders := MapById(orders, orderId, change);
      orders := updatedOrders;
      filteredOrders := updatedOrders;
      if selectedOrder.Some? && selectedOrder.value.id == orderId {
        selectedOrder := Some(change(selectedOrder.value));
      }
      isDetailsOpen := false;
      ApplySearch();
    }

    /** `handlePayment`. The local list changes only after the service call returns;
        when it fails the page keeps its list, selection and dialog. */
    method HandlePayment(currentUser: Option<AuthContext.User>, orderId: string, now: Timestamp)
      modifies this`orders, this`filteredOrders, this`selectedOrder, this`isDetailsOpen, this`isPaymentProcessing, service
      ensures currentUser.None? ==> unchanged(this) && unchanged(service)
      ensures currentUser.Some? ==>
        var step := PayStep(old(service.orders), orderId, currentUser.value.id, now);
        && service.orders == step.orders
        && !isPaymentProcessing
        && (step.result.Ok? ==>
              && orders == AfterLocalPay(old(orders), orderId)
              && filteredOrders == SearchFilter(orders, searchQuery)
              && selectedOrder == Reselect(old(selectedOrder), orderId, PaidLocally)
              && !isDetailsOpen)
        && (step.result.Err? ==>
              && orders == old(orders) && filteredOrders == old(filteredOrders)
              && selectedOrder == old(selectedOrder) && isDetailsOpen == old(isDetailsOpen))
    {
      if currentUser.None? {
        return;
      }
      isPaymentProcessing := true;
      ghost var step := PayStep(service.orders, orderId, currentUser.value.id, now);
      var paid := service.PayForOrder(orderId, currentUser.value.id, now);
      assert paid == step.result && service.orders == step.orders;
      if paid.Ok? {
        ShowLocalUpdate(orderId, PaidLocally);
      }
      isPaymentProcessing := false;
    }

    /** `handleCancelOrder`, which asks the service to set the status to cancelled. */
    method HandleCancelOrder(currentUser: Option<AuthContext.User>, orderId: string, now: Timestamp)
      modifies this`orders, this`filteredOrders, this`selectedOrder, this`isDetailsOpen, this`isCancelling, service
      ensures currentUser.None? ==> unchanged(this) && unchanged(service)
      ensures currentUser.Some? ==>
        var step := UpdateStatusStep(old(service.orders), orderId, Cancelled, currentUser.value.id, now);
        && service.orders == step.orders
        && !isCancelling
        && (step.result.Ok? ==>
              && orders == AfterLocalCancel(old(orders), orderId)
              && filteredOrders == SearchFilter(orders, searchQuery)
              && selectedOrder == Reselect(old(selectedOrder), orderId, CancelledLocally)
              && !isDetailsOpen)
        && (step.result.Err? ==>
              && orders == old(orders) && filteredOrders == old(filteredOrders)
              && selectedOrder == old(selectedOrder) && isDetailsOpen == old(isDetailsOpen))
    {
      if currentUser.None? {
        return;
      }
      isCancelling := true;
      ghost var step := UpdateStatusStep(service.orders, orderId, Cancelled, currentUser.value.id, now);
      var cancelled := service.UpdateOrderStatus(orderId, Cancelled, currentUser.value.id, now);
      assert cancelled == step.result && service.orders == step.orders;
      if cancelled.Ok? {
        ShowLocalUpdate(orderId, CancelledLocally);
      }
      isCancelling := false;
    }
  }
}
