/** The order service of src/services/orderService.ts: the price table, the order
    record, the pure rules behind each operation, and the order store whose
    operations follow them. */
module OrderService {
  import opened Common
  import opened Seqs

  datatype Status = Pending | Processing | Delivered | Cancelled

  datatype PaymentStatus = Unpaid | Paid

  /** `FuelOrder`. Money is in hundredths (cents); quantity is whole litres. */
  datatype Order = Order(
    id: string,
    userId: string,
    fuelType: string,
    quantity: int,
    totalPrice: int,
    deliveryAddress: string,
    status: Status,
    paymentStatus: PaymentStatus,
    createdAt: Timestamp,
    updatedAt: Timestamp)

  /** `CreateOrderData`: what a caller supplies for a new order. */
  datatype CreateOrderData = CreateOrderData(userId: string, fuelType: string, quantity: int, deliveryAddress: string)

  datatype OrderError = OrderNotFound | Unauthorized

  /** The message of the error the service throws. */
  function ErrorMessage(e: OrderError): (m: string)
    ensures m != ""
  {
    match e
    case OrderNotFound => "Order not found"
    case Unauthorized => "Unauthorized: This order belongs to another user"
  }

  /** The catch blocks of `updateOrderStatus` and `payForOrder` show the thrown
      message, never their fallback, and the two errors read differently. */
  lemma ErrorToastShowsMessage(e: OrderError, other: OrderError)
    ensures ToastText(ErrorMessage(e), "Failed to update order") == ErrorMessage(e)
    ensures ToastText(ErrorMessage(e), "Payment failed") == ErrorMessage(e)
    ensures e != other ==> ErrorMessage(e) != ErrorMessage(other)
  {
  }

  // ---------------------------------------------------------------------------
  // Pricing

  /** The price-per-litre table, in cents. */
  const PricePerLitre: map<string, nat> := map["petrol" := 150, "diesel" := 130, "premium" := 180]

  /** The price used for a fuel type the table does not name. */
  const DefaultPrice: nat := 150

  /** The price per litre of a fuel type: the table entry, or the default for any
      other fuel type. */
  function UnitPrice(fuelType: string): (cents: nat)
    ensures fuelType == "petrol" ==> cents == 150
    ensures fuelType == "diesel" ==> cents == 130
    ensures fuelType == "premium" ==> cents == 180
    ensures fuelType != "petrol" && fuelType != "diesel" && fuelType != "premium" ==> cents == 150
  {
    if fuelType in PricePerLitre && PricePerLitre[fuelType] != 0 then PricePerLitre[fuelType] else DefaultPrice
  }

  /** `calculatePrice` with the fallback for unknown fuel types applied to every
      name outside the table. For whole litres the product in cents is exact, so
      rounding to two decimals leaves it unchanged. */
  function CalculatePrice(fuelType: string, quantity: int): (cents: int)
    ensures quantity >= 0 ==> cents >= 0
    ensures fuelType !in PricePerLitre ==> cents == DefaultPrice * quantity
  {
    UnitPrice(fuelType) * quantity
  }

  /** The 10-litre petrol order costs 15.00. */
  lemma TenLitresOfPetrol()
    ensures CalculatePrice("petrol", 10) == 1500
  {
  }

  /** A fuel type outside the table is priced exactly like petrol. */
  lemma UnknownFuelPricedAsPetrol(fuelType: string, quantity: int)
    requires fuelType !in PricePerLitre
    ensures CalculatePrice(fuelType, quantity) == CalculatePrice("petrol", quantity)
  {
  }

  // The price lookup as the source writes it. `pricePerLiter[fuelType]` is a
  // property lookup on a plain object, so a key the object inherits from
  // Object.prototype finds a function or an object, which is truthy: the
  // `|| 1.5` fallback is skipped and the product is NaN.

  /** Names every plain JavaScript object inherits from Object.prototype. */
  const InheritedKeys: set<string> := {
    "constructor", "__proto__", "toString", "toLocaleString", "valueOf", "hasOwnProperty",
    "isPrototypeOf", "propertyIsEnumerable", "__defineGetter__", "__defineSetter__",
    "__lookupGetter__", "__lookupSetter__"}

  /** A JavaScript number as far as the price computation can produce one. */
  datatype JsNumber = Finite(cents: int) | NaN

  function CalculatePriceAsWritten(fuelType: string, quantity: int): (r: JsNumber)
    ensures fuelType in InheritedKeys ==> r == NaN
  {
    if fuelType in PricePerLitre then Finite(PricePerLitre[fuelType] * quantity)
    else if fuelType in InheritedKeys then NaN
    else Finite(DefaultPrice * quantity)
  }

  /** The fuel type "constructor" gets the price NaN instead of the default. */
  lemma ConstructorFuelIsNaN()
    ensures CalculatePriceAsWritten("constructor", 10) == NaN
    ensures CalculatePrice("constructor", 10) == 1500
  {
  }

  /** Outside the inherited names the code as written and the corrected price agree. */
  lemma AsWrittenAgreesElsewhere(fuelType: string, quantity: int)
    requires fuelType !in InheritedKeys
    ensures CalculatePriceAsWritten(fuelType, quantity) == Finite(CalculatePrice(fuelType, quantity))
  {
  }

  // ---------------------------------------------------------------------------
  // Creating an order

  /** The order `createOrder` builds; `id` and the two clock readings are supplied
      by the caller in place of `Date.now()`, `Math.random()` and `new Date()`. */
  function NewOrder(data: CreateOrderData, id: string, createdAt: Timestamp, updatedAt: Timestamp): (o: Order)
    ensures o.status == Pending && o.paymentStatus == Unpaid
    ensures o.userId == data.userId && o.fuelType == data.fuelType
    ensures o.quantity == data.quantity && o.deliveryAddress == data.deliveryAddress
    ensures o.totalPrice == CalculatePrice(data.fuelType, data.quantity)
    ensures o.id == id && o.createdAt == createdAt && o.updatedAt == updatedAt
  {
    Order(id, data.userId, data.fuelType, data.quantity, CalculatePrice(data.fuelType, data.quantity),
          data.deliveryAddress, Pending, Unpaid, createdAt, updatedAt)
  }

  // ---------------------------------------------------------------------------
  // Listing a user's orders

  function OwnedBy(userId: string): Order -> bool {
    (o: Order) => o.userId == userId
  }

  /** Newest first: `createdAt` never increases along the sequence. */
  predicate NewestFirst(s: seq<Order>) {
    forall j, k :: 0 <= j < k < |s| ==> s[j].createdAt >= s[k].createdAt
  }

  /** Newest first stays true when the new head is at least as new as the old one. */
  lemma PrependNewest(x: Order, s: seq<Order>)
    requires NewestFirst(s)
    requires s != [] ==> x.createdAt >= s[0].createdAt
    ensures NewestFirst([x] + s)
  {
    var r := [x] + s;
    forall j, k | 0 <= j < k < |r| ensures r[j].createdAt >= r[k].createdAt {
      if j == 0 {
        assert r[k] == s[k - 1];
      } else {
        assert r[j] == s[j - 1] && r[k] == s[k - 1];
      }
    }
  }

  /** Puts `o` in front of the first element that is not newer than it. */
  function InsertNewestFirst(o: Order, s: seq<Order>): (r: seq<Order>)
    requires NewestFirst(s)
    ensures NewestFirst(r)
    ensures multiset(r) == multiset(s) + multiset{o}
    ensures |r| == |s| + 1 && (r[0] == o || (s != [] && r[0] == s[0]))
  {
    if s == [] then [o]
    else if o.createdAt >= s[0].createdAt then
      PrependNewest(o, s);
      [o] + s
    else
      var rest := InsertNewestFirst(o, s[1..]);
      assert s == [s[0]] + s[1..];
      PrependNewest(s[0], rest);
      [s[0]] + rest
  }

  /** The comparator `b.createdAt - a.createdAt` of `Array.prototype.sort`, which
      is stable; insertion keeps orders with equal timestamps in stored order. */
  function SortNewestFirst(s: seq<Order>): (r: seq<Order>)
    ensures NewestFirst(r)
    ensures multiset(r) == multiset(s)
  {
    if s == [] then []
    else
      assert s == [s[0]] + s[1..];
      InsertNewestFirst(s[0], SortNewestFirst(s[1..]))
  }

  /** Sequences with the same multiset have the same members. */
  lemma SameMembers(a: seq<Order>, b: seq<Order>)
    requires multiset(a) == multiset(b)
    ensures forall x :: x in a <==> x in b
  {
    forall x ensures x in a <==> x in b {
      assert x in a <==> x in multiset(a);
      assert x in b <==> x in multiset(b);
    }
  }

  /** `getUserOrders`: the stored orders of `userId`, newest first. */
  function UserOrders(orders: seq<Order>, userId: string): (r: seq<Order>)
    ensures NewestFirst(r)
    ensures multiset(r) == multiset(Filter(orders, OwnedBy(userId)))
    ensures forall o :: o in r <==> o in orders && o.userId == userId
  {
    var mine := Filter(orders, OwnedBy(userId));
    var r := SortNewestFirst(mine);
    SameMembers(r, mine);
    assert forall o :: o in mine <==> o in orders && o.userId == userId by {
      forall o ensures o in mine <==> o in orders && o.userId == userId {
        FilterMembership(orders, OwnedBy(userId), o);
      }
    }
    r
  }

  /** Each stored order of `userId` appears in the listing as often as it is stored. */
  lemma UserOrdersCount(orders: seq<Order>, userId: string, o: Order)
    ensures multiset(UserOrders(orders, userId))[o] == if o.userId == userId then multiset(orders)[o] else 0
  {
    FilterCount(orders, OwnedBy(userId), o);
  }

  /** Two users each place one order: each user's listing holds that user's order only. */
  lemma TwoUsersSeparate(a: Order, b: Order)
    requires a.userId != b.userId
    ensures UserOrders([a, b], a.userId) == [a]
    ensures UserOrders([a, b], b.userId) == [b]
  {
    assert [a, b][1..] == [b];
    assert [b][1..] == [];
    assert Filter([a, b], OwnedBy(a.userId)) == [a];
    assert Filter([a, b], OwnedBy(b.userId)) == [b];
    assert SortNewestFirst([a]) == [a];
    assert SortNewestFirst([b]) == [b];
  }

  // ---------------------------------------------------------------------------
  // Changing an order

  function HasId(orderId: string): Order -> bool {
    (o: Order) => o.id == orderId
  }

  /** `i` is the slot `findIndex` picks: the first order with this id. */
  predicate IsFirstWithId(orders: seq<Order>, orderId: string, i: int) {
    0 <= i < |orders| && orders[i].id == orderId && forall k :: 0 <= k < i ==> orders[k].id != orderId
  }

  /** The checks both `updateOrderStatus` and `payForOrder` make before writing:
      find the first order with the id, then compare its owner with the caller. */
  function Authorize(orders: seq<Order>, orderId: string, userId: string): (r: Result<nat, OrderError>)
    ensures r == Err(OrderNotFound) <==> forall k :: 0 <= k < |orders| ==> orders[k].id != orderId
    ensures r == Err(Unauthorized) <==> exists i :: IsFirstWithId(orders, orderId, i) && orders[i].userId != userId
    ensures r.Ok? <==> exists i :: IsFirstWithId(orders, orderId, i) && orders[i].userId == userId
    ensures r.Ok? ==> IsFirstWithId(orders, orderId, r.value) && orders[r.value].userId == userId
  {
    match FirstIndex(orders, HasId(orderId))
    case None => Err(OrderNotFound)
    case Some(i) =>
      assert IsFirstWithId(orders, orderId, i);
      assert forall j :: IsFirstWithId(orders, orderId, j) ==> j == i;
      if orders[i].userId != userId then Err(Unauthorized) else Ok(i)
  }

  /** What an operation returns together with the order collection it leaves behind. */
  datatype Reply = Reply(result: Result<Order, OrderError>, orders: seq<Order>)

  /** Rewrites the first order with `orderId` through `change` when `userId` owns it;
      otherwise fails and leaves the collection as it was. */
  function ChangeOwned(orders: seq<Order>, orderId: string, userId: string, change: Order -> Order): (r: Reply)
    ensures r.result == Err(OrderNotFound) <==> forall k :: 0 <= k < |orders| ==> orders[k].id != orderId
    ensures r.result == Err(Unauthorized) <==> exists i :: IsFirstWithId(orders, orderId, i) && orders[i].userId != userId
    ensures r.result.Err? ==> r.orders == orders
    ensures |r.orders| == |orders|
    ensures r.result.Ok? ==>
      var i := Authorize(orders, orderId, userId).value;
      && r.result.value == change(orders[i])
      && r.orders[i] == r.result.value
      && forall k :: 0 <= k < |orders| && k != i ==> r.orders[k] == orders[k]
  {
    match Authorize(orders, orderId, userId)
    case Err(e) => Reply(Err(e), orders)
    case Ok(i) => Reply(Ok(change(orders[i])), orders[i := change(orders[i])])
  }

  function SetStatus(status: Status, now: Timestamp): Order -> Order {
    (o: Order) => o.(status := status, updatedAt := now)
  }

  function MarkPaid(now: Timestamp): Order -> Order {
    (o: Order) => o.(paymentStatus := Paid, status := Processing, updatedAt := now)
  }

  /** `updateOrderStatus`: the owned order gets the new status and timestamp, every
      other field as before. */
  function UpdateStatusStep(orders: seq<Order>, orderId: string, status: Status, userId: string, now: Timestamp): (r: Reply)
    ensures r.result.Ok? ==> r.result.value.status == status && r.result.value.updatedAt == now
    ensures r.result.Ok? ==> exists i :: (IsFirstWithId(orders, orderId, i) && orders[i].userId == userId
      && r.result.value == orders[i].(status := status, updatedAt := now) && r.orders == orders[i := r.result.value])
  {
    var r := ChangeOwned(orders, orderId, userId, SetStatus(status, now));
    if r.result.Ok? then
      var i := Authorize(orders, orderId, userId).value;
      assert r.orders == orders[i := r.result.value];
      r
    else r
  }

  /** `payForOrder`: the owned order becomes paid and processing whatever its status
      was, every other field as before. */
  function PayStep(orders: seq<Order>, orderId: string, userId: string, now: Timestamp): (r: Reply)
    ensures r.result.Ok? ==> r.result.value.paymentStatus == Paid && r.result.value.status == Processing
    ensures r.result.Ok? ==> exists i :: (IsFirstWithId(orders, orderId, i) && orders[i].userId == userId
      && r.result.value == orders[i].(paymentStatus := Paid, status := Processing, updatedAt := now)
      && r.orders == orders[i := r.result.value])
  {
    var r := ChangeOwned(orders, orderId, userId, MarkPaid(now));
    if r.result.Ok? then
      var i := Authorize(orders, orderId, userId).value;
      assert r.orders == orders[i := r.result.value];
      r
    else r
  }

  /** Nothing guards terminal states: paying for a cancelled order reopens it as processing. */
  lemma PayReopensCancelled(o: Order, now: Timestamp)
    requires o.status == Cancelled
    ensures PayStep([o], o.id, o.userId, now).result == Ok(o.(paymentStatus := Paid, status := Processing, updatedAt := now))
  {
  }

  // ---------------------------------------------------------------------------
  // How the operations affect the per-user listings

  /** A new order shows up in its owner's listing. */
  lemma CreateShowsToOwner(orders: seq<Order>, o: Order)
    ensures o in UserOrders(orders + [o], o.userId)
  {
    assert (orders + [o])[|orders|] == o;
  }

  /** A new order leaves every other user's listing as it was. */
  lemma {:induction false} CreateHiddenFromOthers(orders: seq<Order>, o: Order, userId: string)
    requires userId != o.userId
    ensures UserOrders(orders + [o], userId) == UserOrders(orders, userId)
  {
    var p := OwnedBy(userId);
    FilterAppend(orders, [o], p);
    assert [o][1..] == [];
    assert Filter([o], p) == [];
    assert Filter(orders + [o], p) == Filter(orders, p);
  }

  /** Changing one order of `owner` never changes what another user sees. */
  lemma {:induction false} ChangeHiddenFromOthers(orders: seq<Order>, orderId: string, owner: string,
                                                  change: Order -> Order, userId: string)
    requires forall o :: change(o).userId == o.userId
    requires userId != owner
    ensures UserOrders(ChangeOwned(orders, orderId, owner, change).orders, userId) == UserOrders(orders, userId)
  {
    var a := Authorize(orders, orderId, owner);
    if a.Ok? {
      FilterUpdateRejected(orders, a.value, change(orders[a.value]), OwnedBy(userId));
    }
  }

  /** Neither a status update nor a payment of one user's order reaches another user's listing. */
  lemma UpdatesHiddenFromOthers(orders: seq<Order>, orderId: string, owner: string, status: Status,
                                now: Timestamp, userId: string)
    requires userId != owner
    ensures UserOrders(UpdateStatusStep(orders, orderId, status, owner, now).orders, userId) == UserOrders(orders, userId)
    ensures UserOrders(PayStep(orders, orderId, owner, now).orders, userId) == UserOrders(orders, userId)
  {
    ChangeHiddenFromOthers(orders, orderId, owner, SetStatus(status, now), userId);
    ChangeHiddenFromOthers(orders, orderId, owner, MarkPaid(now), userId);
  }

  // ---------------------------------------------------------------------------
  // The store

  /** The `fuelOrders` slot of local storage. Each operation reads the whole
      collection (`getOrders`), works on that copy and writes it back whole
      (`saveOrders`); a failing operation never writes. */
  class OrderStore {
    var orders: seq<Order>

    /** A store holding what the slot already contains. */
    constructor (saved: seq<Order>)
      ensures orders == saved
    {
      orders := saved;
    }

    /** `createOrder`. */
    method CreateOrder(data: CreateOrderData, id: string, createdAt: Timestamp, updatedAt: Timestamp)
      returns (o: Order)
      modifies this
      ensures o == NewOrder(data, id, createdAt, updatedAt)
      ensures orders == old(orders) + [o]
    {
      var totalPrice := CalculatePrice(data.fuelType, data.quantity);
      o := Order(id, data.userId, data.fuelType, data.quantity, totalPrice, data.deliveryAddress,
                 Pending, Unpaid, createdAt, updatedAt);
      var loaded := orders;
      loaded := loaded + [o];
      orders := loaded;
    }

    /** `getUserOrders`. */
    method GetUserOrders(userId: string) returns (r: seq<Order>)
      ensures r == UserOrders(orders, userId)
    {
      var loaded := orders;
      r := SortNewestFirst(Filter(loaded, OwnedBy(userId)));
    }

    /** `updateOrderStatus`. */
    method UpdateOrderStatus(orderId: string, status: Status, userId: string, now: Timestamp)
      returns (r: Result<Order, OrderError>)
      modifies this
      ensures Reply(r, orders) == UpdateStatusStep(old(orders), orderId, status, userId, now)
    {
      var loaded := orders;
      var index := FirstIndex(loaded, HasId(orderId));
      if index.None? {
        return Err(OrderNotFound);
      }
      var i := index.value;
      if loaded[i].userId != userId {
        return Err(Unauthorized);
      }
      loaded := loaded[i := loaded[i].(status := status, updatedAt := now)];
      orders := loaded;
      r := Ok(loaded[i]);
    }

    /** `payForOrder`. */
    method PayForOrder(orderId: string, userId: string, now: Timestamp)
      returns (r: Result<Order, OrderError>)
      modifies this
      ensures Reply(r, orders) == PayStep(old(orders), orderId, userId, now)
    {
      var loaded := orders;
      var index := FirstIndex(loaded, HasId(orderId));
      if index.None? {
        return Err(OrderNotFound);
      }
      var i := index.value;
      if loaded[i].userId != userId {
        return Err(Unauthorized);
      }
      loaded := loaded[i := loaded[i].(paymentStatus := Paid, status := Processing, updatedAt := now)];
      orders := loaded;
      r := Ok(loaded[i]);
    }
  }
}
