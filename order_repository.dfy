/** `OrderStore`: the queries of `OrderRepository` and the entity updates it
    performs, as functions over the table of orders. The table is a sequence;
    `FirstOrDefault` is the first match in sequence order. */
module OrderStore {
  import opened Common
  import opened Text
  import opened Orders
  import opened Dto
  import opened OrderMappers
  import opened OrderHelpers

  /** The index of the first order satisfying `p`, if there is one. */
  function FirstIndex(orders: seq<Order>, p: Order -> bool): (r: Option<nat>)
    ensures r.Some? ==> r.value < |orders| && p(orders[r.value])
    ensures r.Some? ==> forall j :: 0 <= j < r.value ==> !p(orders[j])
    ensures r.None? <==> forall j :: 0 <= j < |orders| ==> !p(orders[j])
  {
    if orders == [] then None
    else if p(orders[0]) then Some(0)
    else
      match FirstIndex(orders[1..], p)
      case None => None
      case Some(i) => Some(i + 1)
  }

  /** No two orders share an id and no two share an order number: the keys
      the database and `CreateOrderNumber` keep unique. */
  predicate UniqueKeys(orders: seq<Order>) {
    && (forall i, j :: 0 <= i < j < |orders| ==> orders[i].id != orders[j].id)
    && (forall i, j :: 0 <= i < j < |orders| ==> orders[i].orderNumber != orders[j].orderNumber)
  }

  /** Two tables with the same orders, ids, owners, numbers and items at every
      position; statuses, tracking numbers and dates may differ. */
  predicate SameShape(a: seq<Order>, b: seq<Order>) {
    && |a| == |b|
    && forall i :: 0 <= i < |a| ==>
         && a[i].id == b[i].id && a[i].userId == b[i].userId
         && a[i].orderNumber == b[i].orderNumber && a[i].items == b[i].items
  }

  /** `GetOrderByIdOrOrderNumber`: a given id is looked up alone and the
      number ignored; without an id a non-blank number is looked up; with
      neither there is no result. */
  function GetOrderByIdOrOrderNumber(orders: seq<Order>, orderId: Option<Guid>, orderNumber: Option<string>): (r: Option<nat>)
    ensures r.Some? ==> r.value < |orders|
    ensures orderId.Some? ==>
              && (r.Some? ==> orders[r.value].id == orderId.value
                              && forall j :: 0 <= j < r.value ==> orders[j].id != orderId.value)
              && (r.None? <==> forall j :: 0 <= j < |orders| ==> orders[j].id != orderId.value)
    ensures orderId.None? && !IsNullOrWhiteSpace(orderNumber) ==>
              && (r.Some? ==> orders[r.value].orderNumber == orderNumber.value
                              && forall j :: 0 <= j < r.value ==> orders[j].orderNumber != orderNumber.value)
              && (r.None? <==> forall j :: 0 <= j < |orders| ==> orders[j].orderNumber != orderNumber.value)
    ensures orderId.None? && IsNullOrWhiteSpace(orderNumber) ==> r.None?
  {
    if orderId.Some? then FirstIndex(orders, HasId(orderId.value))
    else if !IsNullOrWhiteSpace(orderNumber) then FirstIndex(orders, HasOrderNumber(orderNumber.value))
    else None
  }

  /** `CountItemsOrderById`: the item count of the first order with that id,
      or the "Orden no encontrada" error when there is none. */
  function CountItemsOrderById(orders: seq<Order>, id: Guid): (r: Result<nat>)
    ensures r.Err? <==> forall j :: 0 <= j < |orders| ==> orders[j].id != id
    ensures r.Err? ==> r.error == ItemsOrderNotFound
    ensures r.Ok? ==> exists k :: 0 <= k < |orders| && orders[k].id == id && r.value == |orders[k].items|
    ensures r.Ok? && UniqueKeys(orders) ==>
              forall k :: 0 <= k < |orders| && orders[k].id == id ==> r.value == |orders[k].items|
  {
    var k := FirstIndex(orders, HasId(id));
    if k.None? then Err(ItemsOrderNotFound) else Ok(|orders[k.value].items|)
  }

  /** The conditions of `GetOrderStateByIdentifier`: the id argument is
      compared with the owner's `UserId`, the number when it is not blank. */
  predicate StateQueryMatches(o: Order, id: Option<Guid>, orderNumber: Option<string>) {
    && (id.Some? ==> o.userId == id.value)
    && (!IsNullOrWhiteSpace(orderNumber) ==> o.orderNumber == orderNumber.value)
  }

  /** The status records of a list of orders, in order. */
  function ToOrderStateResponses(s: seq<Order>): (r: seq<ResponseOrderStateDto>)
    ensures |r| == |s|
    ensures forall k :: 0 <= k < |s| ==> r[k] == ToOrderStateResponse(s[k])
  {
    seq(|s|, k requires 0 <= k < |s| => ToOrderStateResponse(s[k]))
  }

  /** `GetOrderStateByIdentifier`: the status of every order that matches;
      "Sin Resultados" when none does. */
  function GetOrderStateByIdentifier(orders: seq<Order>, id: Option<Guid>, orderNumber: Option<string>): (r: Result<seq<ResponseOrderStateDto>>)
    ensures r.Err? ==> r.error == NoResults
    ensures r.Err? <==> forall o :: o in orders ==> !StateQueryMatches(o, id, orderNumber)
    ensures r.Ok? ==> forall v :: v in r.value <==>
              exists o :: o in orders && StateQueryMatches(o, id, orderNumber) && v == ToOrderStateResponse(o)
  {
    var q1 := if id.Some? then Where(orders, HasUserId(id.value)) else orders;
    var q2 := if !IsNullOrWhiteSpace(orderNumber) then Where(q1, HasOrderNumber(orderNumber.value)) else q1;
    assert forall o :: o in q2 <==> o in orders && StateQueryMatches(o, id, orderNumber);
    if q2 == [] then Err(NoResults)
    else
      assert q2[0] in q2;
      ResponsesIn(q2, ToOrderStateResponses(q2), ToOrderStateResponse);
      Ok(ToOrderStateResponses(q2))
  }

  /** The user history records of a list of orders, in order. */
  function ToUserResponses(s: seq<Order>): (r: seq<ResponseGetOrderUserDto>)
    ensures |r| == |s|
    ensures forall k :: 0 <= k < |s| ==> r[k] == ToGetOrderUserResponse(s[k])
  {
    seq(|s|, k requires 0 <= k < |s| => ToGetOrderUserResponse(s[k]))
  }

  /** The admin history records of a list of orders, in order. */
  function ToAdminResponses(s: seq<Order>): (r: seq<ResponseGetOrderAdminDto>)
    ensures |r| == |s|
    ensures forall k :: 0 <= k < |s| ==> r[k] == ToGetOrdersResponse(s[k])
  {
    seq(|s|, k requires 0 <= k < |s| => ToGetOrdersResponse(s[k]))
  }

  /** A list of records made pointwise from a list of orders holds exactly
      the records of its orders. */
  lemma ResponsesIn<T>(s: seq<Order>, r: seq<T>, f: Order -> T)
    requires |r| == |s| && forall k :: 0 <= k < |s| ==> r[k] == f(s[k])
    ensures forall v :: v in r <==> exists o :: o in s && v == f(o)
  {
    forall v | v in r ensures exists o :: o in s && v == f(o) {
      var k :| 0 <= k < |r| && r[k] == v;
      assert s[k] in s;
    }
    forall v | exists o :: o in s && v == f(o) ensures v in r {
      var o :| o in s && v == f(o);
      var k :| 0 <= k < |s| && s[k] == o;
      assert r[k] == v;
    }
  }

  /** The conditions of the user history query: the owner's id and those of
      `UserFilter`. */
  predicate UserHistoryMatches(o: Order, userId: Guid, orderId: Option<Guid>, orderNumber: Option<string>,
                               initialDate: Option<Date>, finishDate: Option<Date>) {
    o.userId == userId && UserMatches(o, orderId, orderNumber, initialDate, finishDate)
  }

  /** A range whose first day lies after its last day. */
  predicate InvertedRange(initialDate: Option<Date>, finishDate: Option<Date>) {
    initialDate.Some? && finishDate.Some? && initialDate.value > finishDate.value
  }

  /** `GetAllOrdersUser`: an inverted date range is refused before the query;
      otherwise the history records of the user's orders that pass every
      filter, or "Usuario sin pedidos" when there are none. */
  function GetAllOrdersUser(orders: seq<Order>, userId: Guid, orderId: Option<Guid>, orderNumber: Option<string>,
                            initialDate: Option<Date>, finishDate: Option<Date>): (r: Result<seq<ResponseGetOrderUserDto>>)
    ensures InvertedRange(initialDate, finishDate) ==> r == Err(InvalidDateRange)
    ensures !InvertedRange(initialDate, finishDate) ==>
              && (r.Err? ==> r.error == UserWithoutOrders)
              && (r.Err? <==> forall o :: o in orders ==>
                    !UserHistoryMatches(o, userId, orderId, orderNumber, initialDate, finishDate))
    ensures r.Ok? ==> forall v :: v in r.value <==>
              exists o :: o in orders && UserHistoryMatches(o, userId, orderId, orderNumber, initialDate, finishDate)
                          && v == ToGetOrderUserResponse(o)
  {
    if InvertedRange(initialDate, finishDate) then Err(InvalidDateRange)
    else
      var owned := Where(orders, HasUserId(userId));
      var q := UserFilter(owned, orderId, orderNumber, initialDate, finishDate);
      UserHistoryMembership(orders, userId, orderId, orderNumber, initialDate, finishDate);
      if q == [] then Err(UserWithoutOrders)
      else
        assert q[0] in q;
        ResponsesIn(q, ToUserResponses(q), ToGetOrderUserResponse);
        Ok(ToUserResponses(q))
  }

  lemma UserHistoryMembership(orders: seq<Order>, userId: Guid, orderId: Option<Guid>, orderNumber: Option<string>,
                              initialDate: Option<Date>, finishDate: Option<Date>)
    ensures forall o :: o in UserFilter(Where(orders, HasUserId(userId)), orderId, orderNumber, initialDate, finishDate)
                       <==> o in orders && UserHistoryMatches(o, userId, orderId, orderNumber, initialDate, finishDate)
  {
    forall o {
      UserFilterMembership(Where(orders, HasUserId(userId)), o, orderId, orderNumber, initialDate, finishDate);
    }
  }

  /** `GetAllOrdersAdmin`: an inverted date range is refused before the query;
      otherwise the admin records of the orders that pass every filter, or
      "Sin Resultados" when there are none. */
  function GetAllOrdersAdmin(orders: seq<Order>, userId: Option<Guid>, userName: Option<string>,
                             orderId: Option<Guid>, orderNumber: Option<string>,
                             initialDate: Option<Date>, finishDate: Option<Date>): (r: Result<seq<ResponseGetOrderAdminDto>>)
    ensures InvertedRange(initialDate, finishDate) ==> r == Err(InvalidDateRange)
    ensures !InvertedRange(initialDate, finishDate) ==>
              && (r.Err? ==> r.error == NoResults)
              && (r.Err? <==> forall o :: o in orders ==>
                    !AdminMatches(o, userId, userName, orderId, orderNumber, initialDate, finishDate))
    ensures r.Ok? ==> forall v :: v in r.value <==>
              exists o :: o in orders && AdminMatches(o, userId, userName, orderId, orderNumber, initialDate, finishDate)
                          && v == ToGetOrdersResponse(o)
  {
    if InvertedRange(initialDate, finishDate) then Err(InvalidDateRange)
    else
      var q := AdminFilter(orders, userId, userName, orderId, orderNumber, initialDate, finishDate);
      AdminFilterIsConjunction(orders, userId, userName, orderId, orderNumber, initialDate, finishDate);
      if q == [] then Err(NoResults)
      else
        assert q[0] in q;
        ResponsesIn(q, ToAdminResponses(q), ToGetOrdersResponse);
        Ok(ToAdminResponses(q))
  }

  /** The entity update of `ChangeStateOrder`: the requested status verbatim,
      today as the update date, and the tracking number replaced only by a
      non-blank one. Every other field is kept. */
  function WithNewState(o: Order, request: ChangeStateDto, today: Date): (r: Order)
    ensures r.orderStatus == request.orderStatus && r.updateAt == Some(today)
    ensures !IsNullOrWhiteSpace(request.trackingNumber) ==> r.trackingNumber == request.trackingNumber
    ensures IsNullOrWhiteSpace(request.trackingNumber) ==> r.trackingNumber == o.trackingNumber
    ensures r == o.(orderStatus := r.orderStatus, trackingNumber := r.trackingNumber, updateAt := r.updateAt)
  {
    var tracked := if !IsNullOrWhiteSpace(request.trackingNumber) then o.(trackingNumber := request.trackingNumber) else o;
    tracked.(orderStatus := request.orderStatus, updateAt := Some(today))
  }

  /** The current status plays no part in a change of state. */
  lemma WithNewStateIgnoresCurrentStatus(o: Order, current: string, request: ChangeStateDto, today: Date)
    ensures WithNewState(o.(orderStatus := current), request, today) == WithNewState(o, request, today)
  {
  }

  /** The guards and the entity update of `CancelateOrder`, checked in the
      source's order with exact-case comparisons. */
  function CancelOutcome(o: Order, today: Date): (r: Result<Order>)
    ensures o.orderStatus == Cancelado ==> r == Err(AlreadyCancelled)
    ensures o.orderStatus == Enviado ==> r == Err(AlreadyShipped)
    ensures o.orderStatus == Entregado ==> r == Err(AlreadyDelivered)
    ensures r.Ok? <==> o.orderStatus != Cancelado && o.orderStatus != Enviado && o.orderStatus != Entregado
    ensures r.Ok? ==> r.value == o.(orderStatus := Cancelado, updateAt := Some(today))
  {
    if o.orderStatus == Cancelado then Err(AlreadyCancelled)
    else if o.orderStatus == Enviado then Err(AlreadyShipped)
    else if o.orderStatus == Entregado then Err(AlreadyDelivered)
    else Ok(o.(orderStatus := Cancelado, updateAt := Some(today)))
  }

  /** `ChangeStateOrder` on the table: "Pedido no encontrado" and no change
      when the lookup fails; otherwise the found order, and only it, takes
      the new state, and the response shows it. */
  function ChangeStateOrder(orders: seq<Order>, orderId: Option<Guid>, orderNumber: Option<string>,
                            request: ChangeStateDto, today: Date): (r: (Result<ResponseChangeStateDto>, seq<Order>))
    ensures var k := GetOrderByIdOrOrderNumber(orders, orderId, orderNumber);
            && (k.None? ==> r == (Err(OrderNotFound), orders))
            && (k.Some? ==> && r.1 == orders[k.value := WithNewState(orders[k.value], request, today)]
                            && r.0 == Ok(ToChangeStateResponse(r.1[k.value])))
    ensures SameShape(orders, r.1)
  {
    var k := GetOrderByIdOrOrderNumber(orders, orderId, orderNumber);
    if k.None? then (Err(OrderNotFound), orders)
    else
      var updated := WithNewState(orders[k.value], request, today);
      (Ok(ToChangeStateResponse(updated)), orders[k.value := updated])
  }

  /** `CancelateOrder` on the table: "Pedido no encontrado" when the lookup
      fails, the guard's error when the status forbids it, and in both cases
      no change; otherwise the found order, and only it, is cancelled. */
  function CancelateOrder(orders: seq<Order>, orderId: Option<Guid>, orderNumber: Option<string>,
                          today: Date): (r: (Result<ResponseChangeStateDto>, seq<Order>))
    ensures var k := GetOrderByIdOrOrderNumber(orders, orderId, orderNumber);
            && (k.None? ==> r == (Err(OrderNotFound), orders))
            && (k.Some? && CancelOutcome(orders[k.value], today).Err? ==>
                  r == (Err(CancelOutcome(orders[k.value], today).error), orders))
            && (k.Some? && CancelOutcome(orders[k.value], today).Ok? ==>
                  && r.1 == orders[k.value := CancelOutcome(orders[k.value], today).value]
                  && r.0 == Ok(ToChangeStateResponse(r.1[k.value])))
    ensures r.0.Ok? ==> r.0.value.orderStatus == Cancelado
    ensures SameShape(orders, r.1)
  {
    var k := GetOrderByIdOrOrderNumber(orders, orderId, orderNumber);
    if k.None? then (Err(OrderNotFound), orders)
    else
      match CancelOutcome(orders[k.value], today)
      case Err(e) => (Err(e), orders)
      case Ok(cancelled) => (Ok(ToChangeStateResponse(cancelled)), orders[k.value := cancelled])
  }

  /** Updates that keep the shape of the table keep its keys unique. */
  lemma SameShapeKeepsUniqueKeys(a: seq<Order>, b: seq<Order>)
    requires SameShape(a, b) && UniqueKeys(a)
    ensures UniqueKeys(b)
  {
  }

  /** Lookups by id see the same positions in tables of the same shape. */
  lemma {:induction false} FirstIdSameShape(a: seq<Order>, b: seq<Order>, id: Guid)
    requires SameShape(a, b)
    ensures FirstIndex(a, HasId(id)) == FirstIndex(b, HasId(id))
  {
    if a != [] {
      assert SameShape(a[1..], b[1..]);
      FirstIdSameShape(a[1..], b[1..], id);
    }
  }

  /** Item counts are the same in tables of the same shape, so no change of
      state or cancellation alters them. */
  lemma CountItemsSameShape(a: seq<Order>, b: seq<Order>, id: Guid)
    requires SameShape(a, b)
    ensures CountItemsOrderById(a, id) == CountItemsOrderById(b, id)
  {
    FirstIdSameShape(a, b, id);
  }

  /** `GetOrderStateByIdentifier` compares its id with the owner's id: an
      order is not found by its own id unless that is also its owner's. */
  lemma StateQueryUsesOwnerId(o: Order)
    requires o.userId != o.id
    ensures GetOrderStateByIdentifier([o], Some(o.id), None) == Err(NoResults)
    ensures GetOrderStateByIdentifier([o], Some(o.userId), None) == Ok([ToOrderStateResponse(o)])
  {
    assert Where([o], HasUserId(o.userId)) == [o];
    assert ToOrderStateResponses([o]) == [ToOrderStateResponse(o)];
  }

  /** Allowed values of `random.Next(1000, 10000)`. */
  type Draw = n: int | 1000 <= n < 10000 witness 1000

  /** The decimal digit of `d`. */
  function DigitChar(d: int): char
    requires 0 <= d < 10
  {
    ('0' as int + d) as char
  }

  /** `$"CEN-{numberPart}"`: four decimal digits after the prefix, since the
      number has exactly four. */
  function OrderNumberOf(n: Draw): (r: string)
    ensures |r| == 8 && r[..4] == "CEN-"
    ensures forall i :: 4 <= i < 8 ==> '0' <= r[i] <= '9'
  {
    var n1 := n / 10;
    var n2 := n1 / 10;
    "CEN-" + [DigitChar(n2 / 10), DigitChar(n2 % 10), DigitChar(n1 % 10), DigitChar(n % 10)]
  }

  /** The value of a decimal digit. */
  function DigitValue(c: char): int
    requires '0' <= c <= '9'
  {
    c as int - '0' as int
  }

  /** Reads back the number of an order number of the form `CEN-dddd`. */
  function ParseOrderNumber(s: string): (r: Option<int>)
    ensures r.Some? ==> 0 <= r.value < 10000
  {
    if |s| == 8 && s[..4] == "CEN-" && forall i :: 4 <= i < 8 ==> '0' <= s[i] <= '9' then
      Some(DigitValue(s[4]) * 1000 + DigitValue(s[5]) * 100 + DigitValue(s[6]) * 10 + DigitValue(s[7]))
    else None
  }

  /** An order number gives back its number, so distinct draws give distinct
      order numbers. */
  lemma OrderNumberRoundTrip(n: Draw)
    ensures ParseOrderNumber(OrderNumberOf(n)) == Some(n)
  {
    var s := OrderNumberOf(n);
    var n1 := n / 10;
    var n2 := n1 / 10;
    assert n == n1 * 10 + n % 10 && n1 == n2 * 10 + n1 % 10 && n2 == (n2 / 10) * 10 + n2 % 10;
    assert DigitValue(s[4]) == n2 / 10;
    assert DigitValue(s[5]) == n2 % 10;
    assert DigitValue(s[6]) == n1 % 10;
    assert DigitValue(s[7]) == n % 10;
  }

  lemma OrderNumberInjective(m: Draw, n: Draw)
    requires OrderNumberOf(m) == OrderNumberOf(n)
    ensures m == n
  {
    OrderNumberRoundTrip(m);
    OrderNumberRoundTrip(n);
  }

  /** `_context.Orders.Any(o => o.OrderNumber == orderNumber)`. */
  predicate NumberTaken(orders: seq<Order>, orderNumber: string) {
    exists k :: 0 <= k < |orders| && orders[k].orderNumber == orderNumber
  }

  /** The order `CreateOrder` builds: the request's owner, name, email,
      address and items, the drawn number, status "Pendiente", created today,
      no tracking number and no update date. */
  function NewOrder(request: CreateOrderDto, id: Guid, orderNumber: string, today: Date): (r: Order)
    ensures r.id == id && r.userId == request.userId && r.userName == request.userName
    ensures r.userEmail == request.userEmail && r.address == request.address
    ensures r.orderNumber == orderNumber && r.orderStatus == Pendiente
    ensures r.trackingNumber.None? && r.updateAt.None? && r.createAt == today
    ensures |r.items| == |request.items|
    ensures forall k :: 0 <= k < |r.items| ==>
              && r.items[k].productId == request.items[k].productId
              && r.items[k].productName == request.items[k].productName
              && r.items[k].quantity == request.items[k].quantity
              && r.items[k].unitPrice == request.items[k].unitPrice
  {
    var items := seq(|request.items|, k requires 0 <= k < |request.items| =>
                       OrderItem(request.items[k].productId, request.items[k].productName,
                                 request.items[k].quantity, request.items[k].unitPrice));
    Order(id, request.userId, request.userName, request.userEmail, orderNumber, request.address,
          None, Pendiente, today, None, items)
  }

  /** The order-created message: the order's id and, per item in item order,
      its product id and quantity. */
  function CreatedMessage(o: Order): (r: SenderMessage)
    ensures r.orderId == o.id && |r.items| == |o.items|
    ensures forall k :: 0 <= k < |o.items| ==>
              r.items[k] == OrderItemsMessage(o.items[k].productId, o.items[k].quantity)
  {
    SenderMessage(o.id, seq(|o.items|, k requires 0 <= k < |o.items| =>
                                OrderItemsMessage(o.items[k].productId, o.items[k].quantity)))
  }

  /** The message of a new order carries what the request asked for. */
  lemma CreatedMessageMatchesRequest(request: CreateOrderDto, id: Guid, orderNumber: string, today: Date)
    ensures var m := CreatedMessage(NewOrder(request, id, orderNumber, today));
            && m.orderId == id && |m.items| == |request.items|
            && forall k :: 0 <= k < |request.items| ==>
                 m.items[k] == OrderItemsMessage(request.items[k].productId, request.items[k].quantity)
  {
  }

  /** Adding an order with a fresh id and a free number keeps the keys unique. */
  lemma AddKeepsUniqueKeys(orders: seq<Order>, o: Order)
    requires UniqueKeys(orders)
    requires forall k :: 0 <= k < |orders| ==> orders[k].id != o.id
    requires !NumberTaken(orders, o.orderNumber)
    ensures UniqueKeys(orders + [o])
  {
  }
}

/** `OrderRepository`: the table of orders and the outbound message queue,
    updated in place by its commands. */
module Repository {
  import opened Common
  import opened Orders
  import opened Dto
  import opened OrderMappers
  import opened OrderStore

  class OrderRepository {
    /** The `Orders` table, item rows included. */
    var orders: seq<Order>
    /** The messages published to the inventory service, oldest first. */
    var outbox: seq<SenderMessage>

    /** Ids and order numbers are unique. */
    predicate Valid()
      reads this
    {
      UniqueKeys(orders)
    }

    constructor(initial: seq<Order>)
      requires UniqueKeys(initial)
      ensures Valid() && orders == initial && outbox == []
    {
      orders := initial;
      outbox := [];
    }

    /** `CreateOrderNumber`: draws until a number no order has. The draws of
        `Random` are the oracle `draws`, one of which is free; `used` is the
        position of the one taken. */
    method CreateOrderNumber(draws: seq<Draw>) returns (orderNumber: string, used: nat)
      requires exists i :: 0 <= i < |draws| && !NumberTaken(orders, OrderNumberOf(draws[i]))
      ensures used < |draws| && orderNumber == OrderNumberOf(draws[used])
      ensures !NumberTaken(orders, orderNumber)
      ensures forall i :: 0 <= i < used ==> NumberTaken(orders, OrderNumberOf(draws[i]))
    {
      var i := 0;
      while true
        invariant 0 <= i <= |draws|
        invariant exists j :: i <= j < |draws| && !NumberTaken(orders, OrderNumberOf(draws[j]))
        invariant forall j :: 0 <= j < i ==> NumberTaken(orders, OrderNumberOf(draws[j]))
        decreases |draws| - i
      {
        orderNumber := OrderNumberOf(draws[i]);
        var exist := NumberTaken(orders, orderNumber);
        if !exist {
          used := i;
          return;
        }
        i := i + 1;
      }
    }

    /** `CreateOrder`: appends the new order, with the id the database
        assigns and a free order number, publishes its message and returns
        its creation view. */
    method CreateOrder(request: CreateOrderDto, newId: Guid, today: Date, draws: seq<Draw>)
        returns (response: ResponseCreateOrderDto)
      requires Valid()
      requires forall k :: 0 <= k < |orders| ==> orders[k].id != newId
      requires exists i :: 0 <= i < |draws| && !NumberTaken(orders, OrderNumberOf(draws[i]))
      modifies this
      ensures Valid()
      ensures orders == old(orders) + [NewOrder(request, newId, response.orderNumber, today)]
      ensures !NumberTaken(old(orders), response.orderNumber)
      ensures exists i :: 0 <= i < |draws| && response.orderNumber == OrderNumberOf(draws[i])
      ensures outbox == old(outbox) + [CreatedMessage(orders[|old(orders)|])]
      ensures response == ToCreateOrderResponse(orders[|old(orders)|])
    {
      var orderNumber, used := CreateOrderNumber(draws);
      var order := NewOrder(request, newId, orderNumber, today);
      AddKeepsUniqueKeys(orders, order);
      orders := orders + [order];
      outbox := outbox + [CreatedMessage(order)];
      response := ToCreateOrderResponse(order);
    }

    /** `ChangeStateOrder`: the table takes the new state of the found order. */
    method ChangeStateOrder(orderId: Option<Guid>, orderNumber: Option<string>, request: ChangeStateDto, today: Date)
        returns (r: Result<ResponseChangeStateDto>)
      requires Valid()
      modifies this
      ensures Valid()
      ensures (r, orders) == OrderStore.ChangeStateOrder(old(orders), orderId, orderNumber, request, today)
      ensures outbox == old(outbox)
    {
      var outcome := OrderStore.ChangeStateOrder(orders, orderId, orderNumber, request, today);
      SameShapeKeepsUniqueKeys(orders, outcome.1);
      r, orders := outcome.0, outcome.1;
    }

    /** `CancelateOrder`: the table takes the cancellation of the found order
        when its guards allow it. */
    method CancelateOrder(orderId: Option<Guid>, orderNumber: Option<string>, today: Date)
        returns (r: Result<ResponseChangeStateDto>)
      requires Valid()
      modifies this
      ensures Valid()
      ensures (r, orders) == OrderStore.CancelateOrder(old(orders), orderId, orderNumber, today)
      ensures outbox == old(outbox)
    {
      var outcome := OrderStore.CancelateOrder(orders, orderId, orderNumber, today);
      SameShapeKeepsUniqueKeys(orders, outcome.1);
      r, orders := outcome.0, outcome.1;
    }

    /** `CountItemsOrderById` against the current table. */
    method CountItemsOrderById(id: Guid) returns (r: Result<nat>)
      ensures r == OrderStore.CountItemsOrderById(orders, id)
      ensures r.Err? <==> forall j :: 0 <= j < |orders| ==> orders[j].id != id
    {
      r := OrderStore.CountItemsOrderById(orders, id);
    }
  }
}
