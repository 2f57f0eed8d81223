/** `OrderMappers`: the projections of an order onto the response records. */
module OrderMappers {
  import opened Common
  import opened Orders
  import opened Dto

  /** `ToCreateOrderResponse`: the order's own fields, its items and its
      computed total, so the reported total is that of the reported items. */
  function ToCreateOrderResponse(o: Order): (r: ResponseCreateOrderDto)
    ensures r.id == o.id && r.userName == o.userName && r.orderNumber == o.orderNumber
    ensures r.address == o.address && r.orderStatus == o.orderStatus
    ensures r.trackingNumber == o.trackingNumber && r.createAt == o.createAt
    ensures r.items == o.items && r.totalPrice == TotalPrice(r.items)
  {
    ResponseCreateOrderDto(o.id, o.userName, o.orderNumber, o.address, o.orderStatus,
                           o.trackingNumber, o.createAt, OrderTotal(o), o.items)
  }

  /** `ToChangeStateResponse`: identity, number, address, status, tracking
      number and both dates, unchanged. */
  function ToChangeStateResponse(o: Order): (r: ResponseChangeStateDto)
    ensures r.id == o.id && r.orderNumber == o.orderNumber && r.address == o.address
    ensures r.orderStatus == o.orderStatus && r.trackingNumber == o.trackingNumber
    ensures r.createAt == o.createAt && r.updateAt == o.updateAt
  {
    ResponseChangeStateDto(o.id, o.orderNumber, o.address, o.orderStatus,
                           o.trackingNumber, o.createAt, o.updateAt)
  }

  /** `ToOrderStateResponse`: number, status and last update only. */
  function ToOrderStateResponse(o: Order): (r: ResponseOrderStateDto)
    ensures r.orderNumber == o.orderNumber && r.orderStatus == o.orderStatus
    ensures r.updateAt == o.updateAt
  {
    ResponseOrderStateDto(o.orderNumber, o.orderStatus, o.updateAt)
  }

  /** The status view of an order is the part of its change-state view that
      names number, status and update date: the two mappers agree. */
  lemma OrderStateAgreesWithChangeState(o: Order)
    ensures var c := ToChangeStateResponse(o);
            ToOrderStateResponse(o) == ResponseOrderStateDto(c.orderNumber, c.orderStatus, c.updateAt)
  {
  }

  /** The item record of the user history view. */
  function ToItemsOrderUser(i: OrderItem): ItemsOrderUserDto {
    ItemsOrderUserDto(i.productName, i.unitPrice, i.quantity, Subtotal(i))
  }

  /** The item records of the user history view, one per item, in order. */
  function ToItemsOrderUserList(items: seq<OrderItem>): (r: seq<ItemsOrderUserDto>)
    ensures |r| == |items|
    ensures forall k :: 0 <= k < |items| ==> r[k] == ToItemsOrderUser(items[k])
  {
    seq(|items|, k requires 0 <= k < |items| => ToItemsOrderUser(items[k]))
  }

  /** `ToGetOrderUserResponse`: one item record per item, in item order, each
      with the item's subtotal, and the order's total. */
  function ToGetOrderUserResponse(o: Order): (r: ResponseGetOrderUserDto)
    ensures r.orderId == o.id && r.orderNumber == o.orderNumber && r.address == o.address
    ensures r.orderStatus == o.orderStatus && r.trackingNumber == o.trackingNumber
    ensures r.createAt == o.createAt && r.updateAt == o.updateAt
    ensures r.totalPrice == TotalPrice(o.items)
    ensures |r.items| == |o.items|
    ensures forall k :: 0 <= k < |o.items| ==>
              && r.items[k].productName == o.items[k].productName
              && r.items[k].unitPrice == o.items[k].unitPrice
              && r.items[k].quantity == o.items[k].quantity
              && r.items[k].subtotal == Subtotal(o.items[k])
  {
    ResponseGetOrderUserDto(o.id, o.orderNumber, o.address, o.orderStatus, o.trackingNumber,
                            o.createAt, o.updateAt, OrderTotal(o),
                            ToItemsOrderUserList(o.items))
  }

  /** The sum of the subtotals a list of item records reports. */
  function ReportedSubtotals(items: seq<ItemsOrderUserDto>): real {
    if items == [] then 0.0 else items[0].subtotal + ReportedSubtotals(items[1..])
  }

  /** The user history view is self-consistent: its total is the sum of the
      subtotals of the item records it lists. */
  lemma UserResponseTotalIsSumOfSubtotals(o: Order)
    ensures var r := ToGetOrderUserResponse(o); r.totalPrice == ReportedSubtotals(r.items)
  {
    ReportedSubtotalsOfItems(o.items);
  }

  /** The reported subtotals of a list of items add up to its total price. */
  lemma {:induction false} ReportedSubtotalsOfItems(items: seq<OrderItem>)
    ensures ReportedSubtotals(ToItemsOrderUserList(items)) == TotalPrice(items)
  {
    if items != [] {
      assert ToItemsOrderUserList(items)[1..] == ToItemsOrderUserList(items[1..]);
      ReportedSubtotalsOfItems(items[1..]);
    }
  }

  /** `ToGetOrdersResponse` as written: every field but `TotalPrice` is
      copied, so the admin view reports a total of 0 whatever the items. */
  function ToGetOrdersResponse(o: Order): (r: ResponseGetOrderAdminDto)
    ensures r.id == o.id && r.userId == o.userId && r.userName == o.userName
    ensures r.orderNumber == o.orderNumber && r.address == o.address
    ensures r.trackingNumber == o.trackingNumber && r.orderStatus == o.orderStatus
    ensures r.createAt == o.createAt && r.updateAt == o.updateAt && r.items == o.items
    ensures r.totalPrice == 0.0
  {
    ResponseGetOrderAdminDto(o.id, o.userId, o.userName, o.orderNumber, o.address,
                             o.trackingNumber, o.orderStatus, o.createAt, o.updateAt, o.items, 0.0)
  }

  /** The admin view disagrees with the user view of the same order as soon as
      the order has an item of positive quantity and price. */
  lemma AdminTotalDisagreesWithUserTotal(o: Order)
    requires o.items != []
    requires forall k :: 0 <= k < |o.items| ==> o.items[k].quantity > 0 && o.items[k].unitPrice > 0.0
    ensures ToGetOrdersResponse(o).totalPrice != ToGetOrderUserResponse(o).totalPrice
  {
    TotalPricePositive(o.items);
  }

  /** The admin projection with the total filled in, as the record's
      `TotalPrice` field is evidently meant to be. */
  function ToGetOrdersResponseWithTotal(o: Order): (r: ResponseGetOrderAdminDto)
    ensures r.totalPrice == TotalPrice(r.items)
    ensures r.totalPrice == ToGetOrderUserResponse(o).totalPrice
    ensures r == ToGetOrdersResponse(o).(totalPrice := r.totalPrice)
  {
    ToGetOrdersResponse(o).(totalPrice := OrderTotal(o))
  }
}
