/** The data-transfer records the repository takes and returns, and the
    message it publishes when an order is created. */
module Dto {
  import opened Common
  import opened Orders

  /** `CreateOrderItemDto`. */
  datatype CreateOrderItemDto = CreateOrderItemDto(
    productId: Guid,
    productName: string,
    quantity: int,
    unitPrice: real)

  /** `CreateOrderDto`. */
  datatype CreateOrderDto = CreateOrderDto(
    userId: Guid,
    userName: string,
    userEmail: string,
    address: string,
    items: seq<CreateOrderItemDto>)

  /** `ChangeStateDto`: the requested status, stored as given, and an
      optional tracking number. */
  datatype ChangeStateDto = ChangeStateDto(
    orderStatus: string,
    trackingNumber: Option<string>)

  /** `ResponseCreateOrderDto`. */
  datatype ResponseCreateOrderDto = ResponseCreateOrderDto(
    id: Guid,
    userName: string,
    orderNumber: string,
    address: string,
    orderStatus: string,
    trackingNumber: Option<string>,
    createAt: Date,
    totalPrice: real,
    items: seq<OrderItem>)

  /** `ResponseChangeStateDto`. */
  datatype ResponseChangeStateDto = ResponseChangeStateDto(
    id: Guid,
    orderNumber: string,
    address: string,
    orderStatus: string,
    trackingNumber: Option<string>,
    createAt: Date,
    updateAt: Option<Date>)

  /** `ResponseOrderStateDto`. */
  datatype ResponseOrderStateDto = ResponseOrderStateDto(
    orderNumber: string,
    orderStatus: string,
    updateAt: Option<Date>)

  /** `ItemsOrderUserDto`. */
  datatype ItemsOrderUserDto = ItemsOrderUserDto(
    productName: string,
    unitPrice: real,
    quantity: int,
    subtotal: real)

  /** `ResponseGetOrderUserDto`. */
  datatype ResponseGetOrderUserDto = ResponseGetOrderUserDto(
    orderId: Guid,
    orderNumber: string,
    address: string,
    orderStatus: string,
    trackingNumber: Option<string>,
    createAt: Date,
    updateAt: Option<Date>,
    totalPrice: real,
    items: seq<ItemsOrderUserDto>)

  /** `ResponseGetOrderAdminDto`; a `TotalPrice` nobody assigns keeps the
      default 0. */
  datatype ResponseGetOrderAdminDto = ResponseGetOrderAdminDto(
    id: Guid,
    userId: Guid,
    userName: string,
    orderNumber: string,
    address: string,
    trackingNumber: Option<string>,
    orderStatus: string,
    createAt: Date,
    updateAt: Option<Date>,
    items: seq<OrderItem>,
    totalPrice: real)

  /** `SenderMessage.OrderItemsMessage`. */
  datatype OrderItemsMessage = OrderItemsMessage(productId: Guid, quantity: int)

  /** `SenderMessage`, the order-created event sent to the inventory service;
      its sender name and send date are constants of the transport. */
  datatype SenderMessage = SenderMessage(orderId: Guid, items: seq<OrderItemsMessage>)
}
