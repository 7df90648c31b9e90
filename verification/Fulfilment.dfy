/** The events of order fulfilment, and how they are routed. */
module Fulfilment {

  datatype Order = Order(id: string, customer: string, sku: string, quantity: int, total: real)

  /** The envelope's type, which is the name of the event it carries. */
  datatype EventType = TypePlaced | TypeCaptured | TypeDeclined | TypeReserved | TypeUnavailable | TypeShipped

  datatype Event =
    | OrderPlaced(orderId: string, customer: string, sku: string, quantity: int, total: real)
    | PaymentCaptured(orderId: string, customer: string, sku: string, quantity: int, amount: real)
    | PaymentDeclined(orderId: string, customer: string, why: string)
    | StockReserved(orderId: string, customer: string, sku: string, quantity: int)
    | StockUnavailable(orderId: string, customer: string, sku: string, left: int)
    | OrderShipped(orderId: string, customer: string, tracking: string)
  {
    function Type(): EventType {
      match this
      case OrderPlaced(_, _, _, _, _) => TypePlaced
      case PaymentCaptured(_, _, _, _, _) => TypeCaptured
      case PaymentDeclined(_, _, _) => TypeDeclined
      case StockReserved(_, _, _, _) => TypeReserved
      case StockUnavailable(_, _, _, _) => TypeUnavailable
      case OrderShipped(_, _, _) => TypeShipped
    }
  }

  datatype Message = Message(event: Event, correlation: string)
}
