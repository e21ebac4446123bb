/** Values shared by every actor of the cafe: the data records and the closed
    vocabulary of messages the actors exchange. In the C# program each of
    these is a small class with a constructor and properties; nothing ever
    writes a property after construction, so each becomes a datatype. */
module Domain {

  datatype Option<T> = None | Some(value: T)

  /** A product on the menu. The price is a plain C# int: no range is enforced. */
  datatype Product = Product(name: string, price: int)

  /** One ordered product that the kitchen has not completed yet. Several
      items may carry the same table number. */
  datatype InprogressProduct = InprogressProduct(tableNumber: int, productName: string)

  /** A wall-clock instant. Its value comes from the clock (DateTime.Now) and
      is supplied from outside; the model never inspects it. */
  datatype Instant = Instant(ticks: int)

  /** One entry of the billing ledger. */
  datatype Bill = Bill(tableNumber: int, product: Product, time: Instant)

  /** Every message class of the program, one constructor each. */
  datatype Message =
    | CreateOrder(tableNumber: int, product: Product)
    | ProcessProduct(tableNumber: int, productName: string)
    | ProductCompleted(tableNumber: int)
    | CreateBill(tableNumber: int, product: Product)
    | DisplayInprogressProducts
    | DisplayAllBills

  /** A message together with the clock reading at the moment it is processed. */
  datatype Timed = Timed(message: Message, at: Instant)

  /** The line the item tracker writes when a completion names no table. */
  const TableNotFoundText: string := "[Complete product] Table number not found!"

  /** What a handler makes observable beyond its own state: the tables it
      writes to the console (as rows, without the formatting), its
      diagnostic line, or the exception it throws. */
  datatype Effect =
    | InprogressTable(items: seq<InprogressProduct>)
    | BillTable(bills: seq<Bill>)
    | Diagnostic(text: string)
    | Fault(message: Message)
}
