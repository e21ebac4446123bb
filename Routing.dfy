/** The two stateless actors, OrderActor and ManagerActor, and the names
    under which the program registers its four actors. A send (Tell on an
    ActorSelection) is represented by the path it is addressed to and the
    message it carries. */
module Routing {
  import opened Domain

  datatype Actor = ManagerActor | OrderActor | BillingActor | ProductProcessingActor

  /** The name each actor is created under by ActorOf. */
  function Name(a: Actor): string
  {
    match a
    case ManagerActor => "ManagerActor"
    case OrderActor => "OrderActor"
    case BillingActor => "BillingActor"
    case ProductProcessingActor => "ProductProcessingActor"
  }

  /** Top-level actors live under the guardian "/user". */
  function PathOf(a: Actor): string
  {
    "/user/" + Name(a)
  }

  /** No two actors share a path: the names differ in length or in their first letter. */
  lemma PathOfInjective(a: Actor, b: Actor)
    ensures PathOf(a) == PathOf(b) ==> a == b
  {
    assert |PathOf(a)| == 6 + |Name(a)| && PathOf(a)[6] == Name(a)[0];
    assert |PathOf(b)| == 6 + |Name(b)| && PathOf(b)[6] == Name(b)[0];
  }

  /** The actor directory: which actor, if any, a path selects. */
  function Resolve(path: string): (r: Option<Actor>)
    ensures forall a :: r == Some(a) <==> PathOf(a) == path
  {
    forall a, b { PathOfInjective(a, b); }
    if path == PathOf(ManagerActor) then Some(ManagerActor)
    else if path == PathOf(OrderActor) then Some(OrderActor)
    else if path == PathOf(BillingActor) then Some(BillingActor)
    else if path == PathOf(ProductProcessingActor) then Some(ProductProcessingActor)
    else None
  }

  /** Every actor is found under its own path. */
  lemma ResolvePathOf(a: Actor)
    ensures Resolve(PathOf(a)) == Some(a)
  {
  }

  /** Which message types each actor registers a Receive handler for. */
  predicate Handles(a: Actor, m: Message)
  {
    match a
    case ManagerActor =>
      m.CreateOrder? || m.DisplayAllBills? || m.ProductCompleted? || m.DisplayInprogressProducts?
    case OrderActor => m.CreateOrder?
    case BillingActor => m.CreateBill? || m.DisplayAllBills?
    case ProductProcessingActor =>
      m.ProcessProduct? || m.ProductCompleted? || m.DisplayInprogressProducts?
  }

  datatype Send = Send(path: string, message: Message)

  /** OrderActor: a new order becomes a ProcessProductMessage for the item
      tracker followed by a CreateBillMessage for the ledger. */
  function OrderReceive(m: Message): (sends: seq<Send>)
    ensures |sends| == if m.CreateOrder? then 2 else 0
    ensures forall i :: 0 <= i < |sends| ==>
      (Resolve(sends[i].path) == Some(ProductProcessingActor) || Resolve(sends[i].path) == Some(BillingActor)) &&
      Handles(Resolve(sends[i].path).value, sends[i].message)
    ensures m.CreateOrder? ==>
      Resolve(sends[0].path) == Some(ProductProcessingActor) &&
      sends[0].message == ProcessProduct(m.tableNumber, m.product.name) &&
      Resolve(sends[1].path) == Some(BillingActor) &&
      sends[1].message == CreateBill(m.tableNumber, m.product)
  {
    match m
    case CreateOrder(table, product) =>
      [Send(PathOf(ProductProcessingActor), ProcessProduct(table, product.name)),
       Send(PathOf(BillingActor), CreateBill(table, product))]
    case _ => []
  }

  /** ManagerActor: forwards each message it handles, unchanged, to the one
      other actor that handles that message type. */
  function ManagerReceive(m: Message): (r: Option<Send>)
    ensures r.Some? <==> Handles(ManagerActor, m)
    ensures r.Some? ==> r.value.message == m
    ensures r.Some? ==>
      Resolve(r.value.path).Some? &&
      Resolve(r.value.path).value != ManagerActor &&
      Handles(Resolve(r.value.path).value, m) &&
      forall b :: b != ManagerActor && Handles(b, m) ==> Resolve(r.value.path) == Some(b)
  {
    match m
    case CreateOrder(_, _) => Some(Send(PathOf(OrderActor), m))
    case DisplayAllBills => Some(Send(PathOf(BillingActor), m))
    case ProductCompleted(_) => Some(Send(PathOf(ProductProcessingActor), m))
    case DisplayInprogressProducts => Some(Send(PathOf(ProductProcessingActor), m))
    case _ => None
  }
}
