/** The cafe as a whole: the four actors wired together by path. Each send
    is delivered and processed to completion, together with every send it
    causes, before the next one — the schedule the program's Main produces
    by waiting for the operator between its Tells, and one that keeps the
    order of messages on every sender-to-receiver link. */
module Cafe {
  import opened Domain
  import opened Routing
  import Tracker
  import Billing

  /** The private state of the two stateful actors. */
  datatype Cafe = Cafe(inProgress: seq<InprogressProduct>, bills: seq<Bill>)

  const Empty: Cafe := Cafe([], [])

  /** What an observer of the running system sees. */
  datatype Event =
    | Emitted(effect: Effect)
    | Unhandled(actor: Actor, message: Message)
    | DeadLetter(send: Send)

  function Emit(effects: seq<Effect>): (r: seq<Event>)
    ensures |r| == |effects|
    ensures forall i :: 0 <= i < |r| ==> r[i] == Emitted(effects[i])
  {
    if effects == [] then [] else [Emitted(effects[0])] + Emit(effects[1..])
  }

  /** How many forwarding steps a send to this path can still cause. */
  function Rank(path: string): nat
  {
    match Resolve(path)
    case Some(ManagerActor) => 2
    case Some(OrderActor) => 1
    case _ => 0
  }

  function MaxRank(sends: seq<Send>): (r: nat)
    ensures forall i :: 0 <= i < |sends| ==> Rank(sends[i].path) <= r
    ensures (forall i :: 0 <= i < |sends| ==> Rank(sends[i].path) == 0) ==> r == 0
  {
    if sends == [] then 0
    else
      var rest := MaxRank(sends[1..]);
      assert forall i :: 1 <= i < |sends| ==> sends[i] == sends[1..][i - 1];
      if Rank(sends[0].path) < rest then rest else Rank(sends[0].path)
  }

  /** Deliver one send at clock reading now, with everything it causes. */
  function Deliver(c: Cafe, s: Send, now: Instant): (Cafe, seq<Event>)
    decreases Rank(s.path), 0
  {
    match Resolve(s.path)
    case None => (c, [DeadLetter(s)])
    case Some(a) =>
      if !Handles(a, s.message) then (c, [Unhandled(a, s.message)])
      else
        match a
        case ManagerActor =>
          (match ManagerReceive(s.message)
           case Some(forward) => Deliver(c, forward, now)
           case None => (c, []))
        case OrderActor => DeliverAll(c, OrderReceive(s.message), now)
        case ProductProcessingActor =>
          var r := Tracker.Receive(c.inProgress, s.message);
          (c.(inProgress := r.0), Emit(r.1))
        case BillingActor =>
          var r := Billing.Receive(c.bills, s.message, now);
          (c.(bills := r.0), Emit(r.1))
  }

  /** Deliver several sends in order, each to completion. */
  function DeliverAll(c: Cafe, sends: seq<Send>, now: Instant): (Cafe, seq<Event>)
    decreases MaxRank(sends), |sends|
  {
    if sends == [] then (c, [])
    else
      var first := Deliver(c, sends[0], now);
      var rest := DeliverAll(first.0, sends[1..], now);
      (rest.0, first.1 + rest.1)
  }

  /** Main's managerActor.Tell(message). */
  function Tell(c: Cafe, t: Timed): (Cafe, seq<Event>)
  {
    Deliver(c, Send(PathOf(ManagerActor), t.message), t.at)
  }

  /** A script of Tells to the manager, in order. */
  function RunScript(c: Cafe, script: seq<Timed>): (Cafe, seq<Event>)
    decreases |script|
  {
    if script == [] then (c, [])
    else
      var first := Tell(c, script[0]);
      var rest := RunScript(first.0, script[1..]);
      (rest.0, first.1 + rest.1)
  }

  /** A Tell to the manager of a message it handles is the delivery of what
      it forwards. */
  lemma TellForwards(c: Cafe, t: Timed)
    requires Handles(ManagerActor, t.message)
    ensures Tell(c, t) == Deliver(c, ManagerReceive(t.message).value, t.at)
  {
    ResolvePathOf(ManagerActor);
  }

  /** A send to the item tracker is its Receive step. */
  lemma DeliverToTracker(c: Cafe, m: Message, now: Instant)
    requires Handles(ProductProcessingActor, m)
    ensures Deliver(c, Send(PathOf(ProductProcessingActor), m), now) ==
      (c.(inProgress := Tracker.Receive(c.inProgress, m).0), Emit(Tracker.Receive(c.inProgress, m).1))
  {
    ResolvePathOf(ProductProcessingActor);
  }

  /** A send to the ledger is its Receive step. */
  lemma DeliverToLedger(c: Cafe, m: Message, now: Instant)
    requires Handles(BillingActor, m)
    ensures Deliver(c, Send(PathOf(BillingActor), m), now) ==
      (c.(bills := Billing.Receive(c.bills, m, now).0), Emit(Billing.Receive(c.bills, m, now).1))
  {
    ResolvePathOf(BillingActor);
  }

  /** A new order told to the manager reaches, through the order actor, both
      workers: one item for the table at the end of the in-progress list, one
      bill at the end of the ledger, and the ledger shows the new bill. */
  lemma NewOrderFansOut(c: Cafe, table: int, product: Product, now: Instant)
    ensures Tell(c, Timed(CreateOrder(table, product), now)) ==
      (Cafe(c.inProgress + [InprogressProduct(table, product.name)],
            c.bills + [Bill(table, product, now)]),
       [Emitted(BillTable([Bill(table, product, now)]))])
  {
    var m := CreateOrder(table, product);
    var sends := OrderReceive(m);
    TellForwards(c, Timed(m, now));
    ResolvePathOf(OrderActor);
    assert Tell(c, Timed(m, now)) == DeliverAll(c, sends, now);
    var c1 := c.(inProgress := c.inProgress + [InprogressProduct(table, product.name)]);
    DeliverToTracker(c, sends[0].message, now);
    assert Deliver(c, sends[0], now) == (c1, []);
    DeliverToLedger(c1, sends[1].message, now);
    var last := (c1.(bills := c.bills + [Bill(table, product, now)]), [Emitted(BillTable([Bill(table, product, now)]))]);
    assert Emit([BillTable([Bill(table, product, now)])]) == last.1;
    assert Deliver(c1, sends[1], now) == last;
    assert sends[1..][1..] == [];
    assert DeliverAll(c1, sends[1..], now) == (last.0, last.1 + []);
    assert last.1 + [] == last.1 && [] + last.1 == last.1;
    assert DeliverAll(c, sends, now) == last;
  }

  /** A completion told to the manager is the item tracker's completion
      step; the ledger is untouched. */
  lemma CompletionReachesTracker(c: Cafe, table: int, now: Instant)
    ensures Tell(c, Timed(ProductCompleted(table), now)) ==
      (c.(inProgress := Tracker.Complete(c.inProgress, table).1),
       Emit(Tracker.CompletionEffects(Tracker.Complete(c.inProgress, table).0, table)))
  {
    TellForwards(c, Timed(ProductCompleted(table), now));
    DeliverToTracker(c, ProductCompleted(table), now);
  }

  /** The two display requests told to the manager change nothing and show
      the current list, respectively the whole ledger, in order. */
  lemma DisplaysReadOnly(c: Cafe, now: Instant)
    ensures Tell(c, Timed(DisplayInprogressProducts, now)) == (c, [Emitted(InprogressTable(c.inProgress))])
    ensures Tell(c, Timed(DisplayAllBills, now)) == (c, [Emitted(BillTable(c.bills))])
  {
    TellForwards(c, Timed(DisplayInprogressProducts, now));
    DeliverToTracker(c, DisplayInprogressProducts, now);
    assert Emit([InprogressTable(c.inProgress)]) == [Emitted(InprogressTable(c.inProgress))];
    TellForwards(c, Timed(DisplayAllBills, now));
    DeliverToLedger(c, DisplayAllBills, now);
    assert Emit([BillTable(c.bills)]) == [Emitted(BillTable(c.bills))];
  }

  /** Whatever is sent, to whichever path, the ledger keeps every earlier
      bill in place (it can only grow at the end). */
  lemma {:induction false} DeliverKeepsBills(c: Cafe, s: Send, now: Instant)
    ensures c.bills <= Deliver(c, s, now).0.bills
    decreases Rank(s.path), 0
  {
    match Resolve(s.path)
    case None =>
    case Some(a) =>
      if Handles(a, s.message) {
        match a
        case ManagerActor =>
          DeliverKeepsBills(c, ManagerReceive(s.message).value, now);
        case OrderActor =>
          DeliverAllKeepsBills(c, OrderReceive(s.message), now);
        case ProductProcessingActor =>
        case BillingActor =>
      }
  }

  lemma {:induction false} DeliverAllKeepsBills(c: Cafe, sends: seq<Send>, now: Instant)
    ensures c.bills <= DeliverAll(c, sends, now).0.bills
    decreases MaxRank(sends), |sends|
  {
    if sends != [] {
      var first := Deliver(c, sends[0], now);
      DeliverKeepsBills(c, sends[0], now);
      DeliverAllKeepsBills(first.0, sends[1..], now);
    }
  }

  /** Over a whole script the ledger also only grows. */
  lemma {:induction false} ScriptKeepsBills(c: Cafe, script: seq<Timed>)
    ensures c.bills <= RunScript(c, script).0.bills
    decreases |script|
  {
    if script != [] {
      var first := Tell(c, script[0]);
      DeliverKeepsBills(c, Send(PathOf(ManagerActor), script[0].message), script[0].at);
      ScriptKeepsBills(first.0, script[1..]);
    }
  }

  /** The Tells of the program's Main, in order, the i-th processed at
      clock[i]; written element by element onto the rest of the script. */
  function DemoScript(clock: seq<Instant>): seq<Timed>
    requires |clock| == 9
  {
    [Timed(CreateOrder(1, Product("Black Coffee", 20)), clock[0])] + DemoScriptFrom2(clock)
  }

  function DemoScriptFrom2(clock: seq<Instant>): seq<Timed>
    requires |clock| == 9
  {
    [Timed(CreateOrder(2, Product("White Coffee", 30)), clock[1])] +
    ([Timed(CreateOrder(3, Product("Green Tea", 25)), clock[2])] +
     ([Timed(DisplayInprogressProducts, clock[3])] + DemoScriptFrom5(clock)))
  }

  function DemoScriptFrom5(clock: seq<Instant>): seq<Timed>
    requires |clock| == 9
  {
    [Timed(ProductCompleted(2), clock[4])] +
    ([Timed(DisplayInprogressProducts, clock[5])] + DemoScriptFrom7(clock))
  }

  function DemoScriptFrom7(clock: seq<Instant>): seq<Timed>
    requires |clock| == 9
  {
    [Timed(ProductCompleted(1), clock[6])] +
    ([Timed(DisplayInprogressProducts, clock[7])] + [Timed(DisplayAllBills, clock[8])])
  }

  const BlackCoffee := InprogressProduct(1, "Black Coffee")
  const WhiteCoffee := InprogressProduct(2, "White Coffee")
  const GreenTea := InprogressProduct(3, "Green Tea")

  function DemoBills(clock: seq<Instant>): seq<Bill>
    requires |clock| == 9
  {
    [Bill(1, Product("Black Coffee", 20), clock[0]),
     Bill(2, Product("White Coffee", 30), clock[1]),
     Bill(3, Product("Green Tea", 25), clock[2])]
  }

  /** Main's scenario: three orders, a look at the list, tables 2 and 1
      completed with a look after each, then the whole ledger. What it shows,
      in order: each new bill as it is created, the list after the orders
      ([1, 2, 3]) and after each completion ([1, 3], then [3]), and the
      ledger. At the end only table 3's green tea is in progress, and the
      ledger holds the three bills, priced 20, 30 and 25, in order. */
  lemma DemoOutcome(clock: seq<Instant>)
    requires |clock| == 9
    ensures
      var b := DemoBills(clock);
      RunScript(Empty, DemoScript(clock)) ==
        (Cafe([GreenTea], b),
         [Emitted(BillTable([b[0]])), Emitted(BillTable([b[1]])), Emitted(BillTable([b[2]])),
          Emitted(InprogressTable([BlackCoffee, WhiteCoffee, GreenTea])),
          Emitted(InprogressTable([BlackCoffee, GreenTea])),
          Emitted(InprogressTable([GreenTea])),
          Emitted(BillTable(b))])
    ensures |DemoBills(clock)| == 3
    ensures DemoBills(clock)[0].product.price == 20
    ensures DemoBills(clock)[1].product.price == 30
    ensures DemoBills(clock)[2].product.price == 25
  {
    var b := DemoBills(clock);
    var x0, x1, x2 := Emitted(BillTable([b[0]])), Emitted(BillTable([b[1]])), Emitted(BillTable([b[2]]));
    var y3, y5 := Emitted(InprogressTable([BlackCoffee, WhiteCoffee, GreenTea])), Emitted(InprogressTable([BlackCoffee, GreenTea]));
    var y7, z8 := Emitted(InprogressTable([GreenTea])), Emitted(BillTable(b));
    assert [x0] + [x1, x2, y3, y5, y7, z8] == [x0, x1, x2, y3, y5, y7, z8];
    DemoFrom2(clock);
    assert [BlackCoffee] == Empty.inProgress + [BlackCoffee] && [b[0]] == Empty.bills + [b[0]];
    RunNewOrder(Empty, 1, Product("Black Coffee", 20), clock[0], DemoScriptFrom2(clock));
  }

  /** Main from its second order on, starting after the first. */
  lemma DemoFrom2(clock: seq<Instant>)
    requires |clock| == 9
    ensures
      var b := DemoBills(clock);
      RunScript(Cafe([BlackCoffee], [b[0]]), DemoScriptFrom2(clock)) ==
        (Cafe([GreenTea], b),
         [Emitted(BillTable([b[1]])), Emitted(BillTable([b[2]])),
          Emitted(InprogressTable([BlackCoffee, WhiteCoffee, GreenTea])),
          Emitted(InprogressTable([BlackCoffee, GreenTea])),
          Emitted(InprogressTable([GreenTea])),
          Emitted(BillTable(b))])
  {
    var b := DemoBills(clock);
    var x1, x2 := Emitted(BillTable([b[1]])), Emitted(BillTable([b[2]]));
    var y3, y5 := Emitted(InprogressTable([BlackCoffee, WhiteCoffee, GreenTea])), Emitted(InprogressTable([BlackCoffee, GreenTea]));
    var y7, z8 := Emitted(InprogressTable([GreenTea])), Emitted(BillTable(b));
    assert [x1] + ([x2] + ([y3] + [y5, y7, z8])) == [x1, x2, y3, y5, y7, z8];
    var c1 := Cafe([BlackCoffee], [b[0]]);
    var c2 := Cafe([BlackCoffee, WhiteCoffee], [b[0], b[1]]);
    var c3 := Cafe([BlackCoffee, WhiteCoffee, GreenTea], b);
    var c7 := Cafe([GreenTea], b);
    var s3 := [Timed(DisplayInprogressProducts, clock[3])] + DemoScriptFrom5(clock);
    var s2 := [Timed(CreateOrder(3, Product("Green Tea", 25)), clock[2])] + s3;
    assert DemoScriptFrom2(clock) == [Timed(CreateOrder(2, Product("White Coffee", 30)), clock[1])] + s2;
    DemoFrom5(clock);
    assert RunScript(c3, s3) == (c7, [y3] + [y5, y7, z8]) by {
      RunDisplayInprogress(c3, clock[3], DemoScriptFrom5(clock));
    }
    assert RunScript(c2, s2) == (c7, [x2] + ([y3] + [y5, y7, z8])) by {
      assert c2.inProgress + [GreenTea] == c3.inProgress && c2.bills + [b[2]] == c3.bills;
      RunNewOrder(c2, 3, Product("Green Tea", 25), clock[2], s3);
    }
    assert c1.inProgress + [WhiteCoffee] == c2.inProgress && c1.bills + [b[1]] == c2.bills;
    RunNewOrder(c1, 2, Product("White Coffee", 30), clock[1], s2);
  }

  /** Main from the completion of table 2 on, starting after the three
      orders and the first look at the list. */
  lemma DemoFrom5(clock: seq<Instant>)
    requires |clock| == 9
    ensures RunScript(Cafe([BlackCoffee, WhiteCoffee, GreenTea], DemoBills(clock)), DemoScriptFrom5(clock)) ==
      (Cafe([GreenTea], DemoBills(clock)),
       [Emitted(InprogressTable([BlackCoffee, GreenTea])), Emitted(InprogressTable([GreenTea])),
        Emitted(BillTable(DemoBills(clock)))])
  {
    var b := DemoBills(clock);
    var y5, y7, z8 := Emitted(InprogressTable([BlackCoffee, GreenTea])), Emitted(InprogressTable([GreenTea])), Emitted(BillTable(b));
    assert [y5] + [y7, z8] == [y5, y7, z8];
    var c3 := Cafe([BlackCoffee, WhiteCoffee, GreenTea], b);
    var c5 := Cafe([BlackCoffee, GreenTea], b);
    DemoFrom7(clock);
    RunDisplayInprogress(c5, clock[5], DemoScriptFrom7(clock));
    assert c3.inProgress[..1] + c3.inProgress[2..] == [BlackCoffee, GreenTea];
    assert c3.(inProgress := c3.inProgress[..1] + c3.inProgress[2..]) == c5;
    RunCompletedUnique(c3, 1, 2, clock[4], [Timed(DisplayInprogressProducts, clock[5])] + DemoScriptFrom7(clock));
  }

  /** Main from the completion of table 1 to the end. */
  lemma DemoFrom7(clock: seq<Instant>)
    requires |clock| == 9
    ensures RunScript(Cafe([BlackCoffee, GreenTea], DemoBills(clock)), DemoScriptFrom7(clock)) ==
      (Cafe([GreenTea], DemoBills(clock)), [Emitted(InprogressTable([GreenTea])), Emitted(BillTable(DemoBills(clock)))])
  {
    var c5 := Cafe([BlackCoffee, GreenTea], DemoBills(clock));
    var c7 := Cafe([GreenTea], DemoBills(clock));
    var s8 := [Timed(DisplayAllBills, clock[8])];
    var s7 := [Timed(DisplayInprogressProducts, clock[7])] + s8;
    assert DemoScriptFrom7(clock) == [Timed(ProductCompleted(1), clock[6])] + s7;
    var e8 := [Emitted(BillTable(DemoBills(clock)))];
    var e7 := [Emitted(InprogressTable([GreenTea]))] + e8;
    assert e7 == [Emitted(InprogressTable([GreenTea])), Emitted(BillTable(DemoBills(clock)))];
    assert RunScript(c7, s8) == (c7, e8) by {
      assert s8 + [] == s8;
      RunDisplayBills(c7, clock[8], []);
      assert RunScript(c7, []) == (c7, []);
      assert [Emitted(BillTable(c7.bills))] + [] == e8;
    }
    assert RunScript(c7, s7) == (c7, e7) by {
      RunDisplayInprogress(c7, clock[7], s8);
    }
    assert c5.inProgress[..0] + c5.inProgress[1..] == [GreenTea];
    RunCompletedUnique(c5, 0, 1, clock[6], s7);
    assert c5.(inProgress := c5.inProgress[..0] + c5.inProgress[1..]) == c7;
    assert RunScript(c5, DemoScriptFrom7(clock)) == RunScript(c7, s7);
  }

  /** A script that starts with a new order. */
  lemma RunNewOrder(c: Cafe, table: int, product: Product, now: Instant, rest: seq<Timed>)
    ensures
      var next := Cafe(c.inProgress + [InprogressProduct(table, product.name)], c.bills + [Bill(table, product, now)]);
      RunScript(c, [Timed(CreateOrder(table, product), now)] + rest) ==
        (RunScript(next, rest).0, [Emitted(BillTable([Bill(table, product, now)]))] + RunScript(next, rest).1)
  {
    RunScriptCons(c, Timed(CreateOrder(table, product), now), rest);
    NewOrderFansOut(c, table, product, now);
  }

  /** A script that starts with a look at the in-progress list. */
  lemma RunDisplayInprogress(c: Cafe, now: Instant, rest: seq<Timed>)
    ensures RunScript(c, [Timed(DisplayInprogressProducts, now)] + rest) ==
      (RunScript(c, rest).0, [Emitted(InprogressTable(c.inProgress))] + RunScript(c, rest).1)
  {
    RunScriptCons(c, Timed(DisplayInprogressProducts, now), rest);
    DisplaysReadOnly(c, now);
  }

  /** A script that starts with a look at the whole ledger. */
  lemma RunDisplayBills(c: Cafe, now: Instant, rest: seq<Timed>)
    ensures RunScript(c, [Timed(DisplayAllBills, now)] + rest) ==
      (RunScript(c, rest).0, [Emitted(BillTable(c.bills))] + RunScript(c, rest).1)
  {
    RunScriptCons(c, Timed(DisplayAllBills, now), rest);
    DisplaysReadOnly(c, now);
  }

  /** A script that starts with completing a table that has exactly one item, at position i. */
  lemma RunCompletedUnique(c: Cafe, i: nat, table: int, now: Instant, rest: seq<Timed>)
    requires i < |c.inProgress| && c.inProgress[i].tableNumber == table
    requires forall j :: 0 <= j < |c.inProgress| && j != i ==> c.inProgress[j].tableNumber != table
    ensures
      var next := c.(inProgress := c.inProgress[..i] + c.inProgress[i + 1..]);
      RunScript(c, [Timed(ProductCompleted(table), now)] + rest) == RunScript(next, rest)
  {
    RunScriptCons(c, Timed(ProductCompleted(table), now), rest);
    CompletionReachesTracker(c, table, now);
    Tracker.CompleteUnique(c.inProgress, i, table);
    assert Tracker.CompletionEffects(Tracker.Removed(c.inProgress[i]), table) == [];
    assert Emit([]) + RunScript(c.(inProgress := c.inProgress[..i] + c.inProgress[i + 1..]), rest).1
      == RunScript(c.(inProgress := c.inProgress[..i] + c.inProgress[i + 1..]), rest).1;
  }

  /** One Tell followed by the rest of a script. */
  lemma RunScriptCons(c: Cafe, t: Timed, rest: seq<Timed>)
    ensures RunScript(c, [t] + rest) ==
      (RunScript(Tell(c, t).0, rest).0, Tell(c, t).1 + RunScript(Tell(c, t).0, rest).1)
  {
    assert ([t] + rest)[0] == t && ([t] + rest)[1..] == rest;
  }
}
