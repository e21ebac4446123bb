/** The billing ledger (BillingActor): every bill ever created, in the order
    it was created. No handler removes or edits a bill. */
module Billing {
  import opened Domain

  /** The ledger's handlers as one step, at clock reading now: the new
      ledger and the bill tables it shows. Messages it has no handler for
      leave the ledger unchanged. */
  function Receive(bills: seq<Bill>, m: Message, now: Instant): (r: (seq<Bill>, seq<Effect>))
    ensures m.CreateBill? ==>
      r == (bills + [Bill(m.tableNumber, m.product, now)], [BillTable([Bill(m.tableNumber, m.product, now)])])
    ensures m.DisplayAllBills? ==> r == (bills, [BillTable(bills)])
    ensures !m.CreateBill? ==> r.0 == bills
  {
    match m
    case CreateBill(table, product) =>
      var bill := Bill(table, product, now);
      (bills + [bill], [BillTable([bill])])
    case DisplayAllBills => (bills, [BillTable(bills)])
    case _ => (bills, [])
  }

  /** The ledger after the actor has processed its mailbox in order. */
  function Run(bills: seq<Bill>, mailbox: seq<Timed>): seq<Bill>
    decreases |mailbox|
  {
    if mailbox == [] then bills
    else Run(Receive(bills, mailbox[0].message, mailbox[0].at).0, mailbox[1..])
  }

  /** Reference definition: one bill per CreateBillMessage, in mailbox order,
      stamped with the time at which it was processed. */
  function NewBills(mailbox: seq<Timed>): seq<Bill>
  {
    if mailbox == [] then []
    else
      (match mailbox[0].message
       case CreateBill(table, product) => [Bill(table, product, mailbox[0].at)]
       case _ => [])
      + NewBills(mailbox[1..])
  }

  /** Number of CreateBillMessages in the mailbox. */
  function CreateBillCount(mailbox: seq<Timed>): nat
  {
    if mailbox == [] then 0
    else (if mailbox[0].message.CreateBill? then 1 else 0) + CreateBillCount(mailbox[1..])
  }

  /** The ledger only grows: processing a mailbox keeps every earlier bill
      where it was and appends exactly the new bills, in order. */
  lemma {:induction false} RunAppends(bills: seq<Bill>, mailbox: seq<Timed>)
    ensures Run(bills, mailbox) == bills + NewBills(mailbox)
    decreases |mailbox|
  {
    if mailbox == [] {
      assert bills + [] == bills;
    } else {
      var m := mailbox[0];
      RunAppends(Receive(bills, m.message, m.at).0, mailbox[1..]);
      if m.message.CreateBill? {
        assert Receive(bills, m.message, m.at).0 + NewBills(mailbox[1..])
          == bills + ([Bill(m.message.tableNumber, m.message.product, m.at)] + NewBills(mailbox[1..]));
      } else {
        assert NewBills(mailbox) == NewBills(mailbox[1..]);
      }
    }
  }

  /** One bill per CreateBillMessage processed. */
  lemma {:induction false} NewBillsCount(mailbox: seq<Timed>)
    ensures |NewBills(mailbox)| == CreateBillCount(mailbox)
  {
    if mailbox != [] {
      NewBillsCount(mailbox[1..]);
    }
  }

  /** Ledger length after a mailbox: the earlier length plus the number of
      CreateBillMessages, with every earlier bill unchanged. */
  lemma LedgerLength(bills: seq<Bill>, mailbox: seq<Timed>)
    ensures |Run(bills, mailbox)| == |bills| + CreateBillCount(mailbox)
    ensures Run(bills, mailbox)[..|bills|] == bills
  {
    RunAppends(bills, mailbox);
    NewBillsCount(mailbox);
  }

  /** The actor: its one field is the ledger, which CreateBill extends in place. */
  class BillingActor {
    var bills: seq<Bill>

    constructor ()
      ensures bills == []
    {
      bills := [];
    }

    /** CreateBillMessage: stamp the bill with now, append it, and show it. */
    method CreateBill(tableNumber: int, product: Product, now: Instant) returns (shown: seq<Bill>)
      modifies this
      ensures bills == old(bills) + [Bill(tableNumber, product, now)]
      ensures shown == [Bill(tableNumber, product, now)]
      ensures (bills, [BillTable(shown)]) == Receive(old(bills), Message.CreateBill(tableNumber, product), now)
    {
      var bill := Bill(tableNumber, product, now);
      bills := bills + [bill];
      shown := [bill];
    }

    /** DisplayAllBillsMessage: one row per bill, in ledger order. */
    method DisplayAllBills() returns (rows: seq<Bill>)
      ensures rows == bills
      ensures forall now :: Receive(bills, Message.DisplayAllBills, now) == (bills, [BillTable(rows)])
    {
      rows := [];
      var i := 0;
      while i < |bills|
        invariant 0 <= i <= |bills|
        invariant rows == bills[..i]
      {
        rows := rows + [bills[i]];
        i := i + 1;
      }
    }
  }
}
