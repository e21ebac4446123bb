/** The item tracker (ProductProcessingActor): the list of products ordered
    but not yet completed, in the order they were started. */
module Tracker {
  import opened Domain

  /** Number of items of the list that belong to the given table. */
  function CountTable(s: seq<InprogressProduct>, table: int): nat
  {
    if s == [] then 0
    else (if s[0].tableNumber == table then 1 else 0) + CountTable(s[1..], table)
  }

  lemma {:induction false} CountTableZero(s: seq<InprogressProduct>, table: int)
    ensures CountTable(s, table) == 0 <==> forall i :: 0 <= i < |s| ==> s[i].tableNumber != table
  {
    if s != [] {
      CountTableZero(s[1..], table);
      assert forall i :: 1 <= i < |s| ==> s[i] == s[1..][i - 1];
    }
  }

  lemma {:induction false} CountTableAppend(s: seq<InprogressProduct>, t: seq<InprogressProduct>, table: int)
    ensures CountTable(s + t, table) == CountTable(s, table) + CountTable(t, table)
  {
    if s != [] {
      assert (s + t)[0] == s[0] && (s + t)[1..] == s[1..] + t;
      CountTableAppend(s[1..], t, table);
    } else {
      assert s + t == t;
    }
  }

  /** The three answers of SingleOrDefault with the predicate
      "item.tableNumber == table": no item, the single item (by position),
      or the exception it throws when a second item matches. */
  datatype Lookup = NoMatch | Unique(index: nat) | Ambiguous

  /** SingleOrDefault over the list, scanning from the front. */
  function FindSingle(s: seq<InprogressProduct>, table: int): (r: Lookup)
    ensures r.NoMatch? <==> CountTable(s, table) == 0
    ensures r.Unique? <==> CountTable(s, table) == 1
    ensures r.Ambiguous? <==> CountTable(s, table) >= 2
    ensures r.Unique? ==> r.index < |s| && s[r.index].tableNumber == table
    ensures r.Unique? ==> forall j :: 0 <= j < |s| && j != r.index ==> s[j].tableNumber != table
  {
    if s == [] then NoMatch
    else
      var rest := FindSingle(s[1..], table);
      assert forall j :: 1 <= j < |s| ==> s[j] == s[1..][j - 1];
      if s[0].tableNumber == table then
        (if rest.NoMatch? then CountTableZero(s[1..], table); Unique(0) else Ambiguous)
      else
        match rest
        case NoMatch => NoMatch
        case Unique(i) => Unique(i + 1)
        case Ambiguous => Ambiguous
  }

  /** List.Remove: drops the first element equal to x; no change if none is. */
  function RemoveFirst(s: seq<InprogressProduct>, x: InprogressProduct): seq<InprogressProduct>
  {
    if s == [] then []
    else if s[0] == x then s[1..]
    else [s[0]] + RemoveFirst(s[1..], x)
  }

  /** When x occurs at position i and nowhere before it, removing the first
      element equal to x removes exactly position i. */
  lemma {:induction false} RemoveFirstAt(s: seq<InprogressProduct>, i: nat, x: InprogressProduct)
    requires i < |s| && s[i] == x
    requires forall j :: 0 <= j < i ==> s[j] != x
    ensures RemoveFirst(s, x) == s[..i] + s[i + 1..]
  {
    if i > 0 {
      assert s[0] != x;
      RemoveFirstAt(s[1..], i - 1, x);
      assert s[1..][..i - 1] == s[1..i];
      assert s[1..][i..] == s[i + 1..];
      assert [s[0]] + s[1..i] == s[..i];
    }
  }

  /** What a ProductCompletedMessage did. */
  datatype Completion = Removed(item: InprogressProduct) | NotFound | Failed

  /** The ProductCompletedMessage handler: SingleOrDefault; on a match,
      List.Remove of that item; on none, the diagnostic; on two or more, the
      exception leaves the list as it was. Returns the outcome and the new list. */
  function Complete(s: seq<InprogressProduct>, table: int): (r: (Completion, seq<InprogressProduct>))
    ensures r.0.NotFound? <==> CountTable(s, table) == 0
    ensures r.0.Removed? <==> CountTable(s, table) == 1
    ensures r.0.Failed? <==> CountTable(s, table) >= 2
    ensures !r.0.Removed? ==> r.1 == s
    ensures r.0.Removed? ==>
      r.0.item.tableNumber == table &&
      |r.1| == |s| - 1 &&
      CountTable(r.1, table) == 0 &&
      exists i :: 0 <= i < |s| && s[i] == r.0.item && r.1 == s[..i] + s[i + 1..]
  {
    match FindSingle(s, table)
    case NoMatch => (NotFound, s)
    case Ambiguous => (Failed, s)
    case Unique(i) =>
      var rest := RemoveFirst(s, s[i]);
      RemoveFirstAt(s, i, s[i]);
      assert s == s[..i] + [s[i]] + s[i + 1..];
      CountTableAppend(s[..i] + [s[i]], s[i + 1..], table);
      CountTableAppend(s[..i], [s[i]], table);
      CountTableAppend(s[..i], s[i + 1..], table);
      (Removed(s[i]), rest)
  }

  /** When exactly the item at position i belongs to the table, completing
      the table removes that item and nothing else. */
  lemma CompleteUnique(s: seq<InprogressProduct>, i: nat, table: int)
    requires i < |s| && s[i].tableNumber == table
    requires forall j :: 0 <= j < |s| && j != i ==> s[j].tableNumber != table
    ensures Complete(s, table) == (Removed(s[i]), s[..i] + s[i + 1..])
    ensures multiset(Complete(s, table).1) + multiset{s[i]} == multiset(s)
  {
    assert s == s[..i] + [s[i]] + s[i + 1..];
    CountTableAppend(s[..i] + [s[i]], s[i + 1..], table);
    CountTableAppend(s[..i], [s[i]], table);
    CountTableZero(s[..i], table);
    CountTableZero(s[i + 1..], table);
    var r := FindSingle(s, table);
    assert r == Unique(i);
  }

  /** A completion for a table with no item changes nothing and reports
      the diagnostic. */
  lemma CompleteMissing(s: seq<InprogressProduct>, table: int)
    requires forall j :: 0 <= j < |s| ==> s[j].tableNumber != table
    ensures Complete(s, table) == (NotFound, s)
    ensures CompletionEffects(Complete(s, table).0, table) == [Diagnostic(TableNotFoundText)]
  {
    CountTableZero(s, table);
  }

  /** Two items for the same table make SingleOrDefault throw: the
      completion fails and the list keeps both items. */
  lemma CompleteFaultsOnDuplicates(s: seq<InprogressProduct>, i: nat, j: nat, table: int)
    requires i < j < |s| && s[i].tableNumber == table && s[j].tableNumber == table
    ensures Complete(s, table) == (Failed, s)
    ensures CompletionEffects(Complete(s, table).0, table) == [Fault(Message.ProductCompleted(table))]
  {
    assert s == s[..j] + s[j..];
    CountTableAppend(s[..j], s[j..], table);
    assert s[..j][i] == s[i];
    CountTableZero(s[..j], table);
    assert s[j..][0] == s[j];
    CountTableZero(s[j..], table);
  }

  /** After a removal every other item is still there, in its old order:
      the items before the removed one keep their positions, the items after
      it move up by one. */
  lemma CompleteKeepsOrder(s: seq<InprogressProduct>, i: nat, table: int)
    requires i < |s| && s[i].tableNumber == table
    requires forall j :: 0 <= j < |s| && j != i ==> s[j].tableNumber != table
    ensures |Complete(s, table).1| == |s| - 1
    ensures forall k :: 0 <= k < i ==> Complete(s, table).1[k] == s[k]
    ensures forall k :: i <= k < |s| - 1 ==> Complete(s, table).1[k] == s[k + 1]
  {
    CompleteUnique(s, i, table);
    var rest := s[..i] + s[i + 1..];
    assert forall k :: i <= k < |s| - 1 ==> rest[k] == s[i + 1..][k - i];
  }

  /** What the ProductCompletedMessage handler writes or throws. */
  function CompletionEffects(c: Completion, table: int): seq<Effect>
  {
    match c
    case Removed(_) => []
    case NotFound => [Diagnostic(TableNotFoundText)]
    case Failed => [Fault(Message.ProductCompleted(table))]
  }

  /** The tracker's handlers as one step: the new list and the effects.
      Messages it has no handler for leave the list unchanged. */
  function Receive(s: seq<InprogressProduct>, m: Message): (r: (seq<InprogressProduct>, seq<Effect>))
    ensures m.ProcessProduct? ==> r == (s + [InprogressProduct(m.tableNumber, m.productName)], [])
    ensures m.DisplayInprogressProducts? ==> r == (s, [InprogressTable(s)])
    ensures !m.ProcessProduct? && !m.ProductCompleted? ==> r.0 == s
  {
    match m
    case ProcessProduct(table, name) => (s + [InprogressProduct(table, name)], [])
    case ProductCompleted(table) =>
      var c := Complete(s, table);
      (c.1, CompletionEffects(c.0, table))
    case DisplayInprogressProducts => (s, [InprogressTable(s)])
    case _ => (s, [])
  }

  /** Number of items the messages start. */
  function Started(ms: seq<Message>): nat
  {
    if ms == [] then 0 else (if ms[0].ProcessProduct? then 1 else 0) + Started(ms[1..])
  }

  /** Number of completions that removed an item, when the tracker processes
      the messages in order from list s. */
  function Removals(s: seq<InprogressProduct>, ms: seq<Message>): nat
    decreases |ms|
  {
    if ms == [] then 0
    else
      (if ms[0].ProductCompleted? && Complete(s, ms[0].tableNumber).0.Removed? then 1 else 0)
      + Removals(Receive(s, ms[0]).0, ms[1..])
  }

  /** The list after the tracker has processed its mailbox in order. */
  function Run(s: seq<InprogressProduct>, ms: seq<Message>): seq<InprogressProduct>
    decreases |ms|
  {
    if ms == [] then s else Run(Receive(s, ms[0]).0, ms[1..])
  }

  /** Since one handler runs at a time, the final size is the start size plus
      the items started minus the successful removals; nothing is lost or duplicated. */
  lemma {:induction false} RunSize(s: seq<InprogressProduct>, ms: seq<Message>)
    ensures |Run(s, ms)| + Removals(s, ms) == |s| + Started(ms)
    decreases |ms|
  {
    if ms != [] {
      RunSize(Receive(s, ms[0]).0, ms[1..]);
    }
  }

  /** The actor: its one field is the list, which the handlers update in place. */
  class ProductProcessingActor {
    var inProgressProducts: seq<InprogressProduct>

    constructor ()
      ensures inProgressProducts == []
    {
      inProgressProducts := [];
    }

    /** ProcessProductMessage: append one item at the end. */
    method ProcessProduct(tableNumber: int, productName: string)
      modifies this
      ensures inProgressProducts == old(inProgressProducts) + [InprogressProduct(tableNumber, productName)]
      ensures (inProgressProducts, []) == Receive(old(inProgressProducts), Message.ProcessProduct(tableNumber, productName))
    {
      inProgressProducts := inProgressProducts + [InprogressProduct(tableNumber, productName)];
    }

    /** ProductCompletedMessage. The outcome tells the three cases apart;
        the effects are what it writes or throws. */
    method ProductCompleted(tableNumber: int) returns (outcome: Completion, effects: seq<Effect>)
      modifies this
      ensures (outcome, inProgressProducts) == Complete(old(inProgressProducts), tableNumber)
      ensures effects == CompletionEffects(outcome, tableNumber)
      ensures (inProgressProducts, effects) == Receive(old(inProgressProducts), Message.ProductCompleted(tableNumber))
    {
      var found := FindSingle(inProgressProducts, tableNumber);
      match found {
        case NoMatch =>
          outcome := NotFound;
        case Ambiguous =>
          outcome := Failed;
        case Unique(i) =>
          var item := inProgressProducts[i];
          inProgressProducts := RemoveFirst(inProgressProducts, item);
          outcome := Removed(item);
      }
      effects := CompletionEffects(outcome, tableNumber);
    }

    /** DisplayInprogressProductsMessage: one row per item, in list order. */
    method DisplayInprogressProducts() returns (rows: seq<InprogressProduct>)
      ensures rows == inProgressProducts
      ensures (inProgressProducts, [InprogressTable(rows)]) == Receive(inProgressProducts, Message.DisplayInprogressProducts)
    {
      rows := [];
      var i := 0;
      while i < |inProgressProducts|
        invariant 0 <= i <= |inProgressProducts|
        invariant rows == inProgressProducts[..i]
      {
        rows := rows + [inProgressProducts[i]];
        i := i + 1;
      }
    }
  }
}
