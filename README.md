# Cafe actors — a Dafny model

This project models the cafe demo built on Akka.NET (`AkkaDemo/Program.cs`).
It has four actors:

- **OrderActor** splits a new order into two messages. One goes to the kitchen tracker and one to the billing ledger.
- **ProductProcessingActor** keeps the list of products ordered but not yet completed.
- **BillingActor** keeps the append-only ledger of bills.
- **ManagerActor** is the front door. It forwards each message, unchanged, to the actor that owns it.

Each handler runs to completion on the actor's private state. So each actor is modelled as a sequential state transition:

- `Domain.dfy`: the data records (`Product`, `InprogressProduct`, `Bill`), the message vocabulary as one datatype, and the observable effects of a handler.
- `Tracker.dfy`: the item tracker.
  - `SingleOrDefault` over the list is `FindSingle`. Its three answers are no match, the single match, or the exception on two or more matches.
  - `List.Remove` is `RemoveFirst`.
  - The completion handler is `Complete`, which returns `Removed`, `NotFound` or `Failed`.
  - Class `ProductProcessingActor` holds the list as a `seq` field. Its methods update that field in place.
- `Billing.dfy`: the ledger.
  - Class `BillingActor` holds the bills as a `seq` field.
  - The clock reading (`DateTime.Now`) that stamps a bill is an `Instant` parameter.
- `Routing.dfy`: the actor names and paths, the directory that resolves a path, which message types each actor handles, and the stateless `OrderActor` and `ManagerActor` as pure functions from a message to the sends they issue.
- `Cafe.dfy`: the actors wired together by path.
  - Each send is processed to completion, with every send it causes, before the next one starts. Main mostly waits for the operator (`Console.ReadLine`) between its `Tell`s, which gives this schedule. Two pairs of Tells are sent with no wait between them: Program.cs:232-233 and 235-236. Each pair agrees with the schedule anyway, because both of its messages take the same links, from Main to the manager and from the manager to the tracker, and Akka keeps the order of messages on each link.
  - The scenario of `Main` is proved end to end on this model.

Three behaviours of the code shape the model:

- **Removal.** The completion handler calls `SingleOrDefault`, which throws when the table has two or more items. The model has a `Failed` outcome for this case, which leaves the list unchanged.
- **Prices and table numbers.** These are plain `int`s that nothing checks. The model checks nothing on them either.
- **Unknown paths.** A send to a path that no actor is registered under goes to Akka's dead letters. The model records it as a `DeadLetter` event.

## Model

| member | source | states |
|---|---|---|
| Tracker.FindSingle | AkkaDemo/Program.cs:153 | SingleOrDefault over the items of one table. It gives no match exactly when the table has no items, the single match exactly when it has one (at a position holding that table, and no other position does), and the exception exactly when it has two or more. |
| Tracker.RemoveFirstAt | AkkaDemo/Program.cs:156 | List.Remove of an item that occurs at position i and nowhere earlier removes exactly position i. |
| Tracker.Complete | AkkaDemo/Program.cs:151-163 | The completion handler. NotFound exactly when no item has the table, Removed exactly when one does, Failed exactly when two or more do. The list is unchanged except on Removed. On Removed, the removed item has the table, the list is one shorter, no item of that table remains, and the rest is the list with that one position cut out. |
| Tracker.CompleteUnique | AkkaDemo/Program.cs:153-157 | When only position i has the table, completion removes that item and nothing else. The result keeps the multiset of the other items. |
| Tracker.CompleteMissing | AkkaDemo/Program.cs:153-161 | A table with no item leaves the list exactly as it was and yields the "Table number not found" diagnostic. |
| Tracker.CompleteFaultsOnDuplicates | AkkaDemo/Program.cs:153 | Two items for the same table make the completion fail. Both items stay, the list is unchanged, and the effect is the exception. |
| Tracker.CompleteKeepsOrder | AkkaDemo/Program.cs:156 | After removing position i, the items before it keep their positions and the items after it move up by one. The relative order is preserved. |
| Tracker.Receive | AkkaDemo/Program.cs:146-174 | ProcessProduct appends (table, name) at the end with no output. DisplayInprogressProducts leaves the list unchanged and shows exactly the list, in order. Every message other than ProcessProduct and ProductCompleted leaves the list unchanged. |
| Tracker.RunSize | AkkaDemo/Program.cs:142-163 | After any mailbox is processed in order, the final length plus the successful removals equals the initial length plus the items started. |
| Tracker.ProductProcessingActor.constructor | AkkaDemo/Program.cs:142 | The list starts empty. |
| Tracker.ProductProcessingActor.ProcessProduct | AkkaDemo/Program.cs:146-149 | The new list is the old list with exactly one item (table, name) appended. This agrees with Tracker.Receive on the same message. |
| Tracker.ProductProcessingActor.ProductCompleted | AkkaDemo/Program.cs:151-163 | The outcome and the new list are those of Complete on the old list. The effects are none, the diagnostic, or the exception, according to the outcome. The new list and the effects agree with Tracker.Receive. |
| Tracker.ProductProcessingActor.DisplayInprogressProducts | AkkaDemo/Program.cs:165-174 | Changes nothing and returns one row per item, in list order. This is the table Tracker.Receive shows. |
| Billing.Receive | AkkaDemo/Program.cs:114-131 | CreateBill appends Bill(table, product, now) and shows exactly that bill. DisplayAllBills leaves the ledger unchanged and shows the whole ledger in order. No message removes or changes a bill. |
| Billing.RunAppends | AkkaDemo/Program.cs:110-131 | Processing any timed mailbox leaves the ledger equal to the old ledger followed by one bill per CreateBill message, in mailbox order, each stamped with its processing time. |
| Billing.NewBillsCount | AkkaDemo/Program.cs:114-117 | There is one new bill per CreateBill message. |
| Billing.LedgerLength | AkkaDemo/Program.cs:110-117 | The ledger length is the old length plus the number of CreateBill messages processed. The old bills are an unchanged prefix. |
| Billing.BillingActor.constructor | AkkaDemo/Program.cs:110 | The ledger starts empty. |
| Billing.BillingActor.CreateBill | AkkaDemo/Program.cs:114-121 | The new ledger is the old one with Bill(table, product, now) appended. The rows shown are that bill alone. Both agree with Billing.Receive. |
| Billing.BillingActor.DisplayAllBills | AkkaDemo/Program.cs:123-131 | Changes nothing and returns one row per bill, in ledger order. This is the table Billing.Receive shows at any clock reading. |
| Routing.PathOfInjective | AkkaDemo/Program.cs:216-220 | No two actors share a path. |
| Routing.Resolve | AkkaDemo/Program.cs:216-220 | A path selects an actor exactly when it is "/user/" followed by that actor's registered name. |
| Routing.OrderReceive | AkkaDemo/Program.cs:97-104 | A CreateOrderMessage yields exactly two sends, in order: ProcessProduct(table, product name) to the item tracker, then CreateBill(table, product) to the ledger. Every send reaches an actor that handles it. Other messages yield none. |
| Routing.ManagerReceive | AkkaDemo/Program.cs:185-207 | A message is forwarded exactly when the manager has a handler for it. It is forwarded unchanged, to an actor other than the manager that handles it, and that actor is the only such one. |
| Cafe.NewOrderFansOut | AkkaDemo/Program.cs:97-104 | A new order told to the manager adds one item for the table at the end of the in-progress list and one bill at the end of the ledger. Its only output is the new bill. |
| Cafe.CompletionReachesTracker | AkkaDemo/Program.cs:199-202 | A completion told to the manager is exactly the tracker's Complete. The ledger is untouched. |
| Cafe.DisplaysReadOnly | AkkaDemo/Program.cs:194-207 | Both display requests told to the manager leave the whole state unchanged. They show the current list and the whole ledger, respectively. |
| Cafe.DeliverKeepsBills | AkkaDemo/Program.cs:108-131 | Any send to any path keeps the earlier ledger as a prefix. |
| Cafe.DeliverAllKeepsBills | AkkaDemo/Program.cs:108-131 | Any sequence of sends keeps the earlier ledger as a prefix. |
| Cafe.ScriptKeepsBills | AkkaDemo/Program.cs:108-131 | Any script of Tells keeps the earlier ledger as a prefix. |
| Cafe.RunNewOrder | AkkaDemo/Program.cs:189-192 | A script that starts with a new order continues from the state with the item and the bill appended, after showing the bill. |
| Cafe.RunDisplayInprogress | AkkaDemo/Program.cs:204-207 | A script that starts with a look at the list shows the list and continues from the same state. |
| Cafe.RunDisplayBills | AkkaDemo/Program.cs:194-197 | A script that starts with a look at the ledger shows the ledger and continues from the same state. |
| Cafe.RunCompletedUnique | AkkaDemo/Program.cs:199-202 | A script that starts with completing a table that has one item continues from the list without that item, with no output. |
| Cafe.DemoOutcome | AkkaDemo/Program.cs:223-239 | Main's script ends with only (3, "Green Tea") in progress and the three bills priced 20, 30 and 25, in order. Its outputs, in order, are the three new bills, the list as [1, 2, 3], then [1, 3], then [3], and the full ledger. |
| Cafe.DemoFrom2 | AkkaDemo/Program.cs:225-239 | Main from the second order on gives the same final state and the remaining outputs. |
| Cafe.DemoFrom5 | AkkaDemo/Program.cs:232-239 | Main from the completion of table 2 on gives the same final state and the remaining outputs. |
| Cafe.DemoFrom7 | AkkaDemo/Program.cs:235-239 | Main from the completion of table 1 on gives the same final state and the remaining outputs. |

## Left out

- The Akka runtime: actor system, `ActorOf`, mailboxes, the thread pool, and asynchronous delivery order across different actors. A send is a (path, message) value. Concurrency is replaced by processing each Tell to completion, as described above.
- Supervision after the exception thrown by `SingleOrDefault`. The handler's step ends in the `Failed` outcome and a `Fault` effect, with the list unchanged. Akka's default supervisor then restarts the tracker, and the restarted tracker's list is empty. That restart is not modelled.
- Tracker.RunSize / Tracker.Run / Cafe.RunScript: after a failed completion they go on processing the later messages with the list kept as it was, not emptied by a restart. So RunSize's balance is the program's only while no completion fails. An example: ProcessProduct(1, p), ProcessProduct(1, q), ProductCompleted(1) leaves two items in the model and none in the program.
- Console formatting: column widths and the header lines. Display handlers return their rows. `DateTime.ToString` is not modelled.
- The clock. `DateTime.Now` becomes an opaque `Instant` supplied with each Tell.
- `Console.ReadLine` pacing in `Main`. It only decides when the next Tell happens.
- Object identity. `Product`, `InprogressProduct` and `Bill` are classes with setters, but no code ever writes a property after construction, so they are values here. `List.Remove` compares references. The model compares values, and `RemoveFirstAt` shows the two agree on the single match that is removed.
- Null references. The program never passes a null product or message, so none are modelled.
- Integer width. The C# `int` fields are stored and compared but never computed with, so 32-bit wrap-around cannot arise. They are unbounded `int`s here.
