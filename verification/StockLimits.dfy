/** Two promises the stock services make on top of the ledger, each with the exact calls that break
    it: stock is never promised twice, and a purchase order says `received` only when it is. */
module StockLimits {
  import opened Wrappers
  import opened Sequences
  import opened StockLedger
  import opened StockProofs
  import opened StockRuns

  // ---- no over-promising ----

  ghost predicate NoShortage(rows: seq<StockRow>) {
    forall i :: 0 <= i < |rows| ==> 0 <= rows[i].available
  }

  ghost predicate Covered(s: Ledger) {
    forall i :: 0 <= i < |s.inventory| ==> 0 <= s.inventory[i].reserved <= s.inventory[i].onHand
  }

  lemma {:induction false} CoveredIsNoShortage(s: Ledger)
    requires Inv(s)
    ensures Covered(s) <==> NoShortage(s.inventory)
  {
    forall i | 0 <= i < |s.inventory|
      ensures 0 <= s.inventory[i].reserved
      ensures s.inventory[i].available == s.inventory[i].onHand - s.inventory[i].reserved
    {
      var p, w := s.inventory[i].part, s.inventory[i].warehouse;
      IndexWhereUnique(AtPair(p, w), s.inventory, i);
      assert PairReplays(s.inventory, s.movements, p, w) && PairAccounted(s.movements, s.jobParts, p, w);
      assert forall k :: 0 <= k < |s.jobParts| ==> JobPartOk(s.inventory, s.jobParts[k]);
      SumByNonNegative(Outstanding(p, w), s.jobParts);
    }
  }

  /** What a caller must check first: an outward adjustment asks for no more than is available, and
      a negative return takes back no more than is available. Every other call is safe. */
  predicate WithinAvailable(s: Ledger, call: Call) {
    match call
    case Adjust(part, warehouse, inward, quantity) =>
      !inward && AdjustStock(s, part, warehouse, inward, quantity).Success? ==>
        quantity <= AvailableAt(s, part, warehouse)
    case Return(id, amount) =>
      ReturnForJob(s, id, amount).Success? && amount.Some? && amount.value < 0 ==>
        var jp := s.jobParts[IndexWhere(JobPartIs(id), s.jobParts)];
        -amount.value <= AvailableAt(s, jp.part.value, jp.warehouse.value)
    case _ => true
  }

  /** A booked movement leaves no shortage exactly when the pair's available stock covers it. */
  lemma {:induction false} BookShortage(rows: seq<StockRow>, log: seq<Movement>, m: Movement)
    requires Replays(rows, log) && NoShortage(rows)
    ensures NoShortage(Book(rows, m)) <==>
      0 <= AvailableIn(rows, m.part, m.warehouse) + OnHandChange(m) - ReservedChange(m)
  {
    OpenRowFinds(rows, m.part, m.warehouse);
    var open := OpenRow(rows, m.part, m.warehouse);
    var i := IndexWhere(AtPair(m.part, m.warehouse), open);
    assert PairReplays(rows, log, m.part, m.warehouse);
    OpenReplays(rows, log, m.part, m.warehouse);
    assert PairReplays(open, log, m.part, m.warehouse);
    assert Book(rows, m)[i].available == AvailableIn(rows, m.part, m.warehouse) + OnHandChange(m) - ReservedChange(m);
  }

  lemma {:induction false} BookedOneShortage(s: Ledger, m: Movement, next: Ledger)
    requires Inv(s) && NoShortage(s.inventory) && Booked(s, [m], next)
    ensures NoShortage(next.inventory) <==>
      0 <= AvailableAt(s, m.part, m.warehouse) + OnHandChange(m) - ReservedChange(m)
  {
    BookShortage(s.inventory, s.movements, m);
    assert BookAll(Book(s.inventory, m), [m][1..]) == Book(s.inventory, m);
  }

  lemma {:induction false} AdjustShortage(s: Ledger, part: Id, warehouse: Id, inward: bool, quantity: int)
    requires Inv(s) && NoShortage(s.inventory) && AdjustStock(s, part, warehouse, inward, quantity).Success?
    ensures NoShortage(AdjustStock(s, part, warehouse, inward, quantity).value.inventory)
      <==> inward || quantity <= AvailableAt(s, part, warehouse)
  {
    BookedOneShortage(s, AdjustMovement(s, part, warehouse, inward, quantity),
                      AdjustStock(s, part, warehouse, inward, quantity).value);
    var i := IndexWhere(AtPair(part, warehouse), s.inventory);
    assert i < |s.inventory| ==> 0 <= s.inventory[i].available;
  }

  lemma {:induction false} TransferCovers(s: Ledger, part: Id, from: Id, to: Id, quantity: int)
    requires Inv(s) && NoShortage(s.inventory) && TransferStock(s, part, from, to, quantity).Success?
    ensures NoShortage(TransferStock(s, part, from, to, quantity).value.inventory)
  {
    var ms := TransferMovements(s, part, from, to, quantity);
    TransferBooks(s, part, from, to, quantity);
    BookTwo(s.inventory, ms[0], ms[1]);
    assert ms == [ms[0], ms[1]];
    BookShortage(s.inventory, s.movements, ms[0]);
    BookReplays(s.inventory, s.movements, ms[0]);
    BookShortage(Book(s.inventory, ms[0]), s.movements + [ms[0]], ms[1]);
  }

  lemma {:induction false} ReceiveCovers(s: Ledger, item: Id, quantity: int, requested: Option<Id>)
    requires Inv(s) && NoShortage(s.inventory) && ReceiveItem(s, item, quantity, requested).Success?
    ensures NoShortage(ReceiveItem(s, item, quantity, requested).value.inventory)
  {
    var k := IndexWhere(ItemIs(item), s.items);
    var o := IndexWhere(OrderIs(s.items[k].order), s.orders);
    var warehouse := ReceivingWarehouse(s, requested).value;
    BookedOneShortage(s, ReceiptMovement(s, k, quantity, warehouse), Receipt(s, k, o, quantity, warehouse));
    var i := IndexWhere(AtPair(s.items[k].part, warehouse), s.inventory);
    assert i < |s.inventory| ==> 0 <= s.inventory[i].available;
  }

  lemma {:induction false} JobShortage(s: Ledger, k: nat, ms: seq<Movement>, next: Ledger)
    requires Inv(s) && NoShortage(s.inventory) && Settled(s, k, ms, next) && |ms| <= 1
    ensures ms == [] ==> NoShortage(next.inventory)
    ensures ms != [] ==>
      (NoShortage(next.inventory) <==>
       0 <= AvailableAt(s, ms[0].part, ms[0].warehouse) + OnHandChange(ms[0]) - ReservedChange(ms[0]))
    ensures ms != [] ==> 0 <= AvailableAt(s, ms[0].part, ms[0].warehouse)
  {
    if ms != [] {
      assert ms == [ms[0]];
      BookedOneShortage(s, ms[0], next);
      var i := IndexWhere(AtPair(ms[0].part, ms[0].warehouse), s.inventory);
      assert i < |s.inventory| ==> 0 <= s.inventory[i].available;
    }
  }

  lemma {:induction false} ReserveCovers(s: Ledger, id: Id)
    requires Inv(s) && NoShortage(s.inventory) && ReserveExistingForJob(s, id).Success?
    ensures NoShortage(ReserveExistingForJob(s, id).value.inventory)
  {
    ReserveBooks(s, id);
    var k := IndexWhere(JobPartIs(id), s.jobParts);
    JobShortage(s, k, JobMovement(s.jobParts[k], JobReserve, s.jobParts[k].quantity),
                ReserveExistingForJob(s, id).value);
  }

  lemma {:induction false} ConsumeCovers(s: Ledger, id: Id, amount: Option<int>)
    requires Inv(s) && NoShortage(s.inventory) && ConsumeForJob(s, id, amount).Success?
    ensures NoShortage(ConsumeForJob(s, id, amount).value.inventory)
  {
    ConsumeBooks(s, id, amount);
    var k := IndexWhere(JobPartIs(id), s.jobParts);
    var j := s.jobParts[k];
    JobShortage(s, k, JobMovement(j, JobConsume, if amount.Some? then amount.value else j.quantity),
                ConsumeForJob(s, id, amount).value);
  }

  lemma {:induction false} ReturnShortage(s: Ledger, id: Id, amount: Option<int>)
    requires Inv(s) && NoShortage(s.inventory) && ReturnForJob(s, id, amount).Success?
    ensures NoShortage(ReturnForJob(s, id, amount).value.inventory) <==> WithinAvailable(s, Return(id, amount))
  {
    ReturnBooks(s, id, amount);
    var k := IndexWhere(JobPartIs(id), s.jobParts);
    var j := s.jobParts[k];
    assert JobPartOk(s.inventory, j);
    JobShortage(s, k, JobMovement(j, JobReturn, if amount.Some? then amount.value else j.quantity),
                ReturnForJob(s, id, amount).value);
  }

  lemma {:induction false} CancelCovers(s: Ledger, id: Id)
    requires Inv(s) && NoShortage(s.inventory) && CancelReservation(s, id).Success?
    ensures NoShortage(CancelReservation(s, id).value.inventory)
  {
    CancelBooks(s, id);
    var k := IndexWhere(JobPartIs(id), s.jobParts);
    var j := s.jobParts[k];
    assert JobPartOk(s.inventory, j);
    JobShortage(s, k, if j.status == Memo then [] else JobMovement(j, JobReturn, j.quantity),
                CancelReservation(s, id).value);
  }

  lemma {:induction false} OpenAllCovers(rows: seq<StockRow>, part: Id, warehouses: seq<Warehouse>)
    requires NoShortage(rows)
    ensures NoShortage(OpenAll(rows, part, warehouses))
    decreases warehouses
  {
    if warehouses == [] {
    } else {
      OpenAllCovers(OpenRow(rows, part, warehouses[0].id), part, warehouses[1..]);
    }
  }

  /** One call from a covered ledger leaves it covered exactly when it stays within available stock. */
  lemma {:induction false} StepShortage(s: Ledger, call: Call)
    requires Inv(s) && NoShortage(s.inventory)
    ensures NoShortage(Step(s, call).inventory) <==> WithinAvailable(s, call)
  {
    if Apply(s, call).Success? {
      match call
      case CatalogPart(part) => OpenAllCovers(s.inventory, part, s.warehouses);
      case Adjust(part, warehouse, inward, quantity) => AdjustShortage(s, part, warehouse, inward, quantity);
      case Transfer(part, from, to, quantity) => TransferCovers(s, part, from, to, quantity);
      case Reserve(id) => ReserveCovers(s, id);
      case Consume(id, amount) => ConsumeCovers(s, id, amount);
      case Return(id, amount) => ReturnShortage(s, id, amount);
      case CancelPart(id) => CancelCovers(s, id);
      case Receive(item, quantity, requested) => ReceiveCovers(s, item, quantity, requested);
      case _ =>
    }
  }

  ghost predicate AlwaysCovered(s: Ledger, calls: seq<Call>)
    decreases calls
  {
    Covered(s) && (calls != [] ==> AlwaysCovered(Step(s, calls[0]), calls[1..]))
  }

  ghost predicate AlwaysWithin(s: Ledger, calls: seq<Call>)
    decreases calls
  {
    calls != [] ==> WithinAvailable(s, calls[0]) && AlwaysWithin(Step(s, calls[0]), calls[1..])
  }

  lemma {:induction false} RunCovered(s: Ledger, calls: seq<Call>)
    requires Inv(s) && Covered(s)
    ensures AlwaysCovered(s, calls) <==> AlwaysWithin(s, calls)
    decreases calls
  {
    if calls == [] {
    } else {
      var next := Step(s, calls[0]);
      StepInv(s, calls[0]);
      CoveredIsNoShortage(s);
      CoveredIsNoShortage(next);
      StepShortage(s, calls[0]);
      if Covered(next) {
        RunCovered(next, calls[1..]);
      }
    }
  }

  /** No over-promising: on-hand covers reserved on every row throughout a run exactly when every
      call of the run stays within available stock. */
  lemma {:induction false} NeverOverPromised(start: Ledger, calls: seq<Call>)
    requires Opening(start)
    ensures AlwaysCovered(start, calls) <==> AlwaysWithin(start, calls)
  {
    OpeningInv(start);
    RunCovered(start, calls);
  }

  function Shelf(rows: seq<StockRow>, log: seq<Movement>, parts: seq<JobPart>): Ledger {
    Ledger({"p"}, [Warehouse("w", true)], rows, log, parts, [], [])
  }

  lemma {:induction false} ShelfFilled() returns (s: Ledger, m: Movement)
    ensures s == Step(Shelf([], [], []), Adjust("p", "w", true, 5))
    ensures s == Shelf([StockRow("p", "w", 5, 0, 5)], [m], [])
  {
    var start := Shelf([], [], []);
    m := Movement(AdjustmentIn, "p", "w", 5, ToInventoryRow(0));
    s := Step(start, Adjust("p", "w", true, 5));
    assert OpenRow([], "p", "w") == [StockRow("p", "w", 0, 0, 0)];
    assert IndexWhere(AtPair("p", "w"), [StockRow("p", "w", 0, 0, 0)]) == 0;
    assert s.inventory == [StockRow("p", "w", 5, 0, 5)];
  }

  lemma {:induction false} ShelfPromised(s: Ledger, m: Movement) returns (t: Ledger, m': Movement, j: JobPart)
    requires s == Shelf([StockRow("p", "w", 5, 0, 5)], [m], [])
    ensures t == Step(Step(s, AddPart("j", "job", Some("p"), Some("w"), 5)), Reserve("j"))
    ensures t == Shelf([StockRow("p", "w", 5, 5, 0)], [m, m'], [j])
  {
    var memo := JobPart("j", "job", Catalog, Some("p"), Some("w"), 5, Memo, 0);
    var added := Step(s, AddPart("j", "job", Some("p"), Some("w"), 5));
    assert IndexWhere(JobPartIs("j"), s.jobParts) == 0 == |s.jobParts|;
    assert added.jobParts == [memo];
    t, j := Step(added, Reserve("j")), memo.(status := Reserved);
    m' := Movement(JobReserve, "p", "w", 5, ToJob("job"));
    assert t.inventory == [StockRow("p", "w", 5, 5, 0)] && t.movements == [m, m'] && t.jobParts == [j];
  }

  lemma {:induction false} RunFour(s: Ledger, a: Call, b: Call, c: Call, d: Call)
    ensures Run(s, [a, b, c, d]) == Step(Step(Step(Step(s, a), b), c), d)
  {
    assert [a, b, c, d][1..] == [b, c, d] && [b, c, d][1..] == [c, d] && [c, d][1..] == [d] && [d][1..] == [];
    assert Run(s, [a, b, c, d]) == Run(Step(s, a), [b, c, d]);
    assert Run(Step(s, a), [b, c, d]) == Run(Step(Step(s, a), b), [c, d]);
    assert Run(Step(Step(s, a), b), [c, d]) == Run(Step(Step(Step(s, a), b), c), [d]);
  }

  /** `adjustStock` looks at on-hand only, so it can take stock that is already promised. */
  lemma {:induction false} AdjustmentCanOverPromise()
    ensures Opening(Shelf([], [], []))
    ensures AvailableAt(Run(Shelf([], [], []),
                            [Adjust("p", "w", true, 5), AddPart("j", "job", Some("p"), Some("w"), 5), Reserve("j"),
                             Adjust("p", "w", false, 3)]), "p", "w") == -3
  {
    var s1, m1 := ShelfFilled();
    var s3, m3, j := ShelfPromised(s1, m1);
    var s4 := Step(s3, Adjust("p", "w", false, 3));
    assert s4.inventory == [StockRow("p", "w", 2, 5, -3)];
    RunFour(Shelf([], [], []), Adjust("p", "w", true, 5), AddPart("j", "job", Some("p"), Some("w"), 5), Reserve("j"),
            Adjust("p", "w", false, 3));
  }

  // ---- purchase orders ----

  function StatusOf(s: Ledger, order: Id): Option<OrderStatus> {
    var o := IndexWhere(OrderIs(order), s.orders);
    if o < |s.orders| then Some(s.orders[o].status) else None
  }

  function ItemsOf(s: Ledger, order: Id): seq<OrderItem> { Keep(ItemOf(order), s.items) }

  /** Every item of the order has come in. */
  predicate Full(s: Ledger, order: Id) {
    forall i :: 0 <= i < |s.items| && s.items[i].order == order ==> s.items[i].received >= s.items[i].ordered
  }

  lemma {:induction false} FullExact(s: Ledger, order: Id)
    ensures AllReceived(ItemsOf(s, order)) <==> Full(s, order)
  {
    var own := ItemsOf(s, order);
    forall item ensures item in own <==> item in s.items && item.order == order {
      KeepMember(ItemOf(order), s.items, item);
    }
    if AllReceived(own) {
      forall i | 0 <= i < |s.items| && s.items[i].order == order ensures s.items[i].received >= s.items[i].ordered {
        var j :| 0 <= j < |own| && own[j] == s.items[i];
      }
    }
    if Full(s, order) {
      forall j | 0 <= j < |own| ensures own[j].received >= own[j].ordered {
        assert own[j] in own;
        var i :| 0 <= i < |s.items| && s.items[i] == own[j];
      }
    }
  }

  /** In every run 0 <= received <= ordered for each item, and what an order has received is the
      total of the purchase movements that reference it. */
  lemma {:induction false} OrderReceipts(start: Ledger, calls: seq<Call>, order: Id)
    requires Opening(start)
    ensures var s := Run(start, calls);
      && (forall i :: 0 <= i < |s.items| ==> 0 <= s.items[i].received <= s.items[i].ordered)
      && SumBy(ReceivedFor(order), s.items) == SumBy(PurchasesFor(order), s.movements)
  {
    OpeningInv(start);
    RunInv(start, calls);
    assert OrderBalances(Run(start, calls).movements, Run(start, calls).items, order);
  }

  lemma {:induction false} KeepUpdateOther(order: Id, items: seq<OrderItem>, k: nat, it: OrderItem)
    requires k < |items| && items[k].order == it.order != order
    ensures Keep(ItemOf(order), items[k := it]) == Keep(ItemOf(order), items)
  {
    if k == 0 {
      assert items[k := it] == [it] + items[1..];
    } else {
      KeepUpdateOther(order, items[1..], k - 1, it);
      assert items[k := it] == [items[0]] + items[1..][k - 1 := it];
    }
  }

  /** What a call may do to orders: nothing, add one with its items, move one's status, or receive
      one item and move its order's status. */
  datatype OrderChange =
    | NoChange
    | Placed(order: Order, added: seq<OrderItem>)
    | StatusMoved(at: nat, status: OrderStatus)
    | Received(k: nat, at: nat, status: OrderStatus)

  ghost predicate Changes(s: Ledger, c: OrderChange, next: Ledger) {
    match c
    case NoChange => next.orders == s.orders && next.items == s.items
    case Placed(order, added) =>
      && next.orders == s.orders + [order] && next.items == s.items + added
      && IndexWhere(OrderIs(order.id), s.orders) == |s.orders| && order.status == Draft
      && forall i :: 0 <= i < |added| ==> added[i].order == order.id
    case StatusMoved(at, status) =>
      && at < |s.orders| && s.orders[at].status != FullyReceived
      && (s.orders[at].status == OrderCancelled ==> status == OrderCancelled)
      && next.orders == s.orders[at := s.orders[at].(status := status)] && next.items == s.items
      && at == IndexWhere(OrderIs(s.orders[at].id), s.orders)
    case Received(k, at, status) =>
      && k < |s.items| == |next.items| && at < |s.orders|
      && (s.orders[at].status == Ordered || s.orders[at].status == PartiallyReceived)
      && at == IndexWhere(OrderIs(s.items[k].order), s.orders)
      && next.orders == s.orders[at := s.orders[at].(status := status)]
      && next.items == s.items[k := next.items[k]] && next.items[k].order == s.items[k].order
      && status == (if AllReceived(ItemsOf(next, s.items[k].order)) then FullyReceived else PartiallyReceived)
  }

  lemma {:induction false} ReceiptChanges(s: Ledger, k: nat, at: nat, quantity: int, warehouse: Id)
    requires Inv(s) && k < |s.items| && at == IndexWhere(OrderIs(s.items[k].order), s.orders) && at < |s.orders|
    requires s.orders[at].status == Ordered || s.orders[at].status == PartiallyReceived
    requires 1 <= quantity && s.items[k].received + quantity <= s.items[k].ordered
    ensures var next := Receipt(s, k, at, quantity, warehouse);
      var status := if AllReceived(ItemsOf(next, s.items[k].order)) then FullyReceived else PartiallyReceived;
      Changes(s, Received(k, at, status), next)
  {
    var next := Receipt(s, k, at, quantity, warehouse);
    var items := ItemsOf(next, s.items[k].order);
    assert next.items[k] in next.items;
    KeepMember(ItemOf(s.items[k].order), next.items, next.items[k]);
    var i :| 0 <= i < |items| && items[i] == next.items[k];
    assert AnyReceived(items);
  }

  lemma {:induction false} StepChanges(s: Ledger, call: Call) returns (c: OrderChange)
    requires Inv(s)
    ensures Changes(s, c, Step(s, call))
    ensures c.StatusMoved? ==> Apply(s, call).Success? && (call.MoveOrder? || call.DropOrder?)
    ensures c.StatusMoved? && call.MoveOrder? ==> s.orders[c.at].id == call.order && c.status == call.status
    ensures c.StatusMoved? && call.DropOrder? ==> c.status == OrderCancelled
    ensures call.MoveOrder? && Apply(s, call).Success? ==> c.StatusMoved?
  {
    c := NoChange;
    if Apply(s, call).Success? {
      match call
      case Adjust(part, warehouse, inward, quantity) =>
      case Transfer(part, from, to, quantity) => TransferBooks(s, part, from, to, quantity);
      case CatalogPart(_) =>
      case AddPart(_, _, _, _, _) =>
      case Reserve(id) => ReserveBooks(s, id);
      case Consume(id, amount) => ConsumeBooks(s, id, amount);
      case Return(id, amount) => ReturnBooks(s, id, amount);
      case CancelPart(id) => CancelBooks(s, id);
      case PlaceOrder(order, items) =>
        OrderedItemsStartEmpty(order, items);
        c := Placed(Order(order, Draft, TotalCost(items)), OrderedItems(order, items));
      case MoveOrder(order, status) => c := StatusMoved(IndexWhere(OrderIs(order), s.orders), status);
      case DropOrder(order) => c := StatusMoved(IndexWhere(OrderIs(order), s.orders), OrderCancelled);
      case Receive(item, quantity, requested) =>
        var k := IndexWhere(ItemIs(item), s.items);
        var at := IndexWhere(OrderIs(s.items[k].order), s.orders);
        var warehouse := ReceivingWarehouse(s, requested).value;
        ReceiptChanges(s, k, at, quantity, warehouse);
        c := Received(k, at, if AllReceived(ItemsOf(Receipt(s, k, at, quantity, warehouse), s.items[k].order))
                             then FullyReceived else PartiallyReceived);
    }
  }

  /** How a change shows on one order: its status and its items. */
  lemma {:induction false} ChangeSeen(s: Ledger, c: OrderChange, next: Ledger, order: Id)
    requires Changes(s, c, next)
    ensures StatusOf(next, order) ==
      (match c
       case NoChange => StatusOf(s, order)
       case Placed(o, _) => if o.id == order then Some(Draft) else StatusOf(s, order)
       case StatusMoved(at, status) => if s.orders[at].id == order then Some(status) else StatusOf(s, order)
       case Received(k, at, status) => if s.items[k].order == order then Some(status) else StatusOf(s, order))
    ensures !(c.Received? && s.items[c.k].order == order) && !(c.Placed? && c.order.id == order) ==>
      ItemsOf(next, order) == ItemsOf(s, order)
  {
    match c
    case NoChange =>
    case Placed(o, added) =>
      IndexWhereAppend(OrderIs(order), s.orders, o);
      if o.id != order {
        KeepAppend(ItemOf(order), s.items, added);
        KeepNone(ItemOf(order), added);
      }
    case StatusMoved(at, status) => IndexWhereUpdate(OrderIs(order), s.orders, at, next.orders[at]);
    case Received(k, at, status) =>
      IndexWhereUpdate(OrderIs(order), s.orders, at, next.orders[at]);
      if s.items[k].order != order {
        KeepUpdateOther(order, s.items, k, next.items[k]);
      }
  }

  predicate IsFinal(status: Option<OrderStatus>) {
    status == Some(FullyReceived) || status == Some(OrderCancelled)
  }

  /** A received or cancelled order is final: whatever is called afterwards, its status, its items
      and so what was received for it stay as they are. */
  lemma {:induction false} FinalOrders(s: Ledger, calls: seq<Call>, order: Id)
    requires Inv(s) && IsFinal(StatusOf(s, order))
    ensures StatusOf(Run(s, calls), order) == StatusOf(s, order)
    ensures ItemsOf(Run(s, calls), order) == ItemsOf(s, order)
    decreases calls
  {
    if calls == [] {
    } else {
      StepInv(s, calls[0]);
      var c := StepChanges(s, calls[0]);
      ChangeSeen(s, c, Step(s, calls[0]), order);
      FinalOrders(Step(s, calls[0]), calls[1..], order);
    }
  }

  /** After an accepted receipt the item has grown by the quantity, and its order is `received`
      exactly when every one of its items is full, `partially_received` otherwise. */
  lemma {:induction false} ReceiptStatus(s: Ledger, item: Id, quantity: int, requested: Option<Id>)
    requires Inv(s) && ReceiveItem(s, item, quantity, requested).Success?
    ensures var next := ReceiveItem(s, item, quantity, requested).value;
      var k := IndexWhere(ItemIs(item), s.items);
      && k < |s.items|
      && next.items == s.items[k := s.items[k].(received := s.items[k].received + quantity)]
      && StatusOf(next, s.items[k].order) ==
           Some(if Full(next, s.items[k].order) then FullyReceived else PartiallyReceived)
  {
    var k := IndexWhere(ItemIs(item), s.items);
    var at := IndexWhere(OrderIs(s.items[k].order), s.orders);
    var warehouse := ReceivingWarehouse(s, requested).value;
    ReceiptChanges(s, k, at, quantity, warehouse);
    var next := Receipt(s, k, at, quantity, warehouse);
    var status := if AllReceived(ItemsOf(next, s.items[k].order)) then FullyReceived else PartiallyReceived;
    ChangeSeen(s, Received(k, at, status), next, s.items[k].order);
    FullExact(next, s.items[k].order);
  }

  ghost predicate FullIfReceived(s: Ledger, order: Id) {
    StatusOf(s, order) == Some(FullyReceived) ==> Full(s, order)
  }

  /** `received` on an order means every one of its items is full. */
  ghost predicate ReceivedMeansFull(s: Ledger) {
    forall order :: FullIfReceived(s, order)
  }

  /** The one call that breaks it: `updateStatus` to `received` while some item is short. */
  predicate DeclaresShort(s: Ledger, call: Call) {
    && call.MoveOrder? && call.status == FullyReceived
    && UpdateOrderStatus(s, call.order, call.status).Success? && !Full(s, call.order)
  }

  lemma {:induction false} ReceivedMeansFullStep(s: Ledger, call: Call)
    requires Inv(s) && ReceivedMeansFull(s)
    ensures ReceivedMeansFull(Step(s, call)) <==> !DeclaresShort(s, call)
  {
    var next := Step(s, call);
    var c := StepChanges(s, call);
    if DeclaresShort(s, call) {
      ChangeSeen(s, c, next, call.order);
      FullExact(s, call.order);
      FullExact(next, call.order);
      assert !FullIfReceived(next, call.order);
    } else {
      forall order ensures FullIfReceived(next, order) {
        ChangeSeen(s, c, next, order);
        FullExact(s, order);
        FullExact(next, order);
        assert FullIfReceived(s, order);
      }
    }
  }

  ghost predicate AlwaysMeansFull(s: Ledger, calls: seq<Call>)
    decreases calls
  {
    ReceivedMeansFull(s) && (calls != [] ==> AlwaysMeansFull(Step(s, calls[0]), calls[1..]))
  }

  ghost predicate NeverDeclaresShort(s: Ledger, calls: seq<Call>)
    decreases calls
  {
    calls != [] ==> !DeclaresShort(s, calls[0]) && NeverDeclaresShort(Step(s, calls[0]), calls[1..])
  }

  /** Throughout a run `received` means full, exactly when no call declares a short order received. */
  lemma {:induction false} ReceivedMeansFullRun(s: Ledger, calls: seq<Call>)
    requires Inv(s) && ReceivedMeansFull(s)
    ensures AlwaysMeansFull(s, calls) <==> NeverDeclaresShort(s, calls)
    decreases calls
  {
    if calls == [] {
    } else {
      StepInv(s, calls[0]);
      ReceivedMeansFullStep(s, calls[0]);
      if ReceivedMeansFull(Step(s, calls[0])) {
        ReceivedMeansFullRun(Step(s, calls[0]), calls[1..]);
      }
    }
  }

  lemma {:induction false} PlacedOrder(s: Ledger, order: Id, item: NewItem)
    requires Opening(s) && item.part in s.parts && item.ordered >= 1
    ensures var next := Step(s, PlaceOrder(order, [item]));
      && |next.orders| == 1 && next.orders[0].id == order && next.orders[0].status == Draft
      && next.items == [OrderItem(item.id, order, item.part, item.ordered, 0, item.unitCost)]
  {
    assert OrderedItems(order, [item]) == [OrderItem(item.id, order, item.part, item.ordered, 0, item.unitCost)];
    assert s.items + OrderedItems(order, [item]) == OrderedItems(order, [item]);
  }

  lemma {:induction false} MovedOrder(s: Ledger, order: Id, status: OrderStatus)
    requires |s.orders| == 1 && s.orders[0].id == order && OrderMayMove(s.orders[0].status, status)
    ensures var next := Step(s, MoveOrder(order, status));
      |next.orders| == 1 && next.orders[0].id == order && next.orders[0].status == status && next.items == s.items
  {
    assert IndexWhere(OrderIs(order), s.orders) == 0;
  }

  lemma {:induction false} NotFull(s: Ledger, order: Id)
    requires |s.orders| == 1 && s.orders[0].id == order && s.orders[0].status == FullyReceived
    requires |s.items| == 1 && s.items[0].order == order && s.items[0].received < s.items[0].ordered
    ensures !ReceivedMeansFull(s)
  {
    assert !FullIfReceived(s, order);
  }

  /** A new order that is declared ordered and then received, with nothing received. */
  lemma {:induction false} ReceivedWithoutReceipt(s: Ledger, order: Id, item: NewItem)
    requires Opening(s) && item.part in s.parts && item.ordered >= 1
    ensures !ReceivedMeansFull(Run(s, [PlaceOrder(order, [item]), MoveOrder(order, Ordered),
                                       MoveOrder(order, FullyReceived)]))
  {
    var a, b, c := PlaceOrder(order, [item]), MoveOrder(order, Ordered), MoveOrder(order, FullyReceived);
    var s1 := Step(s, a);
    var s2 := Step(s1, b);
    var s3 := Step(s2, c);
    PlacedOrder(s, order, item);
    MovedOrder(s1, order, Ordered);
    MovedOrder(s2, order, FullyReceived);
    NotFull(s3, order);
    assert [a, b, c][1..] == [b, c] && [b, c][1..] == [c] && [c][1..] == [];
    assert Run(s, [a, b, c]) == Run(s1, [b, c]);
    assert Run(s1, [b, c]) == Run(s2, [c]);
  }
}
