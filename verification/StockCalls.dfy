/** Which stock calls are accepted, and what an accepted call posts to the log and writes to job parts
    and orders, in terms of the tables. Rows follow from the log. */
module StockCalls {
  import opened Wrappers
  import opened Sequences
  import opened StockLedger
  import opened StockProofs
  import opened StockRuns

  // ---- what a call finds ----

  function JobPartOf(s: Ledger, id: Id): Option<JobPart> {
    var k := IndexWhere(JobPartIs(id), s.jobParts);
    if k < |s.jobParts| then Some(s.jobParts[k]) else None
  }

  function OrderOf(s: Ledger, id: Id): Option<Order> {
    var o := IndexWhere(OrderIs(id), s.orders);
    if o < |s.orders| then Some(s.orders[o]) else None
  }

  function ItemNamed(s: Ledger, id: Id): Option<OrderItem> {
    var k := IndexWhere(ItemIs(id), s.items);
    if k < |s.items| then Some(s.items[k]) else None
  }

  /** The row that a call finds has the id it asks for, and is missing only when no row has it. */
  lemma {:induction false} NamedExact(s: Ledger, id: Id)
    ensures match JobPartOf(s, id)
            case Some(j) => j in s.jobParts && j.id == id
            case None => forall j :: j in s.jobParts ==> j.id != id
    ensures match OrderOf(s, id)
            case Some(o) => o in s.orders && o.id == id
            case None => forall o :: o in s.orders ==> o.id != id
    ensures match ItemNamed(s, id)
            case Some(i) => i in s.items && i.id == id
            case None => forall i :: i in s.items ==> i.id != id
  {
    IndexWhereFirst(JobPartIs(id), s.jobParts);
    IndexWhereFirst(OrderIs(id), s.orders);
    IndexWhereFirst(ItemIs(id), s.items);
    forall j | j in s.jobParts && JobPartOf(s, id).None? ensures j.id != id {
      var k :| 0 <= k < |s.jobParts| && s.jobParts[k] == j;
      assert !JobPartIs(id)(s.jobParts[k]);
    }
    forall o | o in s.orders && OrderOf(s, id).None? ensures o.id != id {
      var k :| 0 <= k < |s.orders| && s.orders[k] == o;
      assert !OrderIs(id)(s.orders[k]);
    }
    forall i | i in s.items && ItemNamed(s, id).None? ensures i.id != id {
      var k :| 0 <= k < |s.items| && s.items[k] == i;
      assert !ItemIs(id)(s.items[k]);
    }
  }

  predicate Known(s: Ledger, warehouse: Id) { exists w :: w in s.warehouses && w.id == warehouse }

  lemma {:induction false} KnownExact(s: Ledger, warehouse: Id)
    ensures HasWarehouse(s, warehouse) <==> Known(s, warehouse)
  {
    IndexWhereFirst(WarehouseIs(warehouse), s.warehouses);
    if w :| w in s.warehouses && w.id == warehouse {
      var i :| 0 <= i < |s.warehouses| && s.warehouses[i] == w;
      assert WarehouseIs(warehouse)(s.warehouses[i]);
    }
  }

  /** Where a receipt goes: where it is asked to, else to a default warehouse, else to the first. */
  lemma {:induction false} WarehouseChosen(s: Ledger, requested: Option<Id>)
    ensures var chosen := ReceivingWarehouse(s, requested);
      && (requested.Some? ==> chosen == requested)
      && (requested.None? && (exists w :: w in s.warehouses && w.isDefault) ==>
            exists w :: w in s.warehouses && w.isDefault && chosen == Some(w.id))
      && (requested.None? && !(exists w :: w in s.warehouses && w.isDefault) ==>
            chosen == if s.warehouses == [] then None else Some(s.warehouses[0].id))
  {
    var d := IndexWhere(IsDefault(), s.warehouses);
    IndexWhereFirst(IsDefault(), s.warehouses);
    if w :| w in s.warehouses && w.isDefault {
      var i :| 0 <= i < |s.warehouses| && s.warehouses[i] == w;
      assert IsDefault()(s.warehouses[i]);
    }
  }

  // ---- acceptance ----

  /** The quantity that a consumption or a return asks for: all of the part when none is given. */
  function Asked(j: JobPart, amount: Option<int>): int {
    match amount case Some(quantity) => quantity case None => j.quantity
  }

  predicate MayBecome(from: OrderStatus, to: OrderStatus) {
    || (to == Ordered && from == Draft)
    || (to == PartiallyReceived && from == Ordered)
    || (to == FullyReceived && from in {Ordered, PartiallyReceived})
    || (to == OrderCancelled && from in {Draft, Ordered, PartiallyReceived})
  }

  ghost predicate Allowed(s: Ledger, call: Call) {
    match call
    case CatalogPart(part) => part !in s.parts
    case Adjust(part, warehouse, inward, quantity) =>
      1 <= quantity && part in s.parts && Known(s, warehouse) && (inward || quantity <= OnHandAt(s, part, warehouse))
    case Transfer(part, from, to, quantity) =>
      1 <= quantity <= AvailableAt(s, part, from) && from != to && part in s.parts && Known(s, to)
    case AddPart(id, _, part, warehouse, quantity) =>
      && 1 <= quantity && JobPartOf(s, id).None?
      && (part.Some? ==> part.value in s.parts) && (warehouse.Some? ==> Known(s, warehouse.value))
    case Reserve(id) =>
      && JobPartOf(s, id).Some?
      && var j := JobPartOf(s, id).value;
         && j.status == Memo && j.part.Some? && j.warehouse.Some?
         && j.quantity <= AvailableAt(s, j.part.value, j.warehouse.value)
    case Consume(id, amount) =>
      && JobPartOf(s, id).Some?
      && var j := JobPartOf(s, id).value;
         (j.status == Reserved || (j.status == Memo && j.part.None?)) && Asked(j, amount) <= j.quantity
    case Return(id, amount) =>
      JobPartOf(s, id).Some? && JobPartOf(s, id).value.status == Reserved
      && Asked(JobPartOf(s, id).value, amount) <= JobPartOf(s, id).value.quantity
    case CancelPart(id) => JobPartOf(s, id).Some? && JobPartOf(s, id).value.status in {Memo, Reserved}
    case PlaceOrder(order, items) =>
      && OrderOf(s, order).None?
      && (forall i :: 0 <= i < |items| ==>
            1 <= items[i].ordered && items[i].part in s.parts && ItemNamed(s, items[i].id).None?)
      && (forall i, j :: 0 <= i < j < |items| ==> items[i].id != items[j].id)
    case MoveOrder(order, status) => OrderOf(s, order).Some? && MayBecome(OrderOf(s, order).value.status, status)
    case Receive(item, quantity, requested) =>
      && 1 <= quantity && ItemNamed(s, item).Some?
      && var it := ItemNamed(s, item).value;
         && it.received + quantity <= it.ordered
         && OrderOf(s, it.order).Some? && OrderOf(s, it.order).value.status in {Ordered, PartiallyReceived}
         && ReceivingWarehouse(s, requested).Some? && Known(s, ReceivingWarehouse(s, requested).value)
    case DropOrder(order) => OrderOf(s, order).Some? && OrderOf(s, order).value.status != FullyReceived
  }

  predicate OnJobPart(call: Call) { call.Reserve? || call.Consume? || call.Return? || call.CancelPart? }

  lemma {:induction false} JobCallAccepted(s: Ledger, call: Call)
    requires Inv(s) && OnJobPart(call)
    ensures Apply(s, call).Success? <==> Allowed(s, call)
  {
    var k := IndexWhere(JobPartIs(call.id), s.jobParts);
    assert k < |s.jobParts| ==> JobPartOk(s.inventory, s.jobParts[k]);
  }

  lemma {:induction false} ReceiptAccepted(s: Ledger, item: Id, quantity: int, requested: Option<Id>)
    ensures Apply(s, Receive(item, quantity, requested)).Success? <==> Allowed(s, Receive(item, quantity, requested))
  {
    if ReceivingWarehouse(s, requested).Some? {
      KnownExact(s, ReceivingWarehouse(s, requested).value);
    }
  }

  lemma {:induction false} OrderAccepted(s: Ledger, order: Id, items: seq<NewItem>)
    ensures Apply(s, PlaceOrder(order, items)).Success? <==> Allowed(s, PlaceOrder(order, items))
  {
    assert Allowed(s, PlaceOrder(order, items)) ==> FreshItems(s, items);
    assert FreshItems(s, items) ==> forall i :: 0 <= i < |items| ==> ItemNamed(s, items[i].id).None?;
  }

  lemma {:induction false} StockCallAccepted(s: Ledger, call: Call)
    requires call.CatalogPart? || call.Adjust? || call.Transfer? || call.AddPart?
    ensures Apply(s, call).Success? <==> Allowed(s, call)
  {
    match call
    case CatalogPart(_) =>
    case Adjust(part, warehouse, _, _) =>
      KnownExact(s, warehouse);
      OpenRowFinds(s.inventory, part, warehouse);
      IndexWhereAppend(AtPair(part, warehouse), s.inventory, StockRow(part, warehouse, 0, 0, 0));
    case Transfer(_, _, to, _) => KnownExact(s, to);
    case AddPart(_, _, _, warehouse, _) =>
      if warehouse.Some? {
        KnownExact(s, warehouse.value);
      }
  }

  /** A call is accepted exactly when what it names is there and in a state for it, and it asks for no
      more than there is. */
  lemma {:induction false} AcceptedExact(s: Ledger, call: Call)
    requires Inv(s)
    ensures Apply(s, call).Success? <==> Allowed(s, call)
  {
    if OnJobPart(call) {
      JobCallAccepted(s, call);
    } else if call.PlaceOrder? {
      OrderAccepted(s, call.order, call.items);
    } else if call.Receive? {
      ReceiptAccepted(s, call.item, call.quantity, call.requested);
    } else if !call.MoveOrder? && !call.DropOrder? {
      StockCallAccepted(s, call);
    }
  }

  // ---- refusals ----

  /** A quantity below one is invalid, a missing job part, order, item or catalog part is not found, a
      taken id or an unknown warehouse breaks a constraint, and the rest is a bad request. */
  function Refusal(s: Ledger, call: Call): Error {
    match call
    case CatalogPart(_) => ConstraintFailed
    case Adjust(part, warehouse, _, quantity) =>
      if quantity < 1 then ValidationFailed
      else if part !in s.parts then NotFound
      else if forall w :: w in s.warehouses ==> w.id != warehouse then ConstraintFailed
      else BadRequest
    case Transfer(part, from, to, quantity) =>
      if quantity < 1 then ValidationFailed
      else if from != to && part !in s.parts then NotFound
      else if from == to || quantity > AvailableAt(s, part, from) then BadRequest
      else ConstraintFailed
    case AddPart(_, _, part, _, quantity) =>
      if quantity < 1 then ValidationFailed
      else if part.Some? && part.value !in s.parts then NotFound
      else ConstraintFailed
    case PlaceOrder(_, items) => if exists i :: i in items && i.ordered < 1 then ValidationFailed else ConstraintFailed
    case MoveOrder(order, _) => if OrderOf(s, order).None? then NotFound else BadRequest
    case DropOrder(order) => if OrderOf(s, order).None? then NotFound else BadRequest
    case Receive(item, quantity, requested) =>
      if quantity < 1 then ValidationFailed
      else if ItemNamed(s, item).None? || OrderOf(s, ItemNamed(s, item).value.order).None? then NotFound
      else
        var it := ItemNamed(s, item).value;
        if OrderOf(s, it.order).value.status in {Ordered, PartiallyReceived} && it.received + quantity <= it.ordered
           && ReceivingWarehouse(s, requested).Some?
        then ConstraintFailed else BadRequest
    case _ => if JobPartOf(s, call.id).None? then NotFound else BadRequest
  }

  lemma {:induction false} JobCallRefused(s: Ledger, call: Call)
    requires Inv(s) && OnJobPart(call) && Apply(s, call).Failure?
    ensures Apply(s, call).error == Refusal(s, call)
  {
    var k := IndexWhere(JobPartIs(call.id), s.jobParts);
    assert k < |s.jobParts| ==> JobPartOk(s.inventory, s.jobParts[k]);
  }

  lemma {:induction false} StockCallRefused(s: Ledger, call: Call)
    requires (call.Adjust? || call.Transfer?) && Apply(s, call).Failure?
    ensures Apply(s, call).error == Refusal(s, call)
  {
    if call.Adjust? {
      KnownExact(s, call.warehouse);
    }
  }

  /** Every refused call is refused for the first thing that is wrong with it. */
  lemma {:induction false} RefusedExact(s: Ledger, call: Call)
    requires Inv(s) && Apply(s, call).Failure?
    ensures Apply(s, call).error == Refusal(s, call)
  {
    if OnJobPart(call) {
      JobCallRefused(s, call);
    } else if call.Adjust? || call.Transfer? {
      StockCallRefused(s, call);
    }
  }

  /** A reserved part can always be consumed or returned in full, and cancelled. */
  lemma {:induction false} ReservedCanEnd(s: Ledger, id: Id)
    requires Inv(s) && JobPartOf(s, id).Some? && JobPartOf(s, id).value.status == Reserved
    ensures Apply(s, Consume(id, None)).Success? && Apply(s, Return(id, None)).Success?
    ensures Apply(s, CancelPart(id)).Success?
  {
    JobCallAccepted(s, Consume(id, None));
    JobCallAccepted(s, Return(id, None));
    JobCallAccepted(s, CancelPart(id));
  }

  // ---- what is written ----

  /** The movements that an allowed call posts. */
  function Postings(s: Ledger, call: Call): seq<Movement> {
    match call
    case Adjust(_, _, _, _) => [AdjustMovement(s, call.part, call.warehouse, call.inward, call.quantity)]
    case Transfer(part, from, to, quantity) => TransferMovements(s, part, from, to, quantity)
    case Reserve(id) =>
      if JobPartOf(s, id).None? then []
      else JobMovement(JobPartOf(s, id).value, JobReserve, JobPartOf(s, id).value.quantity)
    case Consume(id, amount) =>
      if JobPartOf(s, id).None? then []
      else JobMovement(JobPartOf(s, id).value, JobConsume, Asked(JobPartOf(s, id).value, amount))
    case Return(id, amount) =>
      if JobPartOf(s, id).None? then []
      else JobMovement(JobPartOf(s, id).value, JobReturn, Asked(JobPartOf(s, id).value, amount))
    case CancelPart(id) =>
      if JobPartOf(s, id).None? || JobPartOf(s, id).value.status != Reserved then []
      else JobMovement(JobPartOf(s, id).value, JobReturn, JobPartOf(s, id).value.quantity)
    case Receive(item, quantity, requested) =>
      if ItemNamed(s, item).None? || ReceivingWarehouse(s, requested).None? then []
      else
        var it := ItemNamed(s, item).value;
        [Movement(PurchaseIn, it.part, ReceivingWarehouse(s, requested).value, quantity, ToPurchaseOrder(it.order))]
    case _ => []
  }

  lemma {:induction false} JobPartLogged(s: Ledger, call: Call)
    requires Inv(s) && OnJobPart(call) && Apply(s, call).Success?
    ensures Step(s, call).movements == s.movements + Postings(s, call)
  {
    var k := IndexWhere(JobPartIs(call.id), s.jobParts);
    match call
    case Reserve(id) => ReserveBooks(s, id);
    case Consume(id, amount) => ConsumeBooks(s, id, amount);
    case Return(id, amount) => ReturnBooks(s, id, amount);
    case CancelPart(id) =>
      CancelBooks(s, id);
      assert JobPartOk(s.inventory, s.jobParts[k]);
  }

  /** Every call logs its movements, and nothing else is logged; the rows are the log replayed. */
  lemma {:induction false} LogWritten(s: Ledger, call: Call)
    requires Inv(s)
    ensures Step(s, call).movements == s.movements + if Apply(s, call).Success? then Postings(s, call) else []
  {
    if Apply(s, call).Success? {
      if OnJobPart(call) {
        JobPartLogged(s, call);
      } else if call.Transfer? {
        TransferBooks(s, call.part, call.from, call.to, call.quantity);
      }
    }
  }

  function Ended(call: Call): PartStatus {
    match call
    case Reserve(_) => Reserved
    case Consume(_, _) => Used
    case Return(_, _) => Returned
    case _ => Cancelled
  }

  /** A new part is a memo; a reservation, consumption, return or cancellation gives the part it names
      its status; no other part and no other column is written. */
  lemma {:induction false} PartsWritten(s: Ledger, call: Call)
    requires Inv(s) && Apply(s, call).Success?
    ensures var parts := Step(s, call).jobParts;
      match call
      case AddPart(id, job, part, warehouse, quantity) =>
        var source := if part.Some? then Catalog else AdHoc;
        parts == s.jobParts + [JobPart(id, job, source, part, warehouse, quantity, Memo, 0)]
      case Reserve(_) | Consume(_, _) | Return(_, _) | CancelPart(_) =>
        var k := IndexWhere(JobPartIs(call.id), s.jobParts);
        && k < |s.jobParts| == |parts|
        && parts == s.jobParts[k := s.jobParts[k].(status := Ended(call), moved := parts[k].moved)]
      case _ => parts == s.jobParts
  {
    match call
    case Transfer(part, from, to, quantity) => TransferBooks(s, part, from, to, quantity);
    case Reserve(id) => ReserveBooks(s, id);
    case Consume(id, amount) => ConsumeBooks(s, id, amount);
    case Return(id, amount) => ReturnBooks(s, id, amount);
    case CancelPart(id) => CancelBooks(s, id);
    case _ =>
  }

  /** A move gives the order the status asked for, a cancellation ends it, a receipt counts its items
      again; a new order comes last, and no other order is written. */
  lemma {:induction false} OrdersWritten(s: Ledger, call: Call)
    requires Apply(s, call).Success?
    ensures var orders := Step(s, call).orders;
      match call
      case PlaceOrder(_, _) => |orders| == |s.orders| + 1 && s.orders <= orders
      case MoveOrder(order, status) =>
        var o := IndexWhere(OrderIs(order), s.orders);
        o < |s.orders| && orders == s.orders[o := s.orders[o].(status := status)]
      case DropOrder(order) =>
        var o := IndexWhere(OrderIs(order), s.orders);
        o < |s.orders| && orders == s.orders[o := s.orders[o].(status := OrderCancelled)]
      case Receive(item, _, _) =>
        && ItemNamed(s, item).Some?
        && var o := IndexWhere(OrderIs(ItemNamed(s, item).value.order), s.orders);
           && o < |s.orders| == |orders|
           && orders == s.orders[o := s.orders[o].(status := orders[o].status)]
      case _ => orders == s.orders
  {
  }

  // ---- new parts and orders ----

  lemma {:induction false} OpenAllHas(rows: seq<StockRow>, part: Id, warehouses: seq<Warehouse>, w: Id)
    ensures var open := OpenAll(rows, part, warehouses);
      && rows <= open
      && (HasRow(rows, part, w) || (exists x :: x in warehouses && x.id == w) ==> HasRow(open, part, w))
    decreases warehouses
  {
    if warehouses == [] {
    } else {
      var first := warehouses[0].id;
      OpenRowFinds(rows, part, first);
      IndexWhereAppend(AtPair(part, w), rows, StockRow(part, first, 0, 0, 0));
      OpenAllHas(OpenRow(rows, part, first), part, warehouses[1..], w);
      assert warehouses == [warehouses[0]] + warehouses[1..];
    }
  }

  /** A new part has a row in every warehouse, and no row or log entry is changed. */
  lemma {:induction false} CatalogWritten(s: Ledger, part: Id, warehouse: Id)
    requires Apply(s, CatalogPart(part)).Success?
    ensures var next := Step(s, CatalogPart(part));
      && next.parts == s.parts + {part} && s.inventory <= next.inventory && next.movements == s.movements
      && (Known(s, warehouse) ==> HasRow(next.inventory, part, warehouse))
  {
    OpenAllHas(s.inventory, part, s.warehouses, warehouse);
  }

  /** What one item costs; an item without a price is free. */
  function ItemCost(item: NewItem): real {
    (match item.unitCost case Some(price) => price case None => 0.0) * (item.ordered as real)
  }

  function Costs(items: seq<NewItem>): real {
    if items == [] then 0.0 else Costs(items[..|items| - 1]) + ItemCost(items[|items| - 1])
  }

  lemma {:induction false} CostSnoc(items: seq<NewItem>, item: NewItem)
    ensures CostOf(items + [item]) == CostOf(items) + ItemCost(item)
  {
    if items == [] {
      assert [item][1..] == [] && [] + [item] == [item];
    } else {
      CostSnoc(items[1..], item);
      assert (items + [item])[0] == items[0] && (items + [item])[1..] == items[1..] + [item];
    }
  }

  lemma {:induction false} CostsAgree(items: seq<NewItem>)
    ensures CostOf(items) == Costs(items)
  {
    if items == [] {
    } else {
      var before := items[..|items| - 1];
      CostsAgree(before);
      CostSnoc(before, items[|items| - 1]);
      assert items == before + [items[|items| - 1]];
    }
  }

  /** A new order is a draft with the cost of its items, which is left open when it is zero, and its
      items start with nothing received. */
  lemma {:induction false} OrderWritten(s: Ledger, order: Id, items: seq<NewItem>)
    requires Apply(s, PlaceOrder(order, items)).Success?
    ensures var next := Step(s, PlaceOrder(order, items));
      && next.orders == s.orders + [Order(order, Draft, if Costs(items) > 0.0 then Some(Costs(items)) else None)]
      && |next.items| == |s.items| + |items| && s.items <= next.items
      && forall i :: 0 <= i < |items| ==>
           next.items[|s.items| + i] ==
             OrderItem(items[i].id, order, items[i].part, items[i].ordered, 0, items[i].unitCost)
  {
    CostsAgree(items);
    OrderedItemsStartEmpty(order, items);
  }
}
