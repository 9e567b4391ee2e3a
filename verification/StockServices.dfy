/** The stock services as they run: each table is a field, each call reads rows, computes the new
    quantities and writes them back one table at a time. Every method is proved to be the
    transaction of `StockLedger`, so the results over runs hold of the services. */
module StockServices {
  import opened Wrappers
  import opened Sequences
  import opened StockLedger

  /** The call either committed the described ledger or threw and left everything as it was. */
  ghost predicate Commits(before: Ledger, outcome: Outcome, after: Ledger, thrown: Option<Error>) {
    match outcome
    case Success(next) => after == next && thrown == None
    case Failure(error) => after == before && thrown == Some(error)
  }

  class Services {
    var parts: set<Id>
    const warehouses: seq<Warehouse>
    var inventory: seq<StockRow>
    var movements: seq<Movement>
    var jobParts: seq<JobPart>
    var orders: seq<Order>
    var items: seq<OrderItem>

    function State(): Ledger
      reads this
    {
      Ledger(parts, warehouses, inventory, movements, jobParts, orders, items)
    }

    constructor (parts: set<Id>, warehouses: seq<Warehouse>)
      ensures State() == Ledger(parts, warehouses, [], [], [], [], [])
    {
      this.parts, this.warehouses := parts, warehouses;
      inventory, movements, jobParts, orders, items := [], [], [], [], [];
    }

    /** `findFirst` on a pair, creating the row at zero when there is none. */
    method FindOrCreate(part: Id, warehouse: Id) returns (i: nat)
      modifies this`inventory
      ensures inventory == OpenRow(old(inventory), part, warehouse)
      ensures i == IndexWhere(AtPair(part, warehouse), inventory) < |inventory|
    {
      i := IndexWhere(AtPair(part, warehouse), inventory);
      OpenRowFinds(inventory, part, warehouse);
      if i == |inventory| {
        inventory := inventory + [StockRow(part, warehouse, 0, 0, 0)];
      }
    }

    /** Update a row, its available quantity included, and create the movement. */
    method PostMovement(i: nat, onHand: int, reserved: int, m: Movement)
      requires i < |inventory|
      modifies this`inventory, this`movements
      ensures State() == Post(old(State()), i, onHand, reserved, m)
    {
      var available := onHand - reserved;
      inventory := inventory[i := inventory[i].(onHand := onHand, reserved := reserved, available := available)];
      movements := movements + [m];
    }

    method CreatePart(part: Id) returns (thrown: Option<Error>)
      modifies this
      ensures Commits(old(State()), StockLedger.CreatePart(old(State()), part), State(), thrown)
    {
      if part in parts { return Some(ConstraintFailed); }
      parts := parts + {part};
      for i := 0 to |warehouses|
        invariant OpenAll(inventory, part, warehouses[i..]) == OpenAll(old(inventory), part, warehouses)
        invariant State() == old(State()).(parts := old(parts) + {part}, inventory := inventory)
      {
        assert warehouses[i..][0] == warehouses[i] && warehouses[i..][1..] == warehouses[i + 1..];
        var row := FindOrCreate(part, warehouses[i].id);
      }
      return None;
    }

    method AdjustStock(part: Id, warehouse: Id, inward: bool, quantity: int) returns (thrown: Option<Error>)
      modifies this
      ensures Commits(old(State()), StockLedger.AdjustStock(old(State()), part, warehouse, inward, quantity), State(),
                      thrown)
    {
      if quantity < 1 { return Some(ValidationFailed); }
      if part !in parts { return Some(NotFound); }
      if !(IndexWhere(WarehouseIs(warehouse), warehouses) < |warehouses|) { return Some(ConstraintFailed); }
      var before := inventory;
      var i := FindOrCreate(part, warehouse);
      var newOnHand;
      if inward {
        newOnHand := inventory[i].onHand + quantity;
      } else {
        newOnHand := inventory[i].onHand - quantity;
        if newOnHand < 0 {
          inventory := before;
          return Some(BadRequest);
        }
      }
      PostMovement(i, newOnHand, inventory[i].reserved,
                   Movement(if inward then AdjustmentIn else AdjustmentOut, part, warehouse, quantity,
                            ToInventoryRow(i)));
      return None;
    }

    method TransferStock(part: Id, from: Id, to: Id, quantity: int) returns (thrown: Option<Error>)
      modifies this
      ensures Commits(old(State()), StockLedger.TransferStock(old(State()), part, from, to, quantity), State(), thrown)
    {
      if quantity < 1 { return Some(ValidationFailed); }
      if from == to { return Some(BadRequest); }
      if part !in parts { return Some(NotFound); }
      var source := IndexWhere(AtPair(part, from), inventory);
      if source == |inventory| { return Some(BadRequest); }
      if inventory[source].available < quantity { return Some(BadRequest); }
      if !(IndexWhere(WarehouseIs(to), warehouses) < |warehouses|) { return Some(ConstraintFailed); }
      MoveBetween(source, part, from, to, quantity);
      return None;
    }

    method MoveBetween(source: nat, part: Id, from: Id, to: Id, quantity: int)
      requires source < |inventory|
      modifies this`inventory, this`movements
      ensures State() == Transferred(old(State()), source, part, from, to, quantity)
    {
      var out := inventory[source];
      OpenRowFinds(inventory, part, to);
      var dest := FindOrCreate(part, to);
      var into := inventory[dest];
      PostMovement(source, out.onHand - quantity, out.reserved,
                   Movement(TransferOut, part, from, quantity, ToInventoryRow(dest)));
      PostMovement(dest, into.onHand + quantity, into.reserved,
                   Movement(TransferIn, part, to, quantity, ToInventoryRow(source)));
    }

    method ReserveForJob(id: Id, job: Id, part: Option<Id>, warehouse: Option<Id>, quantity: int)
      returns (thrown: Option<Error>)
      modifies this
      ensures Commits(old(State()), StockLedger.ReserveForJob(old(State()), id, job, part, warehouse, quantity),
                      State(), thrown)
    {
      if quantity < 1 { return Some(ValidationFailed); }
      var source := if part.Some? then Catalog else AdHoc;
      if source == Catalog && part.value !in parts { return Some(NotFound); }
      if warehouse.Some? && !(IndexWhere(WarehouseIs(warehouse.value), warehouses) < |warehouses|) {
        return Some(ConstraintFailed);
      }
      if IndexWhere(JobPartIs(id), jobParts) < |jobParts| { return Some(ConstraintFailed); }
      jobParts := jobParts + [JobPart(id, job, source, part, warehouse, quantity, Memo, 0)];
      return None;
    }

    method ReserveExistingForJob(id: Id) returns (thrown: Option<Error>)
      modifies this
      ensures Commits(old(State()), StockLedger.ReserveExistingForJob(old(State()), id), State(), thrown)
    {
      var k := IndexWhere(JobPartIs(id), jobParts);
      if k == |jobParts| { return Some(NotFound); }
      var jp := jobParts[k];
      if jp.status != Memo { return Some(BadRequest); }
      if jp.source != Catalog || jp.part.None? { return Some(BadRequest); }
      if jp.warehouse.None? { return Some(BadRequest); }
      var i := IndexWhere(AtPair(jp.part.value, jp.warehouse.value), inventory);
      if i == |inventory| { return Some(BadRequest); }
      if inventory[i].available < jp.quantity { return Some(BadRequest); }
      var newReserved := inventory[i].reserved + jp.quantity;
      PostMovement(i, inventory[i].onHand, newReserved,
                   Movement(JobReserve, jp.part.value, jp.warehouse.value, jp.quantity, ToJob(jp.job)));
      jobParts := jobParts[k := jp.(status := Reserved, moved := 0)];
      return None;
    }

    method ConsumeForJob(id: Id, quantity: Option<int>) returns (thrown: Option<Error>)
      modifies this
      ensures Commits(old(State()), StockLedger.ConsumeForJob(old(State()), id, quantity), State(), thrown)
    {
      var k := IndexWhere(JobPartIs(id), jobParts);
      if k == |jobParts| { return Some(NotFound); }
      var jp := jobParts[k];
      if jp.status != Reserved && jp.status != Memo { return Some(BadRequest); }
      if jp.status == Memo && jp.source == Catalog { return Some(BadRequest); }
      var consumeQty := if quantity.Some? then quantity.value else jp.quantity;
      if consumeQty > jp.quantity { return Some(BadRequest); }
      if jp.part.None? || jp.warehouse.None? {
        jobParts := jobParts[k := jp.(status := Used, moved := 0)];
        return None;
      }
      var i := IndexWhere(AtPair(jp.part.value, jp.warehouse.value), inventory);
      if i == |inventory| { return Some(NotFound); }
      var newOnHand, newReserved := inventory[i].onHand - consumeQty, inventory[i].reserved - consumeQty;
      PostMovement(i, newOnHand, newReserved,
                   Movement(JobConsume, jp.part.value, jp.warehouse.value, consumeQty, ToJob(jp.job)));
      jobParts := jobParts[k := jp.(status := Used, moved := consumeQty)];
      return None;
    }

    method ReturnForJob(id: Id, quantity: Option<int>) returns (thrown: Option<Error>)
      modifies this
      ensures Commits(old(State()), StockLedger.ReturnForJob(old(State()), id, quantity), State(), thrown)
    {
      var k := IndexWhere(JobPartIs(id), jobParts);
      if k == |jobParts| { return Some(NotFound); }
      var jp := jobParts[k];
      if jp.status != Reserved { return Some(BadRequest); }
      if jp.part.None? || jp.warehouse.None? { return Some(BadRequest); }
      var returnQty := if quantity.Some? then quantity.value else jp.quantity;
      if returnQty > jp.quantity { return Some(BadRequest); }
      var i := IndexWhere(AtPair(jp.part.value, jp.warehouse.value), inventory);
      if i == |inventory| { return Some(NotFound); }
      PostMovement(i, inventory[i].onHand, inventory[i].reserved - returnQty,
                   Movement(JobReturn, jp.part.value, jp.warehouse.value, returnQty, ToJob(jp.job)));
      jobParts := jobParts[k := jp.(status := Returned, moved := returnQty)];
      return None;
    }

    method CancelReservation(id: Id) returns (thrown: Option<Error>)
      modifies this
      ensures Commits(old(State()), StockLedger.CancelReservation(old(State()), id), State(), thrown)
    {
      var k := IndexWhere(JobPartIs(id), jobParts);
      if k == |jobParts| { return Some(NotFound); }
      var jp := jobParts[k];
      if jp.status != Memo && jp.status != Reserved { return Some(BadRequest); }
      if jp.status == Memo {
        jobParts := jobParts[k := jp.(status := Cancelled, moved := 0)];
        return None;
      }
      if jp.part.None? || jp.warehouse.None? {
        jobParts := jobParts[k := jp.(status := Cancelled, moved := 0)];
        return None;
      }
      var i := IndexWhere(AtPair(jp.part.value, jp.warehouse.value), inventory);
      if i == |inventory| { return Some(NotFound); }
      PostMovement(i, inventory[i].onHand, inventory[i].reserved - jp.quantity,
                   Movement(JobReturn, jp.part.value, jp.warehouse.value, jp.quantity, ToJob(jp.job)));
      jobParts := jobParts[k := jp.(status := Cancelled, moved := jp.quantity)];
      return None;
    }

    /** Builds the item rows and their total cost in one pass. */
    method CreateOrder(order: Id, lines: seq<NewItem>) returns (thrown: Option<Error>)
      modifies this
      ensures Commits(old(State()), StockLedger.CreateOrder(old(State()), order, lines), State(), thrown)
    {
      if exists i :: 0 <= i < |lines| && lines[i].ordered < 1 { return Some(ValidationFailed); }
      var totalCost, rows := 0.0, [];
      var n := 0;
      while n < |lines|
        invariant 0 <= n <= |lines|
        invariant totalCost + CostOf(lines[n..]) == CostOf(lines)
        invariant rows + OrderedItems(order, lines[n..]) == OrderedItems(order, lines)
      {
        var line := lines[n];
        var unitCost := if line.unitCost.Some? then line.unitCost.value else 0.0;
        assert lines[n..] == [line] + lines[n + 1..];
        totalCost := totalCost + unitCost * (line.ordered as real);
        rows := rows + [OrderItem(line.id, order, line.part, line.ordered, 0, line.unitCost)];
        n := n + 1;
      }
      assert rows == OrderedItems(order, lines) && totalCost == CostOf(lines) by {
        assert lines[n..] == [];
      }
      if exists i :: 0 <= i < |lines| && lines[i].part !in parts { return Some(ConstraintFailed); }
      if IndexWhere(OrderIs(order), orders) < |orders| || !FreshItems(State(), lines) { return Some(ConstraintFailed); }
      orders := orders + [Order(order, Draft, if totalCost > 0.0 then Some(totalCost) else None)];
      items := items + rows;
      return None;
    }

    method UpdateStatus(order: Id, status: OrderStatus) returns (thrown: Option<Error>)
      modifies this
      ensures Commits(old(State()), StockLedger.UpdateOrderStatus(old(State()), order, status), State(), thrown)
    {
      var o := IndexWhere(OrderIs(order), orders);
      if o == |orders| { return Some(NotFound); }
      if !OrderMayMove(orders[o].status, status) { return Some(BadRequest); }
      orders := orders[o := orders[o].(status := status)];
      return None;
    }

    method Cancel(order: Id) returns (thrown: Option<Error>)
      modifies this
      ensures Commits(old(State()), StockLedger.CancelOrder(old(State()), order), State(), thrown)
      ensures thrown.None? ==> |orders| == |old(orders)| && inventory == old(inventory) && movements == old(movements)
      ensures thrown.None? ==> exists o :: 0 <= o < |orders| && old(orders)[o].id == order &&
                                           old(orders)[o].status != FullyReceived &&
                                           orders == old(orders)[o := old(orders)[o].(status := OrderCancelled)]
    {
      var o := IndexWhere(OrderIs(order), orders);
      if o == |orders| { return Some(NotFound); }
      if orders[o].status == FullyReceived { return Some(BadRequest); }
      orders := orders[o := orders[o].(status := OrderCancelled)];
      return None;
    }

    method ReceiveItem(item: Id, quantity: int, requested: Option<Id>) returns (thrown: Option<Error>)
      modifies this
      ensures Commits(old(State()), StockLedger.ReceiveItem(old(State()), item, quantity, requested), State(), thrown)
    {
      if quantity < 1 { return Some(ValidationFailed); }
      var k := IndexWhere(ItemIs(item), items);
      if k == |items| { return Some(NotFound); }
      var poItem := items[k];
      var o := IndexWhere(OrderIs(poItem.order), orders);
      if o == |orders| { return Some(NotFound); }
      var status := orders[o].status;
      if status != Ordered && status != PartiallyReceived { return Some(BadRequest); }
      var warehouse := requested;
      if warehouse.None? {
        var d := IndexWhere(IsDefault(), warehouses);
        if d < |warehouses| {
          warehouse := Some(warehouses[d].id);
        } else if warehouses != [] {
          warehouse := Some(warehouses[0].id);
        } else {
          return Some(BadRequest);
        }
      }
      var newReceivedQty := poItem.received + quantity;
      if newReceivedQty > poItem.ordered { return Some(BadRequest); }
      if !(IndexWhere(WarehouseIs(warehouse.value), warehouses) < |warehouses|) { return Some(ConstraintFailed); }
      BookReceipt(k, o, quantity, warehouse.value);
      return None;
    }

    method BookReceipt(k: nat, o: nat, quantity: int, warehouse: Id)
      requires k < |items| && o < |orders|
      modifies this
      ensures State() == Receipt(old(State()), k, o, quantity, warehouse)
    {
      var poItem, status := items[k], orders[o].status;
      items := items[k := poItem.(received := poItem.received + quantity)];
      var i := FindOrCreate(poItem.part, warehouse);
      PostMovement(i, inventory[i].onHand + quantity, inventory[i].reserved,
                   Movement(PurchaseIn, poItem.part, warehouse, quantity, ToPurchaseOrder(poItem.order)));
      var allItems := Keep(ItemOf(poItem.order), items);
      var newStatus := if AllReceived(allItems) then FullyReceived
                       else if AnyReceived(allItems) then PartiallyReceived else status;
      if newStatus != status {
        orders := orders[o := orders[o].(status := newStatus)];
      }
    }
  }
}
