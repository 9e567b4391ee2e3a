/** The stock ledger: inventory rows, the append-only movement log, job parts and purchase orders,
    with every operation of the three services that write them as a transaction on values.
    A `Failure` is the exception the service throws; the transaction then leaves no trace. */
module StockLedger {
  import opened Wrappers
  import opened Sequences

  type Id = string

  datatype MovementKind =
    | AdjustmentIn | AdjustmentOut | TransferOut | TransferIn
    | PurchaseIn | JobReserve | JobConsume | JobReturn

  /** `reference_type` together with `reference_id`; an inventory row is named by its position. */
  datatype Reference = ToInventoryRow(row: nat) | ToJob(job: Id) | ToPurchaseOrder(order: Id)

  datatype Movement = Movement(kind: MovementKind, part: Id, warehouse: Id, quantity: int, reference: Reference)

  datatype StockRow = StockRow(part: Id, warehouse: Id, onHand: int, reserved: int, available: int)

  datatype Warehouse = Warehouse(id: Id, isDefault: bool)

  datatype Source = Catalog | AdHoc

  datatype PartStatus = Memo | Reserved | Used | Returned | Cancelled

  /** A row of `job_parts`. `moved` is a history variable of the model, read by no operation: the
      quantity carried by the movement that ended the reservation. */
  datatype JobPart = JobPart(
    id: Id, job: Id, source: Source, part: Option<Id>, warehouse: Option<Id>,
    quantity: int, status: PartStatus, moved: int)

  datatype OrderStatus = Draft | Ordered | PartiallyReceived | FullyReceived | OrderCancelled

  datatype Order = Order(id: Id, status: OrderStatus, totalCost: Option<real>)

  datatype OrderItem = OrderItem(id: Id, order: Id, part: Id, ordered: int, received: int, unitCost: Option<real>)

  datatype NewItem = NewItem(id: Id, part: Id, ordered: int, unitCost: Option<real>)

  datatype Ledger = Ledger(
    parts: set<Id>, warehouses: seq<Warehouse>,
    inventory: seq<StockRow>, movements: seq<Movement>,
    jobParts: seq<JobPart>, orders: seq<Order>, items: seq<OrderItem>)

  datatype Error = ValidationFailed | NotFound | BadRequest | ConstraintFailed

  type Outcome = Result<Ledger, Error>

  // ---- row predicates ----

  function AtPair(part: Id, warehouse: Id): StockRow -> bool {
    (r: StockRow) => r.part == part && r.warehouse == warehouse
  }

  function WarehouseIs(id: Id): Warehouse -> bool { (w: Warehouse) => w.id == id }

  function IsDefault(): Warehouse -> bool { (w: Warehouse) => w.isDefault }

  function JobPartIs(id: Id): JobPart -> bool { (j: JobPart) => j.id == id }

  function OrderIs(id: Id): Order -> bool { (o: Order) => o.id == id }

  function ItemIs(id: Id): OrderItem -> bool { (i: OrderItem) => i.id == id }

  function ItemOf(order: Id): OrderItem -> bool { (i: OrderItem) => i.order == order }

  // ---- writes shared by the services ----

  /** Find the row of a (part, warehouse) pair, creating a zero row when there is none. */
  function OpenRow(rows: seq<StockRow>, part: Id, warehouse: Id): seq<StockRow> {
    if IndexWhere(AtPair(part, warehouse), rows) < |rows| then rows
    else rows + [StockRow(part, warehouse, 0, 0, 0)]
  }

  /** Write both quantities of a row with the available quantity they imply, and log the movement. */
  function Post(s: Ledger, i: nat, onHand: int, reserved: int, m: Movement): Ledger
    requires i < |s.inventory|
  {
    s.(inventory := s.inventory[i := s.inventory[i].(onHand := onHand, reserved := reserved,
                                                      available := onHand - reserved)],
       movements := s.movements + [m])
  }

  function HasWarehouse(s: Ledger, id: Id): bool {
    IndexWhere(WarehouseIs(id), s.warehouses) < |s.warehouses|
  }

  // ---- inventory.service.ts ----

  lemma {:induction false} OpenRowFinds(rows: seq<StockRow>, part: Id, warehouse: Id)
    ensures IndexWhere(AtPair(part, warehouse), OpenRow(rows, part, warehouse)) < |OpenRow(rows, part, warehouse)|
    ensures rows <= OpenRow(rows, part, warehouse)
    ensures IndexWhere(AtPair(part, warehouse), rows) <=
      IndexWhere(AtPair(part, warehouse), OpenRow(rows, part, warehouse))
  {
    IndexWhereAppend(AtPair(part, warehouse), rows, StockRow(part, warehouse, 0, 0, 0));
  }

  function AdjustStock(s: Ledger, part: Id, warehouse: Id, inward: bool, quantity: int): Outcome {
    if quantity < 1 then Failure(ValidationFailed)
    else if part !in s.parts then Failure(NotFound)
    else if !HasWarehouse(s, warehouse) then Failure(ConstraintFailed)
    else
      var ready := s.(inventory := OpenRow(s.inventory, part, warehouse));
      var i := IndexWhere(AtPair(part, warehouse), ready.inventory);
      OpenRowFinds(s.inventory, part, warehouse);
      var row := ready.inventory[i];
      var onHand := if inward then row.onHand + quantity else row.onHand - quantity;
      if !inward && onHand < 0 then Failure(BadRequest)
      else Success(Post(ready, i, onHand, row.reserved,
                        Movement(if inward then AdjustmentIn else AdjustmentOut, part, warehouse,
                                 quantity, ToInventoryRow(i))))
  }

  /** The writes of a transfer: open the destination row, debit the source row, credit the destination. */
  function Transferred(s: Ledger, source: nat, part: Id, from: Id, to: Id, quantity: int): Ledger
    requires source < |s.inventory|
  {
    var ready := s.(inventory := OpenRow(s.inventory, part, to));
    OpenRowFinds(s.inventory, part, to);
    var dest := IndexWhere(AtPair(part, to), ready.inventory);
    var out, into := s.inventory[source], ready.inventory[dest];
    var debited := Post(ready, source, out.onHand - quantity, out.reserved,
                        Movement(TransferOut, part, from, quantity, ToInventoryRow(dest)));
    Post(debited, dest, into.onHand + quantity, into.reserved,
         Movement(TransferIn, part, to, quantity, ToInventoryRow(source)))
  }

  function TransferStock(s: Ledger, part: Id, from: Id, to: Id, quantity: int): Outcome {
    if quantity < 1 then Failure(ValidationFailed)
    else if from == to then Failure(BadRequest)
    else if part !in s.parts then Failure(NotFound)
    else
      var source := IndexWhere(AtPair(part, from), s.inventory);
      if source == |s.inventory| then Failure(BadRequest)
      else if s.inventory[source].available < quantity then Failure(BadRequest)
      else if !HasWarehouse(s, to) then Failure(ConstraintFailed)
      else Success(Transferred(s, source, part, from, to, quantity))
  }

  /** Open a row for the part in each warehouse. */
  function OpenAll(rows: seq<StockRow>, part: Id, warehouses: seq<Warehouse>): seq<StockRow>
    decreases warehouses
  {
    if warehouses == [] then rows else OpenAll(OpenRow(rows, part, warehouses[0].id), part, warehouses[1..])
  }

  /** `parts.service.ts` creates a part together with a zero row in every warehouse. */
  function CreatePart(s: Ledger, part: Id): Outcome {
    if part in s.parts then Failure(ConstraintFailed)
    else Success(s.(parts := s.parts + {part}, inventory := OpenAll(s.inventory, part, s.warehouses)))
  }

  // ---- job-parts.service.ts ----

  /** `reserveForJob` only records the part as a memo; nothing is reserved yet. */
  function ReserveForJob(s: Ledger, id: Id, job: Id, part: Option<Id>, warehouse: Option<Id>, quantity: int): Outcome {
    if quantity < 1 then Failure(ValidationFailed)
    else if part.Some? && part.value !in s.parts then Failure(NotFound)
    else if warehouse.Some? && !HasWarehouse(s, warehouse.value) then Failure(ConstraintFailed)
    else if IndexWhere(JobPartIs(id), s.jobParts) < |s.jobParts| then Failure(ConstraintFailed)
    else
      Success(s.(jobParts := s.jobParts + [JobPart(id, job, if part.Some? then Catalog else AdHoc,
                                                    part, warehouse, quantity, Memo, 0)]))
  }

  function SetPart(s: Ledger, k: nat, status: PartStatus, moved: int): Ledger
    requires k < |s.jobParts|
  {
    s.(jobParts := s.jobParts[k := s.jobParts[k].(status := status, moved := moved)])
  }

  function ReserveExistingForJob(s: Ledger, id: Id): Outcome {
    var k := IndexWhere(JobPartIs(id), s.jobParts);
    if k == |s.jobParts| then Failure(NotFound)
    else
      var jp := s.jobParts[k];
      if jp.status != Memo then Failure(BadRequest)
      else if jp.source != Catalog || jp.part.None? then Failure(BadRequest)
      else if jp.warehouse.None? then Failure(BadRequest)
      else
        var i := IndexWhere(AtPair(jp.part.value, jp.warehouse.value), s.inventory);
        if i == |s.inventory| then Failure(BadRequest)
        else if s.inventory[i].available < jp.quantity then Failure(BadRequest)
        else
          var row := s.inventory[i];
          Success(SetPart(Post(s, i, row.onHand, row.reserved + jp.quantity,
                               Movement(JobReserve, row.part, row.warehouse, jp.quantity, ToJob(jp.job))),
                          k, Reserved, 0))
  }

  function ConsumeForJob(s: Ledger, id: Id, quantity: Option<int>): Outcome {
    var k := IndexWhere(JobPartIs(id), s.jobParts);
    if k == |s.jobParts| then Failure(NotFound)
    else
      var jp := s.jobParts[k];
      var consumed := if quantity.Some? then quantity.value else jp.quantity;
      if jp.status != Reserved && jp.status != Memo then Failure(BadRequest)
      else if jp.status == Memo && jp.source == Catalog then Failure(BadRequest)
      else if consumed > jp.quantity then Failure(BadRequest)
      else if jp.part.None? || jp.warehouse.None? then Success(SetPart(s, k, Used, 0))
      else
        var i := IndexWhere(AtPair(jp.part.value, jp.warehouse.value), s.inventory);
        if i == |s.inventory| then Failure(NotFound)
        else
          var row := s.inventory[i];
          Success(SetPart(Post(s, i, row.onHand - consumed, row.reserved - consumed,
                               Movement(JobConsume, row.part, row.warehouse, consumed, ToJob(jp.job))),
                          k, Used, consumed))
  }

  function ReturnForJob(s: Ledger, id: Id, quantity: Option<int>): Outcome {
    var k := IndexWhere(JobPartIs(id), s.jobParts);
    if k == |s.jobParts| then Failure(NotFound)
    else
      var jp := s.jobParts[k];
      var returned := if quantity.Some? then quantity.value else jp.quantity;
      if jp.status != Reserved then Failure(BadRequest)
      else if jp.part.None? || jp.warehouse.None? then Failure(BadRequest)
      else if returned > jp.quantity then Failure(BadRequest)
      else
        var i := IndexWhere(AtPair(jp.part.value, jp.warehouse.value), s.inventory);
        if i == |s.inventory| then Failure(NotFound)
        else
          var row := s.inventory[i];
          Success(SetPart(Post(s, i, row.onHand, row.reserved - returned,
                               Movement(JobReturn, row.part, row.warehouse, returned, ToJob(jp.job))),
                          k, Returned, returned))
  }

  function CancelReservation(s: Ledger, id: Id): Outcome {
    var k := IndexWhere(JobPartIs(id), s.jobParts);
    if k == |s.jobParts| then Failure(NotFound)
    else
      var jp := s.jobParts[k];
      if jp.status != Memo && jp.status != Reserved then Failure(BadRequest)
      else if jp.status == Memo || jp.part.None? || jp.warehouse.None? then Success(SetPart(s, k, Cancelled, 0))
      else
        var i := IndexWhere(AtPair(jp.part.value, jp.warehouse.value), s.inventory);
        if i == |s.inventory| then Failure(NotFound)
        else
          var row := s.inventory[i];
          Success(SetPart(Post(s, i, row.onHand, row.reserved - jp.quantity,
                               Movement(JobReturn, row.part, row.warehouse, jp.quantity, ToJob(jp.job))),
                          k, Cancelled, jp.quantity))
  }

  // ---- purchase-orders.service.ts ----

  function OrderedItems(order: Id, items: seq<NewItem>): seq<OrderItem> {
    if items == [] then []
    else
      [OrderItem(items[0].id, order, items[0].part, items[0].ordered, 0, items[0].unitCost)]
      + OrderedItems(order, items[1..])
  }

  /** Ordered quantities at their unit costs; an item without a cost counts as free. */
  function CostOf(items: seq<NewItem>): real {
    if items == [] then 0.0
    else
      var unitCost := if items[0].unitCost.Some? then items[0].unitCost.value else 0.0;
      unitCost * (items[0].ordered as real) + CostOf(items[1..])
  }

  function TotalCost(items: seq<NewItem>): Option<real> {
    if CostOf(items) > 0.0 then Some(CostOf(items)) else None
  }

  predicate FreshItems(s: Ledger, items: seq<NewItem>) {
    && (forall i :: 0 <= i < |items| ==> IndexWhere(ItemIs(items[i].id), s.items) == |s.items|)
    && (forall i, j :: 0 <= i < j < |items| ==> items[i].id != items[j].id)
  }

  function CreateOrder(s: Ledger, order: Id, items: seq<NewItem>): Outcome {
    if exists i :: 0 <= i < |items| && items[i].ordered < 1 then Failure(ValidationFailed)
    else if exists i :: 0 <= i < |items| && items[i].part !in s.parts then Failure(ConstraintFailed)
    else if IndexWhere(OrderIs(order), s.orders) < |s.orders| || !FreshItems(s, items) then Failure(ConstraintFailed)
    else Success(s.(orders := s.orders + [Order(order, Draft, TotalCost(items))],
                    items := s.items + OrderedItems(order, items)))
  }

  predicate OrderMayMove(from: OrderStatus, to: OrderStatus) {
    match from
    case Draft => to == Ordered || to == OrderCancelled
    case Ordered => to == PartiallyReceived || to == FullyReceived || to == OrderCancelled
    case PartiallyReceived => to == FullyReceived || to == OrderCancelled
    case _ => false
  }

  function SetOrder(s: Ledger, o: nat, status: OrderStatus): Ledger
    requires o < |s.orders|
  {
    s.(orders := s.orders[o := s.orders[o].(status := status)])
  }

  function UpdateOrderStatus(s: Ledger, order: Id, status: OrderStatus): Outcome {
    var o := IndexWhere(OrderIs(order), s.orders);
    if o == |s.orders| then Failure(NotFound)
    else if !OrderMayMove(s.orders[o].status, status) then Failure(BadRequest)
    else Success(SetOrder(s, o, status))
  }

  function CancelOrder(s: Ledger, order: Id): Outcome {
    var o := IndexWhere(OrderIs(order), s.orders);
    if o == |s.orders| then Failure(NotFound)
    else if s.orders[o].status == FullyReceived then Failure(BadRequest)
    else Success(SetOrder(s, o, OrderCancelled))
  }

  /** The requested warehouse, else the default one, else any. */
  function ReceivingWarehouse(s: Ledger, requested: Option<Id>): Option<Id> {
    if requested.Some? then requested
    else
      var d := IndexWhere(IsDefault(), s.warehouses);
      if d < |s.warehouses| then Some(s.warehouses[d].id)
      else if s.warehouses != [] then Some(s.warehouses[0].id)
      else None
  }

  predicate AllReceived(items: seq<OrderItem>) {
    forall i :: 0 <= i < |items| ==> items[i].received >= items[i].ordered
  }

  predicate AnyReceived(items: seq<OrderItem>) {
    exists i :: 0 <= i < |items| && items[i].received > 0
  }

  function StatusAfterReceipt(items: seq<OrderItem>, status: OrderStatus): OrderStatus {
    if AllReceived(items) then FullyReceived else if AnyReceived(items) then PartiallyReceived else status
  }

  /** The writes of an accepted receipt: item, inventory row, movement, order status. */
  function Receipt(s: Ledger, k: nat, o: nat, quantity: int, warehouse: Id): Ledger
    requires k < |s.items| && o < |s.orders|
  {
    var it := s.items[k];
    var received := s.(items := s.items[k := it.(received := it.received + quantity)],
                       inventory := OpenRow(s.inventory, it.part, warehouse));
    OpenRowFinds(s.inventory, it.part, warehouse);
    var i := IndexWhere(AtPair(it.part, warehouse), received.inventory);
    var row := received.inventory[i];
    var posted := Post(received, i, row.onHand + quantity, row.reserved,
                       Movement(PurchaseIn, it.part, warehouse, quantity, ToPurchaseOrder(it.order)));
    SetOrder(posted, o, StatusAfterReceipt(Keep(ItemOf(it.order), posted.items), s.orders[o].status))
  }

  function ReceiveItem(s: Ledger, item: Id, quantity: int, requested: Option<Id>): Outcome {
    var k := IndexWhere(ItemIs(item), s.items);
    if quantity < 1 then Failure(ValidationFailed)
    else if k == |s.items| then Failure(NotFound)
    else
      var it := s.items[k];
      var o := IndexWhere(OrderIs(it.order), s.orders);
      if o == |s.orders| then Failure(NotFound)
      else if s.orders[o].status != Ordered && s.orders[o].status != PartiallyReceived then Failure(BadRequest)
      else
        var warehouse := ReceivingWarehouse(s, requested);
        if warehouse.None? then Failure(BadRequest)
        else if it.received + quantity > it.ordered then Failure(BadRequest)
        else if !HasWarehouse(s, warehouse.value) then Failure(ConstraintFailed)
        else
          Success(Receipt(s, k, o, quantity, warehouse.value))
  }

  // ---- runs ----

  datatype Call =
    | CatalogPart(part: Id)
    | Adjust(part: Id, warehouse: Id, inward: bool, quantity: int)
    | Transfer(part: Id, from: Id, to: Id, quantity: int)
    | AddPart(id: Id, job: Id, partOption: Option<Id>, warehouseOption: Option<Id>, quantity: int)
    | Reserve(id: Id)
    | Consume(id: Id, amount: Option<int>)
    | Return(id: Id, amount: Option<int>)
    | CancelPart(id: Id)
    | PlaceOrder(order: Id, items: seq<NewItem>)
    | MoveOrder(order: Id, status: OrderStatus)
    | Receive(item: Id, quantity: int, requested: Option<Id>)
    | DropOrder(order: Id)

  function Apply(s: Ledger, call: Call): Outcome {
    match call
    case CatalogPart(part) => CreatePart(s, part)
    case Adjust(part, warehouse, inward, quantity) => AdjustStock(s, part, warehouse, inward, quantity)
    case Transfer(part, from, to, quantity) => TransferStock(s, part, from, to, quantity)
    case AddPart(id, job, part, warehouse, quantity) => ReserveForJob(s, id, job, part, warehouse, quantity)
    case Reserve(id) => ReserveExistingForJob(s, id)
    case Consume(id, amount) => ConsumeForJob(s, id, amount)
    case Return(id, amount) => ReturnForJob(s, id, amount)
    case CancelPart(id) => CancelReservation(s, id)
    case PlaceOrder(order, items) => CreateOrder(s, order, items)
    case MoveOrder(order, status) => UpdateOrderStatus(s, order, status)
    case Receive(item, quantity, requested) => ReceiveItem(s, item, quantity, requested)
    case DropOrder(order) => CancelOrder(s, order)
  }

  /** A rejected call changes nothing. */
  function Step(s: Ledger, call: Call): Ledger {
    var outcome := Apply(s, call);
    if outcome.Success? then outcome.value else s
  }

  function Run(s: Ledger, calls: seq<Call>): Ledger
    decreases calls
  {
    if calls == [] then s else Run(Step(s, calls[0]), calls[1..])
  }
}
