/** The ledger over whole runs: rows replay the movement log, reservations are accounted for, and stock
    is conserved. */
module StockRuns {
  import opened Wrappers
  import opened Sequences
  import opened StockLedger
  import opened StockProofs

  // ---- runs ----

  /** A workshop before its first call: any parts and warehouses, at most zero rows, nothing logged. */
  ghost predicate Opening(s: Ledger) {
    && DistinctPairs(s.inventory)
    && (forall i :: 0 <= i < |s.inventory| ==>
          s.inventory[i].onHand == 0 && s.inventory[i].reserved == 0 && s.inventory[i].available == 0)
    && s.movements == [] && s.jobParts == [] && s.orders == [] && s.items == []
  }

  lemma {:induction false} OpeningInv(s: Ledger)
    requires Opening(s)
    ensures Inv(s)
  {
    forall p ensures PartConserved(s.inventory, s.movements, p) {
      SumByZero(OnHandOf(p), s.inventory);
    }
  }

  lemma {:induction false} ReceiveKeepsInv(s: Ledger, item: Id, quantity: int, requested: Option<Id>)
    requires Inv(s) && ReceiveItem(s, item, quantity, requested).Success?
    ensures Inv(ReceiveItem(s, item, quantity, requested).value)
  {
    var k := IndexWhere(ItemIs(item), s.items);
    var o := IndexWhere(OrderIs(s.items[k].order), s.orders);
    ReceiptKeepsInv(s, k, o, quantity, ReceivingWarehouse(s, requested).value);
  }

  lemma {:induction false} OrdersOnlyKeepInv(s: Ledger, next: Ledger)
    requires Inv(s) && next == s.(orders := next.orders)
    ensures Inv(next)
  {
  }

  lemma {:induction false} OpenAllKeeps(rows: seq<StockRow>, log: seq<Movement>, part: Id, warehouses: seq<Warehouse>,
                                        p: Id)
    requires Replays(rows, log)
    ensures var open := OpenAll(rows, part, warehouses);
      Replays(open, log) && Grows(rows, open) && SumBy(OnHandOf(p), open) == SumBy(OnHandOf(p), rows)
    decreases warehouses
  {
    if warehouses == [] {
    } else {
      var w := warehouses[0].id;
      OpenReplays(rows, log, part, w);
      SumByAdd(OnHandOf(p), rows, StockRow(part, w, 0, 0, 0));
      OpenAllKeeps(OpenRow(rows, part, w), log, part, warehouses[1..], p);
    }
  }

  /** A new part comes with zero rows, which change no fold and no total. */
  lemma {:induction false} CreatePartKeepsInv(s: Ledger, part: Id)
    requires Inv(s) && CreatePart(s, part).Success?
    ensures Inv(CreatePart(s, part).value)
  {
    var next := CreatePart(s, part).value;
    OpenAllKeeps(s.inventory, s.movements, part, s.warehouses, part);
    GrowsKeepsParts(s.inventory, next.inventory, s.jobParts);
    forall p ensures PartConserved(next.inventory, next.movements, p) {
      assert PartConserved(s.inventory, s.movements, p);
      OpenAllKeeps(s.inventory, s.movements, part, s.warehouses, p);
    }
  }

  lemma {:induction false} StepInv(s: Ledger, call: Call)
    requires Inv(s)
    ensures Inv(Step(s, call))
  {
    if Apply(s, call).Success? {
      match call
      case CatalogPart(part) => CreatePartKeepsInv(s, part);
      case Adjust(part, warehouse, inward, quantity) => AdjustKeepsInv(s, part, warehouse, inward, quantity);
      case Transfer(part, from, to, quantity) => TransferKeepsInv(s, part, from, to, quantity);
      case AddPart(id, job, part, warehouse, quantity) => AddPartKeepsInv(s, id, job, part, warehouse, quantity);
      case Reserve(id) => ReserveKeepsInv(s, id);
      case Consume(id, amount) => ConsumeKeepsInv(s, id, amount);
      case Return(id, amount) => ReturnKeepsInv(s, id, amount);
      case CancelPart(id) => CancelKeepsInv(s, id);
      case PlaceOrder(order, items) => PlaceKeepsInv(s, order, items);
      case MoveOrder(order, status) => OrdersOnlyKeepInv(s, UpdateOrderStatus(s, order, status).value);
      case Receive(item, quantity, requested) => ReceiveKeepsInv(s, item, quantity, requested);
      case DropOrder(order) => OrdersOnlyKeepInv(s, CancelOrder(s, order).value);
    }
  }

  lemma {:induction false} RunInv(s: Ledger, calls: seq<Call>)
    requires Inv(s)
    ensures Inv(Run(s, calls))
    decreases calls
  {
    if calls == [] {
    } else {
      StepInv(s, calls[0]);
      RunInv(Step(s, calls[0]), calls[1..]);
    }
  }

  // ---- main results over runs ----

  function OnHandAt(s: Ledger, part: Id, warehouse: Id): int {
    var i := IndexWhere(AtPair(part, warehouse), s.inventory);
    if i < |s.inventory| then s.inventory[i].onHand else 0
  }

  function ReservedAt(s: Ledger, part: Id, warehouse: Id): int {
    var i := IndexWhere(AtPair(part, warehouse), s.inventory);
    if i < |s.inventory| then s.inventory[i].reserved else 0
  }

  function AvailableAt(s: Ledger, part: Id, warehouse: Id): int { AvailableIn(s.inventory, part, warehouse) }

  /** Ledger replay: after every run each pair has at most one row, and its quantities are the
      signed folds of the movement log. */
  lemma {:induction false} LedgerReplay(start: Ledger, calls: seq<Call>, part: Id, warehouse: Id)
    requires Opening(start)
    ensures var s := Run(start, calls);
      && (forall i, j :: 0 <= i < j < |s.inventory| ==>
            s.inventory[i].part != s.inventory[j].part || s.inventory[i].warehouse != s.inventory[j].warehouse)
      && OnHandAt(s, part, warehouse) == SumBy(OnHandEffect(part, warehouse), s.movements)
      && ReservedAt(s, part, warehouse) == SumBy(ReservedEffect(part, warehouse), s.movements)
      && AvailableAt(s, part, warehouse) == OnHandAt(s, part, warehouse) - ReservedAt(s, part, warehouse)
  {
    OpeningInv(start);
    RunInv(start, calls);
    var s := Run(start, calls);
    assert PairReplays(s.inventory, s.movements, part, warehouse);
  }

  function QuantityReserved(part: Id, warehouse: Id): JobPart -> int {
    (j: JobPart) =>
      if j.status == Reserved && j.part == Some(part) && j.warehouse == Some(warehouse) then j.quantity else 0
  }

  /** Every reservation that ended on the pair moved its whole quantity. */
  ghost predicate MovedInFull(parts: seq<JobPart>, part: Id, warehouse: Id) {
    forall k :: 0 <= k < |parts| && (parts[k].status == Used || parts[k].status == Returned)
                && parts[k].part == Some(part) && parts[k].warehouse == Some(warehouse)
                ==> (parts[k].moved == parts[k].quantity)
  }

  lemma {:induction false} OutstandingSplits(parts: seq<JobPart>, part: Id, warehouse: Id)
    requires forall k :: 0 <= k < |parts| ==> 1 <= parts[k].quantity && parts[k].moved <= parts[k].quantity
    ensures 0 <= SumBy(QuantityReserved(part, warehouse), parts) <= SumBy(Outstanding(part, warehouse), parts)
    ensures SumBy(Outstanding(part, warehouse), parts) == SumBy(QuantityReserved(part, warehouse), parts)
      <==> MovedInFull(parts, part, warehouse)
  {
    if parts == [] {
    } else {
      var rest := parts[1..];
      OutstandingSplits(rest, part, warehouse);
      assert forall k :: 0 <= k < |rest| ==> rest[k] == parts[k + 1];
      assert forall k :: 1 <= k < |parts| ==> parts[k] == rest[k - 1];
    }
  }

  /** Reservation accounting: reserved stock is what the job parts hold back, never negative; it is
      the total of the `reserved` job parts exactly when every ended reservation moved in full; and
      a reserved job part always has its part, warehouse and inventory row. */
  lemma {:induction false} ReservationAccounting(start: Ledger, calls: seq<Call>, part: Id, warehouse: Id)
    requires Opening(start)
    ensures var s := Run(start, calls);
      && ReservedAt(s, part, warehouse) == SumBy(Outstanding(part, warehouse), s.jobParts)
      && 0 <= SumBy(QuantityReserved(part, warehouse), s.jobParts) <= ReservedAt(s, part, warehouse)
      && (ReservedAt(s, part, warehouse) == SumBy(QuantityReserved(part, warehouse), s.jobParts)
          <==> MovedInFull(s.jobParts, part, warehouse))
      && forall k :: 0 <= k < |s.jobParts| && s.jobParts[k].status == Reserved ==>
           && s.jobParts[k].part.Some? && s.jobParts[k].warehouse.Some?
           && HasRow(s.inventory, s.jobParts[k].part.value, s.jobParts[k].warehouse.value)
  {
    LedgerReplay(start, calls, part, warehouse);
    OpeningInv(start);
    RunInv(start, calls);
    var s := Run(start, calls);
    assert PairAccounted(s.movements, s.jobParts, part, warehouse);
    assert forall k :: 0 <= k < |s.jobParts| ==> JobPartOk(s.inventory, s.jobParts[k]);
    OutstandingSplits(s.jobParts, part, warehouse);
  }

  /** The net effect of a log on a part, kind by kind. */
  lemma {:induction false} EffectByKind(log: seq<Movement>, p: Id)
    ensures SumBy(PartEffect(p), log) ==
      SumBy(Volume(PurchaseIn, p), log) + SumBy(Volume(AdjustmentIn, p), log) + SumBy(Volume(TransferIn, p), log)
      - SumBy(Volume(AdjustmentOut, p), log) - SumBy(Volume(JobConsume, p), log) - SumBy(Volume(TransferOut, p), log)
  {
    if log == [] {
    } else {
      EffectByKind(log[1..], p);
    }
  }

  /** Conservation: over all warehouses a part's on-hand is what was bought and adjusted in, less
      what was adjusted out and consumed. */
  lemma {:induction false} StockConserved(start: Ledger, calls: seq<Call>, part: Id)
    requires Opening(start)
    ensures var s := Run(start, calls);
      SumBy(OnHandOf(part), s.inventory) ==
        SumBy(Volume(PurchaseIn, part), s.movements) + SumBy(Volume(AdjustmentIn, part), s.movements)
        - SumBy(Volume(AdjustmentOut, part), s.movements) - SumBy(Volume(JobConsume, part), s.movements)
  {
    OpeningInv(start);
    RunInv(start, calls);
    var s := Run(start, calls);
    assert PartConserved(s.inventory, s.movements, part);
    EffectByKind(s.movements, part);
  }

  /** A transfer keeps every part's total on-hand over all warehouses. */
  lemma {:induction false} TransferConserves(s: Ledger, part: Id, from: Id, to: Id, quantity: int, p: Id)
    requires TransferStock(s, part, from, to, quantity).Success?
    ensures SumBy(OnHandOf(p), TransferStock(s, part, from, to, quantity).value.inventory) ==
      SumBy(OnHandOf(p), s.inventory)
  {
    var ms := TransferMovements(s, part, from, to, quantity);
    TransferBooks(s, part, from, to, quantity);
    BookAllOnHand(s.inventory, ms, p);
    SumTwo(PartEffect(p), ms[0], ms[1]);
  }
}
