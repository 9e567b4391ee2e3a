/** What every call of the stock services keeps: inventory rows replay the movement log, reserved
    stock is accounted for job part by job part, and orders agree with the receipts that reference
    them. */
module StockProofs {
  import opened Wrappers
  import opened Sequences
  import opened StockLedger

  // ---- the meaning of a movement ----

  function OnHandChange(m: Movement): int {
    match m.kind
    case AdjustmentIn | TransferIn | PurchaseIn => m.quantity
    case AdjustmentOut | TransferOut | JobConsume => -m.quantity
    case JobReserve | JobReturn => 0
  }

  function ReservedChange(m: Movement): int {
    match m.kind
    case JobReserve => m.quantity
    case JobConsume | JobReturn => -m.quantity
    case _ => 0
  }

  function OnHandEffect(part: Id, warehouse: Id): Movement -> int {
    (m: Movement) => if m.part == part && m.warehouse == warehouse then OnHandChange(m) else 0
  }

  function ReservedEffect(part: Id, warehouse: Id): Movement -> int {
    (m: Movement) => if m.part == part && m.warehouse == warehouse then ReservedChange(m) else 0
  }

  /** A row after a movement is applied to it. */
  function Moved(r: StockRow, m: Movement): StockRow {
    var onHand, reserved := r.onHand + OnHandChange(m), r.reserved + ReservedChange(m);
    r.(onHand := onHand, reserved := reserved, available := onHand - reserved)
  }

  /** The rows after a movement is applied to the row of its pair, opened at zero if need be. */
  function Book(rows: seq<StockRow>, m: Movement): seq<StockRow> {
    OpenRowFinds(rows, m.part, m.warehouse);
    var open := OpenRow(rows, m.part, m.warehouse);
    var i := IndexWhere(AtPair(m.part, m.warehouse), open);
    open[i := Moved(open[i], m)]
  }

  function BookAll(rows: seq<StockRow>, ms: seq<Movement>): seq<StockRow>
    decreases ms
  {
    if ms == [] then rows else BookAll(Book(rows, ms[0]), ms[1..])
  }

  // ---- every accepted call is its movements, booked and logged ----

  ghost predicate Booked(s: Ledger, ms: seq<Movement>, next: Ledger) {
    next.inventory == BookAll(s.inventory, ms) && next.movements == s.movements + ms
  }

  function AdjustMovement(s: Ledger, part: Id, warehouse: Id, inward: bool, quantity: int): Movement {
    Movement(if inward then AdjustmentIn else AdjustmentOut, part, warehouse, quantity,
             ToInventoryRow(IndexWhere(AtPair(part, warehouse), OpenRow(s.inventory, part, warehouse))))
  }

  function TransferMovements(s: Ledger, part: Id, from: Id, to: Id, quantity: int): seq<Movement> {
    var source := IndexWhere(AtPair(part, from), s.inventory);
    var dest := IndexWhere(AtPair(part, to), OpenRow(s.inventory, part, to));
    [Movement(TransferOut, part, from, quantity, ToInventoryRow(dest)),
     Movement(TransferIn, part, to, quantity, ToInventoryRow(source))]
  }

  lemma {:induction false} BookTwo(rows: seq<StockRow>, m: Movement, m': Movement)
    ensures BookAll(rows, [m, m']) == Book(Book(rows, m), m')
  {
    assert [m, m'][1..] == [m'] && [m'][1..] == [];
    assert BookAll(Book(rows, m), [m']) == BookAll(Book(Book(rows, m), m'), []);
  }

  /** Debiting an existing row commutes with opening the destination row. */
  lemma {:induction false} DebitThenOpen(rows: seq<StockRow>, source: nat, debit: StockRow, part: Id, to: Id)
    requires source < |rows| && debit.part == rows[source].part && debit.warehouse == rows[source].warehouse
    ensures OpenRow(rows[source := debit], part, to) == OpenRow(rows, part, to)[source := debit]
    ensures IndexWhere(AtPair(part, to), OpenRow(rows, part, to)[source := debit]) ==
      IndexWhere(AtPair(part, to), OpenRow(rows, part, to))
  {
    IndexWhereUpdate(AtPair(part, to), rows, source, debit);
    IndexWhereUpdate(AtPair(part, to), OpenRow(rows, part, to), source, debit);
  }

  /** What the two postings of a transfer leave behind. */
  lemma {:induction false} TransferWrites(s: Ledger, part: Id, from: Id, to: Id, quantity: int)
    requires TransferStock(s, part, from, to, quantity).Success?
    ensures var next := TransferStock(s, part, from, to, quantity).value;
      var ms := TransferMovements(s, part, from, to, quantity);
      var source := IndexWhere(AtPair(part, from), s.inventory);
      var open := OpenRow(s.inventory, part, to);
      var dest := IndexWhere(AtPair(part, to), open);
      && from != to && source < |s.inventory| <= |open| && dest < |open| && source != dest
      && open[source] == s.inventory[source]
      && 1 <= quantity <= s.inventory[source].available
      && next == s.(inventory := open[source := Moved(open[source], ms[0])][dest := Moved(open[dest], ms[1])],
                    movements := s.movements + ms)
  {
    OpenRowFinds(s.inventory, part, to);
    var source := IndexWhere(AtPair(part, from), s.inventory);
    var open := OpenRow(s.inventory, part, to);
    var dest := IndexWhere(AtPair(part, to), open);
    var ms := TransferMovements(s, part, from, to, quantity);
    assert open[source := Moved(open[source], ms[0])][dest] == open[dest];
    assert s.movements + [ms[0]] + [ms[1]] == s.movements + ms;
  }

  function AvailableIn(rows: seq<StockRow>, part: Id, warehouse: Id): int {
    var i := IndexWhere(AtPair(part, warehouse), rows);
    if i < |rows| then rows[i].available else 0
  }

  ghost predicate HasRow(rows: seq<StockRow>, part: Id, warehouse: Id) {
    IndexWhere(AtPair(part, warehouse), rows) < |rows|
  }

  lemma {:induction false} BookTransfer(rows: seq<StockRow>, ms: seq<Movement>, part: Id, from: Id, to: Id)
    requires |ms| == 2 && from != to && HasRow(rows, part, from)
    requires ms[0].part == part && ms[0].warehouse == from && ms[1].part == part && ms[1].warehouse == to
    ensures var source, open := IndexWhere(AtPair(part, from), rows), OpenRow(rows, part, to);
      var dest := IndexWhere(AtPair(part, to), open);
      && source < |open| && dest < |open|
      && BookAll(rows, ms) == open[source := Moved(open[source], ms[0])][dest := Moved(open[dest], ms[1])]
  {
    var source, open := IndexWhere(AtPair(part, from), rows), OpenRow(rows, part, to);
    OpenRowFinds(rows, part, to);
    var dest := IndexWhere(AtPair(part, to), open);
    var debit := Moved(rows[source], ms[0]);
    DebitThenOpen(rows, source, debit, part, to);
    BookTwo(rows, ms[0], ms[1]);
    assert ms == [ms[0], ms[1]];
    assert open[source := debit][dest] == open[dest] && open[source] == rows[source];
  }

  lemma {:induction false} TransferBooks(s: Ledger, part: Id, from: Id, to: Id, quantity: int)
    requires TransferStock(s, part, from, to, quantity).Success?
    ensures var next := TransferStock(s, part, from, to, quantity).value;
      && Booked(s, TransferMovements(s, part, from, to, quantity), next)
      && next.jobParts == s.jobParts && next.items == s.items && next.orders == s.orders
    ensures from != to && 1 <= quantity <= AvailableIn(s.inventory, part, from) && HasRow(s.inventory, part, from)
  {
    TransferWrites(s, part, from, to, quantity);
    BookTransfer(s.inventory, TransferMovements(s, part, from, to, quantity), part, from, to);
  }

  function ReceiptMovement(s: Ledger, k: nat, quantity: int, warehouse: Id): Movement
    requires k < |s.items|
  {
    Movement(PurchaseIn, s.items[k].part, warehouse, quantity, ToPurchaseOrder(s.items[k].order))
  }

  /** The job part `k` after an accepted call, and the movement it posted, if any. */
  ghost predicate Settled(s: Ledger, k: nat, ms: seq<Movement>, next: Ledger) {
    && k < |s.jobParts| == |next.jobParts|
    && next.jobParts == s.jobParts[k := next.jobParts[k]]
    && next.items == s.items && next.orders == s.orders
    && Booked(s, ms, next)
  }

  function JobMovement(j: JobPart, kind: MovementKind, quantity: int): seq<Movement> {
    if j.part.None? || j.warehouse.None? then []
    else [Movement(kind, j.part.value, j.warehouse.value, quantity, ToJob(j.job))]
  }

  lemma {:induction false} ReserveBooks(s: Ledger, id: Id)
    requires ReserveExistingForJob(s, id).Success?
    ensures var k, next := IndexWhere(JobPartIs(id), s.jobParts), ReserveExistingForJob(s, id).value;
      && k < |s.jobParts|
      && Settled(s, k, JobMovement(s.jobParts[k], JobReserve, s.jobParts[k].quantity), next)
      && s.jobParts[k].status == Memo && s.jobParts[k].part.Some? && s.jobParts[k].warehouse.Some?
      && HasRow(s.inventory, s.jobParts[k].part.value, s.jobParts[k].warehouse.value)
      && s.jobParts[k].quantity <= AvailableIn(s.inventory, s.jobParts[k].part.value, s.jobParts[k].warehouse.value)
      && next.jobParts[k] == s.jobParts[k].(status := Reserved, moved := 0)
  {
  }

  lemma {:induction false} ConsumeBooks(s: Ledger, id: Id, quantity: Option<int>)
    requires ConsumeForJob(s, id, quantity).Success?
    ensures var k, next := IndexWhere(JobPartIs(id), s.jobParts), ConsumeForJob(s, id, quantity).value;
      && k < |s.jobParts|
      && var j := s.jobParts[k];
         var consumed := if quantity.Some? then quantity.value else j.quantity;
         && (j.status == Reserved || (j.status == Memo && j.source == AdHoc)) && consumed <= j.quantity
         && Settled(s, k, JobMovement(j, JobConsume, consumed), next)
         && next.jobParts[k] == j.(status := Used, moved := if j.part.Some? && j.warehouse.Some? then consumed else 0)
  {
  }

  lemma {:induction false} ReturnBooks(s: Ledger, id: Id, quantity: Option<int>)
    requires ReturnForJob(s, id, quantity).Success?
    ensures var k, next := IndexWhere(JobPartIs(id), s.jobParts), ReturnForJob(s, id, quantity).value;
      && k < |s.jobParts|
      && var j := s.jobParts[k];
         var returned := if quantity.Some? then quantity.value else j.quantity;
         && j.status == Reserved && j.part.Some? && j.warehouse.Some? && returned <= j.quantity
         && Settled(s, k, JobMovement(j, JobReturn, returned), next)
         && next.jobParts[k] == j.(status := Returned, moved := returned)
  {
  }

  lemma {:induction false} CancelBooks(s: Ledger, id: Id)
    requires CancelReservation(s, id).Success?
    ensures var k, next := IndexWhere(JobPartIs(id), s.jobParts), CancelReservation(s, id).value;
      && k < |s.jobParts|
      && var j := s.jobParts[k];
         && (j.status == Memo || j.status == Reserved)
         && Settled(s, k, if j.status == Memo then [] else JobMovement(j, JobReturn, j.quantity), next)
         && next.jobParts[k] == j.(status := Cancelled, moved := next.jobParts[k].moved)
         && (next.jobParts[k].moved == 0 || next.jobParts[k].moved == j.quantity)
  {
  }

  // ---- the invariant ----

  /** The row of a pair holds the folds of the log for that pair; a pair without a row folds to zero. */
  ghost predicate PairReplays(rows: seq<StockRow>, log: seq<Movement>, part: Id, warehouse: Id) {
    var i := IndexWhere(AtPair(part, warehouse), rows);
    var onHand, reserved := SumBy(OnHandEffect(part, warehouse), log), SumBy(ReservedEffect(part, warehouse), log);
    if i == |rows| then onHand == 0 && reserved == 0
    else rows[i].onHand == onHand && rows[i].reserved == reserved && rows[i].available == onHand - reserved
  }

  ghost predicate DistinctPairs(rows: seq<StockRow>) {
    forall i, j :: 0 <= i < j < |rows| ==> rows[i].part != rows[j].part || rows[i].warehouse != rows[j].warehouse
  }

  ghost predicate Replays(rows: seq<StockRow>, log: seq<Movement>) {
    DistinctPairs(rows) && forall p, w :: PairReplays(rows, log, p, w)
  }

  function OnHandOf(part: Id): StockRow -> int {
    (r: StockRow) => if r.part == part then r.onHand else 0
  }

  function PartEffect(part: Id): Movement -> int {
    (m: Movement) => if m.part == part then OnHandChange(m) else 0
  }

  function Volume(kind: MovementKind, part: Id): Movement -> int {
    (m: Movement) => if m.kind == kind && m.part == part then m.quantity else 0
  }

  ghost predicate PartConserved(rows: seq<StockRow>, log: seq<Movement>, part: Id) {
    && SumBy(OnHandOf(part), rows) == SumBy(PartEffect(part), log)
    && SumBy(Volume(TransferIn, part), log) == SumBy(Volume(TransferOut, part), log)
  }

  /** What a job part still holds back on a pair: its quantity while reserved, what was left over
      once used or returned, nothing as a memo or once cancelled. */
  function Outstanding(part: Id, warehouse: Id): JobPart -> int {
    (j: JobPart) =>
      if j.part != Some(part) || j.warehouse != Some(warehouse) then 0
      else match j.status
        case Memo | Cancelled => 0
        case Reserved => j.quantity
        case Used | Returned => j.quantity - j.moved
  }

  ghost predicate PairAccounted(log: seq<Movement>, parts: seq<JobPart>, part: Id, warehouse: Id) {
    SumBy(ReservedEffect(part, warehouse), log) == SumBy(Outstanding(part, warehouse), parts)
  }

  ghost predicate JobPartOk(rows: seq<StockRow>, j: JobPart) {
    && 1 <= j.quantity
    && j.moved <= j.quantity
    && (j.source == Catalog <==> j.part.Some?)
    && (j.status == Reserved ==> j.part.Some? && j.warehouse.Some? && HasRow(rows, j.part.value, j.warehouse.value))
  }

  ghost predicate JobPartsOk(rows: seq<StockRow>, parts: seq<JobPart>) {
    forall k :: 0 <= k < |parts| ==> JobPartOk(rows, parts[k])
  }

  function ReceivedFor(order: Id): OrderItem -> int {
    (i: OrderItem) => if i.order == order then i.received else 0
  }

  function PurchasesFor(order: Id): Movement -> int {
    (m: Movement) => if m.kind == PurchaseIn && m.reference == ToPurchaseOrder(order) then m.quantity else 0
  }

  ghost predicate OrderBalances(log: seq<Movement>, items: seq<OrderItem>, order: Id) {
    SumBy(ReceivedFor(order), items) == SumBy(PurchasesFor(order), log)
  }

  ghost predicate ItemsOk(items: seq<OrderItem>) {
    forall i :: 0 <= i < |items| ==> 0 <= items[i].received <= items[i].ordered && 1 <= items[i].ordered
  }

  ghost predicate Inv(s: Ledger) {
    && Replays(s.inventory, s.movements)
    && (forall p :: PartConserved(s.inventory, s.movements, p))
    && (forall p, w :: PairAccounted(s.movements, s.jobParts, p, w))
    && JobPartsOk(s.inventory, s.jobParts)
    && ItemsOk(s.items)
    && (forall o :: OrderBalances(s.movements, s.items, o))
  }

  // ---- one booked movement ----

  ghost predicate Grows(rows: seq<StockRow>, rows': seq<StockRow>) {
    && |rows| <= |rows'|
    && forall i :: 0 <= i < |rows| ==> rows'[i].part == rows[i].part && rows'[i].warehouse == rows[i].warehouse
  }

  lemma {:induction false} OpenReplays(rows: seq<StockRow>, log: seq<Movement>, part: Id, warehouse: Id)
    requires Replays(rows, log)
    ensures Replays(OpenRow(rows, part, warehouse), log)
  {
    IndexWhereFirst(AtPair(part, warehouse), rows);
    forall p, w ensures PairReplays(OpenRow(rows, part, warehouse), log, p, w) {
      assert PairReplays(rows, log, p, w);
      IndexWhereAppend(AtPair(p, w), rows, StockRow(part, warehouse, 0, 0, 0));
    }
  }

  lemma {:induction false} MovedReplays(rows: seq<StockRow>, log: seq<Movement>, i: nat, m: Movement)
    requires Replays(rows, log) && i < |rows| && m.part == rows[i].part && m.warehouse == rows[i].warehouse
    ensures Replays(rows[i := Moved(rows[i], m)], log + [m])
  {
    var rows', log' := rows[i := Moved(rows[i], m)], log + [m];
    forall p, w ensures PairReplays(rows', log', p, w) {
      assert PairReplays(rows, log, p, w);
      IndexWhereUpdate(AtPair(p, w), rows, i, Moved(rows[i], m));
      SumByAdd(OnHandEffect(p, w), log, m);
      SumByAdd(ReservedEffect(p, w), log, m);
      if p == m.part && w == m.warehouse {
        IndexWhereUnique(AtPair(p, w), rows, i);
      }
    }
  }

  lemma {:induction false} BookReplays(rows: seq<StockRow>, log: seq<Movement>, m: Movement)
    requires Replays(rows, log)
    ensures Replays(Book(rows, m), log + [m])
  {
    OpenRowFinds(rows, m.part, m.warehouse);
    OpenReplays(rows, log, m.part, m.warehouse);
    var open := OpenRow(rows, m.part, m.warehouse);
    MovedReplays(open, log, IndexWhere(AtPair(m.part, m.warehouse), open), m);
  }

  lemma {:induction false} BookGrows(rows: seq<StockRow>, m: Movement)
    ensures Grows(rows, Book(rows, m))
  {
    OpenRowFinds(rows, m.part, m.warehouse);
  }

  lemma {:induction false} BookOnHand(rows: seq<StockRow>, m: Movement, p: Id)
    ensures SumBy(OnHandOf(p), Book(rows, m)) == SumBy(OnHandOf(p), rows) + PartEffect(p)(m)
  {
    OpenRowFinds(rows, m.part, m.warehouse);
    SumByAdd(OnHandOf(p), rows, StockRow(m.part, m.warehouse, 0, 0, 0));
    var open := OpenRow(rows, m.part, m.warehouse);
    var i := IndexWhere(AtPair(m.part, m.warehouse), open);
    SumByUpdate(OnHandOf(p), open, i, Moved(open[i], m));
  }

  lemma {:induction false} BookAllReplays(rows: seq<StockRow>, log: seq<Movement>, ms: seq<Movement>)
    requires Replays(rows, log)
    ensures Replays(BookAll(rows, ms), log + ms)
    decreases ms
  {
    if ms == [] {
      assert log + ms == log;
    } else {
      var longer := log + [ms[0]];
      assert longer + ms[1..] == log + ms;
      BookReplays(rows, log, ms[0]);
      BookAllReplays(Book(rows, ms[0]), longer, ms[1..]);
    }
  }

  lemma {:induction false} BookAllGrows(rows: seq<StockRow>, ms: seq<Movement>)
    ensures Grows(rows, BookAll(rows, ms))
    decreases ms
  {
    if ms == [] {
    } else {
      BookGrows(rows, ms[0]);
      BookAllGrows(Book(rows, ms[0]), ms[1..]);
    }
  }

  lemma {:induction false} BookAllOnHand(rows: seq<StockRow>, ms: seq<Movement>, p: Id)
    ensures SumBy(OnHandOf(p), BookAll(rows, ms)) == SumBy(OnHandOf(p), rows) + SumBy(PartEffect(p), ms)
    decreases ms
  {
    if ms == [] {
    } else {
      BookOnHand(rows, ms[0], p);
      BookAllOnHand(Book(rows, ms[0]), ms[1..], p);
    }
  }

  lemma {:induction false} GrowsKeepsRow(rows: seq<StockRow>, rows': seq<StockRow>, part: Id, warehouse: Id)
    requires Grows(rows, rows') && HasRow(rows, part, warehouse)
    ensures HasRow(rows', part, warehouse)
  {
    var p := AtPair(part, warehouse);
    IndexWhereFirst(p, rows');
    assert p(rows'[IndexWhere(p, rows)]);
  }

  lemma {:induction false} GrowsKeepsParts(rows: seq<StockRow>, rows': seq<StockRow>, parts: seq<JobPart>)
    requires Grows(rows, rows') && JobPartsOk(rows, parts)
    ensures JobPartsOk(rows', parts)
  {
    forall k | 0 <= k < |parts| ensures JobPartOk(rows', parts[k]) {
      assert JobPartOk(rows, parts[k]);
      if parts[k].status == Reserved {
        GrowsKeepsRow(rows, rows', parts[k].part.value, parts[k].warehouse.value);
      }
    }
  }

  // ---- one accepted call ----

  ghost predicate PairMoves(s: Ledger, ms: seq<Movement>, next: Ledger, p: Id, w: Id) {
    SumBy(Outstanding(p, w), next.jobParts) == SumBy(Outstanding(p, w), s.jobParts) + SumBy(ReservedEffect(p, w), ms)
  }

  ghost predicate OrderMoves(s: Ledger, ms: seq<Movement>, next: Ledger, o: Id) {
    SumBy(ReceivedFor(o), next.items) == SumBy(ReceivedFor(o), s.items) + SumBy(PurchasesFor(o), ms)
  }

  /** The books of a step balance: transfers in pairs, reservations against job parts, purchases
      against items. */
  ghost predicate Balanced(s: Ledger, ms: seq<Movement>, next: Ledger) {
    && (forall p :: SumBy(Volume(TransferIn, p), ms) == SumBy(Volume(TransferOut, p), ms))
    && (forall p, w :: PairMoves(s, ms, next, p, w))
    && (forall o :: OrderMoves(s, ms, next, o))
    && JobPartsOk(s.inventory, next.jobParts)
    && ItemsOk(next.items)
  }

  lemma {:induction false} KeepsInv(s: Ledger, ms: seq<Movement>, next: Ledger)
    requires Inv(s) && Booked(s, ms, next) && Balanced(s, ms, next)
    ensures Inv(next)
  {
    BookAllReplays(s.inventory, s.movements, ms);
    BookAllGrows(s.inventory, ms);
    GrowsKeepsParts(s.inventory, next.inventory, next.jobParts);
    forall p ensures PartConserved(next.inventory, next.movements, p) {
      assert PartConserved(s.inventory, s.movements, p);
      BookAllOnHand(s.inventory, ms, p);
      SumByAppend(PartEffect(p), s.movements, ms);
      SumByAppend(Volume(TransferIn, p), s.movements, ms);
      SumByAppend(Volume(TransferOut, p), s.movements, ms);
    }
    forall p, w ensures PairAccounted(next.movements, next.jobParts, p, w) {
      assert PairAccounted(s.movements, s.jobParts, p, w) && PairMoves(s, ms, next, p, w);
      SumByAppend(ReservedEffect(p, w), s.movements, ms);
    }
    forall o ensures OrderBalances(next.movements, next.items, o) {
      assert OrderBalances(s.movements, s.items, o) && OrderMoves(s, ms, next, o);
      SumByAppend(PurchasesFor(o), s.movements, ms);
    }
  }

  /** A single movement that is neither a transfer, a reservation nor a purchase. */
  lemma {:induction false} OneMovementBalanced(s: Ledger, m: Movement, next: Ledger)
    requires Inv(s) && next.jobParts == s.jobParts && next.items == s.items
    requires m.kind == AdjustmentIn || m.kind == AdjustmentOut
    ensures Balanced(s, [m], next)
  {
    forall p ensures SumBy(Volume(TransferIn, p), [m]) == SumBy(Volume(TransferOut, p), [m]) {
    }
    forall p, w ensures PairMoves(s, [m], next, p, w) {
    }
    forall o ensures OrderMoves(s, [m], next, o) {
    }
  }

  lemma {:induction false} AdjustKeepsInv(s: Ledger, part: Id, warehouse: Id, inward: bool, quantity: int)
    requires Inv(s) && AdjustStock(s, part, warehouse, inward, quantity).Success?
    ensures Inv(AdjustStock(s, part, warehouse, inward, quantity).value)
  {
    var m, next := AdjustMovement(s, part, warehouse, inward, quantity),
      AdjustStock(s, part, warehouse, inward, quantity).value;
    OneMovementBalanced(s, m, next);
    KeepsInv(s, [m], next);
  }

  lemma {:induction false} SumTwo<T>(f: T -> int, x: T, y: T)
    ensures SumBy(f, [x, y]) == f(x) + f(y)
  {
    assert [x, y] == [x] + [y];
    SumByAdd(f, [x], y);
  }

  lemma {:induction false} TransferBalanced(s: Ledger, out: Movement, into: Movement, next: Ledger)
    requires Inv(s) && next.jobParts == s.jobParts && next.items == s.items
    requires out.kind == TransferOut && into.kind == TransferIn && out.part == into.part &&
      out.quantity == into.quantity
    ensures Balanced(s, [out, into], next)
  {
    forall p ensures SumBy(Volume(TransferIn, p), [out, into]) == SumBy(Volume(TransferOut, p), [out, into]) {
      SumTwo(Volume(TransferIn, p), out, into);
      SumTwo(Volume(TransferOut, p), out, into);
    }
    forall p, w ensures PairMoves(s, [out, into], next, p, w) {
      SumTwo(ReservedEffect(p, w), out, into);
    }
    forall o ensures OrderMoves(s, [out, into], next, o) {
      SumTwo(PurchasesFor(o), out, into);
    }
  }

  lemma {:induction false} TransferKeepsInv(s: Ledger, part: Id, from: Id, to: Id, quantity: int)
    requires Inv(s) && TransferStock(s, part, from, to, quantity).Success?
    ensures Inv(TransferStock(s, part, from, to, quantity).value)
  {
    var ms, next := TransferMovements(s, part, from, to, quantity), TransferStock(s, part, from, to, quantity).value;
    TransferBooks(s, part, from, to, quantity);
    TransferBalanced(s, ms[0], ms[1], next);
    KeepsInv(s, ms, next);
  }

  lemma {:induction false} ReceiptBalanced(s: Ledger, k: nat, m: Movement, next: Ledger)
    requires Inv(s) && k < |s.items| && next.jobParts == s.jobParts
    requires next.items == s.items[k := s.items[k].(received := s.items[k].received + m.quantity)]
    requires m.kind == PurchaseIn && m.reference == ToPurchaseOrder(s.items[k].order)
    requires 1 <= m.quantity && s.items[k].received + m.quantity <= s.items[k].ordered
    ensures Balanced(s, [m], next)
  {
    forall p ensures SumBy(Volume(TransferIn, p), [m]) == SumBy(Volume(TransferOut, p), [m]) {
    }
    forall p, w ensures PairMoves(s, [m], next, p, w) {
    }
    forall o ensures OrderMoves(s, [m], next, o) {
      SumByUpdate(ReceivedFor(o), s.items, k, next.items[k]);
    }
  }

  lemma {:induction false} ReceiptKeepsInv(s: Ledger, k: nat, o: nat, quantity: int, warehouse: Id)
    requires Inv(s) && k < |s.items| && o < |s.orders|
    requires 1 <= quantity && s.items[k].received + quantity <= s.items[k].ordered
    ensures Inv(Receipt(s, k, o, quantity, warehouse))
  {
    var m, next := ReceiptMovement(s, k, quantity, warehouse), Receipt(s, k, o, quantity, warehouse);
    ReceiptBalanced(s, k, m, next);
    KeepsInv(s, [m], next);
  }

  /** A settled job part: what it holds back changes by what the movement says. */
  lemma {:induction false} SettledKeepsInv(s: Ledger, k: nat, ms: seq<Movement>, next: Ledger)
    requires Inv(s) && Settled(s, k, ms, next) && JobPartOk(s.inventory, next.jobParts[k])
    requires |ms| <= 1
    requires |ms| == 1 ==> ms[0].kind == JobReserve || ms[0].kind == JobConsume || ms[0].kind == JobReturn
    requires forall p, w :: (Outstanding(p, w)(next.jobParts[k]) ==
                             Outstanding(p, w)(s.jobParts[k]) + (if ms == [] then 0 else ReservedEffect(p, w)(ms[0])))
    ensures Inv(next)
  {
    if ms != [] {
      assert ms == [ms[0]];
    }
    forall p ensures SumBy(Volume(TransferIn, p), ms) == SumBy(Volume(TransferOut, p), ms) {
    }
    forall p, w ensures PairMoves(s, ms, next, p, w) {
      SumByUpdate(Outstanding(p, w), s.jobParts, k, next.jobParts[k]);
    }
    forall o ensures OrderMoves(s, ms, next, o) {
    }
    KeepsInv(s, ms, next);
  }

  lemma {:induction false} ReserveKeepsInv(s: Ledger, id: Id)
    requires Inv(s) && ReserveExistingForJob(s, id).Success?
    ensures Inv(ReserveExistingForJob(s, id).value)
  {
    ReserveBooks(s, id);
    var k := IndexWhere(JobPartIs(id), s.jobParts);
    assert JobPartOk(s.inventory, s.jobParts[k]);
    SettledKeepsInv(s, k, JobMovement(s.jobParts[k], JobReserve, s.jobParts[k].quantity),
                    ReserveExistingForJob(s, id).value);
  }

  lemma {:induction false} ConsumeKeepsInv(s: Ledger, id: Id, quantity: Option<int>)
    requires Inv(s) && ConsumeForJob(s, id, quantity).Success?
    ensures Inv(ConsumeForJob(s, id, quantity).value)
  {
    ConsumeBooks(s, id, quantity);
    var k := IndexWhere(JobPartIs(id), s.jobParts);
    var j := s.jobParts[k];
    assert JobPartOk(s.inventory, j);
    SettledKeepsInv(s, k, JobMovement(j, JobConsume, if quantity.Some? then quantity.value else j.quantity),
                    ConsumeForJob(s, id, quantity).value);
  }

  lemma {:induction false} ReturnKeepsInv(s: Ledger, id: Id, quantity: Option<int>)
    requires Inv(s) && ReturnForJob(s, id, quantity).Success?
    ensures Inv(ReturnForJob(s, id, quantity).value)
  {
    ReturnBooks(s, id, quantity);
    var k := IndexWhere(JobPartIs(id), s.jobParts);
    var j := s.jobParts[k];
    assert JobPartOk(s.inventory, j);
    SettledKeepsInv(s, k, JobMovement(j, JobReturn, if quantity.Some? then quantity.value else j.quantity),
                    ReturnForJob(s, id, quantity).value);
  }

  lemma {:induction false} CancelKeepsInv(s: Ledger, id: Id)
    requires Inv(s) && CancelReservation(s, id).Success?
    ensures Inv(CancelReservation(s, id).value)
  {
    CancelBooks(s, id);
    var k := IndexWhere(JobPartIs(id), s.jobParts);
    var j := s.jobParts[k];
    assert JobPartOk(s.inventory, j);
    SettledKeepsInv(s, k, if j.status == Memo then [] else JobMovement(j, JobReturn, j.quantity),
                    CancelReservation(s, id).value);
  }

  lemma {:induction false} AddPartKeepsInv(s: Ledger, id: Id, job: Id, part: Option<Id>, warehouse: Option<Id>,
                                           quantity: int)
    requires Inv(s) && ReserveForJob(s, id, job, part, warehouse, quantity).Success?
    ensures Inv(ReserveForJob(s, id, job, part, warehouse, quantity).value)
  {
    var next := ReserveForJob(s, id, job, part, warehouse, quantity).value;
    var added := next.jobParts[|s.jobParts|];
    assert s.movements + [] == s.movements;
    forall p, w ensures PairMoves(s, [], next, p, w) {
      SumByAdd(Outstanding(p, w), s.jobParts, added);
    }
    KeepsInv(s, [], next);
  }

  lemma {:induction false} OrderedItemsStartEmpty(order: Id, items: seq<NewItem>)
    ensures |OrderedItems(order, items)| == |items|
    ensures forall i :: 0 <= i < |items| ==>
      OrderedItems(order, items)[i] ==
        OrderItem(items[i].id, order, items[i].part, items[i].ordered, 0, items[i].unitCost)
  {
    if items == [] {
    } else {
      OrderedItemsStartEmpty(order, items[1..]);
    }
  }

  lemma {:induction false} PlaceKeepsInv(s: Ledger, order: Id, items: seq<NewItem>)
    requires Inv(s) && CreateOrder(s, order, items).Success?
    ensures Inv(CreateOrder(s, order, items).value)
  {
    var next, added := CreateOrder(s, order, items).value, OrderedItems(order, items);
    OrderedItemsStartEmpty(order, items);
    assert s.movements + [] == s.movements;
    forall o ensures OrderMoves(s, [], next, o) {
      SumByAppend(ReceivedFor(o), s.items, added);
      SumByZero(ReceivedFor(o), added);
    }
    KeepsInv(s, [], next);
  }
}
