/** The Prisma extension that lets workshops share one store: every operation on a tenant-scoped
    model has its arguments rewritten before the query runs. */
module Tenant {
  import opened Wrappers
  import opened Sequences

  datatype Value = Null | Text(text: string) | Number(number: int)

  type Columns = map<string, Value>

  /** A row: its primary key and its other columns. */
  datatype Row = Row(id: string, columns: Columns)

  /** A `where` object: one condition per top-level key, all of which a row must meet. */
  type Where = map<string, Row -> bool>

  datatype Operation =
    | FindMany | FindFirst | Count | Aggregate | GroupBy | FindUnique
    | Create | CreateMany | Update | UpdateMany | Delete | DeleteMany

  /** `select` lists the columns that the answer shows, all of them when it is left out. `arrange`
      stands for orderBy, skip, take and the select of a list; `measure` and `collect` for the
      aggregation and grouping a query asks for. */
  datatype Args = Args(
    id: string, where: Where, data: Columns, many: seq<Row>, select: Option<set<string>>,
    arrange: seq<Row> -> seq<Row>, measure: seq<Row> -> Value, collect: seq<Row> -> seq<Value>)

  datatype Answer =
    | Rows(rows: seq<Row>)
    | Found(row: Option<Row>)
    | Counted(count: nat)
    | Measured(value: Value)
    | Grouped(groups: seq<Value>)
    | RecordNotFound
    | UniqueViolation
    | NoWorkshop

  datatype Context = Context(workshopId: Option<string>, isPlatformAdmin: bool)

  type Table = seq<Row>
  type Store = map<string, Table>

  const WORKSHOP_ID := "workshop_id"

  const TENANT_SCOPED_MODELS: set<string> := {
    "jobs", "job_concerns", "customer_portal_snapshots", "customers", "vehicles",
    "estimate_lines", "estimate_line_history", "quote_groups",
    "inspections", "inspection_sections", "inspection_items", "inspection_responses", "inspection_templates",
    "media_files", "deferred_work", "deferred_work_reminders", "notifications", "notification_templates",
    "audit_logs", "booking_import_templates", "settings", "labour_rates",
    "job_status_history", "vehicle_service_history", "approval_tokens", "authorisation_decisions",
    "integrations", "integration_events", "suppliers", "warehouses", "parts", "part_fitments",
    "inventory", "stock_movements", "job_parts", "purchase_orders", "purchase_order_items",
    "qc_checklists", "qc_checklist_sections", "qc_checklist_items", "qc_checklist_templates",
    "qc_checklist_responses"
  }

  predicate IsRead(op: Operation) {
    op.FindMany? || op.FindFirst? || op.Count? || op.Aggregate? || op.GroupBy?
  }

  function Workshop(r: Row): Value {
    if WORKSHOP_ID in r.columns then r.columns[WORKSHOP_ID] else Null
  }

  /** A workshop value that JavaScript counts as true. */
  predicate Truthy(v: Value) { v != Null && v != Text("") && v != Number(0) }

  function OwnedBy(workshop: string): Row -> bool { (r: Row) => Workshop(r) == Text(workshop) }

  predicate Matches(where: Where, r: Row) { forall key :: key in where ==> where[key](r) }

  function Selects(where: Where): Row -> bool { (r: Row) => Matches(where, r) }

  /** The row of a unique `where`: the given id, and every other condition. */
  function SelectsUnique(id: string, where: Where): Row -> bool { (r: Row) => r.id == id && Matches(where, r) }

  // ---- the database ----

  function Patch(p: Row -> bool, data: Columns, t: Table): Table {
    if t == [] then []
    else [if p(t[0]) then t[0].(columns := t[0].columns + data) else t[0]] + Patch(p, data, t[1..])
  }

  function Erase(p: Row -> bool, t: Table): Table {
    if t == [] then [] else if p(t[0]) then Erase(p, t[1..]) else [t[0]] + Erase(p, t[1..])
  }

  /** Inserting the rows would break the primary key. */
  predicate Collides(t: Table, many: seq<Row>) {
    || (exists i, j :: 0 <= i < j < |many| && many[i].id == many[j].id)
    || (exists i, j :: 0 <= i < |many| && 0 <= j < |t| && many[i].id == t[j].id)
  }

  /** The part of a row that a `select` shows. */
  function Shown(select: Option<set<string>>, r: Row): Row {
    if select.None? then r
    else Row(if "id" in select.value then r.id else "",
             map key | key in r.columns && key in select.value :: r.columns[key])
  }

  /** A single row, or none, as an answer. */
  function One(select: Option<set<string>>, rows: seq<Row>): Answer {
    Found(if rows == [] then None else Some(Shown(select, rows[0])))
  }

  function First(rows: seq<Row>): Option<Row> { if rows == [] then None else Some(rows[0]) }

  function Query(t: Table, op: Operation, args: Args): (Table, Answer) {
    var all := Selects(args.where);
    var unique := SelectsUnique(args.id, args.where);
    match op
    case FindMany => (t, Rows(args.arrange(Keep(all, t))))
    case FindFirst => (t, Found(First(args.arrange(Keep(all, t)))))
    case Count => (t, Counted(|Keep(all, t)|))
    case Aggregate => (t, Measured(args.measure(Keep(all, t))))
    case GroupBy => (t, Grouped(args.collect(Keep(all, t))))
    case FindUnique => (t, One(args.select, Keep(unique, t)))
    case Create =>
      if Collides(t, [Row(args.id, args.data)]) then (t, UniqueViolation)
      else (t + [Row(args.id, args.data)], One(args.select, [Row(args.id, args.data)]))
    case CreateMany =>
      if Collides(t, args.many) then (t, UniqueViolation) else (t + args.many, Counted(|args.many|))
    case Update =>
      if Keep(unique, t) == [] then (t, RecordNotFound)
      else (Patch(unique, args.data, t), One(args.select, Patch(unique, args.data, Keep(unique, t))))
    case UpdateMany => (Patch(all, args.data, t), Counted(|Keep(all, t)|))
    case Delete =>
      if Keep(unique, t) == [] then (t, RecordNotFound) else (Erase(unique, t), One(args.select, Keep(unique, t)))
    case DeleteMany => (Erase(all, t), Counted(|Keep(all, t)|))
  }

  // ---- the extension ----

  function Stamp(many: seq<Row>, workshop: string): seq<Row> {
    if many == [] then []
    else [many[0].(columns := many[0].columns[WORKSHOP_ID := Text(workshop)])] + Stamp(many[1..], workshop)
  }

  /** The rewritten arguments of an operation made by a workshop. */
  function Scoped(op: Operation, args: Args, workshop: string): Args {
    match op
    case FindUnique => args
    case Create => args.(data := args.data[WORKSHOP_ID := Text(workshop)])
    case CreateMany => args.(many := Stamp(args.many, workshop))
    case _ => args.(where := args.where[WORKSHOP_ID := OwnedBy(workshop)])
  }

  /** `findUnique` runs unscoped; a row that shows another workshop is hidden afterwards. */
  function Hide(answer: Answer, workshop: string): Answer {
    match answer
    case Found(Some(r)) => if Truthy(Workshop(r)) && Workshop(r) != Text(workshop) then Found(None) else answer
    case _ => answer
  }

  /** One operation on one table on behalf of a workshop. */
  function AsWorkshop(t: Table, op: Operation, args: Args, workshop: string): (Table, Answer) {
    var result := Query(t, op, Scoped(op, args, workshop));
    if op.FindUnique? then (result.0, Hide(result.1, workshop)) else result
  }

  /** Without a workshop reads see nothing and writes throw. */
  function Unserved(op: Operation): Answer {
    match op
    case Count => Counted(0)
    case Aggregate => Measured(Number(0))
    case GroupBy => Grouped([])
    case FindMany | FindFirst => Rows([])
    case _ => NoWorkshop
  }

  function TableOf(store: Store, model: string): Table { if model in store then store[model] else [] }

  predicate HasWorkshop(ctx: Context) { ctx.workshopId.Some? && ctx.workshopId.value != "" }

  /** The operations that reach the database exactly as they were asked: on a model that is not
      scoped, a platform admin's reads outside any workshop, and `findUnique` outside any workshop. */
  predicate PassesThrough(ctx: Context, model: string, op: Operation) {
    || model !in TENANT_SCOPED_MODELS
    || (!HasWorkshop(ctx) && ((ctx.isPlatformAdmin && IsRead(op)) || op.FindUnique?))
  }

  function AllOperations(ctx: Context, store: Store, model: string, op: Operation, args: Args): (Store, Answer) {
    if !PassesThrough(ctx, model, op) && !HasWorkshop(ctx) then (store, Unserved(op))
    else
      var t := TableOf(store, model);
      var result := if PassesThrough(ctx, model, op) then Query(t, op, args)
                    else AsWorkshop(t, op, args, ctx.workshopId.value);
      (store[model := result.0], result.1)
  }

  // ---- the extension as it runs ----

  /** The `args` object of an operation, which the extension overwrites in place. */
  class Arguments {
    const id: string
    var where: Where
    var data: Columns
    var many: seq<Row>
    const select: Option<set<string>>
    const arrange: seq<Row> -> seq<Row>
    const measure: seq<Row> -> Value
    const collect: seq<Row> -> seq<Value>

    constructor (args: Args)
      ensures Value() == args
    {
      id, where, data, many := args.id, args.where, args.data, args.many;
      select, arrange, measure, collect := args.select, args.arrange, args.measure, args.collect;
    }

    function Value(): Args
      reads this
    {
      Args(id, where, data, many, select, arrange, measure, collect)
    }
  }

  class Client {
    var store: Store

    constructor (store: Store)
      ensures this.store == store
    {
      this.store := store;
    }

    method RunQuery(model: string, op: Operation, args: Arguments) returns (answer: Answer)
      modifies this
      ensures (store, answer) ==
        var result := Query(TableOf(old(store), model), op, args.Value()); (old(store)[model := result.0], result.1)
    {
      var (table, found) := Query(TableOf(store, model), op, args.Value());
      store, answer := store[model := table], found;
    }

    method Intercept(ctx: Context, model: string, op: Operation, args: Arguments) returns (answer: Answer)
      modifies this, args
      ensures (store, answer) == AllOperations(ctx, old(store), model, op, old(args.Value()))
    {
      if model !in TENANT_SCOPED_MODELS {
        answer := RunQuery(model, op, args);
        return;
      }
      if ctx.isPlatformAdmin && !HasWorkshop(ctx) && (IsRead(op) || op.FindUnique?) {
        answer := RunQuery(model, op, args);
        return;
      }
      if !HasWorkshop(ctx) {
        if IsRead(op) {
          if op.Count? { return Counted(0); }
          if op.Aggregate? { return Measured(Number(0)); }
          if op.GroupBy? { return Grouped([]); }
          return Rows([]);
        }
        if op.FindUnique? {
          answer := RunQuery(model, op, args);
          return;
        }
        return NoWorkshop;
      }
      var workshopId := ctx.workshopId.value;
      if op.FindUnique? {
        answer := RunQuery(model, op, args);
        if answer.Found? && answer.row.Some? && Truthy(Workshop(answer.row.value))
           && Workshop(answer.row.value) != Text(workshopId) {
          answer := Found(None);
        }
        return;
      }
      if op.Create? {
        args.data := args.data[WORKSHOP_ID := Text(workshopId)];
      } else if op.CreateMany? {
        StampAll(args, workshopId);
      } else {
        args.where := args.where[WORKSHOP_ID := OwnedBy(workshopId)];
      }
      answer := RunQuery(model, op, args);
    }

    method StampAll(args: Arguments, workshopId: string)
      modifies args
      ensures args.Value() == old(args.Value()).(many := Stamp(old(args.many), workshopId))
    {
      var stamped, i := [], 0;
      while i < |args.many|
        invariant 0 <= i <= |args.many| && args.many == old(args.many)
        invariant args.Value() == old(args.Value())
        invariant stamped + Stamp(args.many[i..], workshopId) == Stamp(args.many, workshopId)
      {
        stamped := stamped + [args.many[i].(columns := args.many[i].columns[WORKSHOP_ID := Text(workshopId)])];
        i := i + 1;
      }
      args.many := stamped;
    }
  }
}
