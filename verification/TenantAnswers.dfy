/** What every operation is answered and what it writes, told without the rewritten arguments: inside
    a workshop from the caller's own rows, outside from the table as it is. */
module TenantAnswers {
  import opened Wrappers
  import opened Sequences
  import opened Tenant
  import opened TenantProofs

  // ---- rows ----

  /** The rows that an operation is about: the caller's own that meet every other condition. */
  function Reaches(op: Operation, args: Args, u: string): Row -> bool {
    (r: Row) =>
      && Workshop(r) == Text(u)
      && (op.Update? || op.Delete? ==> r.id == args.id)
      && forall key :: key in args.where && key != WORKSHOP_ID ==> args.where[key](r)
  }

  function Unreached(op: Operation, args: Args, u: string): Row -> bool { (r: Row) => !Reaches(op, args, u)(r) }

  /** The columns of the row and, over them, those of the data. */
  function Overwritten(r: Row, data: Columns): Row {
    Row(r.id, map key | key in r.columns.Keys + data.Keys :: if key in data then data[key] else r.columns[key])
  }

  /** What a `select` leaves of a row. */
  ghost predicate IsSelection(select: Option<set<string>>, r: Row, shown: Row) {
    match select
    case None => shown == r
    case Some(names) =>
      && ("id" in names ==> shown.id == r.id)
      && (forall key :: key in shown.columns <==> key in r.columns && key in names)
      && forall key :: key in shown.columns ==> shown.columns[key] == r.columns[key]
  }

  ghost predicate Shows(select: Option<set<string>>, r: Row, answer: Answer) {
    answer.Found? && answer.row.Some? && IsSelection(select, r, answer.row.value)
  }

  /** The table with the reached rows overwritten. */
  ghost predicate Overwrites(p: Row -> bool, data: Columns, t: Table, after: Table) {
    && |after| == |t|
    && forall i :: 0 <= i < |t| ==> after[i] == if p(t[i]) then Overwritten(t[i], data) else t[i]
  }

  lemma {:induction false} ShownIsSelection(select: Option<set<string>>, r: Row)
    ensures IsSelection(select, r, Shown(select, r))
  {
  }

  lemma {:induction false} PatchOverwrites(p: Row -> bool, data: Columns, t: Table)
    ensures Overwrites(p, data, t, Patch(p, data, t))
  {
    PatchAt(p, data, t);
    forall r: Row ensures r.(columns := r.columns + data) == Overwritten(r, data) {
      assert r.columns + data == Overwritten(r, data).columns;
    }
  }

  lemma {:induction false} EraseIsKeep(p: Row -> bool, q: Row -> bool, t: Table)
    requires forall r :: r in t ==> q(r) == !p(r)
    ensures Erase(p, t) == Keep(q, t)
  {
    if t == [] {
    } else {
      EraseIsKeep(p, q, t[1..]);
    }
  }

  // ---- reads, updates and deletes ----

  predicate Selective(op: Operation) { !op.FindUnique? && !op.Create? && !op.CreateMany? }

  /** The selection that the database makes for a scoped operation. */
  function Selection(op: Operation, args: Args, u: string): Row -> bool {
    var where := Scoped(op, args, u).where;
    if op.Update? || op.Delete? then SelectsUnique(args.id, where) else Selects(where)
  }

  lemma {:induction false} SelectionReaches(op: Operation, args: Args, u: string, r: Row)
    requires Selective(op)
    ensures Selection(op, args, u)(r) <==> Reaches(op, args, u)(r)
  {
    var where := Scoped(op, args, u).where;
    assert WORKSHOP_ID in where && where[WORKSHOP_ID] == OwnedBy(u);
    assert forall key :: key in args.where && key != WORKSHOP_ID ==> key in where && where[key] == args.where[key];
    assert forall key :: key in where ==> key == WORKSHOP_ID || key in args.where;
  }

  ghost predicate AnsweredFrom(own: seq<Row>, op: Operation, args: Args, answer: Answer) {
    match op
    case FindMany => answer == Rows(args.arrange(own))
    case FindFirst => answer == Found(if args.arrange(own) == [] then None else Some(args.arrange(own)[0]))
    case Count => answer == Counted(|own|)
    case Aggregate => answer == Measured(args.measure(own))
    case GroupBy => answer == Grouped(args.collect(own))
    case Update =>
      if own == [] then answer == RecordNotFound
      else Shows(args.select, Overwritten(own[0], args.data), answer)
    case FindUnique => if own == [] then answer == Found(None) else Shows(args.select, own[0], answer)
    case Delete =>
      if own == [] then answer == RecordNotFound else Shows(args.select, own[0], answer)
    case _ => answer == Counted(|own|)
  }

  /** Reads, updates and deletes of a workshop are answered from its own rows that meet the other
      conditions; these rows, and no others, are overwritten or deleted. */
  lemma {:induction false} ScopedExact(t: Table, op: Operation, args: Args, u: string)
    requires Selective(op)
    ensures var (after, answer) := AsWorkshop(t, op, args, u);
      && AnsweredFrom(Keep(Reaches(op, args, u), t), op, args, answer)
      && (op in {FindMany, FindFirst, Count, Aggregate, GroupBy} ==> after == t)
      && (op.Update? || op.UpdateMany? ==> Overwrites(Reaches(op, args, u), args.data, t, after))
      && (op.Delete? || op.DeleteMany? ==> after == Keep(Unreached(op, args, u), t))
  {
    var p, q := Selection(op, args, u), Reaches(op, args, u);
    forall r ensures p(r) == q(r) {
      SelectionReaches(op, args, u, r);
    }
    var own := Keep(q, t);
    KeepSame(p, q, t);
    EraseIsKeep(p, Unreached(op, args, u), t);
    PatchOverwrites(p, args.data, t);
    PatchOverwrites(p, args.data, own);
    if own == [] {
      PatchNone(p, args.data, t);
      forall r | r in t ensures Unreached(op, args, u)(r) {
        KeepMember(q, t, r);
      }
      KeepAll(Unreached(op, args, u), t);
    } else {
      KeepMember(q, t, own[0]);
      ShownIsSelection(args.select, own[0]);
      ShownIsSelection(args.select, Overwritten(own[0], args.data));
    }
  }

  // ---- creates ----

  ghost predicate DistinctIds(t: Table) { forall i, j :: 0 <= i < j < |t| ==> t[i].id != t[j].id }

  lemma {:induction false} CollidesExact(t: Table, many: seq<Row>)
    requires DistinctIds(t)
    ensures Collides(t, many) <==> !DistinctIds(t + many)
  {
    var all := t + many;
    assert forall i :: 0 <= i < |t| ==> all[i] == t[i];
    assert forall i :: 0 <= i < |many| ==> all[|t| + i] == many[i];
    if i, j :| 0 <= i < j < |all| && all[i].id == all[j].id {
      assert j >= |t| && all[j] == many[j - |t|];
      assert i >= |t| ==> all[i] == many[i - |t|];
    }
  }

  /** The row stored for one that is asked for: the same, but owned by the caller. */
  ghost predicate IsStamped(u: string, asked: Row, stored: Row) {
    && stored.id == asked.id && Workshop(stored) == Text(u)
    && (forall key :: key in stored.columns <==> key in asked.columns || key == WORKSHOP_ID)
    && forall key :: key in asked.columns && key != WORKSHOP_ID ==> stored.columns[key] == asked.columns[key]
  }

  lemma {:induction false} InsertedIsStamped(op: Operation, args: Args, u: string)
    requires op.Create? || op.CreateMany?
    ensures |Inserted(op, args, u)| == |Asked(op, args)|
    ensures forall i :: 0 <= i < |Asked(op, args)| ==> IsStamped(u, Asked(op, args)[i], Inserted(op, args, u)[i])
  {
    StampAt(args.many, u);
  }

  ghost predicate Inserts(t: Table, op: Operation, args: Args, u: string, after: Table, answer: Answer)
    requires op.Create? || op.CreateMany?
  {
    var asked := Asked(op, args);
    if !DistinctIds(t + asked) then after == t && answer == UniqueViolation
    else
      && |after| == |t| + |asked| && t <= after
      && (forall i :: 0 <= i < |asked| ==> IsStamped(u, asked[i], after[|t| + i]))
      && if op.CreateMany? then answer == Counted(|asked|) else Shows(args.select, after[|t|], answer)
  }

  lemma {:induction false} AppendInserts(t: Table, op: Operation, args: Args, u: string)
    requires (op.Create? || op.CreateMany?) && DistinctIds(t + Asked(op, args))
    ensures var inserted := Inserted(op, args, u);
      Inserts(t, op, args, u, t + inserted,
              if op.Create? then One(args.select, inserted) else Counted(|inserted|))
  {
    var inserted := Inserted(op, args, u);
    InsertedIsStamped(op, args, u);
    assert forall i :: 0 <= i < |inserted| ==> (t + inserted)[|t| + i] == inserted[i];
    if op.Create? {
      ShownIsSelection(args.select, inserted[0]);
    }
  }

  /** A create is refused exactly when an id would occur twice; otherwise every row asked for is stored
      behind the others, stamped with the workshop. */
  lemma {:induction false} CreateExact(t: Table, op: Operation, args: Args, u: string)
    requires (op.Create? || op.CreateMany?) && DistinctIds(t)
    ensures Inserts(t, op, args, u, AsWorkshop(t, op, args, u).0, AsWorkshop(t, op, args, u).1)
  {
    InsertedFacts(t, op, args, u);
    CollidesExact(t, Asked(op, args));
    if DistinctIds(t + Asked(op, args)) {
      AppendInserts(t, op, args, u);
    }
  }

  // ---- the one lookup that runs unscoped ----

  /** A workshop column that names another workshop; an empty one names none. */
  predicate NamesAnother(v: Value, u: string) {
    match v
    case Null => false
    case Text(workshop) => workshop != "" && workshop != u
    case Number(n) => n != 0
  }

  /** `findUnique` answers the row it is asked for, whoever's it is, unless the answer itself shows that
      it belongs to another workshop. */
  lemma {:induction false} LookupExact(t: Table, args: Args, u: string)
    ensures var found := Keep(SelectsUnique(args.id, args.where), t);
      var (after, answer) := AsWorkshop(t, FindUnique, args, u);
      && after == t
      && if found == [] || (ShowsWorkshop(args) && NamesAnother(Workshop(found[0]), u)) then answer == Found(None)
         else Shows(args.select, found[0], answer)
  {
    var found := Keep(SelectsUnique(args.id, args.where), t);
    if found != [] {
      ShownIsSelection(args.select, found[0]);
    }
  }

  // ---- who is served how ----

  /** Inside a workshop being a platform admin makes no difference: on a scoped model everybody is served
      as the workshop. On any other model everybody works on the whole table. */
  lemma {:induction false} AdminsAreScopedToo(ctx: Context, store: Store, model: string, op: Operation, args: Args)
    requires HasWorkshop(ctx)
    ensures AllOperations(ctx, store, model, op, args) ==
      AllOperations(ctx.(isPlatformAdmin := false), store, model, op, args)
    ensures AllOperations(ctx, store, model, op, args) ==
      var t := TableOf(store, model);
      var (after, answer) := if model in TENANT_SCOPED_MODELS then AsWorkshop(t, op, args, ctx.workshopId.value)
                             else Query(t, op, args);
      (store[model := after], answer)
  {
  }

  /** The rows that an operation asks for, before anything is added to its conditions. */
  function Asks(op: Operation, args: Args): Row -> bool {
    (r: Row) => (op.FindUnique? ==> r.id == args.id) && forall key :: key in args.where ==> args.where[key](r)
  }

  /** What a scoped model answers outside any workshop, when it does not let the operation through. */
  predicate Unanswered(op: Operation, answer: Answer) {
    match op
    case FindMany => answer == Rows([])
    case FindFirst => answer == Rows([])
    case Count => answer == Counted(0)
    case Aggregate => answer == Measured(Number(0))
    case GroupBy => answer == Grouped([])
    case _ => answer == NoWorkshop
  }

  /** Outside any workshop a platform admin reads the whole table and everybody may look up a row by its
      id. Other reads see nothing, and every write is refused, an admin's as well; no table changes. */
  lemma {:induction false} OutsideExact(ctx: Context, store: Store, model: string, op: Operation, args: Args)
    requires !HasWorkshop(ctx) && model in TENANT_SCOPED_MODELS
    ensures var (after, answer) := AllOperations(ctx, store, model, op, args);
      && (forall m :: TableOf(after, m) == TableOf(store, m))
      && if op.FindUnique? || (ctx.isPlatformAdmin && op in {FindMany, FindFirst, Count, Aggregate, GroupBy})
         then AnsweredFrom(Keep(Asks(op, args), TableOf(store, model)), op, args, answer)
         else Unanswered(op, answer)
  {
    var found := Keep(Asks(op, args), TableOf(store, model));
    KeepSame(Asks(op, args), if op.FindUnique? then SelectsUnique(args.id, args.where) else Selects(args.where),
             TableOf(store, model));
    if found != [] {
      ShownIsSelection(args.select, found[0]);
    }
  }
}
